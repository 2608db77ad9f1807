/** The node configuration and the text it renders to, read back through the loader. */
module NodeConfig {
  import opened Wrappers
  import opened Hocon
  import opened HoconLines
  import opened Sorting
  import Text

  /** What net/url and net/netip make of a URL: `loopbackAddr` says that the host is
      an IP address in a loopback range. */
  datatype Url = Url(scheme: string, hostname: string, port: string, loopbackAddr: bool)

  datatype Config = Config(
    listenAddr: string,
    registryID: string,
    pdpBaseURL: string,
    pdpURL: Option<Url>,
    natsURL: string,
    accountSeedFile: string,
    trustSeedFile: string,
    resolverDir: string,
    nodeDID: string,
    resolverBaseURL: string,
    registryBaseURLs: map<string, string>,
    vcStoreEndpoint: string,
    loopsBlock: string,
    allowLoopback: bool,
    allowPrivateNetworks: bool,
    extra: string,
    chainExtra: string,
    note: seq<string>)

  const BEARER_TOKEN := "e2e-dummy"

  /* ---- the plain-internal exception ---- */

  function Lower(c: char): char {
    if 'A' <= c <= 'Z' then (c as int + 32) as char else c
  }

  predicate EqualFold(a: string, b: string) {
    |a| == |b| && forall i | 0 <= i < |a| :: Lower(a[i]) == Lower(b[i])
  }

  function JoinHostPort(host: string, port: string): string {
    if ':' in host then "[" + host + "]:" + port else host + ":" + port
  }

  /** The host:port let through over plain http: a PDP on a non-loopback http host. */
  function PlainInternal(pdp: Option<Url>): Option<string> {
    if pdp.None? || pdp.value.scheme != "http" || pdp.value.hostname == "" then None
    else if EqualFold(pdp.value.hostname, "localhost") || pdp.value.loopbackAddr then None
    else Some(JoinHostPort(pdp.value.hostname, if pdp.value.port == "" then "80" else pdp.value.port))
  }

  /* ---- the rendered lines ---- */

  function Flag(b: bool): Value {
    Bare(if b then "true" else "false")
  }

  function Plain(key: string, pad: nat, value: Value): Field {
    Field(key, [key], pad, value)
  }

  function CoreFields(c: Config): seq<Field> {
    [Plain("listen-addr", 1, Str(c.listenAddr)),
     Plain("data-dir", 4, Str("./data")),
     Field("dev.allow-loopback", ["dev", "allow-loopback"], 5, Flag(c.allowLoopback)),
     Plain("allow-private-networks", 1, Flag(c.allowPrivateNetworks))]
  }

  function ClearText(): seq<Field> {
    [Field("tls.allow-cleartext", ["tls", "allow-cleartext"], 1, Flag(true))]
  }

  function CoreLines(c: Config): seq<Line> {
    [Opens(2, "core")] + (FieldLines(4, CoreFields(c)) + NoteLines(c.note) + FieldLines(4, ClearText())) + [Closes(2)]
  }

  /** The comment lines inside the core block; their words set nothing. */
  function NoteLines(note: seq<string>): seq<Line> {
    seq(|note|, i requires 0 <= i < |note| => Comment(4, note[i]))
  }

  function AuthFields(c: Config): seq<Field> {
    [Field("auth.policy-verifier-url", ["auth", "policy-verifier-url"], 1, Str(c.pdpBaseURL))]
    + match PlainInternal(c.pdpURL)
      case None => []
      case Some(target) => [Field("auth.plain-internal", ["auth", "plain-internal"], 1, StrList([target]))]
  }

  function ServiceEndpointLines(c: Config): seq<Line> {
    if c.vcStoreEndpoint == "" then []
    else
      [Opens(4, "service-endpoints")]
      + [Pair(6, "vc-resolver", "type", "VCResolver", "url", c.vcStoreEndpoint)]
      + [Closes(4)]
  }

  function RegistryLines(c: Config): seq<Line> {
    [Opens(2, "registry")]
    + (FieldLines(4, [Plain("id", 1, Str(c.registryID))]) + ServiceEndpointLines(c))
    + [Closes(2)]
  }

  function NatsFields(c: Config): seq<Field> {
    [Plain("url", 18, Str(c.natsURL)),
     Plain("account-seed-file", 4, Str(c.accountSeedFile)),
     Plain("trust-root-seed-file", 1, Str(c.trustSeedFile)),
     Plain("resolver-dir", 9, Str(c.resolverDir)),
     Plain("node-did", 13, Str(c.nodeDID)),
     Plain("resolver-base-url", 4, Str(c.resolverBaseURL))]
  }

  function UrlLine(c: Config, registry: string): Line
    requires registry in c.registryBaseURLs
  {
    Assigns(8, Quoted(registry), 1, Str(c.registryBaseURLs[registry]))
  }

  function UrlLinesOf(c: Config, registries: seq<string>): seq<Line>
    requires forall r | r in registries :: r in c.registryBaseURLs
  {
    seq(|registries|, i requires 0 <= i < |registries| => UrlLine(c, registries[i]))
  }

  ghost function Registries(c: Config): (rs: seq<string>)
    ensures Lists(rs, c.registryBaseURLs.Keys, Text.StrLeq)
  {
    Text.StringsOrdered();
    ListingExists(c.registryBaseURLs.Keys, Text.StrLeq);
    Listing(c.registryBaseURLs.Keys, Text.StrLeq)
  }

  ghost function RegistryUrlLines(c: Config): seq<Line> {
    if c.registryBaseURLs == map[] then []
    else [Opens(6, "registry-base-urls")] + UrlLinesOf(c, Registries(c)) + [Closes(6)]
  }

  function FragmentLines(fragment: string): seq<Line> {
    if fragment == "" then [] else [Verbatim(fragment)]
  }

  function EndpointLines(c: Config): seq<Line> {
    if c.vcStoreEndpoint == "" then []
    else FieldLines(4, [Plain("vc-store-endpoint", 1, Str(c.vcStoreEndpoint))])
  }

  function BearerLines(): seq<Line> {
    FieldLines(4, [Plain("vc-store-bearer", 3, Str(BEARER_TOKEN))])
  }

  function LoopLines(c: Config): seq<Line> {
    if c.loopsBlock == "" then [] else [Opens(4, "loops")] + [Verbatim(c.loopsBlock)] + [Closes(4)]
  }

  /** Everything up to the optional registry-base-urls block. */
  function HeadLines(c: Config): seq<Line> {
    [Opens(0, "provin.network")]
    + CoreLines(c)
    + FieldLines(2, AuthFields(c))
    + RegistryLines(c)
    + [Opens(2, "chain")]
    + FieldLines(4, [Plain("transport", 1, Str("nats"))])
    + [Opens(4, "nats")]
    + FieldLines(6, NatsFields(c))
  }

  ghost function ConfigLines(c: Config): seq<Line> {
    HeadLines(c)
    + RegistryUrlLines(c)
    + [Closes(4)]
    + FragmentLines(c.chainExtra)
    + [Closes(2), Opens(2, "pipeline")]
    + EndpointLines(c)
    + BearerLines()
    + LoopLines(c)
    + FragmentLines(c.extra)
    + [Closes(2), Closes(0)]
  }

  lemma AppendNothing(x: seq<Line>)
    ensures x + [] == x && [] + x == x
  {
  }

  lemma AppendTwice(x: seq<Line>, y: seq<Line>, z: seq<Line>)
    ensures x + y + z == x + (y + z)
  {
  }

  /** Written piece by piece; the map's keys come out of it sorted. */
  method Render(c: Config) returns (text: string)
    ensures text == Written(ConfigLines(c))
  {
    var b := new Builder();
    b.Append(HeadLines(c));
    AppendNothing(HeadLines(c));
    if c.registryBaseURLs != map[] {
      AppendRegistryUrls(b, c);
    } else {
      AppendNothing(b.lines);
    }
    b.Append([Closes(4)]);
    AppendFragment(b, c.chainExtra);
    b.Append([Closes(2), Opens(2, "pipeline")]);
    AppendPipelineSettings(b, c);
    AppendFragment(b, c.extra);
    b.Append([Closes(2), Closes(0)]);
    text := b.text;
  }

  method AppendPipelineSettings(b: Builder, c: Config)
    requires b.Valid()
    modifies b
    ensures b.Valid() && b.lines == old(b.lines) + EndpointLines(c) + BearerLines() + LoopLines(c)
  {
    if c.vcStoreEndpoint != "" {
      b.Append(EndpointLines(c));
    } else {
      AppendNothing(b.lines);
    }
    b.Append(BearerLines());
    if c.loopsBlock != "" {
      b.Append(LoopLines(c));
    } else {
      AppendNothing(b.lines);
    }
  }

  method AppendFragment(b: Builder, fragment: string)
    requires b.Valid()
    modifies b
    ensures b.Valid() && b.lines == old(b.lines) + FragmentLines(fragment)
  {
    if fragment != "" {
      b.Append([Verbatim(fragment)]);
    } else {
      AppendNothing(b.lines);
    }
  }

  method AppendRegistryUrls(b: Builder, c: Config)
    requires b.Valid() && c.registryBaseURLs != map[]
    modifies b
    ensures b.Valid() && b.lines == old(b.lines) + RegistryUrlLines(c)
  {
    var keys := Enumerate(c.registryBaseURLs.Keys);
    Text.StringsOrdered();
    var regs := Sort(keys, Text.StrLeq);
    SortedEnumeration(regs, keys, c.registryBaseURLs.Keys, Text.StrLeq);
    ListsUnique(regs, Registries(c), c.registryBaseURLs.Keys, Text.StrLeq);
    ghost var was, opening := b.lines, [Opens(6, "registry-base-urls")];
    b.Append([Opens(6, "registry-base-urls")]);
    AppendUrls(b, c, regs);
    b.Append([Closes(6)]);
    AppendTwice(was, opening, UrlLinesOf(c, regs));
    AppendTwice(was, opening + UrlLinesOf(c, regs), [Closes(6)]);
  }

  method AppendUrls(b: Builder, c: Config, regs: seq<string>)
    requires b.Valid()
    requires forall r | r in regs :: r in c.registryBaseURLs
    modifies b
    ensures b.Valid() && b.lines == old(b.lines) + UrlLinesOf(c, regs)
  {
    AppendNothing(b.lines);
    for i := 0 to |regs|
      invariant b.Valid()
      invariant b.lines == old(b.lines) + UrlLinesOf(c, regs[..i])
    {
      AppendTwice(old(b.lines), UrlLinesOf(c, regs[..i]), [UrlLine(c, regs[i])]);
      b.Append([UrlLine(c, regs[i])]);
      UrlLinesGrow(c, regs, i);
    }
    assert regs[..|regs|] == regs;
  }

  lemma UrlLinesGrow(c: Config, regs: seq<string>, i: nat)
    requires i < |regs| && forall r | r in regs :: r in c.registryBaseURLs
    ensures UrlLinesOf(c, regs[..i + 1]) == UrlLinesOf(c, regs[..i]) + [UrlLine(c, regs[i])]
  {
  }

  /* ---- what the configuration must set ---- */

  const NETWORK := ["provin", "network"]
  const CORE := ["provin", "network", "core"]
  const REGISTRY := ["provin", "network", "registry"]
  const CHAIN := ["provin", "network", "chain"]
  const NATS := ["provin", "network", "chain", "nats"]
  const PIPELINE := ["provin", "network", "pipeline"]

  function CoreSettings(c: Config): seq<Entry> {
    [Entry(["listen-addr"], Str(c.listenAddr)),
     Entry(["data-dir"], Str("./data")),
     Entry(["dev", "allow-loopback"], Flag(c.allowLoopback)),
     Entry(["allow-private-networks"], Flag(c.allowPrivateNetworks)),
     Entry(["tls", "allow-cleartext"], Flag(true))]
  }

  function AuthSettings(c: Config): seq<Entry> {
    [Entry(["auth", "policy-verifier-url"], Str(c.pdpBaseURL))]
    + match PlainInternal(c.pdpURL)
      case None => []
      case Some(target) => [Entry(["auth", "plain-internal"], StrList([target]))]
  }

  function RegistrySettings(c: Config): seq<Entry> {
    [Entry(["id"], Str(c.registryID))]
    + if c.vcStoreEndpoint == "" then []
      else
        [Entry(["service-endpoints", "vc-resolver", "type"], Str("VCResolver")),
         Entry(["service-endpoints", "vc-resolver", "url"], Str(c.vcStoreEndpoint))]
  }

  function NatsSettings(c: Config): seq<Entry> {
    [Entry(["url"], Str(c.natsURL)),
     Entry(["account-seed-file"], Str(c.accountSeedFile)),
     Entry(["trust-root-seed-file"], Str(c.trustSeedFile)),
     Entry(["resolver-dir"], Str(c.resolverDir)),
     Entry(["node-did"], Str(c.nodeDID)),
     Entry(["resolver-base-url"], Str(c.resolverBaseURL))]
  }

  /** One setting per registry, its id a single path element whatever dots it has. */
  ghost function RegistryUrlSettings(c: Config): seq<Entry> {
    var rs := Registries(c);
    seq(|rs|, i requires 0 <= i < |rs| => Entry(["registry-base-urls", rs[i]], Str(c.registryBaseURLs[rs[i]])))
  }

  function FragmentSettings(fragment: string): seq<Entry> {
    if fragment == "" || !WellFormed(fragment) then [] else Load(fragment).value
  }

  function EndpointSettings(c: Config): seq<Entry> {
    if c.vcStoreEndpoint == "" then [] else [Entry(["vc-store-endpoint"], Str(c.vcStoreEndpoint))]
  }

  function PipelineSettings(c: Config): seq<Entry> {
    EndpointSettings(c)
    + [Entry(["vc-store-bearer"], Str(BEARER_TOKEN))]
    + Prefixed(["loops"], FragmentSettings(c.loopsBlock))
    + FragmentSettings(c.extra)
  }

  /** Settings made at one place in the document, in the document's order. */
  datatype Section = Section(at: seq<string>, es: seq<Entry>)

  ghost function Sections(c: Config): seq<Section> {
    [Section(CORE, CoreSettings(c)),
     Section(NETWORK, AuthSettings(c)),
     Section(REGISTRY, RegistrySettings(c)),
     Section(CHAIN, [Entry(["transport"], Str("nats"))]),
     Section(NATS, NatsSettings(c)),
     Section(NATS, RegistryUrlSettings(c)),
     Section(CHAIN, FragmentSettings(c.chainExtra)),
     Section(PIPELINE, PipelineSettings(c))]
  }

  function Combined(sections: seq<Section>): seq<Entry> {
    if sections == [] then []
    else
      var last := sections[|sections| - 1];
      Combined(sections[..|sections| - 1]) + Prefixed(last.at, last.es)
  }

  ghost function Settings(c: Config): seq<Entry> {
    Combined(Sections(c))
  }

  lemma CombinedSnoc(sections: seq<Section>, last: Section)
    ensures Combined(sections + [last]) == Combined(sections) + Prefixed(last.at, last.es)
  {
    assert (sections + [last])[..|sections|] == sections;
  }

  lemma CombinedEight(s1: Section, s2: Section, s3: Section, s4: Section, s5: Section, s6: Section, s7: Section, s8: Section)
    ensures Combined([s1, s2, s3, s4, s5, s6, s7, s8])
         == Prefixed(s1.at, s1.es) + Prefixed(s2.at, s2.es) + Prefixed(s3.at, s3.es) + Prefixed(s4.at, s4.es)
          + Prefixed(s5.at, s5.es) + Prefixed(s6.at, s6.es) + Prefixed(s7.at, s7.es) + Prefixed(s8.at, s8.es)
  {
    CombinedSnoc([], s1);
    assert [] + Prefixed(s1.at, s1.es) == Prefixed(s1.at, s1.es) && [] + [s1] == [s1];
    CombinedSnoc([s1], s2);
    assert [s1] + [s2] == [s1, s2];
    CombinedSnoc([s1, s2], s3);
    assert [s1, s2] + [s3] == [s1, s2, s3];
    CombinedSnoc([s1, s2, s3], s4);
    assert [s1, s2, s3] + [s4] == [s1, s2, s3, s4];
    CombinedSnoc([s1, s2, s3, s4], s5);
    assert [s1, s2, s3, s4] + [s5] == [s1, s2, s3, s4, s5];
    CombinedSnoc([s1, s2, s3, s4, s5], s6);
    assert [s1, s2, s3, s4, s5] + [s6] == [s1, s2, s3, s4, s5, s6];
    CombinedSnoc([s1, s2, s3, s4, s5, s6], s7);
    assert [s1, s2, s3, s4, s5, s6] + [s7] == [s1, s2, s3, s4, s5, s6, s7];
    CombinedSnoc([s1, s2, s3, s4, s5, s6, s7], s8);
    assert [s1, s2, s3, s4, s5, s6, s7] + [s8] == [s1, s2, s3, s4, s5, s6, s7, s8];
  }

  /** Every string the configuration quotes. */
  ghost function QuotedStrings(c: Config): set<string> {
    {c.listenAddr, c.registryID, c.pdpBaseURL, c.natsURL, c.accountSeedFile, c.trustSeedFile, c.resolverDir,
     c.nodeDID, c.resolverBaseURL, c.vcStoreEndpoint}
    + c.registryBaseURLs.Keys + c.registryBaseURLs.Values
    + (match PlainInternal(c.pdpURL) case None => {} case Some(target) => {target})
  }

  ghost predicate AllRepresentable(c: Config) {
    forall v | v in QuotedStrings(c) :: Representable(v)
  }

  predicate FragmentsWellFormed(c: Config) {
    WellFormed(c.chainExtra) && WellFormed(c.loopsBlock) && WellFormed(c.extra)
  }

  /* ---- the round trip, block by block ---- */

  predicate OneLiners(note: seq<string>) {
    forall text | text in note :: '\n' !in text
  }

  lemma {:induction false} NoteSetsNothing(note: seq<string>)
    requires OneLiners(note)
    ensures Sets(NoteLines(note), [])
  {
    if note == [] {
      SetsNothing();
    } else {
      SetsComment(4, note[0]);
      NoteSetsNothing(note[1..]);
      SetsConcat([Comment(4, note[0])], [], NoteLines(note[1..]), []);
      assert [Comment(4, note[0])] + NoteLines(note[1..]) == NoteLines(note);
    }
  }

  lemma PlainReads(key: string, pad: nat, value: Value)
    requires PlainKey(key) && pad > 0 && (value.Str? ==> Representable(value.text)) && !value.StrList?
    requires value.Bare? ==> IsWord(value.word)
    ensures FieldReads(Plain(key, pad, value))
  {
  }

  lemma CoreKeys()
    ensures PlainKey("core") && PlainKey("listen-addr") && PlainKey("data-dir")
  {
  }

  lemma PrivateKey()
    ensures PlainKey("allow-private-networks")
  {
  }

  lemma CoreValues()
    ensures Representable("./data") && IsWord("true") && IsWord("false")
  {
  }

  lemma DottedLoopbackKey()
    ensures DottedKey("dev.allow-loopback", "dev", "allow-loopback")
  {
  }

  lemma DottedCleartextKey()
    ensures DottedKey("tls.allow-cleartext", "tls", "allow-cleartext")
  {
  }

  lemma DottedVerifierKey()
    ensures DottedKey("auth.policy-verifier-url", "auth", "policy-verifier-url")
  {
  }

  lemma DottedInternalKey()
    ensures DottedKey("auth.plain-internal", "auth", "plain-internal")
  {
  }

  lemma DottedNetworkKey()
    ensures DottedKey("provin.network", "provin", "network")
  {
  }

  lemma CoreFieldsRead(c: Config)
    requires Representable(c.listenAddr)
    ensures forall f | f in CoreFields(c) :: FieldReads(f)
    ensures forall f | f in ClearText() :: FieldReads(f)
  {
    CoreKeys();
    PrivateKey();
    CoreValues();
    DottedLoopbackKey();
    DottedCleartextKey();
    PlainReads("listen-addr", 1, Str(c.listenAddr));
    PlainReads("data-dir", 4, Str("./data"));
    PlainReads("allow-private-networks", 1, Flag(c.allowPrivateNetworks));
  }

  lemma CoreSets(c: Config)
    requires Representable(c.listenAddr) && OneLiners(c.note)
    ensures Sets(CoreLines(c), Prefixed(["core"], CoreSettings(c)))
  {
    CoreKeys();
    CoreFieldsRead(c);
    NoteSetsNothing(c.note);
    var lines, es := FieldLines(4, CoreFields(c)), FieldSettings(CoreFields(c));
    SetsFields(4, CoreFields(c));
    SetsFields(4, ClearText());
    SetsConcat(lines, es, NoteLines(c.note), []);
    SetsConcat(lines + NoteLines(c.note), es + [], FieldLines(4, ClearText()), FieldSettings(ClearText()));
    assert es + [] + FieldSettings(ClearText()) == CoreSettings(c);
    SetsPlainBlock(2, "core", lines + NoteLines(c.note) + FieldLines(4, ClearText()), CoreSettings(c));
  }

  lemma AuthSets(c: Config)
    requires Representable(c.pdpBaseURL)
    requires PlainInternal(c.pdpURL).Some? ==> Representable(PlainInternal(c.pdpURL).value)
    ensures Sets(FieldLines(2, AuthFields(c)), AuthSettings(c))
  {
    DottedVerifierKey();
    DottedInternalKey();
    SetsFields(2, AuthFields(c));
    assert FieldSettings(AuthFields(c)) == AuthSettings(c);
  }

  lemma RegistryKeys()
    ensures PlainKey("registry") && PlainKey("id")
  {
  }

  lemma ServiceKeys()
    ensures PlainKey("service-endpoints") && PlainKey("vc-resolver")
  {
  }

  lemma ResolverKeys()
    ensures PlainKey("type") && PlainKey("url") && Representable("VCResolver")
  {
  }

  lemma ServiceEndpointsSet(c: Config)
    requires Representable(c.vcStoreEndpoint) && c.vcStoreEndpoint != ""
    ensures Sets(ServiceEndpointLines(c), RegistrySettings(c)[1..])
  {
    ServiceKeys();
    ResolverKeys();
    SetsPlainPair(6, "vc-resolver", "type", "VCResolver", "url", c.vcStoreEndpoint);
    var es := [Entry(["vc-resolver", "type"], Str("VCResolver")), Entry(["vc-resolver", "url"], Str(c.vcStoreEndpoint))];
    SetsPlainBlock(4, "service-endpoints", [Pair(6, "vc-resolver", "type", "VCResolver", "url", c.vcStoreEndpoint)], es);
    assert ["service-endpoints"] + ["vc-resolver", "type"] == ["service-endpoints", "vc-resolver", "type"];
    assert ["service-endpoints"] + ["vc-resolver", "url"] == ["service-endpoints", "vc-resolver", "url"];
    assert Prefixed(["service-endpoints"], es) == RegistrySettings(c)[1..];
  }

  lemma RegistrySets(c: Config)
    requires Representable(c.registryID) && Representable(c.vcStoreEndpoint)
    ensures Sets(RegistryLines(c), Prefixed(["registry"], RegistrySettings(c)))
  {
    RegistryKeys();
    var id := [Plain("id", 1, Str(c.registryID))];
    PlainReads("id", 1, Str(c.registryID));
    SetsFields(4, id);
    if c.vcStoreEndpoint == "" {
      SetsNothing();
    } else {
      ServiceEndpointsSet(c);
    }
    var more := RegistrySettings(c)[1..];
    SetsConcat(FieldLines(4, id), FieldSettings(id), ServiceEndpointLines(c), more);
    assert FieldSettings(id) + more == RegistrySettings(c);
    SetsPlainBlock(2, "registry", FieldLines(4, id) + ServiceEndpointLines(c), RegistrySettings(c));
  }

  lemma NatsKeys()
    ensures PlainKey("url") && PlainKey("resolver-dir") && PlainKey("node-did")
  {
  }

  lemma SeedKeys()
    ensures PlainKey("account-seed-file") && PlainKey("trust-root-seed-file")
  {
  }

  lemma ResolverKey()
    ensures PlainKey("resolver-base-url")
  {
  }

  lemma NatsSets(c: Config)
    requires Representable(c.natsURL) && Representable(c.accountSeedFile) && Representable(c.trustSeedFile)
    requires Representable(c.resolverDir) && Representable(c.nodeDID) && Representable(c.resolverBaseURL)
    ensures Sets(FieldLines(6, NatsFields(c)), NatsSettings(c))
  {
    NatsKeys();
    SeedKeys();
    ResolverKey();
    PlainReads("url", 18, Str(c.natsURL));
    PlainReads("account-seed-file", 4, Str(c.accountSeedFile));
    PlainReads("trust-root-seed-file", 1, Str(c.trustSeedFile));
    PlainReads("resolver-dir", 9, Str(c.resolverDir));
    PlainReads("node-did", 13, Str(c.nodeDID));
    PlainReads("resolver-base-url", 4, Str(c.resolverBaseURL));
    SetsFields(6, NatsFields(c));
    assert FieldSettings(NatsFields(c)) == NatsSettings(c);
  }

  function UrlSettingsOf(c: Config, registries: seq<string>): seq<Entry>
    requires forall r | r in registries :: r in c.registryBaseURLs
  {
    seq(|registries|, i requires 0 <= i < |registries| => Entry([registries[i]], Str(c.registryBaseURLs[registries[i]])))
  }

  lemma {:induction false} UrlsSet(c: Config, registries: seq<string>)
    requires forall r | r in registries :: r in c.registryBaseURLs
    requires forall r | r in registries :: Representable(r) && Representable(c.registryBaseURLs[r])
    ensures Sets(UrlLinesOf(c, registries), UrlSettingsOf(c, registries))
  {
    if registries == [] {
      SetsNothing();
    } else {
      var front, last := registries[..|registries| - 1], registries[|registries| - 1];
      var url := Str(c.registryBaseURLs[last]);
      UrlsSet(c, front);
      SetsField(8, Quoted(last), 1, url);
      SetsConcat(UrlLinesOf(c, front), UrlSettingsOf(c, front), [UrlLine(c, last)], [Entry([last], url)]);
      assert UrlLinesOf(c, registries) == UrlLinesOf(c, front) + [UrlLine(c, last)];
      assert UrlSettingsOf(c, registries) == UrlSettingsOf(c, front) + [Entry([last], url)];
    }
  }

  lemma BaseUrlsKey()
    ensures PlainKey("registry-base-urls")
  {
  }

  lemma RegistryUrlsSet(c: Config)
    requires forall r | r in c.registryBaseURLs :: Representable(r) && Representable(c.registryBaseURLs[r])
    ensures Sets(RegistryUrlLines(c), RegistryUrlSettings(c))
  {
    var rs := Registries(c);
    if c.registryBaseURLs == map[] {
      SetsNothing();
      HasElement(rs);
    } else {
      UrlsSet(c, rs);
      BaseUrlsKey();
      SetsPlainBlock(6, "registry-base-urls", UrlLinesOf(c, rs), UrlSettingsOf(c, rs));
      UrlSettingsNested(c);
    }
  }

  lemma UrlSettingsNested(c: Config)
    ensures Prefixed(["registry-base-urls"], UrlSettingsOf(c, Registries(c))) == RegistryUrlSettings(c)
  {
    var rs := Registries(c);
    forall i | 0 <= i < |rs| ensures ["registry-base-urls"] + [rs[i]] == ["registry-base-urls", rs[i]] {
    }
  }

  lemma FragmentSets(fragment: string)
    requires WellFormed(fragment)
    ensures Sets(FragmentLines(fragment), FragmentSettings(fragment))
  {
    if fragment == "" {
      SetsNothing();
    } else {
      SetsVerbatim(fragment);
    }
  }

  lemma PipelineKeys()
    ensures PlainKey("pipeline") && PlainKey("loops") && Representable(BEARER_TOKEN)
  {
  }

  lemma StoreKeys()
    ensures PlainKey("vc-store-endpoint") && PlainKey("vc-store-bearer")
  {
  }

  lemma LoopsSet(c: Config)
    requires WellFormed(c.loopsBlock)
    ensures Sets(LoopLines(c), Prefixed(["loops"], FragmentSettings(c.loopsBlock)))
  {
    if c.loopsBlock == "" {
      SetsNothing();
    } else {
      PipelineKeys();
      SetsVerbatim(c.loopsBlock);
      SetsPlainBlock(4, "loops", [Verbatim(c.loopsBlock)], Load(c.loopsBlock).value);
    }
  }

  lemma EndpointSets(c: Config)
    requires Representable(c.vcStoreEndpoint)
    ensures Sets(EndpointLines(c), EndpointSettings(c))
  {
    StoreKeys();
    if c.vcStoreEndpoint == "" {
      SetsNothing();
    } else {
      var fields := [Plain("vc-store-endpoint", 1, Str(c.vcStoreEndpoint))];
      PlainReads("vc-store-endpoint", 1, Str(c.vcStoreEndpoint));
      SetsFields(4, fields);
      assert FieldSettings(fields) == EndpointSettings(c);
    }
  }

  lemma BearerSets()
    ensures Sets(BearerLines(), [Entry(["vc-store-bearer"], Str(BEARER_TOKEN))])
  {
    PipelineKeys();
    StoreKeys();
    var fields := [Plain("vc-store-bearer", 3, Str(BEARER_TOKEN))];
    PlainReads("vc-store-bearer", 3, Str(BEARER_TOKEN));
    SetsFields(4, fields);
    assert FieldSettings(fields) == [Entry(["vc-store-bearer"], Str(BEARER_TOKEN))];
  }

  lemma PipelineSets(c: Config)
    requires Representable(c.vcStoreEndpoint) && WellFormed(c.loopsBlock) && WellFormed(c.extra)
    ensures Sets(EndpointLines(c) + BearerLines() + LoopLines(c) + FragmentLines(c.extra), PipelineSettings(c))
  {
    EndpointSets(c);
    BearerSets();
    LoopsSet(c);
    FragmentSets(c.extra);
    var bearer := [Entry(["vc-store-bearer"], Str(BEARER_TOKEN))];
    var loops := Prefixed(["loops"], FragmentSettings(c.loopsBlock));
    SetsConcat(EndpointLines(c), EndpointSettings(c), BearerLines(), bearer);
    SetsConcat(EndpointLines(c) + BearerLines(), EndpointSettings(c) + bearer, LoopLines(c), loops);
    SetsConcat(EndpointLines(c) + BearerLines() + LoopLines(c), EndpointSettings(c) + bearer + loops,
               FragmentLines(c.extra), FragmentSettings(c.extra));
  }

  ghost function HeadSettings(c: Config): seq<Entry> {
    Prefixed(CORE, CoreSettings(c))
    + Prefixed(NETWORK, AuthSettings(c))
    + Prefixed(REGISTRY, RegistrySettings(c))
    + Prefixed(CHAIN, [Entry(["transport"], Str("nats"))])
    + Prefixed(NATS, NatsSettings(c))
  }

  lemma Paths()
    ensures Flat([NETWORK]) == NETWORK
    ensures Flat([NETWORK, ["chain"]]) == CHAIN && Flat([NETWORK, ["chain"], ["nats"]]) == NATS
    ensures Flat([NETWORK, ["pipeline"]]) == PIPELINE
    ensures NETWORK + ["core"] == CORE && NETWORK + ["registry"] == REGISTRY
  {
    FlatPush([], NETWORK);
    assert [] + NETWORK == NETWORK && [] + [NETWORK] == [NETWORK];
    FlatPush([NETWORK], ["chain"]);
    FlatPush([NETWORK], ["pipeline"]);
    assert [NETWORK] + [["chain"]] == [NETWORK, ["chain"]] && [NETWORK] + [["pipeline"]] == [NETWORK, ["pipeline"]];
    FlatPush([NETWORK, ["chain"]], ["nats"]);
    assert [NETWORK, ["chain"]] + [["nats"]] == [NETWORK, ["chain"], ["nats"]];
    assert NETWORK + ["chain"] == CHAIN && CHAIN + ["nats"] == NATS && NETWORK + ["pipeline"] == PIPELINE;
  }

  lemma FlatPush(blocks: seq<seq<string>>, path: seq<string>)
    ensures Flat(blocks + [path]) == Flat(blocks) + path
  {
    assert (blocks + [path])[..|blocks|] == blocks;
  }

  lemma ChainKeys()
    ensures PlainKey("chain") && PlainKey("nats") && PlainKey("transport") && IsWord("provin.network") && Representable("nats")
  {
  }

  /** The document down to the open nats block, for whatever its sections set. */
  lemma HeadReaches(core: seq<Line>, coreSets: seq<Entry>, auth: seq<Line>, authSets: seq<Entry>,
      registry: seq<Line>, registrySets: seq<Entry>, transport: seq<Line>, transportSets: seq<Entry>,
      nats: seq<Line>, natsSets: seq<Entry>)
    requires Sets(core, coreSets) && Sets(auth, authSets) && Sets(registry, registrySets)
    requires Sets(transport, transportSets) && Sets(nats, natsSets)
    ensures Reaches([Opens(0, "provin.network")] + core + auth + registry + [Opens(2, "chain")] + transport + [Opens(4, "nats")] + nats,
      Prefixed(NETWORK, coreSets) + Prefixed(NETWORK, authSets) + Prefixed(NETWORK, registrySets)
      + Prefixed(CHAIN, transportSets) + Prefixed(NATS, natsSets),
      [NETWORK, ["chain"], ["nats"]])
  {
    Paths();
    ChainKeys();
    DottedNetworkKey();
    ReachesStart(0, "provin.network", "provin", "network");
    var l0 := [Opens(0, "provin.network")];
    ReachesOn(l0, [], [NETWORK], NETWORK, core, coreSets);
    var l1, e1 := l0 + core, Prefixed(NETWORK, coreSets);
    assert [] + e1 == e1;
    ReachesOn(l1, e1, [NETWORK], NETWORK, auth, authSets);
    var l2, e2 := l1 + auth, e1 + Prefixed(NETWORK, authSets);
    ReachesOn(l2, e2, [NETWORK], NETWORK, registry, registrySets);
    var l3, e3 := l2 + registry, e2 + Prefixed(NETWORK, registrySets);
    ReachesOpen(l3, e3, [NETWORK], 2, "chain");
    assert [NETWORK] + [["chain"]] == [NETWORK, ["chain"]];
    var l4 := l3 + [Opens(2, "chain")];
    ReachesOn(l4, e3, [NETWORK, ["chain"]], CHAIN, transport, transportSets);
    var l5, e5 := l4 + transport, e3 + Prefixed(CHAIN, transportSets);
    ReachesOpen(l5, e5, [NETWORK, ["chain"]], 4, "nats");
    assert [NETWORK, ["chain"]] + [["nats"]] == [NETWORK, ["chain"], ["nats"]];
    ReachesOn(l5 + [Opens(4, "nats")], e5, [NETWORK, ["chain"], ["nats"]], NATS, nats, natsSets);
  }

  /** The rest of the document, from the open nats block to the end. */
  lemma TailReaches(head: seq<Line>, headSets: seq<Entry>, urls: seq<Line>, urlSets: seq<Entry>,
      chainExtra: seq<Line>, chainSets: seq<Entry>, pipeline: seq<Line>, pipelineSets: seq<Entry>)
    requires Reaches(head, headSets, [NETWORK, ["chain"], ["nats"]])
    requires Sets(urls, urlSets) && Sets(chainExtra, chainSets) && Sets(pipeline, pipelineSets)
    ensures Reaches(head + urls + [Closes(4)] + chainExtra + [Closes(2)] + [Opens(2, "pipeline")] + pipeline + [Closes(2)] + [Closes(0)],
      headSets + Prefixed(NATS, urlSets) + Prefixed(CHAIN, chainSets) + Prefixed(PIPELINE, pipelineSets), [])
  {
    Paths();
    PipelineKeys();
    ReachesOn(head, headSets, [NETWORK, ["chain"], ["nats"]], NATS, urls, urlSets);
    var l1, e1 := head + urls, headSets + Prefixed(NATS, urlSets);
    assert [NETWORK, ["chain"], ["nats"]] == [NETWORK, ["chain"]] + [["nats"]];
    ReachesClose(l1, e1, [NETWORK, ["chain"]], ["nats"], 4);
    var l2 := l1 + [Closes(4)];
    ReachesOn(l2, e1, [NETWORK, ["chain"]], CHAIN, chainExtra, chainSets);
    var l3, e3 := l2 + chainExtra, e1 + Prefixed(CHAIN, chainSets);
    assert [NETWORK, ["chain"]] == [NETWORK] + [["chain"]];
    ReachesClose(l3, e3, [NETWORK], ["chain"], 2);
    var l4 := l3 + [Closes(2)];
    ReachesOpen(l4, e3, [NETWORK], 2, "pipeline");
    var l5 := l4 + [Opens(2, "pipeline")];
    assert [NETWORK] + [["pipeline"]] == [NETWORK, ["pipeline"]];
    ReachesOn(l5, e3, [NETWORK, ["pipeline"]], PIPELINE, pipeline, pipelineSets);
    var l6, e6 := l5 + pipeline, e3 + Prefixed(PIPELINE, pipelineSets);
    ReachesClose(l6, e6, [NETWORK], ["pipeline"], 2);
    assert [NETWORK] == [] + [NETWORK];
    ReachesClose(l6 + [Closes(2)], e6, [], NETWORK, 0);
  }

  lemma TransportSets()
    ensures Sets(FieldLines(4, [Plain("transport", 1, Str("nats"))]), [Entry(["transport"], Str("nats"))])
  {
    ChainKeys();
    var transport := [Plain("transport", 1, Str("nats"))];
    PlainReads("transport", 1, Str("nats"));
    SetsFields(4, transport);
    assert FieldSettings(transport) == [Entry(["transport"], Str("nats"))];
  }

  lemma HeadSetsAll(c: Config)
    requires AllRepresentable(c) && OneLiners(c.note)
    ensures Reaches(HeadLines(c), HeadSettings(c), [NETWORK, ["chain"], ["nats"]])
  {
    Paths();
    ChainKeys();
    CoreSets(c);
    AuthSets(c);
    RegistrySets(c);
    var transport := [Plain("transport", 1, Str("nats"))];
    TransportSets();
    NatsSets(c);
    HeadReaches(CoreLines(c), Prefixed(["core"], CoreSettings(c)), FieldLines(2, AuthFields(c)), AuthSettings(c),
      RegistryLines(c), Prefixed(["registry"], RegistrySettings(c)),
      FieldLines(4, transport), [Entry(["transport"], Str("nats"))], FieldLines(6, NatsFields(c)), NatsSettings(c));
    PrefixedTwice(NETWORK, ["core"], CoreSettings(c));
    PrefixedTwice(NETWORK, ["registry"], RegistrySettings(c));
  }

  /** The tail of the printed lines, regrouped around the pipeline's settings. */
  lemma TailRegrouped(x: seq<Line>, a: seq<Line>, b: seq<Line>, d: seq<Line>, e: seq<Line>)
    ensures x + [Closes(2), Opens(2, "pipeline")] + a + b + d + e + [Closes(2), Closes(0)]
         == x + [Closes(2)] + [Opens(2, "pipeline")] + (a + b + d + e) + [Closes(2)] + [Closes(0)]
  {
  }

  /** The round trip: the loader finds in the rendered text every field at its path,
      in order, the fragments inside the blocks they belong to, and nothing else. */
  lemma RenderReadsBack(c: Config)
    requires AllRepresentable(c) && FragmentsWellFormed(c) && OneLiners(c.note)
    ensures Load(Written(ConfigLines(c))) == Some(Settings(c))
  {
    HeadSetsAll(c);
    forall r | r in c.registryBaseURLs ensures Representable(r) && Representable(c.registryBaseURLs[r]) {
      assert c.registryBaseURLs[r] in c.registryBaseURLs.Values;
    }
    RegistryUrlsSet(c);
    FragmentSets(c.chainExtra);
    PipelineSets(c);
    var a, b, d, e := EndpointLines(c), BearerLines(), LoopLines(c), FragmentLines(c.extra);
    TailReaches(HeadLines(c), HeadSettings(c), RegistryUrlLines(c), RegistryUrlSettings(c),
      FragmentLines(c.chainExtra), FragmentSettings(c.chainExtra), a + b + d + e, PipelineSettings(c));
    TailRegrouped(HeadLines(c) + RegistryUrlLines(c) + [Closes(4)] + FragmentLines(c.chainExtra), a, b, d, e);
    var ss := Sections(c);
    CombinedEight(ss[0], ss[1], ss[2], ss[3], ss[4], ss[5], ss[6], ss[7]);
    assert ss == [ss[0], ss[1], ss[2], ss[3], ss[4], ss[5], ss[6], ss[7]];
    ReachesLoads(ConfigLines(c), Settings(c));
  }

  lemma ReachesLoads(lines: seq<Line>, es: seq<Entry>)
    requires Reaches(lines, es, [])
    ensures Load(Written(lines)) == Some(es)
  {
    WrittenReadsBack(lines, []);
  }

  /* ---- reading one field ---- */

  /** One path is the other or leads into it: a setting at either replaces what the other held. */
  predicate Overlaps(p: seq<string>, q: seq<string>) {
    p <= q || q <= p
  }

  /** The value the loader gives at `path`: that of the last setting there, with nothing
      set later at, above or below it. */
  ghost predicate Finds(es: seq<Entry>, path: seq<string>, value: Value) {
    exists i | 0 <= i < |es| :: es[i] == Entry(path, value) && !Touched(es[i + 1..], path)
  }

  ghost predicate Touched(es: seq<Entry>, path: seq<string>) {
    exists e | e in es :: Overlaps(e.path, path)
  }

  /** No setting of the section is at `path`, above or below it. */
  ghost predicate Avoids(s: Section, path: seq<string>) {
    forall e | e in s.es :: !Overlaps(s.at + e.path, path)
  }

  lemma {:induction false} UnsetCombined(sections: seq<Section>, path: seq<string>)
    requires forall s | s in sections :: Avoids(s, path)
    ensures !Touched(Combined(sections), path)
  {
    if sections != [] {
      var last := sections[|sections| - 1];
      UnsetCombined(sections[..|sections| - 1], path);
      AvoidedUnset(last, path);
      UnsetConcat(Combined(sections[..|sections| - 1]), Prefixed(last.at, last.es), path);
    }
  }

  lemma AvoidedUnset(s: Section, path: seq<string>)
    requires Avoids(s, path)
    ensures !Touched(Prefixed(s.at, s.es), path)
  {
    forall e | e in Prefixed(s.at, s.es) ensures !Overlaps(e.path, path) {
      var i :| 0 <= i < |s.es| && Prefixed(s.at, s.es)[i] == e;
      assert s.es[i] in s.es;
    }
  }

  lemma UnsetConcat(a: seq<Entry>, b: seq<Entry>, path: seq<string>)
    ensures Touched(a + b, path) <==> Touched(a, path) || Touched(b, path)
  {
    assert forall e :: e in a + b <==> e in a || e in b;
  }

  lemma UnsetPrefixed(q: seq<string>, es: seq<Entry>, p: seq<string>)
    requires !Touched(es, p)
    ensures !Touched(Prefixed(q, es), q + p)
  {
    forall e | e in Prefixed(q, es) ensures !Overlaps(e.path, q + p) {
      var i :| 0 <= i < |es| && Prefixed(q, es)[i] == e;
      assert es[i] in es;
      SamePrefix(q, es[i].path, p);
    }
  }

  lemma SamePrefix(q: seq<string>, x: seq<string>, y: seq<string>)
    ensures Overlaps(q + x, q + y) <==> Overlaps(x, y)
  {
    PrefixUnder(q, x, y);
    PrefixUnder(q, y, x);
  }

  lemma PrefixUnder(q: seq<string>, x: seq<string>, y: seq<string>)
    ensures q + x <= q + y <==> x <= y
  {
    if q + x <= q + y {
      forall i | 0 <= i < |x| ensures x[i] == y[i] {
        assert x[i] == (q + x)[|q| + i] == (q + y)[|q| + i];
      }
    }
  }

  lemma FindsPrefixed(q: seq<string>, es: seq<Entry>, p: seq<string>, value: Value)
    requires Finds(es, p, value)
    ensures Finds(Prefixed(q, es), q + p, value)
  {
    var i :| 0 <= i < |es| && es[i] == Entry(p, value) && !Touched(es[i + 1..], p);
    var all := Prefixed(q, es);
    assert all[i] == Entry(q + p, value);
    assert all[i + 1..] == Prefixed(q, es[i + 1..]);
    UnsetPrefixed(q, es[i + 1..], p);
  }

  lemma FindsInFront(a: seq<Entry>, b: seq<Entry>, path: seq<string>, value: Value)
    requires Finds(a, path, value) && !Touched(b, path)
    ensures Finds(a + b, path, value)
  {
    var i :| 0 <= i < |a| && a[i] == Entry(path, value) && !Touched(a[i + 1..], path);
    assert (a + b)[i + 1..] == a[i + 1..] + b;
    assert (a + b)[i] == a[i];
  }

  lemma FindsBehind(a: seq<Entry>, b: seq<Entry>, path: seq<string>, value: Value)
    requires Finds(b, path, value)
    ensures Finds(a + b, path, value)
  {
    var i :| 0 <= i < |b| && b[i] == Entry(path, value) && !Touched(b[i + 1..], path);
    assert (a + b)[|a| + i + 1..] == b[i + 1..];
    assert (a + b)[|a| + i] == b[i];
  }

  /** A section's setting is found in the whole if no later section sets its path. */
  lemma {:induction false} FoundInSection(sections: seq<Section>, k: nat, p: seq<string>, value: Value)
    requires k < |sections| && Finds(sections[k].es, p, value)
    requires forall j | k < j < |sections| :: Avoids(sections[j], sections[k].at + p)
    ensures Finds(Combined(sections), sections[k].at + p, value)
  {
    var n := |sections| - 1;
    var front, last := sections[..n], sections[n];
    var path := sections[k].at + p;
    if k == n {
      FindsPrefixed(last.at, last.es, p, value);
      FindsBehind(Combined(front), Prefixed(last.at, last.es), path, value);
    } else {
      FoundInSection(front, k, p, value);
      UnsetCombined([last], path);
      CombinedSnoc([], last);
      assert [] + [last] == [last] && [] + Prefixed(last.at, last.es) == Prefixed(last.at, last.es);
      FindsInFront(Combined(front), Prefixed(last.at, last.es), path, value);
    }
  }

  /** Where the eight sections stand, whatever they hold. */
  ghost predicate Layout(ss: seq<Section>) {
    && |ss| == 8
    && |ss[0].at| == 3 && ss[0].at[2] == "core"
    && |ss[1].at| == 2 && (forall e | e in ss[1].es :: |e.path| == 2 && e.path[0] == "auth")
    && |ss[2].at| == 3 && ss[2].at[2] == "registry"
    && (forall j | 3 <= j < 7 :: |ss[j].at| >= 3 && ss[j].at[2] == "chain")
    && |ss[7].at| == 3 && ss[7].at[2] == "pipeline"
    && |ss[4].at| == 4 && ss[4].at[3] == "nats" && ss[5].at == ss[4].at && ss[6].at == ss[4].at[..3]
    && (forall e | e in ss[4].es :: |e.path| == 1 && e.path[0] != "registry-base-urls")
    && (forall e | e in ss[5].es :: |e.path| == 2 && e.path[0] == "registry-base-urls")
  }

  lemma NamesDiffer()
    ensures "core" !in ["auth", "registry", "chain", "pipeline"] && "auth" !in ["registry", "chain", "pipeline"]
    ensures "registry" !in ["chain", "pipeline"] && "chain" != "pipeline"
  {
  }

  lemma SectionContents(c: Config)
    ensures forall e | e in AuthSettings(c) :: |e.path| == 2 && e.path[0] == "auth"
    ensures forall e | e in NatsSettings(c) :: |e.path| == 1 && e.path[0] != "registry-base-urls"
    ensures forall e | e in RegistryUrlSettings(c) :: |e.path| == 2 && e.path[0] == "registry-base-urls"
  {
  }

  lemma LaidOut(a: seq<Entry>, b: seq<Entry>, d: seq<Entry>, e: seq<Entry>, f: seq<Entry>, g: seq<Entry>, h: seq<Entry>, i: seq<Entry>)
    requires forall x | x in b :: |x.path| == 2 && x.path[0] == "auth"
    requires forall x | x in f :: |x.path| == 1 && x.path[0] != "registry-base-urls"
    requires forall x | x in g :: |x.path| == 2 && x.path[0] == "registry-base-urls"
    ensures Layout([Section(CORE, a), Section(NETWORK, b), Section(REGISTRY, d), Section(CHAIN, e),
                    Section(NATS, f), Section(NATS, g), Section(CHAIN, h), Section(PIPELINE, i)])
  {
    assert NATS[..3] == CHAIN;
  }

  lemma SectionsLaidOut(c: Config)
    ensures Layout(Sections(c))
  {
    SectionContents(c);
    LaidOut(CoreSettings(c), AuthSettings(c), RegistrySettings(c), [Entry(["transport"], Str("nats"))],
      NatsSettings(c), RegistryUrlSettings(c), FragmentSettings(c.chainExtra), PipelineSettings(c));
  }

  /** A setting is lost to another at its own path, above it or below it. */
  lemma OverlapsAround(p: seq<string>, q: seq<string>)
    ensures Overlaps(p, p + q) && Overlaps(p + q, p)
  {
  }

  lemma DifferAt(p: seq<string>, q: seq<string>, i: nat)
    requires i < |p| && i < |q| && p[i] != q[i]
    ensures !Overlaps(p, q)
  {
  }

  /** Sections under differently named blocks of the network block do not meet. */
  lemma AvoidsOther(s: Section, path: seq<string>)
    requires |s.at| >= 3 && |path| >= 3 && s.at[2] != path[2]
    ensures Avoids(s, path)
  {
    forall e | e in s.es ensures !Overlaps(s.at + e.path, path) {
      DifferAt(s.at + e.path, path, 2);
    }
  }

  /** The first three sections and the last are read back whatever the fragments say. */
  lemma FoundOutsideChain(ss: seq<Section>, k: nat, p: seq<string>, value: Value)
    requires Layout(ss) && k in [0, 1, 2, 7] && Finds(ss[k].es, p, value)
    ensures Finds(Combined(ss), ss[k].at + p, value)
  {
    var path := ss[k].at + p;
    NamesDiffer();
    forall j | k < j < 8 ensures Avoids(ss[j], path) {
      if j == 1 {
        forall e | e in ss[1].es ensures !Overlaps(ss[1].at + e.path, path) {
          assert (ss[1].at + e.path)[2] == "auth" && path[2] == "core";
          DifferAt(ss[1].at + e.path, path, 2);
        }
      } else {
        assert k == 1 ==> |p| == 2 && path[2] == p[0] == "auth";
        AvoidsOther(ss[j], path);
      }
    }
    FoundInSection(ss, k, p, value);
  }

  /** So is the nats block, if the chain fragment leaves it alone. */
  lemma FoundInNats(ss: seq<Section>, k: nat, p: seq<string>, value: Value)
    requires Layout(ss) && k in [4, 5] && Finds(ss[k].es, p, value)
    requires forall e | e in ss[6].es :: e.path != [] && e.path[0] != "nats"
    ensures Finds(Combined(ss), ss[k].at + p, value)
  {
    var path := ss[k].at + p;
    NamesDiffer();
    assert path[2] == "chain" && path[3] == "nats";
    AvoidsOther(ss[7], path);
    forall e | e in ss[6].es ensures !Overlaps(ss[6].at + e.path, path) {
      DifferAt(ss[6].at + e.path, path, 3);
    }
    if k == 4 {
      assert |p| == 1 && p[0] != "registry-base-urls";
      forall e | e in ss[5].es ensures !Overlaps(ss[5].at + e.path, path) {
        DifferAt(ss[5].at + e.path, path, 4);
      }
    }
    FoundInSection(ss, k, p, value);
  }

  /** The chain fragment leaves the nats block alone. */
  ghost predicate SparesNats(c: Config) {
    forall e | e in FragmentSettings(c.chainExtra) :: e.path == [] || e.path[0] != "nats"
  }

  /** Fragments set nothing at the place they stand, only below it. */
  lemma FragmentPaths(fragment: string)
    ensures forall e | e in FragmentSettings(fragment) :: e.path != []
  {
    if fragment != "" && WellFormed(fragment) {
      LoadedPaths(fragment);
    }
  }

  lemma NatsFound(c: Config, p: seq<string>, value: Value)
    requires Finds(NatsSettings(c), p, value) && SparesNats(c)
    ensures Finds(Settings(c), NATS + p, value)
  {
    SectionsLaidOut(c);
    FragmentPaths(c.chainExtra);
    FoundInNats(Sections(c), 4, p, value);
  }

  /** A registry's URL is found under its id as one key, dots and all. */
  lemma RegistryUrlFound(c: Config, registry: string)
    requires registry in c.registryBaseURLs && SparesNats(c)
    ensures Finds(Settings(c), NATS + ["registry-base-urls", registry], Str(c.registryBaseURLs[registry]))
  {
    UrlSetOnce(c, registry);
    SectionsLaidOut(c);
    FragmentPaths(c.chainExtra);
    FoundInNats(Sections(c), 5, ["registry-base-urls", registry], Str(c.registryBaseURLs[registry]));
  }

  lemma UrlSetOnce(c: Config, registry: string)
    requires registry in c.registryBaseURLs
    ensures Finds(RegistryUrlSettings(c), ["registry-base-urls", registry], Str(c.registryBaseURLs[registry]))
  {
    var rs, es, p := Registries(c), RegistryUrlSettings(c), ["registry-base-urls", registry];
    assert registry in rs;
    var i :| 0 <= i < |rs| && rs[i] == registry;
    assert es[i] == Entry(p, Str(c.registryBaseURLs[registry]));
    UrlsDistinct(c);
    FindsDistinct(es, i);
  }

  lemma UrlsDistinct(c: Config)
    ensures DistinctPaths(RegistryUrlSettings(c))
  {
    var rs, es := Registries(c), RegistryUrlSettings(c);
    forall i, j | 0 <= i < j < |es| ensures !Overlaps(es[i].path, es[j].path) {
      assert es[i].path[1] == rs[i] && es[j].path[1] == rs[j];
      DifferAt(es[i].path, es[j].path, 1);
    }
  }

  ghost predicate DistinctPaths(es: seq<Entry>) {
    forall i, j | 0 <= i < j < |es| :: !Overlaps(es[i].path, es[j].path)
  }

  lemma FindsDistinct(es: seq<Entry>, i: nat)
    requires DistinctPaths(es) && i < |es|
    ensures Finds(es, es[i].path, es[i].value)
  {
    forall e | e in es[i + 1..] ensures !Overlaps(e.path, es[i].path) {
      var j :| 0 <= j < |es[i + 1..]| && es[i + 1..][j] == e;
      assert e == es[i + 1 + j];
    }
  }

  lemma CoreDistinct(c: Config)
    ensures DistinctPaths(CoreSettings(c))
  {
    var es := CoreSettings(c);
    forall i, j | 0 <= i < j < |es| ensures !Overlaps(es[i].path, es[j].path) {
      DifferAt(es[i].path, es[j].path, 0);
    }
  }

  lemma AuthDistinct(c: Config)
    ensures DistinctPaths(AuthSettings(c))
  {
    var es := AuthSettings(c);
    forall i, j | 0 <= i < j < |es| ensures !Overlaps(es[i].path, es[j].path) {
      DifferAt(es[i].path, es[j].path, 1);
    }
  }

  lemma RegistryDistinct(c: Config)
    ensures DistinctPaths(RegistrySettings(c))
  {
    var es := RegistrySettings(c);
    forall i, j | 0 <= i < j < |es| ensures !Overlaps(es[i].path, es[j].path) {
      DifferAt(es[i].path, es[j].path, if i == 0 then 0 else 2);
    }
  }

  lemma NatsDistinct(c: Config)
    ensures DistinctPaths(NatsSettings(c))
  {
    var es := NatsSettings(c);
    forall i, j | 0 <= i < j < |es| ensures !Overlaps(es[i].path, es[j].path) {
      DifferAt(es[i].path, es[j].path, 0);
    }
  }

  /** What the loader gives for a path of the rendered text. */
  ghost predicate Reads(text: string, path: seq<string>, value: Value) {
    Load(text).Some? && Finds(Load(text).value, path, value)
  }

  ghost predicate Renderable(c: Config) {
    AllRepresentable(c) && FragmentsWellFormed(c) && OneLiners(c.note)
  }

  lemma CoreReadsBack(c: Config)
    requires Renderable(c)
    ensures var text := Written(ConfigLines(c));
      && Reads(text, CORE + ["listen-addr"], Str(c.listenAddr))
      && Reads(text, CORE + ["data-dir"], Str("./data"))
      && Reads(text, CORE + ["dev", "allow-loopback"], Bare(if c.allowLoopback then "true" else "false"))
      && Reads(text, CORE + ["allow-private-networks"], Bare(if c.allowPrivateNetworks then "true" else "false"))
      && Reads(text, CORE + ["tls", "allow-cleartext"], Bare("true"))
  {
    forall i | 0 <= i < 5 ensures Reads(Written(ConfigLines(c)), CORE + CoreSettings(c)[i].path, CoreSettings(c)[i].value) {
      CoreSettingReads(c, i);
    }
    CoreEntries(c);
  }

  lemma CoreSettingReads(c: Config, i: nat)
    requires Renderable(c) && i < |CoreSettings(c)|
    ensures Reads(Written(ConfigLines(c)), CORE + CoreSettings(c)[i].path, CoreSettings(c)[i].value)
  {
    RenderReadsBack(c);
    CoreDistinct(c);
    FindsDistinct(CoreSettings(c), i);
    SectionsLaidOut(c);
    FoundOutsideChain(Sections(c), 0, CoreSettings(c)[i].path, CoreSettings(c)[i].value);
  }

  lemma CoreEntries(c: Config)
    ensures var es := CoreSettings(c);
      && es[0] == Entry(["listen-addr"], Str(c.listenAddr)) && es[1] == Entry(["data-dir"], Str("./data")) && es[2] == Entry(["dev", "allow-loopback"], Flag(c.allowLoopback))
      && es[3] == Entry(["allow-private-networks"], Flag(c.allowPrivateNetworks))
      && es[4] == Entry(["tls", "allow-cleartext"], Bare("true"))
  {
  }

  /** The name of the local host in any casing, letter by letter. */
  ghost predicate LocalhostSpelled(host: string) {
    |host| == 9 && forall i | 0 <= i < 9 :: host[i] == "localhost"[i] || host[i] == "LOCALHOST"[i]
  }

  lemma LocalhostFolds(host: string)
    ensures EqualFold(host, "localhost") <==> LocalhostSpelled(host)
  {
    forall i | 0 <= i < |host| == 9
      ensures Lower(host[i]) == Lower("localhost"[i]) <==> host[i] == "localhost"[i] || host[i] == "LOCALHOST"[i]
    {
      LetterFolds(host[i], i);
    }
  }

  lemma LetterFolds(letter: char, i: nat)
    requires i < 9
    ensures Lower(letter) == Lower("localhost"[i]) <==> letter == "localhost"[i] || letter == "LOCALHOST"[i]
  {
  }

  /** A PDP that needs the exception: plain http to a host that is not this one. */
  ghost predicate NeedsException(pdp: Option<Url>) {
    && pdp.Some? && pdp.value.scheme == "http" && pdp.value.hostname != ""
    && !LocalhostSpelled(pdp.value.hostname) && !pdp.value.loopbackAddr
  }

  /** From the fields of the URL to the loaded text: the exception names the host, in
      brackets if it has a colon, and the port, 80 if it has none; a PDP that needs no
      exception gets none. */
  ghost predicate ExceptsExactly(text: string, pdp: Option<Url>) {
    if NeedsException(pdp) then
      var host, port := pdp.value.hostname, pdp.value.port;
      && (':' !in host && port != "" ==> Excepts(text, host + ":" + port))
      && (':' !in host && port == "" ==> Excepts(text, host + ":80"))
      && (':' in host && port != "" ==> Excepts(text, "[" + host + "]:" + port))
      && (':' in host && port == "" ==> Excepts(text, "[" + host + "]:80"))
    else ExceptsNothing(text)
  }

  /** The verifier's URL always, and the exception exactly as its fields call for. */
  lemma AuthReadsBack(c: Config)
    requires Renderable(c)
    ensures Reads(Written(ConfigLines(c)), NETWORK + ["auth", "policy-verifier-url"], Str(c.pdpBaseURL))
    ensures ExceptsExactly(Written(ConfigLines(c)), c.pdpURL)
  {
    AuthSettingReads(c, 0);
    TargetExactly(c.pdpURL);
    ExceptionRead(c);
  }

  ghost predicate Excepts(text: string, target: string) {
    Reads(text, NETWORK + ["auth", "plain-internal"], StrList([target]))
  }

  ghost predicate ExceptsNothing(text: string) {
    Load(text).Some? && !Touched(Load(text).value, NETWORK + ["auth", "plain-internal"])
  }

  lemma ExceptionRead(c: Config)
    requires Renderable(c)
    ensures var text, target := Written(ConfigLines(c)), PlainInternal(c.pdpURL);
      if target.Some? then Excepts(text, target.value) else ExceptsNothing(text)
  {
    if PlainInternal(c.pdpURL).Some? {
      AuthSettingReads(c, 1);
    } else {
      NoException(c);
    }
  }

  lemma TargetExactly(pdp: Option<Url>)
    ensures NeedsException(pdp) <==> PlainInternal(pdp).Some?
    ensures NeedsException(pdp) ==>
      var host, port, target := pdp.value.hostname, pdp.value.port, PlainInternal(pdp).value;
      && (':' !in host && port != "" ==> target == host + ":" + port)
      && (':' !in host && port == "" ==> target == host + ":80")
      && (':' in host && port != "" ==> target == "[" + host + "]:" + port)
      && (':' in host && port == "" ==> target == "[" + host + "]:80")
  {
    if pdp.Some? {
      LocalhostFolds(pdp.value.hostname);
      DefaultPort(pdp.value.hostname);
    }
  }

  lemma DefaultPort(host: string)
    ensures host + ":" + "80" == host + ":80" && "[" + host + "]:" + "80" == "[" + host + "]:80"
  {
  }

  lemma AuthSettingReads(c: Config, i: nat)
    requires Renderable(c) && i < |AuthSettings(c)|
    ensures Reads(Written(ConfigLines(c)), NETWORK + AuthSettings(c)[i].path, AuthSettings(c)[i].value)
  {
    RenderReadsBack(c);
    AuthDistinct(c);
    FindsDistinct(AuthSettings(c), i);
    SectionsLaidOut(c);
    FoundOutsideChain(Sections(c), 1, AuthSettings(c)[i].path, AuthSettings(c)[i].value);
  }

  lemma NoException(c: Config)
    requires Renderable(c) && PlainInternal(c.pdpURL).None?
    ensures var text := Written(ConfigLines(c)); Load(text).Some? && !Touched(Load(text).value, NETWORK + ["auth", "plain-internal"])
  {
    RenderReadsBack(c);
    SectionsLaidOut(c);
    NotInAuth(c);
    UnsetOutside(Sections(c), 1, ["auth", "plain-internal"]);
  }

  lemma NotInAuth(c: Config)
    requires PlainInternal(c.pdpURL).None?
    ensures !Touched(AuthSettings(c), ["auth", "plain-internal"])
  {
    DifferAt(["auth", "policy-verifier-url"], ["auth", "plain-internal"], 1);
  }

  /** A path of the auth, registry or pipeline settings is touched nowhere else. */
  lemma UnsetOutside(ss: seq<Section>, k: nat, p: seq<string>)
    requires Layout(ss) && k in [1, 2, 7] && (k == 1 ==> |p| == 2 && p[0] == "auth") && !Touched(ss[k].es, p)
    ensures !Touched(Combined(ss), ss[k].at + p)
  {
    var path := ss[k].at + p;
    NamesDiffer();
    assert path[2] == if k == 1 then "auth" else if k == 2 then "registry" else "pipeline";
    forall j | 0 <= j < 8 ensures Avoids(ss[j], path) {
      if j == k {
        forall e | e in ss[k].es ensures !Overlaps(ss[k].at + e.path, path) {
          SamePrefix(ss[k].at, e.path, p);
        }
      } else if j == 1 {
        forall e | e in ss[1].es ensures !Overlaps(ss[1].at + e.path, path) {
          assert (ss[1].at + e.path)[2] == "auth";
          DifferAt(ss[1].at + e.path, path, 2);
        }
      } else {
        AvoidsOther(ss[j], path);
      }
    }
    UnsetCombined(ss, path);
  }

  lemma NothingAdvertised(c: Config)
    requires c.vcStoreEndpoint == ""
    ensures !Touched(RegistrySettings(c), ["service-endpoints"])
  {
    assert RegistrySettings(c) == [Entry(["id"], Str(c.registryID))];
    DifferAt(["id"], ["service-endpoints"], 0);
  }

  /** The registry id, and the advertised resolver of a node that stores credentials; a
      node that stores none advertises nothing. */
  lemma RegistryReadsBack(c: Config)
    requires Renderable(c)
    ensures var text := Written(ConfigLines(c));
      && Reads(text, REGISTRY + ["id"], Str(c.registryID))
      && if c.vcStoreEndpoint == "" then !Touched(Load(text).value, REGISTRY + ["service-endpoints"])
         else Reads(text, REGISTRY + ["service-endpoints", "vc-resolver", "type"], Str("VCResolver"))
              && Reads(text, REGISTRY + ["service-endpoints", "vc-resolver", "url"], Str(c.vcStoreEndpoint))
  {
    RegistrySettingReads(c, 0);
    if c.vcStoreEndpoint == "" {
      NoResolver(c);
    } else {
      RegistrySettingReads(c, 1);
      RegistrySettingReads(c, 2);
    }
  }

  lemma RegistrySettingReads(c: Config, i: nat)
    requires Renderable(c) && i < |RegistrySettings(c)|
    ensures Reads(Written(ConfigLines(c)), REGISTRY + RegistrySettings(c)[i].path, RegistrySettings(c)[i].value)
  {
    RenderReadsBack(c);
    RegistryDistinct(c);
    FindsDistinct(RegistrySettings(c), i);
    SectionsLaidOut(c);
    FoundOutsideChain(Sections(c), 2, RegistrySettings(c)[i].path, RegistrySettings(c)[i].value);
  }

  lemma NoResolver(c: Config)
    requires Renderable(c) && c.vcStoreEndpoint == ""
    ensures var text := Written(ConfigLines(c)); Load(text).Some? && !Touched(Load(text).value, REGISTRY + ["service-endpoints"])
  {
    RenderReadsBack(c);
    SectionsLaidOut(c);
    NothingAdvertised(c);
    UnsetOutside(Sections(c), 2, ["service-endpoints"]);
  }

  /** The connection settings and every registry URL, if the chain fragment does not override them. */
  lemma NatsReadsBack(c: Config)
    requires Renderable(c) && SparesNats(c)
    ensures var text := Written(ConfigLines(c));
      && Reads(text, NATS + ["url"], Str(c.natsURL))
      && Reads(text, NATS + ["account-seed-file"], Str(c.accountSeedFile))
      && Reads(text, NATS + ["trust-root-seed-file"], Str(c.trustSeedFile))
      && Reads(text, NATS + ["resolver-dir"], Str(c.resolverDir))
      && Reads(text, NATS + ["node-did"], Str(c.nodeDID))
      && Reads(text, NATS + ["resolver-base-url"], Str(c.resolverBaseURL))
      && forall r | r in c.registryBaseURLs :: Reads(text, NATS + ["registry-base-urls", r], Str(c.registryBaseURLs[r]))
  {
    RenderReadsBack(c);
    NatsDistinct(c);
    forall i | 0 <= i < 6 ensures Finds(Settings(c), NATS + NatsSettings(c)[i].path, NatsSettings(c)[i].value) {
      FindsDistinct(NatsSettings(c), i);
      NatsFound(c, NatsSettings(c)[i].path, NatsSettings(c)[i].value);
    }
    NatsEntries(c);
    forall r | r in c.registryBaseURLs ensures Finds(Settings(c), NATS + ["registry-base-urls", r], Str(c.registryBaseURLs[r])) {
      RegistryUrlFound(c, r);
    }
  }

  lemma NatsEntries(c: Config)
    ensures var es := NatsSettings(c);
      && es[0] == Entry(["url"], Str(c.natsURL)) && es[1] == Entry(["account-seed-file"], Str(c.accountSeedFile))
      && es[2] == Entry(["trust-root-seed-file"], Str(c.trustSeedFile)) && es[3] == Entry(["resolver-dir"], Str(c.resolverDir))
      && es[4] == Entry(["node-did"], Str(c.nodeDID)) && es[5] == Entry(["resolver-base-url"], Str(c.resolverBaseURL))
  {
  }

  /** The chain fragment leaves the transport alone. */
  ghost predicate SparesTransport(c: Config) {
    forall e | e in FragmentSettings(c.chainExtra) :: e.path == [] || e.path[0] != "transport"
  }

  lemma TransportReadsBack(c: Config)
    requires Renderable(c) && SparesTransport(c)
    ensures Reads(Written(ConfigLines(c)), CHAIN + ["transport"], Str("nats"))
  {
    RenderReadsBack(c);
    SectionsLaidOut(c);
    FragmentPaths(c.chainExtra);
    FoundTransport(Sections(c), Str("nats"));
  }

  lemma FoundTransport(ss: seq<Section>, value: Value)
    requires Layout(ss) && |ss[3].at| == 3 && ss[3].es == [Entry(["transport"], value)]
    requires forall e | e in ss[6].es :: e.path != [] && e.path[0] != "transport"
    ensures Finds(Combined(ss), ss[3].at + ["transport"], value)
  {
    var path := ss[3].at + ["transport"];
    NamesDiffer();
    assert "transport" != "nats";
    forall j | 3 < j < 8 ensures Avoids(ss[j], path) {
      if j == 7 {
        AvoidsOther(ss[7], path);
      } else {
        BesideTransport(ss[j], path, j);
      }
    }
    assert Finds(ss[3].es, ["transport"], value) by {
      assert ss[3].es[0] == Entry(["transport"], value) && ss[3].es[1..] == [];
    }
    FoundInSection(ss, 3, ["transport"], value);
  }

  lemma BesideTransport(s: Section, path: seq<string>, j: nat)
    requires |path| == 4 && path[3] == "transport"
    requires (|s.at| == 4 && s.at[3] == "nats")
          || (|s.at| == 3 && forall e | e in s.es :: e.path != [] && e.path[0] != "transport")
    ensures Avoids(s, path)
  {
    forall e | e in s.es ensures !Overlaps(s.at + e.path, path) {
      DifferAt(s.at + e.path, path, 3);
    }
  }

  /** The verbatim pipeline fragment leaves the credential store's two settings alone. */
  ghost predicate SparesStore(c: Config) {
    forall e | e in FragmentSettings(c.extra) :: e.path == [] || e.path[0] !in ["vc-store-endpoint", "vc-store-bearer"]
  }

  /** The bearer token is always set, the store's endpoint when there is one. */
  lemma StoreReadsBack(c: Config)
    requires Renderable(c) && SparesStore(c)
    ensures var text := Written(ConfigLines(c));
      && Reads(text, PIPELINE + ["vc-store-bearer"], Str("e2e-dummy"))
      && if c.vcStoreEndpoint == "" then !Touched(Load(text).value, PIPELINE + ["vc-store-endpoint"])
         else Reads(text, PIPELINE + ["vc-store-endpoint"], Str(c.vcStoreEndpoint))
  {
    RenderReadsBack(c);
    SectionsLaidOut(c);
    StoreSettingsFound(c);
    FoundOutsideChain(Sections(c), 7, ["vc-store-bearer"], Str("e2e-dummy"));
    if c.vcStoreEndpoint == "" {
      UnsetOutside(Sections(c), 7, ["vc-store-endpoint"]);
    } else {
      FoundOutsideChain(Sections(c), 7, ["vc-store-endpoint"], Str(c.vcStoreEndpoint));
    }
  }

  lemma StoreSettingsFound(c: Config)
    requires SparesStore(c)
    ensures Finds(PipelineSettings(c), ["vc-store-bearer"], Str("e2e-dummy"))
    ensures if c.vcStoreEndpoint == "" then !Touched(PipelineSettings(c), ["vc-store-endpoint"])
            else Finds(PipelineSettings(c), ["vc-store-endpoint"], Str(c.vcStoreEndpoint))
  {
    var bearer := Entry(["vc-store-bearer"], Str(BEARER_TOKEN));
    var loops, extra := Prefixed(["loops"], FragmentSettings(c.loopsBlock)), FragmentSettings(c.extra);
    FragmentPaths(c.extra);
    StoreSpared(c, loops + extra);
    StoreFound(EndpointSettings(c), bearer, loops + extra);
    Grouped(EndpointSettings(c), [bearer], loops, extra);
  }

  lemma Grouped(a: seq<Entry>, b: seq<Entry>, c: seq<Entry>, d: seq<Entry>)
    ensures a + b + c + d == a + (b + (c + d))
  {
  }

  lemma StoreSpared(c: Config, rest: seq<Entry>)
    requires SparesStore(c) && rest == Prefixed(["loops"], FragmentSettings(c.loopsBlock)) + FragmentSettings(c.extra)
    requires forall e | e in FragmentSettings(c.extra) :: e.path != []
    ensures forall e | e in rest :: e.path != [] && e.path[0] !in ["vc-store-endpoint", "vc-store-bearer"]
  {
    forall e | e in Prefixed(["loops"], FragmentSettings(c.loopsBlock)) ensures e.path != [] && e.path[0] == "loops" {
    }
    assert "loops" !in ["vc-store-endpoint", "vc-store-bearer"];
  }

  lemma StoreFound(endpoint: seq<Entry>, bearer: Entry, rest: seq<Entry>)
    requires bearer.path == ["vc-store-bearer"] && |endpoint| <= 1
    requires forall e | e in endpoint :: e.path == ["vc-store-endpoint"]
    requires forall e | e in rest :: e.path != [] && e.path[0] !in ["vc-store-endpoint", "vc-store-bearer"]
    ensures Finds(endpoint + ([bearer] + rest), ["vc-store-bearer"], bearer.value)
    ensures if endpoint == [] then !Touched(endpoint + ([bearer] + rest), ["vc-store-endpoint"])
            else Finds(endpoint + ([bearer] + rest), ["vc-store-endpoint"], endpoint[0].value)
  {
    var es := endpoint + ([bearer] + rest);
    assert "vc-store-bearer" != "vc-store-endpoint";
    forall e | e in [bearer] + rest ensures !Overlaps(e.path, ["vc-store-endpoint"]) {
      DifferAt(e.path, ["vc-store-endpoint"], 0);
    }
    forall e | e in rest ensures !Overlaps(e.path, ["vc-store-bearer"]) {
      DifferAt(e.path, ["vc-store-bearer"], 0);
    }
    assert es[|endpoint|] == bearer && es[|endpoint| + 1..] == rest;
    if endpoint != [] {
      assert endpoint[0] in endpoint;
      assert es[0] == Entry(["vc-store-endpoint"], endpoint[0].value) && es[1..] == [bearer] + rest;
    }
  }

  /** An opening of an optional block, or the text of a fragment that is not there. */
  predicate Optional(line: Line) {
    || line == Opens(4, "service-endpoints") || line == Opens(6, "registry-base-urls")
    || line == Opens(4, "loops") || line == Verbatim("")
  }

  lemma HeadOptional(c: Config, line: Line)
    requires Optional(line)
    ensures line in HeadLines(c) <==> line in ServiceEndpointLines(c)
  {
    NotInCore(c, line);
    InRegistry(c, line);
    NotInFields(2, AuthFields(c), line);
    NotInFields(4, [Plain("transport", 1, Str("nats"))], line);
    NotInFields(6, NatsFields(c), line);
    assert line != Opens(2, "chain") && line != Opens(0, "provin.network") && line != Opens(4, "nats");
  }

  lemma NotInFields(n: nat, fields: seq<Field>, line: Line)
    requires Optional(line)
    ensures line !in FieldLines(n, fields)
  {
  }

  lemma NotInCore(c: Config, line: Line)
    requires Optional(line)
    ensures line !in CoreLines(c)
  {
    assert line != Opens(2, "core") && line != Closes(2);
    NotInFields(4, CoreFields(c), line);
    NotInFields(4, ClearText(), line);
    assert line !in NoteLines(c.note);
  }

  lemma InRegistry(c: Config, line: Line)
    requires Optional(line)
    ensures line in RegistryLines(c) <==> line in ServiceEndpointLines(c)
  {
    assert line != Opens(2, "registry") && line != Closes(2);
    NotInFields(4, [Plain("id", 1, Str(c.registryID))], line);
  }

  /** A fragment is printed only if there is one, and a block only if something is in it. */
  lemma NothingEmptyPrinted(c: Config)
    ensures Verbatim("") !in ConfigLines(c)
    ensures Opens(4, "service-endpoints") in ConfigLines(c) <==> c.vcStoreEndpoint != ""
    ensures Opens(6, "registry-base-urls") in ConfigLines(c) <==> c.registryBaseURLs != map[]
    ensures Opens(4, "loops") in ConfigLines(c) <==> c.loopsBlock != ""
  {
    OptionalWhere(c, Verbatim(""));
    OptionalWhere(c, Opens(4, "service-endpoints"));
    OptionalWhere(c, Opens(6, "registry-base-urls"));
    OptionalWhere(c, Opens(4, "loops"));
    OptionalApart();
  }

  lemma OptionalWhere(c: Config, line: Line)
    requires Optional(line)
    ensures line in ConfigLines(c)
       <==> (line == Opens(4, "service-endpoints") && c.vcStoreEndpoint != "")
            || (line == Opens(6, "registry-base-urls") && c.registryBaseURLs != map[])
            || (line == Opens(4, "loops") && c.loopsBlock != "")
  {
    OptionalIn(c, line);
    OptionalApart();
    NotInFragment(c.chainExtra, line);
    NotInFragment(c.extra, line);
    InOptionalBlocks(c, line);
  }

  lemma NotInFragment(fragment: string, line: Line)
    requires Optional(line)
    ensures line !in FragmentLines(fragment)
  {
  }

  lemma InOptionalBlocks(c: Config, line: Line)
    requires Optional(line)
    ensures line in ServiceEndpointLines(c) <==> line == Opens(4, "service-endpoints") && c.vcStoreEndpoint != ""
    ensures line in RegistryUrlLines(c) <==> line == Opens(6, "registry-base-urls") && c.registryBaseURLs != map[]
    ensures line in LoopLines(c) <==> line == Opens(4, "loops") && c.loopsBlock != ""
  {
    OptionalApart();
  }

  lemma OptionalIn(c: Config, line: Line)
    requires Optional(line)
    ensures line in ConfigLines(c)
       <==> line in ServiceEndpointLines(c) || line in RegistryUrlLines(c) || line in FragmentLines(c.chainExtra)
            || line in LoopLines(c) || line in FragmentLines(c.extra)
  {
    HeadOptional(c, line);
    assert line !in [Closes(2), Opens(2, "pipeline")] && line !in [Closes(2), Closes(0)] && line != Closes(4);
    assert line !in EndpointLines(c) && line !in BearerLines();
  }

  lemma OptionalApart()
    ensures "service-endpoints" != "loops"
  {
    assert "service-endpoints"[0] == 's' != "loops"[0];
  }
}
