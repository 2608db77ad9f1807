/** Splitting one configuration into the network's and the pipeline's. */
module SeparatedConfig {
  import opened Wrappers
  import opened Hocon
  import opened HoconLines
  import opened NodeConfig

  datatype Separated = Separated(
    networkListenAddr: string,
    pipelineListenAddr: string,
    registryID: string,
    pdpBaseURL: string,
    pdpURL: Option<Url>,
    natsURL: string,
    accountSeedFile: string,
    trustSeedFile: string,
    resolverDir: string,
    nodeDID: string,
    resolverBaseURL: string,
    registryBaseURLs: map<string, string>,
    loopsBlock: string,
    tunables: string,
    chainExtra: string,
    allowLoopback: bool,
    allowPrivateNetworks: bool,
    note: seq<string>)

  /** The network's own base URL as a peer reaches it: the single-registry URL, else the
      entry of its own registry, else the loopback address. */
  function NetworkBaseURL(c: Separated): (url: string)
    ensures url != ""
  {
    if c.resolverBaseURL != "" then c.resolverBaseURL
    else if c.registryID in c.registryBaseURLs && c.registryBaseURLs[c.registryID] != "" then c.registryBaseURLs[c.registryID]
    else "http://127.0.0.1" + c.networkListenAddr
  }

  function Base(c: Separated): Config {
    Config("", c.registryID, c.pdpBaseURL, c.pdpURL, c.natsURL, c.accountSeedFile, c.trustSeedFile, c.resolverDir,
           c.nodeDID, c.resolverBaseURL, c.registryBaseURLs, "", "", c.allowLoopback, c.allowPrivateNetworks, "",
           c.chainExtra, c.note)
  }

  function Network(c: Separated): Config {
    Base(c).(listenAddr := c.networkListenAddr, vcStoreEndpoint := NetworkBaseURL(c), extra := c.tunables)
  }

  function Pipeline(c: Separated): Config {
    Base(c).(listenAddr := c.pipelineListenAddr, vcStoreEndpoint := NetworkBaseURL(c), loopsBlock := c.loopsBlock)
  }

  method SplitNodeConfig(c: Separated) returns (networkCfg: string, pipelineCfg: string)
    ensures networkCfg == Written(ConfigLines(Network(c)))
    ensures pipelineCfg == Written(ConfigLines(Pipeline(c)))
  {
    var networkBaseURL := c.resolverBaseURL;
    if networkBaseURL == "" {
      networkBaseURL := if c.registryID in c.registryBaseURLs then c.registryBaseURLs[c.registryID] else "";
    }
    if networkBaseURL == "" {
      networkBaseURL := "http://127.0.0.1" + c.networkListenAddr;
    }
    var base := Base(c);
    networkCfg := NodeConfig.Render(base.(listenAddr := c.networkListenAddr, vcStoreEndpoint := networkBaseURL, extra := c.tunables));
    pipelineCfg := NodeConfig.Render(base.(listenAddr := c.pipelineListenAddr, vcStoreEndpoint := networkBaseURL, loopsBlock := c.loopsBlock));
  }

  /** What both pipeline blocks begin with. */
  function StoreSettings(c: Separated): seq<Entry> {
    [Entry(["vc-store-endpoint"], Str(NetworkBaseURL(c))), Entry(["vc-store-bearer"], Str(BEARER_TOKEN))]
  }

  /** Everything the two configurations have in common after the listen address, in order:
      the chain fragment and the endpoint are in it. */
  ghost function Shared(c: Separated): seq<Entry> {
    Combined([Section(CORE, CoreSettings(Base(c))[1..])] + Sections(Network(c))[1..7]
             + [Section(PIPELINE, StoreSettings(c))])
  }

  ghost predicate Splittable(c: Separated) {
    && AllRepresentable(Network(c)) && Representable(c.pipelineListenAddr)
    && WellFormed(c.chainExtra) && WellFormed(c.loopsBlock) && WellFormed(c.tunables)
    && OneLiners(c.note)
  }

  /** The two rendered texts load to the same settings in the same order, but for three
      things: each its own listen address, the tunables in the network's pipeline block,
      the loops in the pipeline's. */
  lemma SplitAgreement(c: Separated)
    requires Splittable(c)
    ensures Load(Written(ConfigLines(Network(c))))
         == Some([Entry(CORE + ["listen-addr"], Str(c.networkListenAddr))] + Shared(c)
                 + Prefixed(PIPELINE, FragmentSettings(c.tunables)))
    ensures Load(Written(ConfigLines(Pipeline(c))))
         == Some([Entry(CORE + ["listen-addr"], Str(c.pipelineListenAddr))] + Shared(c)
                 + Prefixed(PIPELINE, Prefixed(["loops"], FragmentSettings(c.loopsBlock))))
  {
    PipelineRepresentable(c);
    RenderReadsBack(Network(c));
    RenderReadsBack(Pipeline(c));
    PipelineParts(c);
    var core := CoreSettings(Base(c))[1..];
    CoreParts(c);
    SectionsAgree(c);
    var common := StoreSettings(c);
    var mid := Sections(Network(c))[1..7];
    SplitSections(Entry(["listen-addr"], Str(c.networkListenAddr)), core, mid, common, FragmentSettings(c.tunables));
    SplitSections(Entry(["listen-addr"], Str(c.pipelineListenAddr)), core, mid, common,
                  Prefixed(["loops"], FragmentSettings(c.loopsBlock)));
  }

  lemma PipelineRepresentable(c: Separated)
    requires AllRepresentable(Network(c)) && Representable(c.pipelineListenAddr)
    ensures AllRepresentable(Pipeline(c))
  {
    assert forall v | v in QuotedStrings(Pipeline(c)) :: v in QuotedStrings(Network(c)) || v == c.pipelineListenAddr;
  }

  lemma CoreParts(c: Separated)
    ensures var core := CoreSettings(Base(c))[1..];
      && CoreSettings(Network(c)) == [Entry(["listen-addr"], Str(c.networkListenAddr))] + core
      && CoreSettings(Pipeline(c)) == [Entry(["listen-addr"], Str(c.pipelineListenAddr))] + core
  {
  }

  lemma PipelineParts(c: Separated)
    requires WellFormed("")
    ensures var common := StoreSettings(c);
      && PipelineSettings(Network(c)) == common + FragmentSettings(c.tunables)
      && PipelineSettings(Pipeline(c)) == common + Prefixed(["loops"], FragmentSettings(c.loopsBlock))
  {
    NetworkPart(Network(c));
    PipelinePart(Pipeline(c));
  }

  lemma NetworkPart(c: Config)
    requires c.vcStoreEndpoint != "" && c.loopsBlock == ""
    ensures PipelineSettings(c) == [Entry(["vc-store-endpoint"], Str(c.vcStoreEndpoint)), Entry(["vc-store-bearer"], Str(BEARER_TOKEN))]
                                   + FragmentSettings(c.extra)
  {
    assert Prefixed(["loops"], []) == [];
  }

  lemma PipelinePart(c: Config)
    requires c.vcStoreEndpoint != "" && c.extra == ""
    ensures PipelineSettings(c) == [Entry(["vc-store-endpoint"], Str(c.vcStoreEndpoint)), Entry(["vc-store-bearer"], Str(BEARER_TOKEN))]
                                   + Prefixed(["loops"], FragmentSettings(c.loopsBlock))
  {
  }

  /** The six sections between the core and the pipeline block are the same. */
  lemma SectionsAgree(c: Separated)
    ensures Sections(Network(c)) == [Section(CORE, CoreSettings(Network(c)))] + Sections(Network(c))[1..7]
                                    + [Section(PIPELINE, PipelineSettings(Network(c)))]
    ensures Sections(Pipeline(c)) == [Section(CORE, CoreSettings(Pipeline(c)))] + Sections(Network(c))[1..7]
                                     + [Section(PIPELINE, PipelineSettings(Pipeline(c)))]
  {
    MiddleSections(Network(c));
    MiddleSections(Pipeline(c));
    MiddleAgrees(c);
  }

  /** All but the first and the last section. */
  ghost function Middle(c: Config): seq<Section> {
    [Section(NETWORK, AuthSettings(c)), Section(REGISTRY, RegistrySettings(c)),
     Section(CHAIN, [Entry(["transport"], Str("nats"))]), Section(NATS, NatsSettings(c)),
     Section(NATS, RegistryUrlSettings(c)), Section(CHAIN, FragmentSettings(c.chainExtra))]
  }

  lemma MiddleSections(c: Config)
    ensures Sections(c)[1..7] == Middle(c)
    ensures Sections(c) == [Section(CORE, CoreSettings(c))] + Middle(c) + [Section(PIPELINE, PipelineSettings(c))]
  {
  }

  lemma MiddleAgrees(c: Separated)
    ensures Middle(Network(c)) == Middle(Pipeline(c))
  {
    assert Registries(Network(c)) == Registries(Pipeline(c));
    assert RegistryUrlSettings(Network(c)) == RegistryUrlSettings(Pipeline(c));
  }

  /** Taking the first core setting out in front and the last pipeline settings out behind. */
  lemma SplitSections(first: Entry, core: seq<Entry>, mid: seq<Section>, common: seq<Entry>, rest: seq<Entry>)
    ensures Combined([Section(CORE, [first] + core)] + mid + [Section(PIPELINE, common + rest)])
         == [Entry(CORE + first.path, first.value)]
          + Combined([Section(CORE, core)] + mid + [Section(PIPELINE, common)]) + Prefixed(PIPELINE, rest)
  {
    var head, tail := Section(CORE, [first] + core), Section(CORE, core);
    CombinedSnoc([head] + mid, Section(PIPELINE, common + rest));
    CombinedSnoc([tail] + mid, Section(PIPELINE, common));
    PrefixedConcat(PIPELINE, common, rest);
    CombinedFront(first, core, mid);
    var x, y := Combined([tail] + mid), Prefixed(PIPELINE, common);
    assert [Entry(CORE + first.path, first.value)] + x + (y + Prefixed(PIPELINE, rest))
        == [Entry(CORE + first.path, first.value)] + (x + y) + Prefixed(PIPELINE, rest);
  }

  lemma {:induction false} CombinedFront(first: Entry, core: seq<Entry>, mid: seq<Section>)
    ensures Combined([Section(CORE, [first] + core)] + mid)
         == [Entry(CORE + first.path, first.value)] + Combined([Section(CORE, core)] + mid)
  {
    var head, tail := Section(CORE, [first] + core), Section(CORE, core);
    if mid == [] {
      CombinedSnoc([], head);
      CombinedSnoc([], tail);
      assert [head] + mid == [] + [head] && [tail] + mid == [] + [tail];
      PrefixedConcat(CORE, [first], core);
      assert Prefixed(CORE, [first]) == [Entry(CORE + first.path, first.value)];
      assert [] + Prefixed(CORE, core) == Prefixed(CORE, core);
      assert [] + Prefixed(CORE, [first] + core) == Prefixed(CORE, [first] + core);
    } else {
      var front, last := mid[..|mid| - 1], mid[|mid| - 1];
      CombinedFront(first, core, front);
      assert [head] + mid == ([head] + front) + [last] && [tail] + mid == ([tail] + front) + [last];
      CombinedSnoc([head] + front, last);
      CombinedSnoc([tail] + front, last);
    }
  }

  /** The chain fragment's settings are in both halves. */
  lemma ChainExtraReachesBoth(c: Separated, e: Entry)
    requires e in Prefixed(CHAIN, FragmentSettings(c.chainExtra))
    ensures e in Shared(c)
  {
    var ss := [Section(CORE, CoreSettings(Base(c))[1..])] + Sections(Network(c))[1..7]
      + [Section(PIPELINE, StoreSettings(c))];
    assert ss[6] == Sections(Network(c))[6] == Section(CHAIN, FragmentSettings(c.chainExtra));
    InCombined(ss, 6, e);
  }

  lemma {:induction false} InCombined(ss: seq<Section>, k: nat, e: Entry)
    requires k < |ss| && e in Prefixed(ss[k].at, ss[k].es)
    ensures e in Combined(ss)
  {
    if k < |ss| - 1 {
      InCombined(ss[..|ss| - 1], k, e);
    }
  }

  /** The network refuses to boot with loops: its text sets nothing at, above or under
      pipeline.loops, unless the verbatim tunables do. */
  lemma NetworkHasNoLoops(c: Separated, rest: seq<string>)
    requires Splittable(c)
    requires forall e | e in FragmentSettings(c.tunables) :: e.path == [] || e.path[0] != "loops"
    ensures var loaded := Load(Written(ConfigLines(Network(c))));
      loaded.Some? && !Touched(loaded.value, PIPELINE + (["loops"] + rest))
  {
    RenderReadsBack(Network(c));
    PipelineParts(c);
    SectionsLaidOut(Network(c));
    FragmentPaths(c.tunables);
    var p := ["loops"] + rest;
    NoLoopsAmong(c, FragmentSettings(c.tunables), p);
    UnsetOutside(Sections(Network(c)), 7, p);
  }

  lemma NoLoopsAmong(c: Separated, tunables: seq<Entry>, p: seq<string>)
    requires forall e | e in tunables :: e.path != [] && e.path[0] != "loops"
    requires p != [] && p[0] == "loops"
    ensures !Touched(StoreSettings(c) + tunables, p)
  {
    assert "loops" != "vc-store-endpoint" && "loops" != "vc-store-bearer";
    forall e | e in StoreSettings(c) + tunables ensures !Overlaps(e.path, p) {
      DifferAt(e.path, p, 0);
    }
  }

  /** Both halves dial the same, non-empty credential store, unless the verbatim tunables
      set under that key themselves. */
  lemma EndpointReadsBack(c: Separated)
    requires Splittable(c)
    requires forall e | e in FragmentSettings(c.tunables) :: e.path == [] || e.path[0] != "vc-store-endpoint"
    ensures NetworkBaseURL(c) != ""
    ensures Reads(Written(ConfigLines(Network(c))), PIPELINE + ["vc-store-endpoint"], Str(NetworkBaseURL(c)))
    ensures Reads(Written(ConfigLines(Pipeline(c))), PIPELINE + ["vc-store-endpoint"], Str(NetworkBaseURL(c)))
  {
    PipelineRepresentable(c);
    RenderReadsBack(Network(c));
    RenderReadsBack(Pipeline(c));
    PipelineParts(c);
    FragmentPaths(c.tunables);
    EndpointFirst(c, FragmentSettings(c.tunables));
    LoopsElsewhere(FragmentSettings(c.loopsBlock));
    EndpointFirst(c, Prefixed(["loops"], FragmentSettings(c.loopsBlock)));
    SectionsLaidOut(Network(c));
    SectionsLaidOut(Pipeline(c));
    FoundOutsideChain(Sections(Network(c)), 7, ["vc-store-endpoint"], Str(NetworkBaseURL(c)));
    FoundOutsideChain(Sections(Pipeline(c)), 7, ["vc-store-endpoint"], Str(NetworkBaseURL(c)));
  }

  /** Which store that is: the single-registry URL if there is one, else what the table of
      registries has for the node's own, else the loopback address of the network. */
  lemma EndpointChosen(c: Separated)
    requires Splittable(c)
    requires forall e | e in FragmentSettings(c.tunables) :: e.path == [] || e.path[0] != "vc-store-endpoint"
    ensures c.resolverBaseURL != "" ==> BothRead(c, c.resolverBaseURL)
    ensures forall url | c.resolverBaseURL == "" && url != "" && (c.registryID, url) in c.registryBaseURLs.Items :: BothRead(c, url)
    ensures c.resolverBaseURL == "" && (c.registryID, "") in c.registryBaseURLs.Items
        ==> BothRead(c, "http://127.0.0.1" + c.networkListenAddr)
    ensures c.resolverBaseURL == "" && c.registryID !in c.registryBaseURLs.Keys
        ==> BothRead(c, "http://127.0.0.1" + c.networkListenAddr)
  {
    EndpointReadsBack(c);
  }

  /** Both texts have the store's endpoint at this URL. */
  ghost predicate BothRead(c: Separated, url: string) {
    && Reads(Written(ConfigLines(Network(c))), PIPELINE + ["vc-store-endpoint"], Str(url))
    && Reads(Written(ConfigLines(Pipeline(c))), PIPELINE + ["vc-store-endpoint"], Str(url))
  }

  lemma LoopsElsewhere(es: seq<Entry>)
    ensures forall e | e in Prefixed(["loops"], es) :: e.path != [] && e.path[0] != "vc-store-endpoint"
  {
    assert "loops" != "vc-store-endpoint";
    forall e | e in Prefixed(["loops"], es) ensures e.path != [] && e.path[0] == "loops" {
    }
  }

  lemma EndpointFirst(c: Separated, rest: seq<Entry>)
    requires forall e | e in rest :: e.path != [] && e.path[0] != "vc-store-endpoint"
    ensures Finds(StoreSettings(c) + rest, ["vc-store-endpoint"], Str(NetworkBaseURL(c)))
  {
    var es, bearer := StoreSettings(c) + rest, StoreSettings(c)[1];
    assert es[1..] == [bearer] + rest;
    assert "vc-store-bearer" != "vc-store-endpoint";
    forall e | e in [bearer] + rest ensures !Overlaps(e.path, ["vc-store-endpoint"]) {
      DifferAt(e.path, ["vc-store-endpoint"], 0);
    }
    assert es[0] == Entry(["vc-store-endpoint"], Str(NetworkBaseURL(c)));
  }

  /** A text that has every setting of the shared configuration where it belongs. */
  ghost predicate ReadsShared(text: string, c: Separated) {
    && Reads(text, CORE + ["dev", "allow-loopback"], Bare(if c.allowLoopback then "true" else "false"))
    && Reads(text, CORE + ["allow-private-networks"], Bare(if c.allowPrivateNetworks then "true" else "false"))
    && Reads(text, NETWORK + ["auth", "policy-verifier-url"], Str(c.pdpBaseURL))
    && ExceptsExactly(text, c.pdpURL)
    && Reads(text, REGISTRY + ["id"], Str(c.registryID))
    && Reads(text, NATS + ["url"], Str(c.natsURL))
    && Reads(text, NATS + ["account-seed-file"], Str(c.accountSeedFile))
    && Reads(text, NATS + ["trust-root-seed-file"], Str(c.trustSeedFile))
    && Reads(text, NATS + ["resolver-dir"], Str(c.resolverDir))
    && Reads(text, NATS + ["node-did"], Str(c.nodeDID))
    && Reads(text, NATS + ["resolver-base-url"], Str(c.resolverBaseURL))
    && forall r | r in c.registryBaseURLs :: Reads(text, NATS + ["registry-base-urls", r], Str(c.registryBaseURLs[r]))
  }

  /** Both halves carry every field of the one configuration at its own path, and each its
      own listen address. */
  lemma HalvesReadBack(c: Separated)
    requires Splittable(c)
    requires forall e | e in FragmentSettings(c.chainExtra) :: e.path == [] || e.path[0] != "nats"
    ensures ReadsShared(Written(ConfigLines(Network(c))), c)
    ensures ReadsShared(Written(ConfigLines(Pipeline(c))), c)
    ensures Reads(Written(ConfigLines(Network(c))), CORE + ["listen-addr"], Str(c.networkListenAddr))
    ensures Reads(Written(ConfigLines(Pipeline(c))), CORE + ["listen-addr"], Str(c.pipelineListenAddr))
  {
    PipelineRepresentable(c);
    HalfReadsBack(Network(c), c);
    HalfReadsBack(Pipeline(c), c);
    CoreReadsBack(Network(c));
    CoreReadsBack(Pipeline(c));
  }

  lemma HalfReadsBack(half: Config, c: Separated)
    requires Renderable(half) && SparesNats(half)
    requires half == Network(c) || half == Pipeline(c)
    ensures ReadsShared(Written(ConfigLines(half)), c)
  {
    CoreReadsBack(half);
    AuthReadsBack(half);
    RegistryReadsBack(half);
    NatsReadsBack(half);
  }
}
