/** Exactly which configurations their rendered text can carry: a quoted string that Go
    and JSON escape differently makes the whole text unreadable. */
module RenderLimits {
  import opened Wrappers
  import opened Hocon
  import opened HoconLines
  import opened NodeConfig

  /* ---- text that does not lex ---- */

  /** `Lex(s) == None`, said so that proofs that chain lexing facts do not unfold `Lex`. */
  ghost predicate Unlexable(s: string) {
    forall t | t == s :: Lex(t) == None
  }

  lemma UnlexableGives(s: string)
    requires Unlexable(s)
    ensures Lex(s) == None
  {
  }

  /** Go's escape is one JSON does not have, or the character may not be in a JSON string. */
  lemma BadQuote(v: string, rest: string)
    requires !Representable(v)
    ensures Unlexable(Quote(v) + rest)
  {
    QuotedReadsBack(v, rest);
    QuoteParts(Escape(v), rest);
    TokenOfQuote(Quote(v) + rest);
  }

  lemma AfterQuote(v: string, rest: string)
    requires Unlexable(rest)
    ensures Unlexable(Quote(v) + rest)
  {
    UnlexableGives(rest);
    if Representable(v) {
      LexQuote(v, rest);
    } else {
      BadQuote(v, rest);
    }
  }

  lemma AfterWord(w: string, rest: string)
    requires IsWord(w) && (rest == "" || !IsWordChar(rest[0])) && Unlexable(rest)
    ensures Unlexable(w + rest)
  {
    UnlexableGives(rest);
    LexWord(w, rest);
  }

  lemma AfterSpaces(n: nat, rest: string)
    requires Unlexable(rest)
    ensures Unlexable(Spaces(n) + rest)
  {
    UnlexableGives(rest);
    LexSpaces(n, rest);
  }

  lemma AfterBlank(rest: string)
    requires Unlexable(rest)
    ensures Unlexable(" " + rest)
  {
    UnlexableGives(rest);
    LexBlank(rest);
  }

  lemma AfterMark(c: char, rest: string)
    requires Punctuation(c).Some? && Unlexable(rest)
    ensures Unlexable([c] + rest)
  {
    UnlexableGives(rest);
    LexPunctuation(c, rest);
  }

  lemma AfterMarkBlank(c: char, rest: string)
    requires Punctuation(c).Some? && Unlexable(rest)
    ensures Unlexable([c, ' '] + rest)
  {
    AfterBlank(rest);
    AfterMark(c, " " + rest);
    assert [c, ' '] + rest == [c] + (" " + rest);
  }

  /** A string that does not close before a line break does not close at all. */
  lemma {:induction false} ScanStopsAtBreak(s: string, b: string)
    requires ScanString(s).Bad?
    ensures ScanString(s + "\n" + b).Bad?
    decreases |s|
  {
    var t := s + "\n" + b;
    if s == "" {
      assert t[0] == '\n';
    } else if s[0] == '\\' && |s| == 1 {
      assert t[1] == '\n';
    } else if s[0] == '\\' {
      assert t[1] == s[1] && t[2..] == s[2..] + "\n" + b;
      if Unescape(s[1]).Some? {
        ScanStopsAtBreak(s[2..], b);
      }
    } else if s[0] >= ' ' {
      assert t[1..] == s[1..] + "\n" + b;
      ScanStopsAtBreak(s[1..], b);
    }
  }

  lemma StuckAcrossBreak(a: string, b: string)
    requires a != "" && NextToken(a).Stuck?
    ensures NextToken(a + "\n" + b).Stuck?
  {
    var t := a + "\n" + b;
    assert t[0] == a[0];
    if a[0] == '\"' {
      DropFront(a, b, 1);
      ScanStopsAtBreak(a[1..], b);
    }
  }

  /** A line that does not lex spoils every text it begins. */
  lemma {:induction false} UnlexableAcrossBreak(a: string, b: string)
    requires Lex(a) == None
    ensures Lex(a + "\n" + b) == None
    decreases |a|
  {
    if NextToken(a).Stuck? {
      StuckAcrossBreak(a, b);
    } else {
      var step := NextToken(a);
      NextTokenAcrossBreak(a, b);
      DropFront(a, b, step.n);
      UnlexableAcrossBreak(a[step.n..], b);
    }
  }

  ghost predicate HasBad(lines: seq<Line>) {
    exists k :: 0 <= k < |lines| && Unlexable(Print(lines[k]))
  }

  lemma EitherSpoils(first: string, rest: string)
    requires Unlexable(first) || Unlexable(rest)
    ensures Unlexable(first + "\n" + rest)
  {
    if Lex(first).Some? {
      assert Lex(rest) == None;
      LexAcrossBreak(first, rest);
    } else {
      UnlexableAcrossBreak(first, rest);
    }
  }

  /** One unreadable line makes the whole text unreadable. */
  lemma {:induction false} BadLineSpoils(lines: seq<Line>, k: nat)
    requires k < |lines| && Unlexable(Print(lines[k]))
    ensures Unlexable(Written(lines))
  {
    if k > 0 {
      BadLineSpoils(lines[1..], k - 1);
    }
    EitherSpoils(Print(lines[0]), Written(lines[1..]));
    assert Written(lines) == Print(lines[0]) + "\n" + Written(lines[1..]);
  }

  lemma BadSpoils(lines: seq<Line>)
    requires HasBad(lines)
    ensures Load(Written(lines)) == None
  {
    var k :| 0 <= k < |lines| && Unlexable(Print(lines[k]));
    BadLineSpoils(lines, k);
    UnlexableGives(Written(lines));
  }

  lemma BadAt(lines: seq<Line>, k: nat, line: Line)
    requires k < |lines| && lines[k] == line && Unlexable(Print(line))
    ensures HasBad(lines)
  {
  }

  lemma BadLeft(a: seq<Line>, b: seq<Line>)
    requires HasBad(a)
    ensures HasBad(a + b)
  {
    var k :| 0 <= k < |a| && Unlexable(Print(a[k]));
    assert (a + b)[k] == a[k];
  }

  lemma BadRight(a: seq<Line>, b: seq<Line>)
    requires HasBad(b)
    ensures HasBad(a + b)
  {
    var k :| 0 <= k < |b| && Unlexable(Print(b[k]));
    assert (a + b)[|a| + k] == b[k];
  }

  lemma BadInBlock(opening: Line, body: seq<Line>, closing: Line)
    requires HasBad(body)
    ensures HasBad([opening] + body + [closing])
  {
    BadRight([opening], body);
    BadLeft([opening] + body, [closing]);
  }

  /* ---- lines with an unreadable string ---- */

  /** A setting whose quoted key, or one of whose quoted values, is not representable. */
  predicate Spoiled(name: Token, value: Value) {
    || (name.Quoted? && !Representable(name.text))
    || (value.Str? && !Representable(value.text))
    || (value.StrList? && |value.items| == 1 && !Representable(value.items[0]))
  }

  lemma BadValue(value: Value)
    requires Spoiled(Word("k"), value)
    ensures Unlexable(PrintValue(value))
  {
    if value.Str? {
      BadQuote(value.text, "");
      assert Quote(value.text) + "" == Quote(value.text);
    } else {
      BadQuote(value.items[0], "]");
      AfterMark('[', Quote(value.items[0]) + "]");
      assert "[" + Quote(value.items[0]) + "]" == ['['] + (Quote(value.items[0]) + "]");
    }
  }

  lemma BadAssigns(n: nat, name: Token, pad: nat, value: Value)
    requires Spoiled(name, value) && pad > 0 && (name.Quoted? || (name.Word? && IsWord(name.text)))
    ensures Unlexable(Print(Assigns(n, name, pad, value)))
  {
    var rest := Spaces(pad) + ("= " + PrintValue(value));
    assert rest[0] == ' ';
    if name.Quoted? && !Representable(name.text) {
      BadQuote(name.text, rest);
    } else {
      BadValue(value);
      AfterMarkBlank('=', PrintValue(value));
      AfterSpaces(pad, "= " + PrintValue(value));
      if name.Quoted? {
        AfterQuote(name.text, rest);
      } else {
        AfterWord(name.text, rest);
      }
    }
    AfterSpaces(n, PrintName(name) + rest);
  }

  lemma BadField(n: nat, fields: seq<Field>, i: nat)
    requires i < |fields| && IsWord(fields[i].key) && fields[i].pad > 0 && Spoiled(Word(fields[i].key), fields[i].value)
    ensures HasBad(FieldLines(n, fields))
  {
    var f := fields[i];
    BadAssigns(n, Word(f.key), f.pad, f.value);
    BadAt(FieldLines(n, fields), i, Assigns(n, Word(f.key), f.pad, f.value));
  }

  lemma BadPair(n: nat, key: string, k1: string, v1: string, k2: string, v2: string)
    requires IsWord(key) && IsWord(k1) && Representable(v1) && IsWord(k2) && !Representable(v2)
    ensures HasBad([Pair(n, key, k1, v1, k2, v2)])
  {
    var second := PairTail(k2, v2, " }");
    BadQuote(v2, " }");
    AfterEquals(k2, Quote(v2) + " }");
    AfterMarkBlank(',', second);
    AfterQuote(v1, ", " + second);
    AfterEquals(k1, Quote(v1) + (", " + second));
    var body := PairTail(k1, v1, ", " + second);
    AfterMarkBlank('{', body);
    AfterBlank("{ " + body);
    AfterWord(key, " " + ("{ " + body));
    AfterSpaces(n, key + (" " + ("{ " + body)));
    assert Unlexable(Print([Pair(n, key, k1, v1, k2, v2)][0]));
  }

  lemma AfterEquals(key: string, rest: string)
    requires IsWord(key) && Unlexable(rest)
    ensures Unlexable(key + (" = " + rest))
  {
    AfterMarkBlank('=', rest);
    AfterBlank("= " + rest);
    assert " = " + rest == " " + ("= " + rest);
    AfterWord(key, " = " + rest);
  }

  /* ---- where each quoted string of a configuration stands ---- */

  lemma BadCore(c: Config)
    requires !Representable(c.listenAddr)
    ensures HasBad(CoreLines(c))
  {
    CoreKeys();
    var fields, notes, more := FieldLines(4, CoreFields(c)), NoteLines(c.note), FieldLines(4, ClearText());
    BadField(4, CoreFields(c), 0);
    BadLeft(fields, notes);
    BadLeft(fields + notes, more);
    BadInBlock(Opens(2, "core"), fields + notes + more, Closes(2));
  }

  lemma BadAuth(c: Config)
    requires !Representable(c.pdpBaseURL) || (PlainInternal(c.pdpURL).Some? && !Representable(PlainInternal(c.pdpURL).value))
    ensures HasBad(FieldLines(2, AuthFields(c)))
  {
    DottedVerifierKey();
    DottedInternalKey();
    BadField(2, AuthFields(c), if Representable(c.pdpBaseURL) then 1 else 0);
  }

  lemma BadRegistry(c: Config)
    requires !Representable(c.registryID) || !Representable(c.vcStoreEndpoint)
    ensures HasBad(RegistryLines(c))
  {
    RegistryKeys();
    var id, services := FieldLines(4, [Plain("id", 1, Str(c.registryID))]), ServiceEndpointLines(c);
    if !Representable(c.registryID) {
      BadField(4, [Plain("id", 1, Str(c.registryID))], 0);
      BadLeft(id, services);
    } else {
      BadServices(c);
      BadRight(id, services);
    }
    BadInBlock(Opens(2, "registry"), id + services, Closes(2));
  }

  lemma BadServices(c: Config)
    requires !Representable(c.vcStoreEndpoint)
    ensures HasBad(ServiceEndpointLines(c))
  {
    ServiceKeys();
    ResolverKeys();
    var pair := Pair(6, "vc-resolver", "type", "VCResolver", "url", c.vcStoreEndpoint);
    BadPair(6, "vc-resolver", "type", "VCResolver", "url", c.vcStoreEndpoint);
    BadInBlock(Opens(4, "service-endpoints"), [pair], Closes(4));
  }

  predicate NatsRepresentable(c: Config) {
    && Representable(c.natsURL) && Representable(c.accountSeedFile) && Representable(c.trustSeedFile)
    && Representable(c.resolverDir) && Representable(c.nodeDID) && Representable(c.resolverBaseURL)
  }

  lemma BadNats(c: Config)
    requires !NatsRepresentable(c)
    ensures HasBad(FieldLines(6, NatsFields(c)))
  {
    NatsKeys();
    SeedKeys();
    ResolverKey();
    BadField(6, NatsFields(c),
             if !Representable(c.natsURL) then 0
             else if !Representable(c.accountSeedFile) then 1
             else if !Representable(c.trustSeedFile) then 2
             else if !Representable(c.resolverDir) then 3
             else if !Representable(c.nodeDID) then 4
             else 5);
  }

  lemma BadUrls(c: Config, registry: string)
    requires registry in c.registryBaseURLs
    requires !Representable(registry) || !Representable(c.registryBaseURLs[registry])
    ensures HasBad(RegistryUrlLines(c))
  {
    var rs := Registries(c);
    assert registry in rs;
    var i :| 0 <= i < |rs| && rs[i] == registry;
    BadAssigns(8, Quoted(registry), 1, Str(c.registryBaseURLs[registry]));
    BadAt(UrlLinesOf(c, rs), i, UrlLine(c, registry));
    BadInBlock(Opens(6, "registry-base-urls"), UrlLinesOf(c, rs), Closes(6));
  }

  lemma BadAmongEight(a: seq<Line>, b: seq<Line>, c: seq<Line>, d: seq<Line>, e: seq<Line>, f: seq<Line>, g: seq<Line>, h: seq<Line>)
    requires HasBad(b) || HasBad(c) || HasBad(d) || HasBad(h)
    ensures HasBad(a + b + c + d + e + f + g + h)
  {
    if HasBad(h) {
      BadRight(a + b + c + d + e + f + g, h);
    } else {
      if HasBad(d) {
        BadRight(a + b + c, d);
      } else {
        if HasBad(c) {
          BadRight(a + b, c);
        } else {
          BadRight(a, b);
          BadLeft(a + b, c);
        }
        BadLeft(a + b + c, d);
      }
      BadLeft(a + b + c + d, e);
      BadLeft(a + b + c + d + e, f);
      BadLeft(a + b + c + d + e + f, g);
      BadLeft(a + b + c + d + e + f + g, h);
    }
  }

  lemma BadHead(c: Config)
    requires HasBad(CoreLines(c)) || HasBad(FieldLines(2, AuthFields(c))) || HasBad(RegistryLines(c))
          || HasBad(FieldLines(6, NatsFields(c)))
    ensures HasBad(HeadLines(c))
  {
    BadAmongEight([Opens(0, "provin.network")], CoreLines(c), FieldLines(2, AuthFields(c)), RegistryLines(c), [Opens(2, "chain")],
                  FieldLines(4, [Plain("transport", 1, Str("nats"))]), [Opens(4, "nats")], FieldLines(6, NatsFields(c)));
  }

  lemma BadConfig(c: Config)
    requires HasBad(HeadLines(c)) || HasBad(RegistryUrlLines(c))
    ensures HasBad(ConfigLines(c))
  {
    var head, urls := HeadLines(c), RegistryUrlLines(c);
    if HasBad(head) {
      BadLeft(head, urls);
    } else {
      BadRight(head, urls);
    }
    BadBefore(head + urls, [Closes(4)], FragmentLines(c.chainExtra), [Closes(2), Opens(2, "pipeline")], EndpointLines(c),
              BearerLines(), LoopLines(c), FragmentLines(c.extra), [Closes(2), Closes(0)]);
  }

  lemma BadBefore(x: seq<Line>, a: seq<Line>, b: seq<Line>, c: seq<Line>, d: seq<Line>, e: seq<Line>, f: seq<Line>, g: seq<Line>, h: seq<Line>)
    requires HasBad(x)
    ensures HasBad(x + a + b + c + d + e + f + g + h)
  {
    BadLeft(x, a);
    BadLeft(x + a, b);
    BadLeft(x + a + b, c);
    BadLeft(x + a + b + c, d);
    BadLeft(x + a + b + c + d, e);
    BadLeft(x + a + b + c + d + e, f);
    BadLeft(x + a + b + c + d + e + f, g);
    BadLeft(x + a + b + c + d + e + f + g, h);
  }

  lemma SomeBadLine(c: Config)
    requires !AllRepresentable(c)
    ensures HasBad(ConfigLines(c))
  {
    if registry :| registry in c.registryBaseURLs && (!Representable(registry) || !Representable(c.registryBaseURLs[registry])) {
      BadUrls(c, registry);
    } else {
      if !Representable(c.listenAddr) {
        BadCore(c);
      } else if !Representable(c.registryID) || !Representable(c.vcStoreEndpoint) {
        BadRegistry(c);
      } else if !NatsRepresentable(c) {
        BadNats(c);
      } else {
        BadAuth(c);
      }
      BadHead(c);
    }
    BadConfig(c);
  }

  /** The loader reads the rendered configuration back, with every field at its path,
      exactly when every quoted string is one Go and JSON escape alike; otherwise it
      reads nothing of it. */
  lemma RenderLoadsExactly(c: Config)
    requires FragmentsWellFormed(c) && OneLiners(c.note)
    ensures Load(Written(ConfigLines(c))) == if AllRepresentable(c) then Some(Settings(c)) else None
  {
    if AllRepresentable(c) {
      RenderReadsBack(c);
    } else {
      SomeBadLine(c);
      BadSpoils(ConfigLines(c));
    }
  }

  /** A seed file named with a bell character: %q writes it as an escape JSON does not have. */
  lemma BellUnreadable()
    ensures var c := Config(":18443", "poc.dplaax.dev", "http://127.0.0.1:1", None, "nats://127.0.0.1:2", "acme\U{07}.seed",
                            "operator.seed", "resolver", "did:dplaax:poc.dplaax.dev:org:acme:pipeline:p", "", map[], "", "",
                            true, false, "", "", []);
      Load(Written(ConfigLines(c))) == None
  {
    var c := Config(":18443", "poc.dplaax.dev", "http://127.0.0.1:1", None, "nats://127.0.0.1:2", "acme\U{07}.seed",
                    "operator.seed", "resolver", "did:dplaax:poc.dplaax.dev:org:acme:pipeline:p", "", map[], "", "",
                    true, false, "", "", []);
    BellInSeedFile(c);
  }

  lemma BellInSeedFile(c: Config)
    requires '\U{07}' in c.accountSeedFile
    ensures Load(Written(ConfigLines(c))) == None
  {
    assert c.accountSeedFile in QuotedStrings(c);
    SomeBadLine(c);
    BadSpoils(ConfigLines(c));
  }
}
