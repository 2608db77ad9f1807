/** The relay's loops as the data plane is configured with them, the text that
    configures them, and what that text loads to. */
module LoopsBlock {
  import opened Wrappers
  import opened Hocon
  import opened HoconLines
  import opened Relay
  import NodeConfig
  import SeparatedConfig
  import Text

  datatype Loop =
    | Source(name: string, ingress: string, output: string, issuer: string, pipelineID: string, processID: string)
    | Chained(name: string, ingress: string, output: string, issuer: string, pipelineID: string, processID: string,
              upstream: string, stamp: nat)
    | Sink(name: string, ingress: string, upstream: string)

  /* ---- the text ---- */

  function Setting(key: string, pad: nat, text: string): Field {
    Field(key, [key], pad, Str(text))
  }

  function Converter(stamp: nat): string {
    "$merge([$, {'hop': " + Text.Decimal(stamp) + "}])"
  }

  function SourceHead(ingress: string, output: string): seq<Field> {
    [Setting("role", 12, "source"), Setting("ingress-subject", 1, ingress), Setting("output-subject", 2, output)]
  }

  function IssuerFields(issuer: string): seq<Field> {
    [Setting("did", 17, issuer), Setting("key-id", 14, "signing"), Setting("verification-method", 1, issuer + "#signing")]
  }

  function SourceTail(pipelineID: string, processID: string): seq<Field> {
    [Setting("pipeline-id", 10, pipelineID), Setting("process-id", 11, processID), Setting("transformation-claim", 1, "convert")]
  }

  function RoleFields(role: string, ingress: string): seq<Field> {
    [Setting("role", 12, role), Setting("ingress-subject", 1, ingress)]
  }

  function OutputFields(output: string): seq<Field> {
    [Setting("output-subject", 1, output)]
  }

  function ChainedTail(pipelineID: string, processID: string, upstream: string, stamp: nat): seq<Field> {
    [Setting("pipeline-id", 11, pipelineID), Setting("process-id", 12, processID), Setting("transformation-claim", 2, "convert"),
     Setting("verification-strategy", 1, "adjacent"), Setting("upstream-endpoint", 5, upstream),
     Setting("converter", 13, Converter(stamp))]
  }

  function SinkFields(upstream: string): seq<Field> {
    [Setting("kind", 18, "observation-only"), Setting("verification-strategy", 1, "adjacent"),
     Setting("upstream-endpoint", 5, upstream)]
  }

  function Block(indent: nat, key: string, body: seq<Line>): seq<Line> {
    [Opens(indent, key)] + body + [Closes(indent)]
  }

  function LoopLines(loop: Loop): seq<Line> {
    match loop
    case Source(name, ingress, output, issuer, pipelineID, processID) =>
      Block(6, name, FieldLines(8, SourceHead(ingress, output)) + Block(8, "issuer", FieldLines(10, IssuerFields(issuer)))
                     + FieldLines(8, SourceTail(pipelineID, processID)))
    case Chained(name, ingress, output, issuer, pipelineID, processID, upstream, stamp) =>
      Block(6, name, FieldLines(8, RoleFields("chained", ingress))
                     + Block(8, "chained", FieldLines(10, OutputFields(output))
                                           + Block(10, "issuer", FieldLines(12, IssuerFields(issuer)))
                                           + FieldLines(10, ChainedTail(pipelineID, processID, upstream, stamp))))
    case Sink(name, ingress, upstream) =>
      Block(6, name, FieldLines(8, RoleFields("sink", ingress)) + Block(8, "sink", FieldLines(10, SinkFields(upstream))))
  }

  function BlockLines(loops: seq<Loop>): seq<Line> {
    if loops == [] then [] else BlockLines(loops[..|loops| - 1]) + LoopLines(loops[|loops| - 1])
  }

  /* ---- the topology ---- */

  /** What the loop at position p consumes: the ingress, then each loop's output in turn. */
  function SubjectAt(p: nat): string {
    if p == 0 then INGRESS else PipelineAt(p - 1)
  }

  function LoopAt(selfBase: string, n: nat, p: nat): Loop {
    if p == 0 then Source("src", SubjectAt(0), PipelineAt(0), ProcessAt(0), "deep", "s1")
    else if p <= n then Chained(HopName(p), SubjectAt(p), PipelineAt(p), ProcessAt(p), HopName(p), HopCode(p), selfBase, p)
    else Sink("archive", SubjectAt(p), selfBase)
  }

  /** The source, hops 1 to n, and the sink. */
  function Topology(selfBase: string, n: nat): seq<Loop> {
    seq(n + 2, p requires 0 <= p => LoopAt(selfBase, n, p))
  }

  /** Every hop under its own number, in its name, its subject, its signing process and its
      stamp; it consumes what the loop before it produces. */
  lemma HopExactly(selfBase: string, n: nat, p: nat) returns (digits: string)
    requires 1 <= p <= n
    ensures HopDigits(digits, p)
    ensures Topology(selfBase, n)[p]
         == Chained("hop" + digits, Topology(selfBase, n)[p - 1].output, HopPipeline(p), HopProcess(p), "hop" + digits, "p" + digits,
                    selfBase, p)
    ensures HopPipeline(p) == "did:dplaax:poc.dplaax.dev:org:acme:pipeline:hop" + digits
    ensures HopProcess(p) == "did:dplaax:poc.dplaax.dev:org:acme:pipeline:hop" + digits + ":process:p" + digits
  {
    digits := HopNumbered(p);
  }

  /** The source takes the ingress, and the sink what the last hop produces. */
  lemma EndsExactly(selfBase: string, n: nat)
    ensures Topology(selfBase, n)[0] == Source("src", "ingest.deep", SOURCE_PIPELINE, SOURCE_PROCESS, "deep", "s1")
    ensures Topology(selfBase, n)[n + 1] == Sink("archive", Topology(selfBase, n)[n].output, selfBase)
    ensures SOURCE_PIPELINE == "did:dplaax:poc.dplaax.dev:org:acme:pipeline:" + "deep"
    ensures SOURCE_PROCESS == "did:dplaax:poc.dplaax.dev:org:acme:pipeline:" + "deep:process:s1"
  {
    SourceNamed();
  }

  lemma {:induction false} LedConcat(a: seq<Line>, b: seq<Line>)
    ensures Led(a + b) == Led(a) + Led(b)
  {
    if b == [] {
      assert a + b == a;
    } else {
      var front, last := b[..|b| - 1], b[|b| - 1];
      assert (a + b)[..|a + b| - 1] == a + front;
      LedConcat(a, front);
      Reassociate(Led(a), Led(front), "\n", Print(last));
    }
  }

  lemma Reassociate(a: string, b: string, c: string, d: string)
    ensures a + b + c + d == a + (b + c + d)
  {
  }

  lemma BlockSnoc(loops: seq<Loop>, last: Loop)
    ensures Led(BlockLines(loops + [last])) == Led(BlockLines(loops)) + Led(LoopLines(last))
  {
    assert (loops + [last])[..|loops|] == loops;
    LedConcat(BlockLines(loops), LoopLines(last));
  }

  /** `text == Led(BlockLines(loops))`, said so that callers do not unfold the lines. */
  ghost predicate Renders(text: string, loops: seq<Loop>) {
    forall ls | ls == loops :: text == Led(BlockLines(ls))
  }

  lemma RendersGives(text: string, loops: seq<Loop>)
    requires Renders(text, loops)
    ensures text == Led(BlockLines(loops))
  {
  }

  /** One more loop at the end of the block. */
  method AppendLoop(text: string, ghost loops: seq<Loop>, loop: Loop) returns (more: string)
    requires Renders(text, loops)
    ensures Renders(more, loops + [loop])
  {
    BlockSnoc(loops, loop);
    more := text + Led(LoopLines(loop));
  }

  lemma NothingRendered()
    ensures Renders("", [])
  {
  }

  method RenderLoops(selfBase: string, hops: nat) returns (text: string)
    ensures text == Led(BlockLines(Topology(selfBase, hops)))
  {
    ghost var loops := Topology(selfBase, hops);
    NothingRendered();
    TopologyAt(selfBase, hops, 0);
    PrefixNext(loops, 0, LoopAt(selfBase, hops, 0));
    text := AppendLoop("", loops[..0], Source("src", INGRESS, SOURCE_PIPELINE, SOURCE_PROCESS, "deep", "s1"));
    var prevSubject := SOURCE_PIPELINE;
    for i := 1 to hops + 1
      invariant prevSubject == SubjectAt(i) && Renders(text, loops[..i])
    {
      var pipeline, process := HopPipeline(i), HopProcess(i);
      TopologyAt(selfBase, hops, i);
      HopAt(selfBase, hops, i);
      PrefixNext(loops, i, LoopAt(selfBase, hops, i));
      text := AppendLoop(text, loops[..i],
                         Chained(HopName(i), prevSubject, pipeline, process, HopName(i), HopCode(i), selfBase, i));
      prevSubject := pipeline;
    }
    TopologyAt(selfBase, hops, hops + 1);
    PrefixNext(loops, hops + 1, LoopAt(selfBase, hops, hops + 1));
    text := AppendLoop(text, loops[..hops + 1], Sink("archive", prevSubject, selfBase));
    RendersGives(text, loops);
  }

  lemma TopologyAt(selfBase: string, n: nat, p: nat)
    requires p <= n + 1
    ensures |Topology(selfBase, n)| == n + 2 && Topology(selfBase, n)[p] == LoopAt(selfBase, n, p)
  {
  }

  lemma PrefixNext(loops: seq<Loop>, i: nat, loop: Loop)
    requires i < |loops| && loops[i] == loop
    ensures loops[..i + 1] == loops[..i] + [loop]
    ensures i + 1 == |loops| ==> loops == loops[..i] + [loop]
  {
  }

  lemma HopAt(selfBase: string, n: nat, i: nat)
    requires 1 <= i <= n
    ensures LoopAt(selfBase, n, i)
         == Chained(HopName(i), SubjectAt(i), HopPipeline(i), HopProcess(i), HopName(i), HopCode(i), selfBase, i)
    ensures SubjectAt(i + 1) == HopPipeline(i)
  {
  }

  /* ---- what the text sets ---- */

  function Nested(key: string, es: seq<Entry>): seq<Entry> {
    Prefixed([key], es)
  }

  function LoopSettings(loop: Loop): seq<Entry> {
    match loop
    case Source(name, ingress, output, issuer, pipelineID, processID) =>
      Nested(name, FieldSettings(SourceHead(ingress, output)) + Nested("issuer", FieldSettings(IssuerFields(issuer)))
                   + FieldSettings(SourceTail(pipelineID, processID)))
    case Chained(name, ingress, output, issuer, pipelineID, processID, upstream, stamp) =>
      Nested(name, FieldSettings(RoleFields("chained", ingress))
                   + Nested("chained", FieldSettings(OutputFields(output))
                                       + Nested("issuer", FieldSettings(IssuerFields(issuer)))
                                       + FieldSettings(ChainedTail(pipelineID, processID, upstream, stamp))))
    case Sink(name, ingress, upstream) =>
      Nested(name, FieldSettings(RoleFields("sink", ingress)) + Nested("sink", FieldSettings(SinkFields(upstream))))
  }

  lemma FieldsOfTwo(a: Field, b: Field)
    ensures FieldSettings([a, b]) == [Entry(a.path, a.value), Entry(b.path, b.value)]
  {
  }

  lemma FieldsOfThree(a: Field, b: Field, c: Field)
    ensures FieldSettings([a, b, c]) == [Entry(a.path, a.value), Entry(b.path, b.value), Entry(c.path, c.value)]
  {
  }

  lemma FieldsOfSix(a: Field, b: Field, c: Field, d: Field, e: Field, f: Field)
    ensures FieldSettings([a, b, c, d, e, f])
         == [Entry(a.path, a.value), Entry(b.path, b.value), Entry(c.path, c.value),
             Entry(d.path, d.value), Entry(e.path, e.value), Entry(f.path, f.value)]
  {
  }

  lemma NestedThree(key: string, a: Entry, b: Entry, c: Entry)
    ensures Nested(key, [a, b, c]) == [Entry([key] + a.path, a.value), Entry([key] + b.path, b.value), Entry([key] + c.path, c.value)]
  {
  }

  lemma IssuerConfigures(issuer: string)
    ensures Nested("issuer", FieldSettings(IssuerFields(issuer)))
         == [Entry(["issuer", "did"], Str(issuer)), Entry(["issuer", "key-id"], Str("signing")),
             Entry(["issuer", "verification-method"], Str(issuer + "#signing"))]
  {
    FieldsOfThree(Setting("did", 17, issuer), Setting("key-id", 14, "signing"), Setting("verification-method", 1, issuer + "#signing"));
    NestedThree("issuer", Entry(["did"], Str(issuer)), Entry(["key-id"], Str("signing")), Entry(["verification-method"], Str(issuer + "#signing")));
    assert ["issuer"] + ["did"] == ["issuer", "did"] && ["issuer"] + ["key-id"] == ["issuer", "key-id"];
    assert ["issuer"] + ["verification-method"] == ["issuer", "verification-method"];
  }

  /** Every setting of the source's block, at its path under the name. */
  lemma SourceConfigures(loop: Loop)
    requires loop.Source?
    ensures LoopSettings(loop) == Nested(loop.name,
      [Entry(["role"], Str("source")), Entry(["ingress-subject"], Str(loop.ingress)), Entry(["output-subject"], Str(loop.output))]
      + [Entry(["issuer", "did"], Str(loop.issuer)), Entry(["issuer", "key-id"], Str("signing")),
         Entry(["issuer", "verification-method"], Str(loop.issuer + "#signing"))]
      + [Entry(["pipeline-id"], Str(loop.pipelineID)), Entry(["process-id"], Str(loop.processID)),
         Entry(["transformation-claim"], Str("convert"))])
  {
    FieldsOfThree(Setting("role", 12, "source"), Setting("ingress-subject", 1, loop.ingress), Setting("output-subject", 2, loop.output));
    IssuerConfigures(loop.issuer);
    FieldsOfThree(Setting("pipeline-id", 10, loop.pipelineID), Setting("process-id", 11, loop.processID),
                  Setting("transformation-claim", 1, "convert"));
  }

  /** Every setting of a hop's block: its own fields stand under `chained`, and its
      converter stamps its number on the payload. */
  lemma HopConfigures(loop: Loop)
    requires loop.Chained?
    ensures LoopSettings(loop) == Nested(loop.name,
      [Entry(["role"], Str("chained")), Entry(["ingress-subject"], Str(loop.ingress))]
      + Nested("chained",
          [Entry(["output-subject"], Str(loop.output))]
          + [Entry(["issuer", "did"], Str(loop.issuer)), Entry(["issuer", "key-id"], Str("signing")),
             Entry(["issuer", "verification-method"], Str(loop.issuer + "#signing"))]
          + [Entry(["pipeline-id"], Str(loop.pipelineID)), Entry(["process-id"], Str(loop.processID)),
             Entry(["transformation-claim"], Str("convert")), Entry(["verification-strategy"], Str("adjacent")),
             Entry(["upstream-endpoint"], Str(loop.upstream)),
             Entry(["converter"], Str("$merge([$, {'hop': " + Text.Decimal(loop.stamp) + "}])"))]))
  {
    FieldsOfTwo(Setting("role", 12, "chained"), Setting("ingress-subject", 1, loop.ingress));
    assert FieldSettings(OutputFields(loop.output)) == [Entry(["output-subject"], Str(loop.output))];
    IssuerConfigures(loop.issuer);
    FieldsOfSix(Setting("pipeline-id", 11, loop.pipelineID), Setting("process-id", 12, loop.processID),
                Setting("transformation-claim", 2, "convert"), Setting("verification-strategy", 1, "adjacent"),
                Setting("upstream-endpoint", 5, loop.upstream), Setting("converter", 13, Converter(loop.stamp)));
  }

  /** Every setting of the sink's block. */
  lemma SinkConfigures(loop: Loop)
    requires loop.Sink?
    ensures LoopSettings(loop) == Nested(loop.name,
      [Entry(["role"], Str("sink")), Entry(["ingress-subject"], Str(loop.ingress))]
      + Nested("sink",
          [Entry(["kind"], Str("observation-only")), Entry(["verification-strategy"], Str("adjacent")),
           Entry(["upstream-endpoint"], Str(loop.upstream))]))
  {
    FieldsOfTwo(Setting("role", 12, "sink"), Setting("ingress-subject", 1, loop.ingress));
    FieldsOfThree(Setting("kind", 18, "observation-only"), Setting("verification-strategy", 1, "adjacent"),
                  Setting("upstream-endpoint", 5, loop.upstream));
  }

  function BlockSettings(loops: seq<Loop>): seq<Entry> {
    if loops == [] then [] else BlockSettings(loops[..|loops| - 1]) + LoopSettings(loops[|loops| - 1])
  }

  /** Every string the loop quotes is representable and its name is a plain key. */
  predicate Quotable(loop: Loop) {
    && PlainKey(loop.name) && Representable(loop.ingress)
    && (loop.Source? || loop.Chained? ==>
          Representable(loop.output) && Representable(loop.issuer) && Representable(loop.pipelineID) && Representable(loop.processID))
    && (loop.Chained? || loop.Sink? ==> Representable(loop.upstream))
  }

  lemma RoleKeys()
    ensures PlainKey("role") && PlainKey("ingress-subject")
  {
  }

  lemma OutputKey()
    ensures PlainKey("output-subject")
  {
  }

  lemma IssuerKeys()
    ensures PlainKey("issuer") && PlainKey("did") && PlainKey("key-id")
  {
  }

  lemma MethodKey()
    ensures PlainKey("verification-method")
  {
  }

  lemma IdKeys()
    ensures PlainKey("pipeline-id") && PlainKey("process-id")
  {
  }

  lemma ClaimKey()
    ensures PlainKey("transformation-claim")
  {
  }

  lemma StrategyKey()
    ensures PlainKey("verification-strategy")
  {
  }

  lemma UpstreamKey()
    ensures PlainKey("upstream-endpoint")
  {
  }

  lemma BlockKeys()
    ensures PlainKey("chained") && PlainKey("sink") && PlainKey("kind") && PlainKey("converter")
  {
  }

  lemma Roles()
    ensures Representable("source") && Representable("chained") && Representable("sink")
    ensures Representable("signing") && Representable("#signing")
  {
  }

  lemma Words()
    ensures Representable("source") && Representable("chained") && Representable("sink")
    ensures Representable("signing") && Representable("#signing")
    ensures Representable("convert") && Representable("adjacent") && Representable("observation-only")
  {
    Roles();
  }

  lemma RepresentableConcat(a: string, b: string)
    requires Representable(a) && Representable(b)
    ensures Representable(a + b)
  {
  }

  lemma DecimalRepresentable(n: nat)
    ensures Representable(Text.Decimal(n))
  {
    assert forall c | c in Text.Decimal(n) :: Text.IsDigit(c);
  }

  lemma ConverterRepresentable(stamp: nat)
    ensures Representable(Converter(stamp))
  {
    DecimalRepresentable(stamp);
    RepresentableConcat("$merge([$, {'hop': ", Text.Decimal(stamp));
    RepresentableConcat("$merge([$, {'hop': " + Text.Decimal(stamp), "}])");
  }

  lemma SettingReads(key: string, pad: nat, text: string)
    requires PlainKey(key) && pad > 0 && Representable(text)
    ensures FieldReads(Setting(key, pad, text))
  {
  }

  lemma IssuerReads(issuer: string)
    requires Representable(issuer)
    ensures forall f | f in IssuerFields(issuer) :: FieldReads(f)
  {
    IssuerKeys();
    MethodKey();
    Words();
    RepresentableConcat(issuer, "#signing");
    SettingReads("did", 17, issuer);
    SettingReads("key-id", 14, "signing");
    SettingReads("verification-method", 1, issuer + "#signing");
  }

  lemma SourceHeadReads(ingress: string, output: string)
    requires Representable(ingress) && Representable(output)
    ensures forall f | f in SourceHead(ingress, output) :: FieldReads(f)
  {
    RoleKeys();
    OutputKey();
    Words();
    SettingReads("role", 12, "source");
    SettingReads("ingress-subject", 1, ingress);
    SettingReads("output-subject", 2, output);
  }

  lemma SourceTailReads(pipelineID: string, processID: string)
    requires Representable(pipelineID) && Representable(processID)
    ensures forall f | f in SourceTail(pipelineID, processID) :: FieldReads(f)
  {
    IdKeys();
    ClaimKey();
    Words();
    SettingReads("pipeline-id", 10, pipelineID);
    SettingReads("process-id", 11, processID);
    SettingReads("transformation-claim", 1, "convert");
  }

  lemma RoleReads(role: string, ingress: string)
    requires Representable(role) && Representable(ingress)
    ensures forall f | f in RoleFields(role, ingress) :: FieldReads(f)
  {
    RoleKeys();
    SettingReads("role", 12, role);
    SettingReads("ingress-subject", 1, ingress);
  }

  lemma OutputReads(output: string)
    requires Representable(output)
    ensures forall f | f in OutputFields(output) :: FieldReads(f)
  {
    OutputKey();
    SettingReads("output-subject", 1, output);
  }

  lemma ChainedTailReads(pipelineID: string, processID: string, upstream: string, stamp: nat)
    requires Representable(pipelineID) && Representable(processID) && Representable(upstream)
    ensures forall f | f in ChainedTail(pipelineID, processID, upstream, stamp) :: FieldReads(f)
  {
    IdKeys();
    ClaimKey();
    StrategyKey();
    UpstreamKey();
    BlockKeys();
    Words();
    ConverterRepresentable(stamp);
    SettingReads("pipeline-id", 11, pipelineID);
    SettingReads("process-id", 12, processID);
    SettingReads("transformation-claim", 2, "convert");
    SettingReads("verification-strategy", 1, "adjacent");
    SettingReads("upstream-endpoint", 5, upstream);
    SettingReads("converter", 13, Converter(stamp));
  }

  lemma SinkReads(upstream: string)
    requires Representable(upstream)
    ensures forall f | f in SinkFields(upstream) :: FieldReads(f)
  {
    StrategyKey();
    UpstreamKey();
    BlockKeys();
    Words();
    SettingReads("kind", 18, "observation-only");
    SettingReads("verification-strategy", 1, "adjacent");
    SettingReads("upstream-endpoint", 5, upstream);
  }

  /** Two runs of settings with a block between them, inside a block. */
  lemma BlockSets(indent: nat, key: string, before: seq<Field>, n: nat, inner: seq<Line>, made: seq<Entry>, after: seq<Field>)
    requires PlainKey(key) && Sets(inner, made)
    requires forall f | f in before :: FieldReads(f)
    requires forall f | f in after :: FieldReads(f)
    ensures Sets(Block(indent, key, FieldLines(n, before) + inner + FieldLines(n, after)),
                 Nested(key, FieldSettings(before) + made + FieldSettings(after)))
  {
    SetsFields(n, before);
    SetsFields(n, after);
    SetsConcat(FieldLines(n, before), FieldSettings(before), inner, made);
    SetsConcat(FieldLines(n, before) + inner, FieldSettings(before) + made, FieldLines(n, after), FieldSettings(after));
    SetsPlainBlock(indent, key, FieldLines(n, before) + inner + FieldLines(n, after),
                   FieldSettings(before) + made + FieldSettings(after));
  }

  lemma FieldsBlockSets(indent: nat, key: string, n: nat, fields: seq<Field>)
    requires PlainKey(key) && forall f | f in fields :: FieldReads(f)
    ensures Sets(Block(indent, key, FieldLines(n, fields)), Nested(key, FieldSettings(fields)))
  {
    SetsFields(n, fields);
    SetsPlainBlock(indent, key, FieldLines(n, fields), FieldSettings(fields));
  }

  lemma FieldsThenBlock(indent: nat, key: string, fields: seq<Field>, n: nat, inner: seq<Line>, made: seq<Entry>)
    requires PlainKey(key) && Sets(inner, made)
    requires forall f | f in fields :: FieldReads(f)
    ensures Sets(Block(indent, key, FieldLines(n, fields) + inner), Nested(key, FieldSettings(fields) + made))
  {
    SetsFields(n, fields);
    SetsConcat(FieldLines(n, fields), FieldSettings(fields), inner, made);
    SetsPlainBlock(indent, key, FieldLines(n, fields) + inner, FieldSettings(fields) + made);
  }

  lemma IssuerSets(indent: nat, issuer: string)
    requires Representable(issuer)
    ensures Sets(Block(indent, "issuer", FieldLines(indent + 2, IssuerFields(issuer))),
                 Nested("issuer", FieldSettings(IssuerFields(issuer))))
  {
    IssuerKeys();
    IssuerReads(issuer);
    FieldsBlockSets(indent, "issuer", indent + 2, IssuerFields(issuer));
  }

  lemma SourceSets(name: string, ingress: string, output: string, issuer: string, pipelineID: string, processID: string)
    requires PlainKey(name) && Representable(ingress) && Representable(output) && Representable(issuer)
    requires Representable(pipelineID) && Representable(processID)
    ensures var loop := Source(name, ingress, output, issuer, pipelineID, processID);
      Sets(LoopLines(loop), LoopSettings(loop))
  {
    SourceHeadReads(ingress, output);
    SourceTailReads(pipelineID, processID);
    IssuerSets(8, issuer);
    BlockSets(6, name, SourceHead(ingress, output), 8, Block(8, "issuer", FieldLines(10, IssuerFields(issuer))),
              Nested("issuer", FieldSettings(IssuerFields(issuer))), SourceTail(pipelineID, processID));
  }

  lemma ChainedSets(name: string, ingress: string, output: string, issuer: string, pipelineID: string, processID: string,
                    upstream: string, stamp: nat)
    requires PlainKey(name) && Representable(ingress) && Representable(output) && Representable(issuer)
    requires Representable(pipelineID) && Representable(processID) && Representable(upstream)
    ensures var loop := Chained(name, ingress, output, issuer, pipelineID, processID, upstream, stamp);
      Sets(LoopLines(loop), LoopSettings(loop))
  {
    var out, tail := OutputFields(output), ChainedTail(pipelineID, processID, upstream, stamp);
    var inner, made := Block(10, "issuer", FieldLines(12, IssuerFields(issuer))), Nested("issuer", FieldSettings(IssuerFields(issuer)));
    BlockKeys();
    Words();
    OutputReads(output);
    ChainedTailReads(pipelineID, processID, upstream, stamp);
    RoleReads("chained", ingress);
    IssuerSets(10, issuer);
    BlockSets(8, "chained", out, 10, inner, made, tail);
    FieldsThenBlock(6, name, RoleFields("chained", ingress), 8,
                    Block(8, "chained", FieldLines(10, out) + inner + FieldLines(10, tail)),
                    Nested("chained", FieldSettings(out) + made + FieldSettings(tail)));
  }

  lemma SinkSets(name: string, ingress: string, upstream: string)
    requires PlainKey(name) && Representable(ingress) && Representable(upstream)
    ensures var loop := Sink(name, ingress, upstream); Sets(LoopLines(loop), LoopSettings(loop))
  {
    BlockKeys();
    Words();
    SinkReads(upstream);
    RoleReads("sink", ingress);
    FieldsBlockSets(8, "sink", 10, SinkFields(upstream));
    FieldsThenBlock(6, name, RoleFields("sink", ingress), 8, Block(8, "sink", FieldLines(10, SinkFields(upstream))),
                    Nested("sink", FieldSettings(SinkFields(upstream))));
  }

  lemma LoopSets(loop: Loop)
    requires Quotable(loop)
    ensures Sets(LoopLines(loop), LoopSettings(loop))
  {
    match loop
    case Source(name, ingress, output, issuer, pipelineID, processID) =>
      SourceSets(name, ingress, output, issuer, pipelineID, processID);
    case Chained(name, ingress, output, issuer, pipelineID, processID, upstream, stamp) =>
      ChainedSets(name, ingress, output, issuer, pipelineID, processID, upstream, stamp);
    case Sink(name, ingress, upstream) =>
      SinkSets(name, ingress, upstream);
  }

  lemma {:induction false} LoopsSet(loops: seq<Loop>)
    requires forall loop | loop in loops :: Quotable(loop)
    ensures Sets(BlockLines(loops), BlockSettings(loops))
  {
    if loops == [] {
      SetsNothing();
    } else {
      var front, last := loops[..|loops| - 1], loops[|loops| - 1];
      LoopsSet(front);
      LoopSets(last);
      SetsConcat(BlockLines(front), BlockSettings(front), LoopLines(last), LoopSettings(last));
    }
  }

  /* ---- the relay's block ---- */

  lemma PadPlain(n: nat)
    ensures Representable(Text.Pad2(n)) && forall c | c in Text.Pad2(n) :: IsWordChar(c) && c != '.'
  {
    assert forall c | c in Text.Decimal(n) :: Text.IsDigit(c);
  }

  lemma HopNamePlain(i: nat)
    ensures PlainKey(HopName(i)) && Representable(HopName(i)) && Representable(HopCode(i))
  {
    PadPlain(i);
    assert forall c | c in HopName(i) :: IsWordChar(c) && c != '.' && Representable([c]);
  }

  lemma FixedNames()
    ensures PlainKey("src") && PlainKey("archive") && Representable("deep") && Representable("s1")
    ensures Representable(INGRESS)
  {
  }

  lemma OrgRepresentable()
    ensures Representable(ORG_BASE)
  {
    assert Representable(ORG);
    RepresentableConcat(ORG, ":");
  }

  lemma NameRepresentable(i: nat)
    ensures Representable(NameAt(i)) && Representable(CodeAt(i))
  {
    FixedNames();
    HopNamePlain(i);
  }

  lemma PipelineRepresentable(i: nat)
    ensures Representable(PipelineAt(i))
  {
    OrgRepresentable();
    NameRepresentable(i);
    RepresentableConcat(ORG_BASE, NameAt(i));
  }

  lemma ProcessRepresentable(i: nat)
    ensures Representable(ProcessAt(i))
  {
    PipelineRepresentable(i);
    NameRepresentable(i);
    RepresentableConcat(":process:", CodeAt(i));
    RepresentableConcat(PipelineAt(i), ":process:" + CodeAt(i));
    assert ":process:" + "s1" == ":process:s1";
  }

  lemma LoopQuotable(selfBase: string, n: nat, p: nat)
    requires Representable(selfBase)
    ensures Quotable(LoopAt(selfBase, n, p))
  {
    FixedNames();
    HopNamePlain(p);
    PipelineRepresentable(p);
    ProcessRepresentable(p);
    if p > 0 {
      PipelineRepresentable(p - 1);
    }
  }

  lemma NameDistinct(selfBase: string, n: nat, p: nat, q: nat)
    requires p < q <= n + 1
    ensures LoopAt(selfBase, n, p).name != LoopAt(selfBase, n, q).name
  {
    if 0 < p && q <= n && HopName(p) == HopName(q) {
      NameInjective(p, q);
    }
    assert 0 < p ==> LoopAt(selfBase, n, p).name[0] == 'h';
    assert q <= n ==> LoopAt(selfBase, n, q).name[0] == 'h';
  }

  /** The settings made under a loop's name. */
  function Under(es: seq<Entry>, name: string): seq<Entry> {
    if es == [] then []
    else
      var last := es[|es| - 1];
      Under(es[..|es| - 1], name) + if last.path != [] && last.path[0] == name then [last] else []
  }

  lemma {:induction false} UnderConcat(a: seq<Entry>, b: seq<Entry>, name: string)
    ensures Under(a + b, name) == Under(a, name) + Under(b, name)
  {
    if b == [] {
      assert a + b == a;
    } else {
      var front := b[..|b| - 1];
      assert (a + b)[..|a + b| - 1] == a + front;
      UnderConcat(a, front, name);
    }
  }

  lemma {:induction false} UnderNested(key: string, es: seq<Entry>, name: string)
    ensures Under(Nested(key, es), name) == if key == name then Nested(key, es) else []
  {
    if es != [] {
      var front, last := es[..|es| - 1], es[|es| - 1];
      var all := Nested(key, es);
      assert all[..|all| - 1] == Nested(key, front);
      UnderNested(key, front, name);
      assert all[|all| - 1].path[0] == key;
      assert all == Nested(key, front) + [all[|all| - 1]];
    }
  }

  lemma LoopUnder(loop: Loop, name: string)
    ensures Under(LoopSettings(loop), name) == if loop.name == name then LoopSettings(loop) else []
  {
    match loop
    case Source(key, ingress, output, issuer, pipelineID, processID) =>
      UnderNested(key, FieldSettings(SourceHead(ingress, output)) + Nested("issuer", FieldSettings(IssuerFields(issuer)))
                       + FieldSettings(SourceTail(pipelineID, processID)), name);
    case Chained(key, ingress, output, issuer, pipelineID, processID, upstream, stamp) =>
      UnderNested(key, FieldSettings(RoleFields("chained", ingress))
                       + Nested("chained", FieldSettings(OutputFields(output))
                                           + Nested("issuer", FieldSettings(IssuerFields(issuer)))
                                           + FieldSettings(ChainedTail(pipelineID, processID, upstream, stamp))), name);
    case Sink(key, ingress, upstream) =>
      UnderNested(key, FieldSettings(RoleFields("sink", ingress)) + Nested("sink", FieldSettings(SinkFields(upstream))), name);
  }

  /** `Under(BlockSettings(loops), name) == []`, said so that callers do not unfold the settings. */
  ghost predicate SetsNone(loops: seq<Loop>, name: string) {
    forall ls | ls == loops :: Under(BlockSettings(ls), name) == []
  }

  lemma LastUnder(loops: seq<Loop>, last: Loop, name: string)
    ensures last.name != name ==> Under(BlockSettings(loops + [last]), name) == Under(BlockSettings(loops), name)
    ensures last.name == name && SetsNone(loops, name)
        ==> Under(BlockSettings(loops + [last]), name) == LoopSettings(last)
  {
    assert (loops + [last])[..|loops|] == loops;
    LoopUnder(last, name);
    UnderAppended(BlockSettings(loops), LoopSettings(last), name);
  }

  lemma UnderAppended(a: seq<Entry>, b: seq<Entry>, name: string)
    ensures Under(b, name) == [] ==> Under(a + b, name) == Under(a, name)
    ensures Under(a, name) == [] && Under(b, name) == b ==> Under(a + b, name) == b
  {
    UnderConcat(a, b, name);
    assert Under(a, name) + [] == Under(a, name) && [] + b == b;
  }

  lemma LastSetsNone(loops: seq<Loop>, last: Loop, name: string)
    requires SetsNone(loops, name) && last.name != name
    ensures SetsNone(loops + [last], name)
  {
    LastUnder(loops, last, name);
  }

  /** A name no loop has sets nothing. */
  lemma {:induction false} NothingUnder(loops: seq<Loop>, name: string)
    requires forall q | 0 <= q < |loops| :: loops[q].name != name
    ensures SetsNone(loops, name)
  {
    if loops != [] {
      var front, last := loops[..|loops| - 1], loops[|loops| - 1];
      NothingUnder(front, name);
      LastSetsNone(front, last, name);
      assert loops == front + [last];
    }
  }

  /** Loops under different names never touch one another's settings. */
  lemma {:induction false} EachKeepsItsOwn(loops: seq<Loop>, p: nat, loop: Loop)
    requires p < |loops| && loops[p] == loop
    requires forall q | 0 <= q < |loops| && q != p :: loops[q].name != loop.name
    ensures Under(BlockSettings(loops), loop.name) == LoopSettings(loop)
  {
    var k := |loops| - 1;
    var front, last := loops[..k], loops[k];
    assert loops == front + [last];
    if p == k {
      NothingUnder(front, loop.name);
      LastUnder(front, last, loop.name);
    } else {
      EachKeepsItsOwn(front, p, loop);
      OthersBehind(front, last, loop);
    }
  }

  lemma OthersBehind(front: seq<Loop>, last: Loop, loop: Loop)
    requires Under(BlockSettings(front), loop.name) == LoopSettings(loop) && last.name != loop.name
    ensures Under(BlockSettings(front + [last]), loop.name) == LoopSettings(loop)
  {
    LastUnder(front, last, loop.name);
  }

  /** The rendered block loads, so it can stand verbatim in a configuration. */
  lemma BlockReadsBack(selfBase: string, n: nat)
    requires Representable(selfBase)
    ensures Load(Led(BlockLines(Topology(selfBase, n)))) == Some(BlockSettings(Topology(selfBase, n)))
    ensures WellFormed(Led(BlockLines(Topology(selfBase, n))))
  {
    var loops := Topology(selfBase, n);
    forall loop | loop in loops ensures Quotable(loop) {
      var p :| 0 <= p < |loops| && loops[p] == loop;
      LoopQuotable(selfBase, n, p);
    }
    BlockLoads(loops);
  }

  lemma BlockLoads(loops: seq<Loop>)
    requires forall loop | loop in loops :: Quotable(loop)
    ensures Load(Led(BlockLines(loops))) == Some(BlockSettings(loops))
  {
    LoopsSet(loops);
    LedLoads(BlockLines(loops), BlockSettings(loops));
  }

  /** Under each loop's name the block sets that loop's own settings, no more and none lost. */
  lemma LoopReadsBack(selfBase: string, n: nat, p: nat)
    requires p <= n + 1
    ensures var loop := LoopAt(selfBase, n, p);
      Under(BlockSettings(Topology(selfBase, n)), loop.name) == LoopSettings(loop)
  {
    var loops := Topology(selfBase, n);
    forall q | 0 <= q < |loops| && q != p ensures loops[q].name != loops[p].name {
      NameDistinct(selfBase, n, if p < q then p else q, if p < q then q else p);
    }
    EachKeepsItsOwn(loops, p, loops[p]);
  }

  /** In the pipeline's configuration the whole block stands under pipeline.loops, after
      everything both halves share. */
  lemma PipelineCarriesLoops(base: SeparatedConfig.Separated, selfBase: string, n: nat)
    requires Representable(selfBase) && SeparatedConfig.Splittable(base)
    ensures var c := base.(loopsBlock := Led(BlockLines(Topology(selfBase, n))));
      Load(Written(NodeConfig.ConfigLines(SeparatedConfig.Pipeline(c))))
         == Some([Entry(NodeConfig.CORE + ["listen-addr"], Str(c.pipelineListenAddr))] + SeparatedConfig.Shared(c)
                 + Prefixed(NodeConfig.PIPELINE, Prefixed(["loops"], BlockSettings(Topology(selfBase, n)))))
  {
    BlockReadsBack(selfBase, n);
    PipelineCarries(base, Led(BlockLines(Topology(selfBase, n))), BlockSettings(Topology(selfBase, n)));
  }

  lemma PipelineCarries(base: SeparatedConfig.Separated, block: string, es: seq<Entry>)
    requires Load(block) == Some(es) && SeparatedConfig.Splittable(base)
    ensures var c := base.(loopsBlock := block);
      Load(Written(NodeConfig.ConfigLines(SeparatedConfig.Pipeline(c))))
         == Some([Entry(NodeConfig.CORE + ["listen-addr"], Str(c.pipelineListenAddr))] + SeparatedConfig.Shared(c)
                 + Prefixed(NodeConfig.PIPELINE, Prefixed(["loops"], es)))
  {
    StillSplittable(base, block);
    var c := base.(loopsBlock := block);
    SeparatedConfig.SplitAgreement(c);
    FragmentOf(block, es);
  }

  lemma StillSplittable(base: SeparatedConfig.Separated, block: string)
    requires SeparatedConfig.Splittable(base) && WellFormed(block)
    ensures SeparatedConfig.Splittable(base.(loopsBlock := block))
  {
    assert SeparatedConfig.Network(base.(loopsBlock := block)) == SeparatedConfig.Network(base);
  }

  lemma FragmentOf(text: string, es: seq<Entry>)
    requires Load(text) == Some(es)
    ensures NodeConfig.FragmentSettings(text) == es
  {
  }
}
