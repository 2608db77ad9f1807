/** The long relay's identities and topology: a source, hops 1 to n, a sink, and the
    loops block that configures them. */
module Relay {
  import opened Text
  import opened KeyProvisioning

  const ORG := "did:dplaax:poc.dplaax.dev:org:acme:pipeline"
  const ORG_BASE := ORG + ":"
  const INGRESS := "ingest.deep"
  const SOURCE_PIPELINE := ORG_BASE + "deep"
  const SOURCE_PROCESS := SOURCE_PIPELINE + ":process:s1"

  function HopName(i: nat): string { "hop" + Pad2(i) }

  function HopCode(i: nat): string { "p" + Pad2(i) }

  function HopPipeline(i: nat): string { ORG_BASE + HopName(i) }

  function HopProcess(i: nat): string { HopPipeline(i) + (":process:" + HopCode(i)) }

  /** Counting the source as hop zero. */
  function PipelineAt(i: nat): string {
    if i == 0 then SOURCE_PIPELINE else HopPipeline(i)
  }

  function ProcessAt(i: nat): string {
    if i == 0 then SOURCE_PROCESS else HopProcess(i)
  }

  function PipelinesTo(n: nat): seq<string> { seq(n + 1, i requires 0 <= i => PipelineAt(i)) }

  function ProcessesTo(n: nat): seq<string> { seq(n + 1, i requires 0 <= i => ProcessAt(i)) }

  method ChainDIDs(hops: nat) returns (pipelines: seq<string>, processes: seq<string>)
    ensures pipelines == PipelinesTo(hops) && processes == ProcessesTo(hops)
  {
    pipelines, processes := [SOURCE_PIPELINE], [SOURCE_PROCESS];
    for i := 1 to hops + 1
      invariant pipelines == PipelinesTo(i - 1) && processes == ProcessesTo(i - 1)
    {
      pipelines := pipelines + [HopPipeline(i)];
      processes := processes + [HopProcess(i)];
    }
  }

  /* ---- the DIDs are distinct and nest only under their own pipeline ---- */

  function NameAt(i: nat): string { if i == 0 then "deep" else HopName(i) }

  function CodeAt(i: nat): string { if i == 0 then "s1" else HopCode(i) }

  /** The number of a hop in two or more digits, with no more zeros in front than that needs. */
  ghost predicate HopDigits(digits: string, i: nat) {
    && |digits| >= 2 && (|digits| > 2 ==> digits[0] != '0')
    && (forall c :: c in digits ==> IsDigit(c)) && DecimalValue(digits) == i
  }

  /** A hop's process carries the hop's own number, as its pipeline does. */
  lemma HopNumbered(i: nat) returns (digits: string)
    ensures HopDigits(digits, i) && HopName(i) == "hop" + digits && HopCode(i) == "p" + digits
    ensures HopPipeline(i) == "did:dplaax:poc.dplaax.dev:org:acme:pipeline:hop" + digits
    ensures HopProcess(i) == "did:dplaax:poc.dplaax.dev:org:acme:pipeline:hop" + digits + ":process:p" + digits
  {
    digits := Pad2(i);
    PadIsDigits(i);
    assert ORG_BASE == "did:dplaax:poc.dplaax.dev:org:acme:pipeline:";
    HopGlue("did:dplaax:poc.dplaax.dev:org:acme:pipeline:", digits);
  }

  lemma SourceNamed()
    ensures SOURCE_PIPELINE == "did:dplaax:poc.dplaax.dev:org:acme:pipeline:" + "deep"
    ensures SOURCE_PROCESS == "did:dplaax:poc.dplaax.dev:org:acme:pipeline:" + "deep:process:s1"
  {
    assert ORG_BASE == "did:dplaax:poc.dplaax.dev:org:acme:pipeline:";
    SourceGlue(ORG_BASE);
  }

  lemma SourceGlue(base: string)
    ensures base + "deep" + ":process:s1" == base + "deep:process:s1"
  {
  }

  lemma HopGlue(base: string, digits: string)
    ensures base + ("hop" + digits) + (":process:" + ("p" + digits)) == base + "hop" + digits + ":process:p" + digits
    ensures base + ("hop" + digits) == base + "hop" + digits
  {
  }

  lemma PadIsDigits(i: nat)
    ensures HopDigits(Pad2(i), i)
  {
    DecimalReadsBack(i);
    if i < 10 {
      assert Decimal(i)[..0] == [] && Pad2(i)[..1] == "0" && "0"[..0] == [];
      assert DecimalValue("0") == 0;
    } else {
      NoLeadingZero(i);
    }
  }

  lemma PadHasNoColon(n: nat)
    ensures ':' !in Pad2(n)
  {
    assert forall c | c in Decimal(n) :: IsDigit(c);
  }

  lemma NamesHaveNoColon(i: nat)
    ensures ':' !in NameAt(i) && ':' !in CodeAt(i)
  {
    PadHasNoColon(i);
  }

  lemma NameInjective(i: nat, j: nat)
    requires NameAt(i) == NameAt(j)
    ensures i == j
  {
    assert i > 0 ==> NameAt(i)[0] == 'h' && NameAt(i)[3..] == Pad2(i);
    assert j > 0 ==> NameAt(j)[0] == 'h' && NameAt(j)[3..] == Pad2(j);
    if i > 0 && j > 0 {
      Pad2Injective(i, j);
    }
  }

  lemma PipelineDirectory(i: nat)
    ensures Directory(PipelineAt(i)) == Directory(ORG) + [NameAt(i)]
  {
    NamesHaveNoColon(i);
    OneSegmentMore(ORG, NameAt(i));
  }

  lemma ProcessDirectory(i: nat)
    ensures Directory(ProcessAt(i)) == Directory(PipelineAt(i)) + ["process", CodeAt(i)]
  {
    NamesHaveNoColon(i);
    Reassociated(PipelineAt(i), CodeAt(i));
    OneSegmentMore(PipelineAt(i), "process");
    OneSegmentMore(PipelineAt(i) + ":" + "process", CodeAt(i));
    assert ProcessAt(i) == PipelineAt(i) + (":process:" + CodeAt(i));
  }

  lemma Reassociated(pipeline: string, code: string)
    ensures pipeline + (":process:" + code) == pipeline + ":" + "process" + ":" + code
  {
    assert ":process:" == ":" + "process" + ":";
  }

  lemma OneSegmentMore(did: string, segment: string)
    requires ':' !in segment
    ensures Directory(did + ":" + segment) == Directory(did) + [segment]
  {
    SplitConcat(did, segment, ":");
    SplitPlain(segment, ':');
  }

  lemma PipelineInjective(i: nat, j: nat)
    requires PipelineAt(i) == PipelineAt(j)
    ensures i == j
  {
    PipelineDirectory(i);
    PipelineDirectory(j);
    LastSegment(Directory(ORG), NameAt(i), NameAt(j));
    NameInjective(i, j);
  }

  lemma LastSegment(base: seq<string>, a: string, b: string)
    requires base + [a] == base + [b]
    ensures a == b
  {
    assert (base + [a])[|base|] == a && (base + [b])[|base|] == b;
  }

  /** Pipelines never nest under one another. */
  lemma PipelinesFit(n: nat)
    ensures Fits(PipelinesTo(n))
  {
    var dids := PipelinesTo(n);
    forall i, j | 0 <= i < j < |dids| ensures !Nests(dids[i], dids[j]) {
      PipelineDirectory(i);
      PipelineDirectory(j);
      SameLengthNests(dids[i], dids[j]);
      if PipelineAt(i) == PipelineAt(j) {
        PipelineInjective(i, j);
      }
    }
  }

  lemma SameLengthNests(did: string, under: string)
    requires |Directory(did)| == |Directory(under)|
    ensures Nests(did, under) <==> did == under
  {
    JoinSplit(did, ":");
    JoinSplit(under, ":");
    assert Nests(did, under) ==> Directory(did) == Directory(under);
  }

  lemma ProcessesFit(n: nat)
    ensures Fits(ProcessesTo(n))
  {
    var dids := ProcessesTo(n);
    forall i, j | 0 <= i < j < |dids| ensures !Nests(dids[i], dids[j]) {
      ProcessDirectory(i);
      ProcessDirectory(j);
      PipelineDirectory(i);
      PipelineDirectory(j);
      SameLengthNests(dids[i], dids[j]);
      if ProcessAt(i) == ProcessAt(j) {
        ProcessInjective(i, j);
      }
    }
  }

  lemma ProcessInjective(i: nat, j: nat)
    requires ProcessAt(i) == ProcessAt(j)
    ensures i == j
  {
    ProcessDirectory(i);
    ProcessDirectory(j);
    PipelineDirectory(i);
    PipelineDirectory(j);
    var base := |Directory(ORG)|;
    assert Directory(ProcessAt(i))[base] == NameAt(i) && Directory(ProcessAt(j))[base] == NameAt(j);
    NameInjective(i, j);
  }

  /** For every depth the two provisioning loops succeed, the source process being the node. */
  lemma ChainProvisions(n: nat)
    ensures Fits(PipelinesTo(n) + ProcessesTo(n))
    ensures SOURCE_PROCESS in PipelinesTo(n) + ProcessesTo(n)
  {
    PipelinesFit(n);
    ProcessesFit(n);
    forall p, q | p in PipelinesTo(n) && q in ProcessesTo(n) ensures |Directory(p)| < |Directory(q)| {
      var i :| 0 <= i <= n && p == PipelineAt(i);
      var j :| 0 <= j <= n && q == ProcessAt(j);
      PipelineDirectory(i);
      PipelineDirectory(j);
      ProcessDirectory(j);
    }
    TwoLoopsFit(PipelinesTo(n), ProcessesTo(n));
    assert (PipelinesTo(n) + ProcessesTo(n))[n + 1] == ProcessAt(0);
  }

  /** Processes first fails at every depth: the source's process makes its pipeline's directory. */
  lemma ProcessesFirstFails(n: nat)
    ensures !Fits(ProcessesTo(n) + PipelinesTo(n))
  {
    var dids := ProcessesTo(n) + PipelinesTo(n);
    Reassociated(PipelineAt(0), CodeAt(0));
    assert dids[0] == ProcessAt(0) && dids[n + 1] == PipelineAt(0);
    Regrouped(PipelineAt(0), CodeAt(0));
    ProcessBeforePipelineFails(dids, 0, n + 1, "process" + ":" + CodeAt(0));
  }

  lemma Regrouped(pipeline: string, code: string)
    ensures pipeline + ":" + "process" + ":" + code == pipeline + ":" + ("process" + ":" + code)
  {
  }
}
