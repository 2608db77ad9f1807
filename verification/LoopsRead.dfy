/** Reading the relay's loops back from what their text loads to, so that what runs is
    what the text configures. */
module LoopsRead {
  import opened Wrappers
  import opened Hocon
  import opened HoconLines
  import opened LoopsBlock
  import Text

  /* ---- one setting ---- */

  /** The string the last setting at the path holds. */
  function Lookup(es: seq<Entry>, path: seq<string>): Option<string> {
    if es == [] then None
    else
      var last := es[|es| - 1];
      if last.path != path then Lookup(es[..|es| - 1], path)
      else if last.value.Str? then Some(last.value.text) else None
  }

  /** A setting that is absent reads as the empty string. */
  function Get(es: seq<Entry>, path: seq<string>): string {
    var found := Lookup(es, path);
    if found.Some? then found.value else ""
  }

  predicate Elsewhere(es: seq<Entry>, path: seq<string>) {
    forall e | e in es :: e.path != path
  }

  lemma {:induction false} LookupLeft(a: seq<Entry>, b: seq<Entry>, path: seq<string>)
    requires Elsewhere(b, path)
    ensures Lookup(a + b, path) == Lookup(a, path)
  {
    if b == [] {
      assert a + b == a;
    } else {
      var front := b[..|b| - 1];
      assert (a + b)[..|a + b| - 1] == a + front;
      assert forall e | e in front :: e in b;
      assert b[|b| - 1] in b;
      LookupLeft(a, front, path);
    }
  }

  lemma {:induction false} LookupRight(a: seq<Entry>, b: seq<Entry>, path: seq<string>)
    requires Elsewhere(a, path)
    ensures Lookup(a + b, path) == Lookup(b, path)
  {
    if b == [] {
      assert a + b == a;
      LookupNothing(a, path);
    } else {
      var front := b[..|b| - 1];
      assert (a + b)[..|a + b| - 1] == a + front;
      LookupRight(a, front, path);
    }
  }

  lemma {:induction false} LookupNothing(es: seq<Entry>, path: seq<string>)
    requires Elsewhere(es, path)
    ensures Lookup(es, path) == None
  {
    if es != [] {
      assert forall e | e in es[..|es| - 1] :: e in es;
      assert es[|es| - 1] in es;
      LookupNothing(es[..|es| - 1], path);
    }
  }

  lemma {:induction false} LookupNested(key: string, es: seq<Entry>, path: seq<string>)
    ensures Lookup(Nested(key, es), [key] + path) == Lookup(es, path)
  {
    if es != [] {
      var front, last := es[..|es| - 1], es[|es| - 1];
      assert Nested(key, es)[..|es| - 1] == Nested(key, front);
      LookupNested(key, front, path);
      SameBelow(key, last.path, path);
    }
  }

  lemma SameBelow(key: string, p: seq<string>, q: seq<string>)
    ensures [key] + p == [key] + q <==> p == q
  {
    assert ([key] + p)[1..] == p && ([key] + q)[1..] == q;
  }

  lemma NestedElsewhere(key: string, es: seq<Entry>, path: seq<string>)
    requires path != [] && path[0] != key
    ensures Elsewhere(Nested(key, es), path)
  {
    forall e | e in Nested(key, es) ensures e.path != path {
      assert e.path[0] == key;
    }
  }

  /* ---- settings around a block ---- */

  /** String settings under keys of their own. */
  predicate Plainly(fields: seq<Field>) {
    && (forall f | f in fields :: f.path == [f.key] && f.value.Str?)
    && (forall i, j | 0 <= i < j < |fields| :: fields[i].key != fields[j].key)
  }

  predicate HasKey(fields: seq<Field>, key: string) {
    exists f | f in fields :: f.key == key
  }

  lemma FieldsElsewhere(fields: seq<Field>, path: seq<string>)
    requires Plainly(fields) && (|path| != 1 || !HasKey(fields, path[0]))
    ensures Elsewhere(FieldSettings(fields), path)
  {
    forall e | e in FieldSettings(fields) ensures e.path != path {
      var i :| 0 <= i < |fields| && FieldSettings(fields)[i] == e;
      assert fields[i] in fields;
    }
  }

  lemma {:induction false} FieldFound(fields: seq<Field>, i: nat)
    requires Plainly(fields) && i < |fields|
    ensures Lookup(FieldSettings(fields), [fields[i].key]) == Some(fields[i].value.text)
  {
    var n := |fields| - 1;
    var front := fields[..n];
    assert fields[n] in fields;
    assert forall f | f in front :: f in fields;
    assert FieldSettings(fields)[..n] == FieldSettings(front);
    if i < n {
      FieldFound(front, i);
    }
  }

  function Around(before: seq<Field>, key: string, inner: seq<Entry>, after: seq<Field>): seq<Entry> {
    FieldSettings(before) + Nested(key, inner) + FieldSettings(after)
  }

  predicate Apart(before: seq<Field>, key: string, after: seq<Field>) {
    && Plainly(before) && Plainly(after) && !HasKey(before, key) && !HasKey(after, key)
    && forall f | f in before :: !HasKey(after, f.key)
  }

  lemma FoundBefore(before: seq<Field>, key: string, inner: seq<Entry>, after: seq<Field>, i: nat)
    requires Apart(before, key, after) && i < |before|
    ensures Get(Around(before, key, inner, after), [before[i].key]) == before[i].value.text
  {
    var path := [before[i].key];
    assert before[i] in before;
    FieldsElsewhere(after, path);
    NestedElsewhere(key, inner, path);
    LookupLeft(FieldSettings(before) + Nested(key, inner), FieldSettings(after), path);
    LookupLeft(FieldSettings(before), Nested(key, inner), path);
    FieldFound(before, i);
  }

  lemma FoundAfter(before: seq<Field>, key: string, inner: seq<Entry>, after: seq<Field>, i: nat)
    requires Apart(before, key, after) && i < |after|
    ensures Get(Around(before, key, inner, after), [after[i].key]) == after[i].value.text
  {
    var path := [after[i].key];
    assert after[i] in after;
    FieldsElsewhere(before, path);
    NestedElsewhere(key, inner, path);
    assert Elsewhere(FieldSettings(before) + Nested(key, inner), path);
    LookupRight(FieldSettings(before) + Nested(key, inner), FieldSettings(after), path);
    FieldFound(after, i);
  }

  lemma FoundInside(before: seq<Field>, key: string, inner: seq<Entry>, after: seq<Field>, path: seq<string>)
    requires Apart(before, key, after)
    ensures Get(Around(before, key, inner, after), [key] + path) == Get(inner, path)
  {
    FieldsElsewhere(before, [key] + path);
    FieldsElsewhere(after, [key] + path);
    LookupLeft(FieldSettings(before) + Nested(key, inner), FieldSettings(after), [key] + path);
    LookupRight(FieldSettings(before), Nested(key, inner), [key] + path);
    LookupNested(key, inner, path);
  }

  lemma GetNested(key: string, es: seq<Entry>, path: seq<string>)
    ensures Get(Nested(key, es), [key] + path) == Get(es, path)
  {
    LookupNested(key, es, path);
  }

  /* ---- one loop ---- */

  const CONVERTER_START := "$merge([$, {'hop': "
  const CONVERTER_END := "}])"

  /** The number a converter stamps. */
  function StampOf(converter: string): Option<nat> {
    var digits := |converter| - |CONVERTER_START| - |CONVERTER_END|;
    if digits < 1 || !(CONVERTER_START <= converter) || converter[|CONVERTER_START| + digits..] != CONVERTER_END then None
    else
      var number := converter[|CONVERTER_START|..|CONVERTER_START| + digits];
      if forall c | c in number :: Text.IsDigit(c) then Some(Text.DecimalValue(number)) else None
  }

  lemma StampReads(stamp: nat)
    ensures StampOf(Converter(stamp)) == Some(stamp)
  {
    var c, number := Converter(stamp), Text.Decimal(stamp);
    StampParts(CONVERTER_START, number, CONVERTER_END, c);
    Text.DecimalReadsBack(stamp);
  }

  lemma StampParts(a: string, number: string, b: string, c: string)
    requires c == a + number + b
    ensures a <= c && |c| - |a| - |b| == |number|
    ensures c[|a|..|a| + |number|] == number && c[|a| + |number|..] == b
  {
  }

  /** Nothing but a converter is read as one. */
  lemma StampOnly(converter: string) returns (digits: string)
    requires StampOf(converter).Some?
    ensures converter == "$merge([$, {'hop': " + digits + "}])"
    ensures digits != "" && (forall c :: c in digits ==> Text.IsDigit(c)) && StampOf(converter) == Some(Text.DecimalValue(digits))
  {
    var n, k := |CONVERTER_START|, |converter| - |CONVERTER_START| - |CONVERTER_END|;
    digits := converter[n..n + k];
    Whole(converter, n, n + k);
  }

  lemma Whole(s: string, i: nat, j: nat)
    requires i <= j <= |s|
    ensures s == s[..i] + s[i..j] + s[j..]
  {
  }

  /** The loop that the settings under one name configure. */
  function ReadLoop(name: string, es: seq<Entry>): Option<Loop> {
    var role, ingress := Get(es, [name] + ["role"]), Get(es, [name] + ["ingress-subject"]);
    if role == "source" then
      Some(Source(name, ingress, Get(es, [name] + ["output-subject"]), Get(es, [name] + (["issuer"] + ["did"])),
                  Get(es, [name] + ["pipeline-id"]), Get(es, [name] + ["process-id"])))
    else if role == "chained" then
      var stamp := StampOf(Get(es, [name] + (["chained"] + ["converter"])));
      if stamp.None? then None
      else
        Some(Chained(name, ingress, Get(es, [name] + (["chained"] + ["output-subject"])),
                     Get(es, [name] + (["chained"] + (["issuer"] + ["did"]))),
                     Get(es, [name] + (["chained"] + ["pipeline-id"])), Get(es, [name] + (["chained"] + ["process-id"])),
                     Get(es, [name] + (["chained"] + ["upstream-endpoint"])), stamp.value))
    else if role == "sink" then
      Some(Sink(name, ingress, Get(es, [name] + (["sink"] + ["upstream-endpoint"]))))
    else None
  }

  /* ---- the keys of a loop's settings are apart ---- */

  lemma IssuerPlainly(issuer: string)
    ensures Plainly(IssuerFields(issuer))
  {
  }

  lemma SourceApart(ingress: string, output: string, pipelineID: string, processID: string)
    ensures Apart(SourceHead(ingress, output), "issuer", SourceTail(pipelineID, processID))
  {
  }

  lemma ChainedTailPlainly(pipelineID: string, processID: string, upstream: string, stamp: nat)
    ensures Plainly(ChainedTail(pipelineID, processID, upstream, stamp))
  {
  }

  lemma ChainedApart(output: string, pipelineID: string, processID: string, upstream: string, stamp: nat)
    ensures Apart(OutputFields(output), "issuer", ChainedTail(pipelineID, processID, upstream, stamp))
  {
    ChainedTailPlainly(pipelineID, processID, upstream, stamp);
  }

  lemma RoleApart(role: string, ingress: string, key: string)
    requires key == "chained" || key == "sink"
    ensures Apart(RoleFields(role, ingress), key, [])
  {
  }

  lemma SinkPlainly(upstream: string)
    ensures Plainly(SinkFields(upstream))
  {
  }

  /* ---- each kind of loop reads back ---- */

  lemma IssuerFound(issuer: string)
    ensures Get(FieldSettings(IssuerFields(issuer)), ["did"]) == issuer
  {
    IssuerPlainly(issuer);
    FieldFound(IssuerFields(issuer), 0);
  }

  lemma SourceInside(ingress: string, output: string, issuer: string, pipelineID: string, processID: string)
    ensures var es := Around(SourceHead(ingress, output), "issuer", FieldSettings(IssuerFields(issuer)), SourceTail(pipelineID, processID));
      && Get(es, ["role"]) == "source" && Get(es, ["ingress-subject"]) == ingress && Get(es, ["output-subject"]) == output
      && Get(es, ["issuer"] + ["did"]) == issuer
      && Get(es, ["pipeline-id"]) == pipelineID && Get(es, ["process-id"]) == processID
  {
    var head, inner, tail := SourceHead(ingress, output), FieldSettings(IssuerFields(issuer)), SourceTail(pipelineID, processID);
    SourceApart(ingress, output, pipelineID, processID);
    FoundBefore(head, "issuer", inner, tail, 0);
    FoundBefore(head, "issuer", inner, tail, 1);
    FoundBefore(head, "issuer", inner, tail, 2);
    FoundInside(head, "issuer", inner, tail, ["did"]);
    IssuerFound(issuer);
    FoundAfter(head, "issuer", inner, tail, 0);
    FoundAfter(head, "issuer", inner, tail, 1);
  }

  lemma SourceReads(name: string, ingress: string, output: string, issuer: string, pipelineID: string, processID: string)
    ensures var loop := Source(name, ingress, output, issuer, pipelineID, processID);
      ReadLoop(name, LoopSettings(loop)) == Some(loop)
  {
    var es := Around(SourceHead(ingress, output), "issuer", FieldSettings(IssuerFields(issuer)), SourceTail(pipelineID, processID));
    SourceInside(ingress, output, issuer, pipelineID, processID);
    GetNested(name, es, ["role"]);
    GetNested(name, es, ["ingress-subject"]);
    GetNested(name, es, ["output-subject"]);
    GetNested(name, es, ["issuer"] + ["did"]);
    GetNested(name, es, ["pipeline-id"]);
    GetNested(name, es, ["process-id"]);
  }

  lemma ChainedInside(output: string, issuer: string, pipelineID: string, processID: string, upstream: string, stamp: nat)
    ensures var es := Around(OutputFields(output), "issuer", FieldSettings(IssuerFields(issuer)),
                             ChainedTail(pipelineID, processID, upstream, stamp));
      && Get(es, ["output-subject"]) == output && Get(es, ["issuer"] + ["did"]) == issuer
      && Get(es, ["pipeline-id"]) == pipelineID && Get(es, ["process-id"]) == processID
      && Get(es, ["upstream-endpoint"]) == upstream && Get(es, ["converter"]) == Converter(stamp)
  {
    var head, inner, tail := OutputFields(output), FieldSettings(IssuerFields(issuer)), ChainedTail(pipelineID, processID, upstream, stamp);
    ChainedApart(output, pipelineID, processID, upstream, stamp);
    FoundBefore(head, "issuer", inner, tail, 0);
    FoundInside(head, "issuer", inner, tail, ["did"]);
    IssuerFound(issuer);
    FoundAfter(head, "issuer", inner, tail, 0);
    FoundAfter(head, "issuer", inner, tail, 1);
    FoundAfter(head, "issuer", inner, tail, 4);
    FoundAfter(head, "issuer", inner, tail, 5);
  }

  /** The role, the ingress and what stands in the loop's own block. */
  lemma RoleInside(role: string, ingress: string, key: string, inner: seq<Entry>, path: seq<string>)
    requires key == "chained" || key == "sink"
    ensures var es := FieldSettings(RoleFields(role, ingress)) + Nested(key, inner);
      Get(es, ["role"]) == role && Get(es, ["ingress-subject"]) == ingress && Get(es, [key] + path) == Get(inner, path)
  {
    var head := RoleFields(role, ingress);
    RoleApart(role, ingress, key);
    assert Around(head, key, inner, []) == FieldSettings(head) + Nested(key, inner);
    FoundBefore(head, key, inner, [], 0);
    FoundBefore(head, key, inner, [], 1);
    FoundInside(head, key, inner, [], path);
  }

  /** So under the loop's name too. */
  lemma RoleUnder(name: string, role: string, ingress: string, key: string, inner: seq<Entry>, path: seq<string>)
    requires key == "chained" || key == "sink"
    ensures var es := Nested(name, FieldSettings(RoleFields(role, ingress)) + Nested(key, inner));
      && Get(es, [name] + ["role"]) == role && Get(es, [name] + ["ingress-subject"]) == ingress
      && Get(es, [name] + ([key] + path)) == Get(inner, path)
  {
    var es := FieldSettings(RoleFields(role, ingress)) + Nested(key, inner);
    RoleInside(role, ingress, key, inner, path);
    GetNested(name, es, ["role"]);
    GetNested(name, es, ["ingress-subject"]);
    GetNested(name, es, [key] + path);
  }

  lemma ChainedReads(name: string, ingress: string, output: string, issuer: string, pipelineID: string, processID: string,
                     upstream: string, stamp: nat)
    ensures var loop := Chained(name, ingress, output, issuer, pipelineID, processID, upstream, stamp);
      ReadLoop(name, LoopSettings(loop)) == Some(loop)
  {
    var inner := Around(OutputFields(output), "issuer", FieldSettings(IssuerFields(issuer)),
                        ChainedTail(pipelineID, processID, upstream, stamp));
    ChainedInside(output, issuer, pipelineID, processID, upstream, stamp);
    RoleUnder(name, "chained", ingress, "chained", inner, ["output-subject"]);
    RoleUnder(name, "chained", ingress, "chained", inner, ["issuer"] + ["did"]);
    RoleUnder(name, "chained", ingress, "chained", inner, ["pipeline-id"]);
    RoleUnder(name, "chained", ingress, "chained", inner, ["process-id"]);
    RoleUnder(name, "chained", ingress, "chained", inner, ["upstream-endpoint"]);
    RoleUnder(name, "chained", ingress, "chained", inner, ["converter"]);
    StampReads(stamp);
  }

  lemma SinkReadsBack(name: string, ingress: string, upstream: string)
    ensures ReadLoop(name, LoopSettings(Sink(name, ingress, upstream))) == Some(Sink(name, ingress, upstream))
  {
    SinkPlainly(upstream);
    FieldFound(SinkFields(upstream), 2);
    RoleUnder(name, "sink", ingress, "sink", FieldSettings(SinkFields(upstream)), ["upstream-endpoint"]);
  }

  lemma LoopReads(loop: Loop)
    ensures ReadLoop(loop.name, LoopSettings(loop)) == Some(loop)
  {
    match loop
    case Source(name, ingress, output, issuer, pipelineID, processID) =>
      SourceReads(name, ingress, output, issuer, pipelineID, processID);
    case Chained(name, ingress, output, issuer, pipelineID, processID, upstream, stamp) =>
      ChainedReads(name, ingress, output, issuer, pipelineID, processID, upstream, stamp);
    case Sink(name, ingress, upstream) =>
      SinkReadsBack(name, ingress, upstream);
  }

  /* ---- all loops of a text ---- */

  /** The blocks settings are made in, in the order they are first met. */
  function BlockNames(es: seq<Entry>): seq<string> {
    if es == [] then []
    else
      var front, last := BlockNames(es[..|es| - 1]), es[|es| - 1];
      if last.path == [] || last.path[0] in front then front else front + [last.path[0]]
  }

  function ReadEach(names: seq<string>, es: seq<Entry>): Option<seq<Loop>> {
    if names == [] then Some([])
    else
      var name := names[|names| - 1];
      var front, loop := ReadEach(names[..|names| - 1], es), ReadLoop(name, Under(es, name));
      if front.None? || loop.None? then None else Some(front.value + [loop.value])
  }

  /** The loops a text configures. */
  function Configured(text: string): Option<seq<Loop>> {
    var loaded := Load(text);
    if loaded.None? then None else ReadEach(BlockNames(loaded.value), loaded.value)
  }

  lemma {:induction false} NamesAppended(a: seq<Entry>, b: seq<Entry>, name: string)
    requires name !in BlockNames(a) && forall e | e in b :: e.path != [] && e.path[0] == name
    ensures BlockNames(a + b) == if b == [] then BlockNames(a) else BlockNames(a) + [name]
  {
    if b == [] {
      assert a + b == a;
    } else {
      var front := b[..|b| - 1];
      assert (a + b)[..|a + b| - 1] == a + front;
      assert forall e | e in front :: e in b;
      assert b[|b| - 1] in b;
      NamesAppended(a, front, name);
    }
  }

  lemma LoopMade(loop: Loop)
    ensures LoopSettings(loop) != [] && forall e | e in LoopSettings(loop) :: e.path != [] && e.path[0] == loop.name
  {
    LoopReads(loop);
    NothingRead(loop.name);
  }

  lemma NothingRead(name: string)
    ensures ReadLoop(name, []) == None
  {
    assert Get([], [name] + ["role"]) == "";
  }

  function LoopNames(loops: seq<Loop>): seq<string> {
    seq(|loops|, i requires 0 <= i < |loops| => loops[i].name)
  }

  ghost predicate DistinctNames(loops: seq<Loop>) {
    forall p, q | 0 <= p < q < |loops| :: loops[p].name != loops[q].name
  }

  /** `BlockNames(BlockSettings(loops)) == names`, said so that callers do not unfold the settings. */
  ghost predicate Presents(loops: seq<Loop>, names: seq<string>) {
    forall ls | ls == loops :: BlockNames(BlockSettings(ls)) == names
  }

  lemma LastPresented(loops: seq<Loop>, names: seq<string>, last: Loop)
    requires Presents(loops, names) && last.name !in names
    ensures Presents(loops + [last], names + [last.name])
  {
    assert (loops + [last])[..|loops|] == loops;
    LoopMade(last);
    NamesAppended(BlockSettings(loops), LoopSettings(last), last.name);
  }

  lemma {:induction false} NamesRead(loops: seq<Loop>)
    requires DistinctNames(loops)
    ensures Presents(loops, LoopNames(loops))
  {
    if loops != [] {
      var front, last := loops[..|loops| - 1], loops[|loops| - 1];
      NamesRead(front);
      LastPresented(front, LoopNames(front), last);
      assert loops == front + [last] && LoopNames(loops) == LoopNames(front) + [last.name];
    }
  }

  lemma {:induction false} EachReads(loops: seq<Loop>, k: nat)
    requires DistinctNames(loops) && k <= |loops|
    ensures ReadEach(LoopNames(loops)[..k], BlockSettings(loops)) == Some(loops[..k])
  {
    if k > 0 {
      assert LoopNames(loops)[..k][..k - 1] == LoopNames(loops)[..k - 1];
      assert loops[..k] == loops[..k - 1] + [loops[k - 1]];
      EachReads(loops, k - 1);
      EachKeepsItsOwn(loops, k - 1, loops[k - 1]);
      LoopReads(loops[k - 1]);
    }
  }

  lemma BlockReads(loops: seq<Loop>)
    requires DistinctNames(loops)
    ensures ReadEach(BlockNames(BlockSettings(loops)), BlockSettings(loops)) == Some(loops)
  {
    NamesRead(loops);
    EachReads(loops, |loops|);
    assert LoopNames(loops)[..|loops|] == LoopNames(loops) && loops[..|loops|] == loops;
  }

  /** The rendered text configures the relay's topology: every loop's subjects, issuer,
      ids, endpoint and stamp, in order, and no other loop. */
  lemma TextConfiguresRelay(selfBase: string, n: nat)
    requires Representable(selfBase)
    ensures Configured(Led(BlockLines(Topology(selfBase, n)))) == Some(Topology(selfBase, n))
  {
    BlockReadsBack(selfBase, n);
    TopologyNamesDistinct(selfBase, n);
    BlockReads(Topology(selfBase, n));
  }

  lemma TopologyNamesDistinct(selfBase: string, n: nat)
    ensures DistinctNames(Topology(selfBase, n))
  {
    forall p, q | 0 <= p < q < n + 2 ensures Topology(selfBase, n)[p].name != Topology(selfBase, n)[q].name {
      NameDistinct(selfBase, n, p, q);
    }
  }
}
