/** Reading an emission log against what a consumer received. */
module EmissionLog {
  import opened Wrappers
  import opened Json
  import opened Sorting
  import Text

  datatype Record = Record(credentialHash: string, sequenceNo: string)

  datatype EmissionReconciliation =
    EmissionReconciliation(sequences: seq<string>, lost: seq<string>, unlogged: seq<string>)

  function Decode(payload: Document): Option<Record> {
    match payload
    case Parsed(Null) => Some(Record("", ""))
    case Parsed(Object(fields)) =>
      var hash, seqNo := TextField(fields, "credentialHash"), TextField(fields, "sequenceNo");
      if hash.Some? && seqNo.Some? then Some(Record(hash.value, seqNo.value)) else None
    case _ => None
  }

  predicate Readable(payloads: seq<Document>) {
    forall i | 0 <= i < |payloads| :: Decode(payloads[i]).Some?
  }

  function Records(payloads: seq<Document>): (log: seq<Record>)
    requires Readable(payloads)
  {
    seq(|payloads|, i requires 0 <= i < |payloads| => Decode(payloads[i]).value)
  }

  /** A field that a string can be read from: text, null or absent. */
  predicate TextOrNothing(fields: map<string, Value>, name: string) {
    name in fields ==> fields[name].Text? || fields[name].Null?
  }

  /** The payloads that are records: null, or an object whose two fields hold text or
      nothing. Malformed JSON, a bare string, a number, a boolean or an array is none. */
  predicate IsRecord(payload: Document) {
    && payload.Parsed?
    && (payload.value.Null?
        || (payload.value.Object? && TextOrNothing(payload.value.fields, "credentialHash")
            && TextOrNothing(payload.value.fields, "sequenceNo")))
  }

  /** The payload has this text under the name, and the empty string means none. */
  predicate Carries(payload: Document, name: string, text: string)
    requires IsRecord(payload)
  {
    if payload.value.Object? && name in payload.value.fields && payload.value.fields[name] != Null
    then payload.value.fields[name] == Text(text) else text == ""
  }

  lemma DecodesExactly(payload: Document)
    ensures Decode(payload).Some? <==> IsRecord(payload)
    ensures IsRecord(payload) ==>
      && Carries(payload, "credentialHash", Decode(payload).value.credentialHash)
      && Carries(payload, "sequenceNo", Decode(payload).value.sequenceNo)
  {
  }

  predicate AllRecords(payloads: seq<Document>) {
    forall i | 0 <= i < |payloads| :: IsRecord(payloads[i])
  }

  lemma ReadableExactly(payloads: seq<Document>)
    ensures Readable(payloads) <==> AllRecords(payloads)
  {
    forall i | 0 <= i < |payloads| ensures Decode(payloads[i]).Some? <==> IsRecord(payloads[i]) {
      DecodesExactly(payloads[i]);
    }
  }

  /** The records of a log carry the fields of its payloads. */
  lemma RecordsCarry(payloads: seq<Document>, i: nat)
    requires AllRecords(payloads) && i < |payloads|
    ensures Readable(payloads)
    ensures Carries(payloads[i], "credentialHash", Records(payloads)[i].credentialHash)
    ensures Carries(payloads[i], "sequenceNo", Records(payloads)[i].sequenceNo)
  {
    ReadableExactly(payloads);
    DecodesExactly(payloads[i]);
  }

  /* ---- the three views ---- */

  /** A missing key reads as false, as in Go. */
  predicate Delivered(delivered: map<string, bool>, hash: string) {
    hash in delivered && delivered[hash]
  }

  function Sequences(log: seq<Record>): (r: seq<string>) {
    seq(|log|, i requires 0 <= i < |log| => log[i].sequenceNo)
  }

  /** The records in log order for which `Delivered` gives `wanted`. */
  function Select(log: seq<Record>, delivered: map<string, bool>, wanted: bool): seq<Record> {
    if log == [] then []
    else
      var last := log[|log| - 1];
      Select(log[..|log| - 1], delivered, wanted)
      + if Delivered(delivered, last.credentialHash) == wanted then [last] else []
  }

  function Lost(log: seq<Record>, delivered: map<string, bool>): seq<string> {
    Sequences(Select(log, delivered, false))
  }

  ghost function Hashes(log: seq<Record>): set<string> {
    set i | 0 <= i < |log| :: log[i].credentialHash
  }

  /** Keys of the delivered map, whatever their value, that no record carries. */
  ghost function UnloggedSet(log: seq<Record>, delivered: map<string, bool>): set<string> {
    delivered.Keys - Hashes(log)
  }

  ghost function Reconciled(log: seq<Record>, delivered: map<string, bool>): EmissionReconciliation {
    EmissionReconciliation(Sequences(log), Lost(log, delivered), Listing(UnloggedSet(log, delivered), Text.StrLeq))
  }

  /** The first payload that is no record stops the reconciliation at its position;
      otherwise the three views of the log come back, whatever order the map is enumerated in. */
  method ReconcileEmissionLog(payloads: seq<Document>, delivered: map<string, bool>)
    returns (r: Result<EmissionReconciliation, nat>)
    ensures match r
      case Failure(i) => i < |payloads| && !IsRecord(payloads[i]) && AllRecords(payloads[..i])
      case Success(out) => AllRecords(payloads) && Readable(payloads) && out == Reconciled(Records(payloads), delivered)
  {
    var sequences, lost, unlogged := [], [], [];
    var logged := map[];
    for i := 0 to |payloads|
      invariant Readable(payloads[..i])
      invariant sequences == Sequences(Records(payloads[..i]))
      invariant lost == Lost(Records(payloads[..i]), delivered)
      invariant logged.Keys == Hashes(Records(payloads[..i])) && false !in logged.Values
    {
      var em := Decode(payloads[i]);
      if em.None? {
        DecodesExactly(payloads[i]);
        ReadableExactly(payloads[..i]);
        return Failure(i);
      }
      RecordsGrow(payloads, i, delivered);
      sequences := sequences + [em.value.sequenceNo];
      logged := logged[em.value.credentialHash := true];
      if !Delivered(delivered, em.value.credentialHash) {
        lost := lost + [em.value.sequenceNo];
      }
    }
    assert payloads[..|payloads|] == payloads;
    ReadableExactly(payloads);
    ghost var log := Records(payloads);
    assert forall h :: Delivered(logged, h) <==> h in Hashes(log);
    var keys := Enumerate(delivered.Keys);
    for i := 0 to |keys|
      invariant NoDuplicates(unlogged)
      invariant forall h :: h in unlogged <==> h in keys[..i] && h in UnloggedSet(log, delivered)
    {
      assert keys[..i + 1] == keys[..i] + [keys[i]] && keys[i] !in keys[..i];
      if !Delivered(logged, keys[i]) {
        unlogged := unlogged + [keys[i]];
      }
    }
    assert keys[..|keys|] == keys;
    Text.StringsOrdered();
    var inOrder := Sort(unlogged, Text.StrLeq);
    SortedEnumeration(inOrder, unlogged, UnloggedSet(log, delivered), Text.StrLeq);
    ListingIs(inOrder, UnloggedSet(log, delivered), Text.StrLeq);
    return Success(EmissionReconciliation(sequences, lost, inOrder));
  }

  lemma RecordsGrow(payloads: seq<Document>, i: nat, delivered: map<string, bool>)
    requires i < |payloads| && Readable(payloads[..i]) && Decode(payloads[i]).Some?
    ensures Readable(payloads[..i + 1])
    ensures var em, log, log' := Decode(payloads[i]).value, Records(payloads[..i]), Records(payloads[..i + 1]);
      && Sequences(log') == Sequences(log) + [em.sequenceNo]
      && Lost(log', delivered)
      == Lost(log, delivered) + (if Delivered(delivered, em.credentialHash) then [] else [em.sequenceNo])
      && Hashes(log') == Hashes(log) + {em.credentialHash}
  {
    var em, log, log' := Decode(payloads[i]).value, Records(payloads[..i]), Records(payloads[..i + 1]);
    assert log' == log + [em] && log'[..i] == log;
    HashesConcat(log, [em]);
    assert [em][0] == em;
    assert Hashes([em]) == {em.credentialHash};
  }

  /* ---- what the views mean ---- */

  lemma HashesConcat(a: seq<Record>, b: seq<Record>)
    ensures Hashes(a + b) == Hashes(a) + Hashes(b)
  {
    var log := a + b;
    forall h ensures h in Hashes(log) <==> h in Hashes(a) || h in Hashes(b) {
      if h in Hashes(log) {
        var i :| 0 <= i < |log| && log[i].credentialHash == h;
        assert i < |a| ==> a[i].credentialHash in Hashes(a);
        assert i >= |a| ==> b[i - |a|].credentialHash in Hashes(b);
      } else {
        assert forall i | 0 <= i < |a| :: log[i].credentialHash == a[i].credentialHash;
        assert forall i | 0 <= i < |b| :: log[|a| + i].credentialHash == b[i].credentialHash;
      }
    }
  }

  lemma {:induction false} SelectConcat(a: seq<Record>, b: seq<Record>, delivered: map<string, bool>, wanted: bool)
    ensures Select(a + b, delivered, wanted) == Select(a, delivered, wanted) + Select(b, delivered, wanted)
    decreases |b|
  {
    if b == [] {
      assert a + b == a;
    } else {
      var b' := b[..|b| - 1];
      assert (a + b)[..|a + b| - 1] == a + b';
      SelectConcat(a, b', delivered, wanted);
    }
  }

  lemma SequencesConcat(a: seq<Record>, b: seq<Record>)
    ensures Sequences(a + b) == Sequences(a) + Sequences(b)
  {
  }

  /** Every record is accounted for once, as delivered or as lost, even among
      records that share a credential hash. */
  lemma {:induction false} LossConserved(log: seq<Record>, delivered: map<string, bool>)
    ensures multiset(Select(log, delivered, true)) + multiset(Select(log, delivered, false)) == multiset(log)
    ensures |Select(log, delivered, true)| + |Lost(log, delivered)| == |log|
  {
    if log != [] {
      var front, last := log[..|log| - 1], log[|log| - 1];
      LossConserved(front, delivered);
      assert log == front + [last];
      OneMoreConserved(front, last, delivered);
    }
  }

  lemma OneMoreConserved(front: seq<Record>, last: Record, delivered: map<string, bool>)
    requires multiset(Select(front, delivered, true)) + multiset(Select(front, delivered, false)) == multiset(front)
    requires |Select(front, delivered, true)| + |Select(front, delivered, false)| == |front|
    ensures var log := front + [last];
      && multiset(Select(log, delivered, true)) + multiset(Select(log, delivered, false)) == multiset(log)
      && |Select(log, delivered, true)| + |Select(log, delivered, false)| == |log|
  {
    SelectedOnce(front, last, delivered);
    if Delivered(delivered, last.credentialHash) {
      OneMoreOnOneSide(Select(front, delivered, true), Select(front, delivered, false), front, last);
    } else {
      OneMoreOnOneSide(Select(front, delivered, false), Select(front, delivered, true), front, last);
    }
  }

  lemma OneMoreOnOneSide(a: seq<Record>, b: seq<Record>, log: seq<Record>, last: Record)
    requires multiset(a) + multiset(b) == multiset(log)
    ensures multiset(a + [last]) + multiset(b) == multiset(log + [last])
    ensures multiset(b) + multiset(a + [last]) == multiset(log + [last])
  {
  }

  /** One more record is selected one way or the other. */
  lemma SelectedOnce(front: seq<Record>, last: Record, delivered: map<string, bool>)
    ensures var wanted := Delivered(delivered, last.credentialHash);
      && Select(front + [last], delivered, wanted) == Select(front, delivered, wanted) + [last]
      && Select(front + [last], delivered, !wanted) == Select(front, delivered, !wanted)
  {
    assert (front + [last])[..|front|] == front;
  }

  /** A selected record has the wanted status. */
  lemma {:induction false} SelectSound(log: seq<Record>, delivered: map<string, bool>, wanted: bool)
    ensures forall r | r in Select(log, delivered, wanted) :: r in log && Delivered(delivered, r.credentialHash) == wanted
  {
    if log != [] {
      SelectSound(log[..|log| - 1], delivered, wanted);
    }
  }

  /** Accounting by hash loses records exactly when two lost records share one. */
  lemma HashKeyedLossUndercounts(log: seq<Record>, delivered: map<string, bool>)
    ensures var lost := Select(log, delivered, false);
      |Hashes(lost)| <= |lost| && (|Hashes(lost)| == |lost| <==> DistinctHashes(lost))
  {
    HashCount(Select(log, delivered, false));
  }

  ghost predicate DistinctHashes(log: seq<Record>) {
    forall i, j | 0 <= i < j < |log| :: log[i].credentialHash != log[j].credentialHash
  }

  lemma {:induction false} HashCount(log: seq<Record>)
    ensures |Hashes(log)| <= |log|
    ensures |Hashes(log)| == |log| <==> DistinctHashes(log)
  {
    if log == [] {
      assert Hashes(log) == {};
    } else {
      var n := |log| - 1;
      var front, h := log[..n], log[n].credentialHash;
      HashCount(front);
      assert log == front + [log[n]] && [log[n]][0] == log[n];
      HashesConcat(front, [log[n]]);
      assert Hashes([log[n]]) == {h};
      DistinctSnoc(front, log[n]);
      if h in Hashes(front) {
        assert Hashes(log) == Hashes(front);
      }
    }
  }

  lemma DistinctSnoc(front: seq<Record>, last: Record)
    ensures DistinctHashes(front + [last]) <==> DistinctHashes(front) && last.credentialHash !in Hashes(front)
  {
    var n, log := |front|, front + [last];
    assert forall i | 0 <= i < n :: log[i] == front[i];
    if last.credentialHash in Hashes(front) {
      var i :| 0 <= i < n && front[i].credentialHash == last.credentialHash;
      assert log[i].credentialHash == log[n].credentialHash;
    } else {
      forall i | 0 <= i < n ensures log[i].credentialHash != log[n].credentialHash {
        assert front[i].credentialHash in Hashes(front);
      }
    }
    if !DistinctHashes(front) {
      var i, j :| 0 <= i < j < n && front[i].credentialHash == front[j].credentialHash;
      assert log[i].credentialHash == log[j].credentialHash;
    }
  }

  /** The sequence space 1..n, as the scenario demands it. */
  ghost predicate Continuous(sequences: seq<string>) {
    forall i | 0 <= i < |sequences| :: sequences[i] == Text.Decimal(i + 1)
  }

  /** `other` is `log` with some delivered records renumbered. */
  ghost predicate Renumbers(log: seq<Record>, other: seq<Record>, delivered: map<string, bool>) {
    && |log| == |other|
    && (forall i | 0 <= i < |log| :: log[i].credentialHash == other[i].credentialHash)
    && (forall i | 0 <= i < |log| :: !Delivered(delivered, log[i].credentialHash) ==> log[i] == other[i])
  }

  /** No renumbering of delivered records shows in Lost or Unlogged. */
  lemma {:induction false} RenumberingInvisible(log: seq<Record>, other: seq<Record>, delivered: map<string, bool>)
    requires Renumbers(log, other, delivered)
    ensures Select(log, delivered, false) == Select(other, delivered, false)
    ensures Lost(log, delivered) == Lost(other, delivered)
    ensures UnloggedSet(log, delivered) == UnloggedSet(other, delivered)
  {
    if log != [] {
      var n := |log| - 1;
      RenumberingInvisible(log[..n], other[..n], delivered);
    }
    forall h ensures h in Hashes(log) <==> h in Hashes(other) {
      assert forall i | 0 <= i < |log| :: log[i].credentialHash in Hashes(log) && other[i].credentialHash in Hashes(other);
    }
  }

  /** A delivered record of a healthy log can be forked to any number without a trace
      in Lost or Unlogged, while Sequences shows every fork. */
  lemma ForkShowsOnlyInSequences(log: seq<Record>, delivered: map<string, bool>, i: nat, number: string)
    requires i < |log| && Continuous(Sequences(log)) && Delivered(delivered, log[i].credentialHash)
    ensures var forked := log[i := log[i].(sequenceNo := number)];
      && Lost(forked, delivered) == Lost(log, delivered)
      && UnloggedSet(forked, delivered) == UnloggedSet(log, delivered)
      && (Continuous(Sequences(forked)) <==> number == Text.Decimal(i + 1))
  {
    var forked := log[i := log[i].(sequenceNo := number)];
    RenumberingInvisible(log, forked, delivered);
    assert Sequences(forked)[i] == number;
    assert forall k | 0 <= k < |log| && k != i :: Sequences(forked)[k] == Sequences(log)[k];
  }

  /** Hence nothing computed from Lost and Unlogged decides continuity. */
  lemma LostCannotDecideContinuity(judge: (seq<string>, set<string>) -> bool)
    ensures exists log, delivered ::
      judge(Lost(log, delivered), UnloggedSet(log, delivered)) != Continuous(Sequences(log))
  {
    var log, delivered := [Record("h", Text.Decimal(1))], map["h" := true];
    assert Continuous(Sequences(log));
    ForkShowsOnlyInSequences(log, delivered, 0, "");
    var forked := log[0 := log[0].(sequenceNo := "")];
    assert !Continuous(Sequences(forked));
    assert Lost(forked, delivered) == Lost(log, delivered) && UnloggedSet(forked, delivered) == UnloggedSet(log, delivered);
    if judge(Lost(log, delivered), UnloggedSet(log, delivered)) {
      assert judge(Lost(forked, delivered), UnloggedSet(forked, delivered)) != Continuous(Sequences(forked));
    } else {
      assert judge(Lost(log, delivered), UnloggedSet(log, delivered)) != Continuous(Sequences(log));
    }
  }

  /** A short page: Sequences and Lost shrink to prefixes, and Unlogged gains exactly
      the delivered hashes that occur only past the cut. */
  lemma ShortPage(log: seq<Record>, k: nat, delivered: map<string, bool>)
    requires k <= |log|
    ensures Sequences(log[..k]) <= Sequences(log)
    ensures Lost(log[..k], delivered) <= Lost(log, delivered)
    ensures UnloggedSet(log[..k], delivered)
         == UnloggedSet(log, delivered) + (delivered.Keys * (Hashes(log[k..]) - Hashes(log[..k])))
  {
    var a, b := log[..k], log[k..];
    assert a + b == log;
    SequencesConcat(a, b);
    SelectConcat(a, b, delivered, false);
    SequencesConcat(Select(a, delivered, false), Select(b, delivered, false));
    HashesConcat(a, b);
  }

  /** A false-valued key changes nothing about Lost but still counts as unlogged. */
  lemma {:induction false} FalseKey(log: seq<Record>, delivered: map<string, bool>, hash: string)
    requires hash !in delivered
    ensures Lost(log, delivered[hash := false]) == Lost(log, delivered)
    ensures Select(log, delivered[hash := false], false) == Select(log, delivered, false)
    ensures UnloggedSet(log, delivered[hash := false])
         == UnloggedSet(log, delivered) + if hash in Hashes(log) then {} else {hash}
  {
    if log != [] {
      FalseKey(log[..|log| - 1], delivered, hash);
    }
    assert delivered[hash := false].Keys == delivered.Keys + {hash};
  }
}
