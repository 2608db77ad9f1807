/** What the loss-window scenario may conclude from the log, the mirror and the
    consumer's output, in every state a run can reach. */
module LossAccounting {
  import opened Wrappers
  import opened Sorting
  import opened Json
  import opened LossWindow
  import Text
  import EmissionLog
  import SinkDelivery

  /* ---- the mirror and its checkpoint ---- */

  /** Size and head of the mirrored log; `head` commits to the records. */
  function Checkpoint<H>(s: State, head: seq<Emission> -> H): (nat, H) {
    (|s.mirror|, head(s.mirror))
  }

  ghost predicate Injective<H(!new)>(head: seq<Emission> -> H) {
    forall a, b :: head(a) == head(b) ==> a == b
  }

  predicate EmissionFree(es: seq<Event>) {
    forall e | e in es :: !e.Append?
  }

  /** Waiting for the mirror to reach the log's length is waiting for it to be the log. */
  lemma SizeGuard(s: State)
    requires Inv(s)
    ensures |s.mirror| == |s.log| <==> s.mirror == s.log
  {
  }

  lemma {:induction false} NoEmissionNoGrowth(s: State, es: seq<Event>)
    requires Run(s, es).Some? && EmissionFree(es)
    ensures Run(s, es).value.log == s.log
  {
    if es != [] {
      assert forall e | e in es[..|es| - 1] :: e in es;
      NoEmissionNoGrowth(s, es[..|es| - 1]);
      assert es[|es| - 1] in es;
    }
  }

  /** A checkpoint taken before a restart, or before anything else short of an emission,
      is still the checkpoint afterwards exactly when the mirror had caught up. */
  lemma CheckpointStableExactly<H(!new)>(s: State, head: seq<Emission> -> H)
    requires Inv(s) && Injective(head)
    ensures s.mirror == s.log
       <==> forall es | EmissionFree(es) && Run(s, es).Some? :: Checkpoint(Run(s, es).value, head) == Checkpoint(s, head)
  {
    if s.mirror == s.log {
      forall es | EmissionFree(es) && Run(s, es).Some? ensures Checkpoint(Run(s, es).value, head) == Checkpoint(s, head) {
        CaughtUpStays(s, es);
      }
    } else {
      var es := LateShipment(s);
      assert Checkpoint(Run(s, es).value, head).0 != Checkpoint(s, head).0;
    }
  }

  lemma CaughtUpStays(s: State, es: seq<Event>)
    requires Inv(s) && s.mirror == s.log && EmissionFree(es) && Run(s, es).Some?
    ensures Run(s, es).value.mirror == s.mirror
  {
    NoEmissionNoGrowth(s, es);
    RunInv(s, es);
    RunGrows(s, es);
  }

  /** The restart under which a mirror that lags catches up. */
  lemma LateShipment(s: State) returns (es: seq<Event>)
    requires Inv(s) && s.mirror != s.log
    ensures EmissionFree(es) && Run(s, es).Some?
    ensures |Run(s, es).value.mirror| == |s.log| > |s.mirror|
    ensures s.producerUp ==> es == [StopProducer(|s.log| - |s.mirror|), StartProducer]
  {
    SizeGuard(s);
    var n := |s.log| - |s.mirror|;
    es := if s.producerUp then [StopProducer(n), StartProducer] else [StartProducer, Ship(n)];
    TwoSteps(s, es[0], es[1]);
  }

  lemma TwoSteps(s: State, e1: Event, e2: Event)
    ensures Run(s, [e1, e2]) == if Step(s, e1).None? then None else Step(Step(s, e1).value, e2)
  {
    assert [e1, e2][..1] == [e1] && [e1][..0] == [];
    assert Run(s, []) == Some(s);
    assert Run(s, [e1]) == Step(s, e1);
  }

  /* ---- sequence continuity ---- */

  /** The first emission after a restart continues the sequence exactly when the counter
      is seeded from the durable tail, or there is no tail. */
  lemma RestartContinuesExactly(s: State, hash: string, reading: int)
    requires |s.fates| == |s.log| && Numbered(s.log) && !s.producerUp && hash != ""
    ensures var t := Run(s, [StartProducer, Append(hash, reading)]);
      t.Some? && (Numbered(t.value.log) <==> s.seeding.FromTail? || s.log == [])
  {
    TwoSteps(s, StartProducer, Append(hash, reading));
    var t := Run(s, [StartProducer, Append(hash, reading)]).value;
    assert t.log == s.log + [Emission(hash, Seed(s), reading)];
    assert t.log[|s.log|].seqNo == Seed(s);
    assert forall i | 0 <= i < |s.log| :: t.log[i] == s.log[i];
  }

  /** A counter that restarts at one: the second emission carries the first one's number. */
  lemma ForkedRun(stream: Stream)
    ensures var es := [Append("a", 1), StopProducer(0), StartProducer, Append("b", 2)];
      && Run(Init(stream, FromOne), es).Some?
      && Run(Init(stream, FromOne), es).value.log == [Emission("a", 1, 1), Emission("b", 1, 2)]
      && !Numbered(Run(Init(stream, FromOne), es).value.log)
  {
    var first, second := [Append("a", 1), StopProducer(0)], [StartProducer, Append("b", 2)];
    assert first + second == [Append("a", 1), StopProducer(0), StartProducer, Append("b", 2)];
    var down := StoppedAfterOne(stream);
    RunConcat(Init(stream, FromOne), first, second);
    TwoSteps(down, StartProducer, Append("b", 2));
    assert [Emission("a", 1, 1)] + [Emission("b", 1, 2)] == [Emission("a", 1, 1), Emission("b", 1, 2)];
    assert [Emission("a", 1, 1), Emission("b", 1, 2)][1].seqNo == 1;
  }

  lemma StoppedAfterOne(stream: Stream) returns (s: State)
    ensures Run(Init(stream, FromOne), [Append("a", 1), StopProducer(0)]) == Some(s)
    ensures s.log == [Emission("a", 1, 1)] && !s.producerUp && s.seeding == FromOne
  {
    TwoSteps(Init(stream, FromOne), Append("a", 1), StopProducer(0));
    s := Run(Init(stream, FromOne), [Append("a", 1), StopProducer(0)]).value;
  }

  /** Seeded from the tail, every run numbers its log 1, 2, 3, …, restarts or not. */
  lemma SequencesContinuous(stream: Stream, es: seq<Event>)
    requires Run(Init(stream, FromTail), es).Some?
    ensures EmissionLog.Continuous(EmissionLog.Sequences(LogRecords(Run(Init(stream, FromTail), es).value.log)))
  {
    InitInv(stream, FromTail);
    RunInv(Init(stream, FromTail), es);
    RunGrows(Init(stream, FromTail), es);
    NumberedReads(Run(Init(stream, FromTail), es).value.log);
  }

  lemma NumberedReads(log: seq<Emission>)
    requires Numbered(log)
    ensures EmissionLog.Continuous(EmissionLog.Sequences(LogRecords(log)))
  {
  }

  /* ---- the payloads of the log ---- */

  function RecordOf(e: Emission): EmissionLog.Record {
    EmissionLog.Record(e.hash, Text.Decimal(e.seqNo))
  }

  function PayloadOf(e: Emission): Document {
    Parsed(Object(map["credentialHash" := Text(e.hash), "sequenceNo" := Text(Text.Decimal(e.seqNo))]))
  }

  function LogRecords(log: seq<Emission>): (r: seq<EmissionLog.Record>)
    ensures |r| == |log|
  {
    seq(|log|, i requires 0 <= i < |log| => RecordOf(log[i]))
  }

  function Payloads(log: seq<Emission>): (r: seq<Document>)
    ensures |r| == |log|
  {
    seq(|log|, i requires 0 <= i < |log| => PayloadOf(log[i]))
  }

  lemma PayloadDecodes(e: Emission)
    ensures EmissionLog.Decode(PayloadOf(e)) == Some(RecordOf(e))
  {
  }

  lemma PayloadsDecode(log: seq<Emission>)
    ensures EmissionLog.Readable(Payloads(log)) && EmissionLog.Records(Payloads(log)) == LogRecords(log)
  {
    forall i | 0 <= i < |log| ensures EmissionLog.Decode(Payloads(log)[i]) == Some(RecordOf(log[i])) {
      PayloadDecodes(log[i]);
    }
  }

  /* ---- what the consumer's output shows ---- */

  /** The delivered view: the saved lines together with the current ones. */
  ghost function View(s: State): SinkDelivery.Delivery {
    SinkDelivery.Parsed(s.snapshot + SinkLines(s))
  }

  /** The view shows everything the consumer ever printed. */
  ghost predicate Complete(s: State) {
    View(s) == SinkDelivery.Parsed(s.past + s.current)
  }

  lemma ViewSets(s: State)
    ensures Complete(s) <==>
      && SinkDelivery.HashesIn(s.snapshot + SinkLines(s)) == SinkDelivery.HashesIn(s.past + s.current)
      && SinkDelivery.ReadingsIn(s.snapshot + SinkLines(s)) == SinkDelivery.ReadingsIn(s.past + s.current)
  {
    var a, b := s.snapshot + SinkLines(s), s.past + s.current;
    assert SinkDelivery.Parsed(a).hashes.Keys == SinkDelivery.HashesIn(a);
    assert SinkDelivery.Parsed(b).hashes.Keys == SinkDelivery.HashesIn(b);
    assert SinkDelivery.Parsed(a).readings.Keys == SinkDelivery.ReadingsIn(a);
    assert SinkDelivery.Parsed(b).readings.Keys == SinkDelivery.ReadingsIn(b);
  }

  /** An accumulating stream always shows everything; a fresh one exactly when what was
      printed before the restart is in the snapshot or was printed again. */
  lemma CompleteExactly(s: State)
    requires Inv(s)
    ensures Complete(s) <==>
      s.stream.Accumulating?
      || (&& SinkDelivery.HashesIn(s.past) <= SinkDelivery.HashesIn(s.snapshot + s.current)
          && SinkDelivery.ReadingsIn(s.past) <= SinkDelivery.ReadingsIn(s.snapshot + s.current))
  {
    ViewSets(s);
    if s.stream.Accumulating? {
      SinkDelivery.ParsedBySet(s.snapshot + SinkLines(s), s.past + s.current);
    } else {
      SinkDelivery.HashesUnion(s.past, s.current);
      SinkDelivery.ReadingsUnion(s.past, s.current);
      SinkDelivery.HashesUnion(s.snapshot, s.current);
      SinkDelivery.ReadingsUnion(s.snapshot, s.current);
      assert forall line | line in s.snapshot :: line in s.past + s.current;
      assert SinkDelivery.HashesIn(s.snapshot) <= SinkDelivery.HashesIn(s.past + s.current);
      assert SinkDelivery.ReadingsIn(s.snapshot) <= SinkDelivery.ReadingsIn(s.past + s.current);
    }
  }

  /** Events that deliver nothing and restart nothing; the consumer may still log. */
  predicate Quiet(es: seq<Event>) {
    forall e | e in es :: !e.Deliver? && !e.StartConsumer?
  }

  /** The scenario's discipline: the consumer comes back at most once, and between the last
      snapshot and the stop before that nothing is delivered. */
  ghost predicate Careful(es: seq<Event>) {
    forall i | 0 <= i < |es| && es[i].StartConsumer? ::
      && (forall j | i < j < |es| :: !es[j].StartConsumer? && !es[j].Snapshot?)
      && LatchedBefore(es[..i])
  }

  /** A snapshot, then nothing delivered until the consumer stops. */
  ghost predicate LatchedBefore(es: seq<Event>) {
    exists k, m | 0 <= k < m < |es| :: es[k].Snapshot? && es[m].StopConsumer? && Quiet(es[k + 1..m])
  }

  lemma {:induction false} FirstLife(s: State, es: seq<Event>)
    requires s.past == [] && Run(s, es).Some? && NoConsumerStart(es)
    ensures Run(s, es).value.past == []
  {
    if es != [] {
      assert forall e | e in es[..|es| - 1] :: e in es;
      FirstLife(s, es[..|es| - 1]);
      assert es[|es| - 1] in es;
    }
  }

  /** The saved lines show every credential and every reading that the others do. */
  ghost predicate Covers(saved: seq<Document>, lines: seq<Document>) {
    && SinkDelivery.HashesIn(lines) <= SinkDelivery.HashesIn(saved)
    && SinkDelivery.ReadingsIn(lines) <= SinkDelivery.ReadingsIn(saved)
  }

  /** In its first life, with all the deliveries it has shown in the snapshot. */
  ghost predicate Saved(s: State) {
    s.past == [] && Covers(s.snapshot, s.current)
  }

  /** A line without a credential shows nothing more. */
  lemma ChatterCovered(saved: seq<Document>, lines: seq<Document>, line: Document)
    requires Covers(saved, lines) && SinkDelivery.CredentialOf(line).None?
    ensures Covers(saved, lines + [line])
  {
    SinkDelivery.HashesUnion(lines, [line]);
    SinkDelivery.ReadingsUnion(lines, [line]);
    SinkDelivery.ParsedOne(line);
  }

  lemma QuietStep(s: State, e: Event)
    requires Saved(s) && Step(s, e).Some? && !e.Deliver? && !e.StartConsumer?
    ensures Saved(Step(s, e).value)
  {
    match e
    case Chatter(line) => ChatterCovered(s.snapshot, s.current, line);
    case Snapshot => assert [] + s.current == s.current;
    case _ =>
  }

  /** Quiet events leave the snapshot covering what was shown; another snapshot only renews it. */
  lemma {:induction false} QuietKeeps(s: State, es: seq<Event>)
    requires Saved(s) && Run(s, es).Some? && Quiet(es)
    ensures Saved(Run(s, es).value)
  {
    if es != [] {
      assert forall e | e in es[..|es| - 1] :: e in es;
      QuietKeeps(s, es[..|es| - 1]);
      assert es[|es| - 1] in es;
      QuietStep(Run(s, es[..|es| - 1]).value, es[|es| - 1]);
    }
  }

  lemma DownStep(s: State, e: Event)
    requires !s.consumerUp && Step(s, e).Some? && !e.StartConsumer?
    ensures !e.Deliver? && !Step(s, e).value.consumerUp
  {
  }

  /** Nothing is delivered to a consumer that is down. */
  lemma {:induction false} DownIsQuiet(s: State, es: seq<Event>)
    requires !s.consumerUp && Run(s, es).Some? && NoConsumerStart(es)
    ensures Quiet(es) && !Run(s, es).value.consumerUp
  {
    if es != [] {
      var front, e := es[..|es| - 1], es[|es| - 1];
      assert forall x | x in front :: x in es;
      DownIsQuiet(s, front);
      assert e in es && es == front + [e];
      DownStep(Run(s, front).value, e);
    }
  }

  /** Stopped after its first life, with all the deliveries it has shown in the snapshot. */
  ghost predicate Latched(s: State) {
    Saved(s) && !s.consumerUp
  }

  /** A snapshot and the quiet stop after it leave every delivery shown in the snapshot. */
  lemma LatchHolds(s: State, before: seq<Event>, quiet: seq<Event>)
    requires s.past == [] && NoConsumerStart(before) && Quiet(quiet)
    requires Run(s, before + [Snapshot] + quiet + [StopConsumer]).Some?
    ensures Latched(Run(s, before + [Snapshot] + quiet + [StopConsumer]).value)
  {
    var a, b := before + [Snapshot], before + [Snapshot] + quiet;
    RunPrefix(s, b, [StopConsumer]);
    RunPrefix(s, a, quiet);
    RunPrefix(s, before, [Snapshot]);
    FirstLife(s, before);
    OneStep(Run(s, before).value, Snapshot);
    var latched := Run(s, a).value;
    assert [] + latched.current == latched.current;
    QuietKeeps(latched, quiet);
    OneStep(Run(s, b).value, StopConsumer);
  }

  /** It stays so until the consumer comes back. */
  lemma StaysLatched(s: State, es: seq<Event>)
    requires Latched(s) && NoConsumerStart(es) && Run(s, es).Some?
    ensures Latched(Run(s, es).value)
  {
    DownIsQuiet(s, es);
    QuietKeeps(s, es);
  }

  lemma RunPrefix(s: State, a: seq<Event>, b: seq<Event>)
    requires Run(s, a + b).Some?
    ensures Run(s, a).Some? && Run(s, a + b) == Run(Run(s, a).value, b)
  {
    RunReaches(s, a, b);
    RunConcat(s, a, b);
  }

  lemma {:induction false} RunReaches(s: State, a: seq<Event>, b: seq<Event>)
    requires Run(s, a + b).Some?
    ensures Run(s, a).Some?
  {
    if b == [] {
      assert a + b == a;
    } else {
      assert (a + b)[..|a + b| - 1] == a + b[..|b| - 1];
      RunReaches(s, a, b[..|b| - 1]);
    }
  }

  lemma OneStep(s: State, e: Event)
    ensures Run(s, [e]) == Step(s, e)
  {
    assert [e][..0] == [];
    assert Run(s, []) == Some(s);
  }

  /** The snapshot shows every delivery made before the restart. */
  ghost predicate Tidy(s: State) {
    Covers(s.snapshot, s.past)
  }

  /** After the one restart neither what was printed before nor the snapshot changes. */
  lemma {:induction false} SecondLife(s: State, es: seq<Event>)
    requires Tidy(s) && Run(s, es).Some? && forall e | e in es :: !e.StartConsumer? && !e.Snapshot?
    ensures Tidy(Run(s, es).value)
  {
    if es != [] {
      assert forall e | e in es[..|es| - 1] :: e in es;
      SecondLife(s, es[..|es| - 1]);
      assert es[|es| - 1] in es;
    }
  }

  /** A careful run has every delivery made before the restart in the snapshot. */
  lemma CarefulTidy(s: State, es: seq<Event>)
    requires s.past == [] && Run(s, es).Some? && Careful(es)
    ensures Tidy(Run(s, es).value)
  {
    if i :| 0 <= i < |es| && es[i].StartConsumer? {
      var front, rest := es[..i], es[i + 1..];
      assert es == front + [StartConsumer] + rest;
      RunPrefix(s, front + [StartConsumer], rest);
      RunPrefix(s, front, [StartConsumer]);
      NoStartBefore(es, i);
      FrontLatched(s, front);
      RestartTidy(Run(s, front).value);
      forall e | e in rest ensures !e.StartConsumer? && !e.Snapshot? {
        var j :| 0 <= j < |rest| && rest[j] == e;
        assert es[i + 1 + j] == e;
      }
      SecondLife(Run(s, front + [StartConsumer]).value, rest);
    } else {
      FirstLife(s, es);
    }
  }

  lemma NoStartBefore(es: seq<Event>, i: nat)
    requires Careful(es) && i < |es| && es[i].StartConsumer?
    ensures NoConsumerStart(es[..i])
  {
    forall j | 0 <= j < i ensures !es[j].StartConsumer? {
      assert es[i].StartConsumer?;
    }
  }

  lemma FrontLatched(s: State, front: seq<Event>)
    requires s.past == [] && Run(s, front).Some? && LatchedBefore(front) && NoConsumerStart(front)
    ensures Latched(Run(s, front).value)
  {
    var k, m :| 0 <= k < m < |front| && front[k].Snapshot? && front[m].StopConsumer? && Quiet(front[k + 1..m]);
    Cut(front, k, m);
    assert forall e | e in front[..k] || e in front[m + 1..] :: e in front;
    var half := front[..k] + [Snapshot] + front[k + 1..m] + [StopConsumer];
    RunPrefix(s, half, front[m + 1..]);
    LatchHolds(s, front[..k], front[k + 1..m]);
    StaysLatched(Run(s, half).value, front[m + 1..]);
  }

  lemma Cut(es: seq<Event>, k: nat, m: nat)
    requires k < m < |es|
    ensures es == es[..k] + [es[k]] + es[k + 1..m] + [es[m]] + es[m + 1..]
  {
  }

  lemma RestartTidy(s: State)
    requires Latched(s)
    ensures Run(s, [StartConsumer]).Some? && Tidy(Run(s, [StartConsumer]).value)
  {
    OneStep(s, StartConsumer);
    assert s.past + s.current == s.current;
  }

  /** A careful run's view is complete under either kind of stream. */
  lemma CarefulComplete(stream: Stream, seeding: Seeding, es: seq<Event>)
    requires Run(Init(stream, seeding), es).Some? && Careful(es)
    ensures Complete(Run(Init(stream, seeding), es).value)
  {
    var t := Run(Init(stream, seeding), es).value;
    InitInv(stream, seeding);
    CarefulTidy(Init(stream, seeding), es);
    RunInv(Init(stream, seeding), es);
    SnapshotCompletes(t);
  }

  /** The same careful events lead to the same view whichever runtime shows the output,
      and that view is everything received. */
  lemma RuntimeIndependent(es: seq<Event>, seeding: Seeding)
    requires Run(Init(Fresh, seeding), es).Some? && Careful(es)
    ensures var t := Run(Init(Fresh, seeding), es).value;
      && Run(Init(Accumulating, seeding), es) == Some(t.(stream := Accumulating))
      && View(t) == View(t.(stream := Accumulating))
      && |t.fates| == |t.log|
      && View(t).hashes.Keys == ReceivedHashes(t) && View(t).readings.Keys == ReceivedReadings(t)
  {
    var t := Run(Init(Fresh, seeding), es).value;
    StreamsInStep(es, seeding);
    CarefulComplete(Fresh, seeding, es);
    CarefulComplete(Accumulating, seeding, es);
    InitInv(Fresh, seeding);
    RunInv(Init(Fresh, seeding), es);
    ViewSets(t);
  }

  lemma {:induction false} StreamsInStep(es: seq<Event>, seeding: Seeding)
    requires Run(Init(Fresh, seeding), es).Some? && Careful(es)
    ensures Run(Init(Accumulating, seeding), es) == Some(Run(Init(Fresh, seeding), es).value.(stream := Accumulating))
  {
    if es != [] {
      var front, e := es[..|es| - 1], es[|es| - 1];
      assert es == front + [e];
      CarefulFront(front, e);
      StreamsInStep(front, seeding);
      var s := Run(Init(Fresh, seeding), front).value;
      RunGrows(Init(Fresh, seeding), front);
      if e.Snapshot? {
        FirstLife(Init(Fresh, seeding), front);
      }
      StreamInStep(s, e);
    }
  }

  lemma CarefulFront(front: seq<Event>, e: Event)
    requires Careful(front + [e])
    ensures Careful(front) && (e.Snapshot? ==> NoConsumerStart(front))
  {
    var es := front + [e];
    forall i | 0 <= i < |front| && front[i].StartConsumer?
      ensures (forall j | i < j < |front| :: !front[j].StartConsumer? && !front[j].Snapshot?) && LatchedBefore(front[..i])
    {
      assert es[i].StartConsumer? && es[..i] == front[..i];
      assert forall j | i < j < |front| :: front[j] == es[j];
    }
    if e.Snapshot? {
      forall i | 0 <= i < |front| ensures !front[i].StartConsumer? {
        assert es[i] == front[i] && es[|front|].Snapshot?;
      }
    }
  }

  lemma StreamInStep(s: State, e: Event)
    requires s.stream == Fresh && (e.Snapshot? ==> s.past == []) && Step(s, e).Some?
    ensures Step(s.(stream := Accumulating), e) == Some(Step(s, e).value.(stream := Accumulating))
  {
    if e.Snapshot? {
      assert [] + s.current == s.current;
    }
  }

  /* ---- loss, exactly ---- */

  /** The numbers of the kept records, in log order. */
  function Numbers(log: seq<Emission>, keep: seq<bool>): seq<string>
    requires |keep| == |log|
  {
    if log == [] then []
    else
      var n := |log| - 1;
      Numbers(log[..n], keep[..n]) + if keep[n] then [Text.Decimal(log[n].seqNo)] else []
  }

  function Unreceived(s: State): (keep: seq<bool>)
    ensures |keep| == |s.fates|
  {
    seq(|s.fates|, i requires 0 <= i < |s.fates| => s.fates[i] != Received)
  }

  function Missing(log: seq<Emission>, delivered: map<string, bool>): (keep: seq<bool>)
    ensures |keep| == |log|
  {
    seq(|log|, i requires 0 <= i < |log| => !EmissionLog.Delivered(delivered, log[i].hash))
  }

  lemma {:induction false} LostAreMissing(log: seq<Emission>, delivered: map<string, bool>)
    ensures EmissionLog.Lost(LogRecords(log), delivered) == Numbers(log, Missing(log, delivered))
  {
    if log != [] {
      var n := |log| - 1;
      LostAreMissing(log[..n], delivered);
      assert LogRecords(log)[..n] == LogRecords(log[..n]);
      assert Missing(log, delivered)[..n] == Missing(log[..n], delivered);
    }
  }

  /** Keeping fewer records gives fewer numbers. */
  lemma {:induction false} NumbersTell(log: seq<Emission>, fewer: seq<bool>, more: seq<bool>)
    requires |fewer| == |more| == |log| && forall i | 0 <= i < |log| :: fewer[i] ==> more[i]
    ensures |Numbers(log, fewer)| <= |Numbers(log, more)|
    ensures |Numbers(log, fewer)| == |Numbers(log, more)| <==> fewer == more
  {
    if log != [] {
      var n := |log| - 1;
      NumbersTell(log[..n], fewer[..n], more[..n]);
      assert fewer == fewer[..n] + [fewer[n]] && more == more[..n] + [more[n]];
    }
  }

  /** No record the consumer missed carries the hash of one it got. */
  ghost predicate HashesSeparate(s: State) {
    |s.fates| == |s.log| &&
    forall i, j | 0 <= i < |s.log| && 0 <= j < |s.log| && s.fates[i] == Received && s.fates[j] != Received ::
      s.log[i].hash != s.log[j].hash
  }

  ghost function Reconciliation(s: State): EmissionLog.EmissionReconciliation {
    EmissionLog.Reconciled(LogRecords(s.log), View(s).hashes)
  }

  lemma ViewIsReceived(s: State)
    requires Inv(s) && Complete(s)
    ensures View(s).hashes.Keys == ReceivedHashes(s)
    ensures forall h :: EmissionLog.Delivered(View(s).hashes, h) <==> h in ReceivedHashes(s)
  {
    ViewSets(s);
  }

  /** A record is reported lost only if it was not received, … */
  lemma MissingUnreceived(s: State)
    requires Inv(s) && Complete(s)
    ensures forall i | 0 <= i < |s.log| :: Missing(s.log, View(s).hashes)[i] ==> Unreceived(s)[i]
    ensures Missing(s.log, View(s).hashes) == Unreceived(s) <==> HashesSeparate(s)
  {
    ViewIsReceived(s);
    var missing, unreceived := Missing(s.log, View(s).hashes), Unreceived(s);
    forall i | 0 <= i < |s.log| ensures missing[i] <==> s.log[i].hash !in ReceivedHashes(s) {
    }
    if HashesSeparate(s) {
      assert forall i | 0 <= i < |s.log| && s.fates[i] != Received :: s.log[i].hash !in ReceivedHashes(s);
    }
    if missing == unreceived {
      forall i, j | 0 <= i < |s.log| && 0 <= j < |s.log| && s.fates[i] == Received && s.fates[j] != Received
        ensures s.log[i].hash != s.log[j].hash
      {
        assert unreceived[j] && s.log[i].hash in ReceivedHashes(s);
      }
    }
  }

  /** … and exactly the unreceived records are reported, in log order, when no hash is
      shared between a received and an unreceived one. Nothing is unlogged, and delivered
      and lost records make up the log. */
  lemma LossExact(s: State)
    requires Inv(s) && Complete(s)
    ensures Reconciliation(s).lost == Numbers(s.log, Unreceived(s)) <==> HashesSeparate(s)
    ensures Reconciliation(s).unlogged == []
    ensures |EmissionLog.Select(LogRecords(s.log), View(s).hashes, true)| + |Reconciliation(s).lost| == |s.log|
    ensures s.seeding.FromTail? ==> EmissionLog.Continuous(Reconciliation(s).sequences)
  {
    var delivered := View(s).hashes;
    LostAreMissing(s.log, delivered);
    MissingUnreceived(s);
    NumbersTell(s.log, Missing(s.log, delivered), Unreceived(s));
    EmissionLog.LossConserved(LogRecords(s.log), delivered);
    if s.seeding.FromTail? {
      NumberedReads(s.log);
    }
    ReceivedAreLogged(s);
    var none: set<string> := EmissionLog.UnloggedSet(LogRecords(s.log), delivered);
    assert none == {};
    Text.StringsOrdered();
    assert Lists([], none, Text.StrLeq);
    ListingIs([], none, Text.StrLeq);
  }

  lemma ReceivedAreLogged(s: State)
    requires Inv(s) && Complete(s)
    ensures View(s).hashes.Keys <= EmissionLog.Hashes(LogRecords(s.log))
  {
    ViewIsReceived(s);
    forall h | h in ReceivedHashes(s) ensures h in EmissionLog.Hashes(LogRecords(s.log)) {
      var i :| 0 <= i < |s.log| && s.fates[i] == Received && s.log[i].hash == h;
      assert LogRecords(s.log)[i].credentialHash == h;
    }
  }

  /** The scenario's closing check, on the payloads served and the lines shown. */
  method AccountForLoss(s: State) returns (r: Result<EmissionLog.EmissionReconciliation, nat>)
    ensures r == Success(Reconciliation(s))
  {
    var payloads: seq<Document> := [];
    for i := 0 to |s.log|
      invariant payloads == Payloads(s.log[..i])
    {
      payloads := payloads + [PayloadOf(s.log[i])];
    }
    assert s.log[..|s.log|] == s.log;
    var delivered := SinkDelivery.ParseSink(s.snapshot + SinkLines(s));
    PayloadsDecode(s.log);
    r := EmissionLog.ReconcileEmissionLog(payloads, delivered.hashes);
  }

  /* ---- the loss window ---- */

  /** The numbers after the first `a` up to `b`. */
  function Window(a: nat, b: nat): (r: seq<string>)
    requires a <= b
    ensures |r| == b - a
  {
    seq(b - a, i requires 0 <= i < b - a => Text.Decimal(a + i + 1))
  }

  lemma {:induction false} NumbersOfWindow(log: seq<Emission>, keep: seq<bool>, a: nat, b: nat)
    requires Numbered(log) && |keep| == |log| && a <= b
    requires forall i | 0 <= i < |log| :: keep[i] <==> a <= i < b
    ensures b <= |log| ==> Numbers(log, keep) == Window(a, b)
    ensures a <= |log| <= b ==> Numbers(log, keep) == Window(a, |log|)
    ensures |log| <= a ==> Numbers(log, keep) == []
    decreases |log|
  {
    if log != [] {
      var n := |log| - 1;
      NumbersOfWindow(log[..n], keep[..n], a, b);
      if a <= n < b {
        assert Window(a, n) + [Text.Decimal(n + 1)] == Window(a, n + 1);
      }
    }
  }

  predicate NoConsumerStart(es: seq<Event>) {
    forall e | e in es :: !e.StartConsumer?
  }

  /** While the consumer is down nothing is delivered, nor even under way to it. */
  lemma {:induction false} OutageReceivesNothing(s: State, es: seq<Event>)
    requires Inv(s) && !s.consumerUp && Run(s, es).Some? && NoConsumerStart(es)
    ensures var t := Run(s, es).value;
      && !t.consumerUp && |s.fates| <= |t.fates| == |t.log|
      && forall i | |s.fates| <= i < |t.fates| :: t.fates[i] in [Pending, Dropped]
  {
    if es != [] {
      var front, e := es[..|es| - 1], es[|es| - 1];
      assert forall x | x in front :: x in es;
      assert e in es;
      OutageReceivesNothing(s, front);
      RunInv(s, front);
      StepInv(Run(s, front).value, e);
    }
  }

  /** The states of the scenario: everything received up to the outage at `s1`; `s2` is
      where it ends; by `s3` everything emitted since has been received, and the view is
      complete. */
  ghost predicate OutageThenRecovery(s1: State, es1: seq<Event>, es2: seq<Event>) {
    && Inv(s1) && s1.seeding.FromTail? && !s1.consumerUp
    && (forall i | 0 <= i < |s1.fates| :: s1.fates[i] == Received)
    && NoConsumerStart(es1) && Run(s1, es1).Some?
    && var s2 := Run(s1, es1).value;
    && Run(s2, es2).Some? && Settled(s2, Run(s2, es2).value)
  }

  ghost predicate Settled(s2: State, s3: State) {
    && Complete(s3) && HashesSeparate(s3)
    && forall i | |s2.fates| <= i < |s3.fates| :: s3.fates[i] == Received
  }

  /** The loss set names the window, number by number, exactly when nothing logged during
      the outage was delivered after it. */
  lemma WindowNamedExactly(s1: State, es1: seq<Event>, es2: seq<Event>)
    requires OutageThenRecovery(s1, es1, es2)
    ensures var s2 := Run(s1, es1).value;
      var s3 := Run(s2, es2).value;
      && |s1.log| <= |s2.log| <= |s3.log| == |s3.fates|
      && (Reconciliation(s3).lost == Window(|s1.log|, |s2.log|)
          <==> forall i | |s1.log| <= i < |s2.log| :: s3.fates[i] != Received)
  {
    var s2 := Run(s1, es1).value;
    var s3 := Run(s2, es2).value;
    OutsideReceived(s1, es1, es2);
    LossExact(s3);
    UnreceivedWindow(s3, |s1.log|, |s2.log|);
  }

  /** Before the outage and after it everything is received. */
  lemma OutsideReceived(s1: State, es1: seq<Event>, es2: seq<Event>)
    requires OutageThenRecovery(s1, es1, es2)
    ensures var s2 := Run(s1, es1).value;
      var s3 := Run(s2, es2).value;
      && Inv(s3) && s3.seeding.FromTail? && |s1.log| <= |s2.log| <= |s3.log| == |s3.fates|
      && forall i | 0 <= i < |s3.log| && !(|s1.log| <= i < |s2.log|) :: s3.fates[i] == Received
  {
    var s2 := Run(s1, es1).value;
    RunInv(s1, es1);
    RunGrows(s1, es1);
    RunInv(s2, es2);
    RunGrows(s2, es2);
    assert forall i | 0 <= i < |s1.log| :: s2.fates[i] == Received;
  }

  lemma UnreceivedWindow(s: State, a: nat, b: nat)
    requires |s.fates| == |s.log| && Numbered(s.log) && a <= b <= |s.log|
    requires forall i | 0 <= i < |s.log| && !(a <= i < b) :: s.fates[i] == Received
    ensures Numbers(s.log, Unreceived(s)) == Window(a, b) <==> forall i | a <= i < b :: s.fates[i] != Received
  {
    var window := seq(|s.log|, i => a <= i < b);
    NumbersOfWindow(s.log, window, a, b);
    NumbersTell(s.log, Unreceived(s), window);
    if forall i | a <= i < b :: s.fates[i] != Received {
      assert Unreceived(s) == window;
    }
    if Unreceived(s) == window {
      forall i | a <= i < b ensures s.fates[i] != Received {
        assert Unreceived(s)[i] == window[i];
      }
    }
  }

  /** If every record of the outage had been published when it ended, the window is named. */
  lemma WindowNamed(s1: State, es1: seq<Event>, es2: seq<Event>)
    requires OutageThenRecovery(s1, es1, es2)
    requires Pending !in Run(s1, es1).value.fates
    ensures var s2 := Run(s1, es1).value;
      |s1.log| <= |s2.log| && Reconciliation(Run(s2, es2).value).lost == Window(|s1.log|, |s2.log|)
  {
    var s2 := Run(s1, es1).value;
    WindowNamedExactly(s1, es1, es2);
    OutageReceivesNothing(s1, es1);
    RunGrows(s2, es2);
    RunInv(s1, es1);
    forall i | |s1.log| <= i < |s2.log| ensures s2.fates[i] == Dropped {
      assert s2.fates[i] in s2.fates;
    }
  }

  lemma ThreeSteps(s: State, e1: Event, e2: Event, e3: Event)
    requires Run(s, [e1, e2]).Some?
    ensures Run(s, [e1, e2, e3]) == Step(Run(s, [e1, e2]).value, e3)
  {
    assert [e1, e2, e3][..2] == [e1, e2];
  }

  /** A record logged in the outage but not yet published when the consumer comes back can
      still be delivered: the log's size, which is all the scenario waits for, cannot
      exclude it. */
  lemma LateDelivery(s: State, i: nat)
    requires Inv(s) && !s.consumerUp && s.producerUp && i < |s.fates| && s.fates[i] == Pending
    ensures var t := Run(s, [StartConsumer, Publish(i), Deliver(i)]);
      && t.Some? && t.value.mirror == s.mirror && t.value.log == s.log
      && t.value.fates == s.fates[i := Received]
      && t.value.past == s.past + s.current && t.value.snapshot == s.snapshot
  {
    var up := Step(s, StartConsumer).value;
    PublishedOnceUp(up, i);
    var sent := Step(up, Publish(i)).value;
    DeliveredOnceSent(sent, i);
    assert s.fates[i := InFlight][i := Received] == s.fates[i := Received];
    TwoSteps(s, StartConsumer, Publish(i));
    ThreeSteps(s, StartConsumer, Publish(i), Deliver(i));
  }

  lemma PublishedOnceUp(s: State, i: nat)
    requires s.consumerUp && s.producerUp && i < |s.fates| && s.fates[i] == Pending
    ensures Step(s, Publish(i)) == Some(s.(fates := s.fates[i := InFlight]))
  {
  }

  lemma DeliveredOnceSent(s: State, i: nat)
    requires s.consumerUp && i < |s.fates| == |s.log| && s.fates[i] == InFlight
    ensures Step(s, Deliver(i)) == Some(s.(fates := s.fates[i := Received], current := s.current + [SinkLine(s.log[i])]))
  {
  }

  ghost predicate DistinctHashes(log: seq<Emission>) {
    forall i, j | 0 <= i < j < |log| :: log[i].hash != log[j].hash
  }

  /** The scenario's first half: everything logged is received, a snapshot is taken, nothing
      more is delivered, and the consumer goes down. */
  ghost predicate OutageBegins(stream: Stream, es0: seq<Event>, quiet: seq<Event>) {
    && NoConsumerStart(es0) && Quiet(quiet)
    && var s1 := Run(Init(stream, FromTail), es0 + [Snapshot] + quiet + [StopConsumer]);
      s1.Some? && forall i | 0 <= i < |s1.value.fates| :: s1.value.fates[i] == Received
  }

  /** Where it leaves the scenario. */
  ghost function Stopped(stream: Stream, es0: seq<Event>, quiet: seq<Event>): State
    requires OutageBegins(stream, es0, quiet)
  {
    Run(Init(stream, FromTail), es0 + [Snapshot] + quiet + [StopConsumer]).value
  }

  /** The outage, over events without a restart, ends with the producer running and no two
      records sharing a hash. */
  ghost predicate OutageEnds(s1: State, es1: seq<Event>) {
    && NoConsumerStart(es1) && Run(s1, es1).Some?
    && Run(s1, es1).value.producerUp && DistinctHashes(Run(s1, es1).value.log)
  }

  /** So the outage names its window in every settled continuation exactly when nothing
      was left unpublished at its end. */
  lemma QuiescenceNeeded(stream: Stream, es0: seq<Event>, quiet: seq<Event>, es1: seq<Event>)
    requires OutageBegins(stream, es0, quiet) && OutageEnds(Stopped(stream, es0, quiet), es1)
    ensures var s1 := Stopped(stream, es0, quiet);
      var s2 := Run(s1, es1).value;
      && |s1.log| <= |s2.log|
      && (Pending !in s2.fates
          <==> forall es2 | Run(s2, es2).Some? && Settled(s2, Run(s2, es2).value) ::
                 Reconciliation(Run(s2, es2).value).lost == Window(|s1.log|, |s2.log|))
  {
    var s1 := Stopped(stream, es0, quiet);
    var s2 := Run(s1, es1).value;
    OutageLatched(stream, es0, quiet, es1);
    RunGrows(s1, es1);
    if Pending !in s2.fates {
      forall es2 | Run(s2, es2).Some? && Settled(s2, Run(s2, es2).value)
        ensures Reconciliation(Run(s2, es2).value).lost == Window(|s1.log|, |s2.log|)
      {
        WindowNamed(s1, es1, es2);
      }
    } else {
      var es2 := SpoilingRun(s1, es1);
    }
  }

  /** The snapshot shows every delivery made, at the outage's end as at its start. */
  lemma OutageLatched(stream: Stream, es0: seq<Event>, quiet: seq<Event>, es1: seq<Event>)
    requires OutageBegins(stream, es0, quiet) && OutageEnds(Stopped(stream, es0, quiet), es1)
    ensures var s1 := Stopped(stream, es0, quiet);
      var s2 := Run(s1, es1).value;
      Inv(s1) && s1.seeding.FromTail? && Latched(s1) && Latched(s2)
  {
    var half := es0 + [Snapshot] + quiet + [StopConsumer];
    LatchHolds(Init(stream, FromTail), es0, quiet);
    StaysLatched(Stopped(stream, es0, quiet), es1);
    ReachedInv(stream, half);
  }

  lemma ReachedInv(stream: Stream, es: seq<Event>)
    requires Run(Init(stream, FromTail), es).Some?
    ensures var s := Run(Init(stream, FromTail), es).value; Inv(s) && s.seeding.FromTail?
  {
    InitInv(stream, FromTail);
    RunInv(Init(stream, FromTail), es);
    RunGrows(Init(stream, FromTail), es);
  }

  lemma SpoilingRun(s1: State, es1: seq<Event>) returns (es2: seq<Event>)
    requires Inv(s1) && s1.seeding.FromTail? && !s1.consumerUp && OutageEnds(s1, es1)
    requires forall i | 0 <= i < |s1.fates| :: s1.fates[i] == Received
    requires Latched(Run(s1, es1).value) && Pending in Run(s1, es1).value.fates
    ensures var s2 := Run(s1, es1).value;
      && Run(s2, es2).Some? && Settled(s2, Run(s2, es2).value)
      && |s1.log| <= |s2.log| && Reconciliation(Run(s2, es2).value).lost != Window(|s1.log|, |s2.log|)
  {
    var s2 := Run(s1, es1).value;
    RunGrows(s1, es1);
    RunInv(s1, es1);
    OutageReceivesNothing(s1, es1);
    var i :| 0 <= i < |s2.fates| && s2.fates[i] == Pending;
    assert forall k | 0 <= k < |s1.log| :: s2.fates[k] == Received;
    es2 := [StartConsumer, Publish(i), Deliver(i)];
    LateDelivery(s2, i);
    LateIsComplete(s2, i);
    WindowNamedExactly(s1, es1, es2);
    assert Run(s2, es2).value.fates[i] == Received;
  }

  lemma LateIsComplete(s: State, i: nat)
    requires Inv(s) && !s.consumerUp && s.producerUp && i < |s.fates| && s.fates[i] == Pending
    requires Latched(s) && DistinctHashes(s.log)
    ensures var t := Run(s, [StartConsumer, Publish(i), Deliver(i)]); t.Some? && Settled(s, t.value)
  {
    LateDelivery(s, i);
    var es := [StartConsumer, Publish(i), Deliver(i)];
    RunInv(s, es);
    var t := Run(s, es).value;
    assert t.past == [] + s.current == s.current;
    SnapshotCompletes(t);
    DistinctSeparate(t);
  }

  lemma DistinctSeparate(t: State)
    requires |t.fates| == |t.log| && DistinctHashes(t.log)
    ensures HashesSeparate(t)
  {
    forall i, j | 0 <= i < |t.log| && 0 <= j < |t.log| && t.fates[i] == Received && t.fates[j] != Received
      ensures t.log[i].hash != t.log[j].hash
    {
      assert i != j;
    }
  }

  lemma SnapshotCompletes(t: State)
    requires Inv(t) && Tidy(t)
    ensures Complete(t)
  {
    SinkDelivery.HashesUnion(t.snapshot, t.current);
    SinkDelivery.ReadingsUnion(t.snapshot, t.current);
    CompleteExactly(t);
  }

  /* ---- a run that leaves one record unpublished ---- */

  /** #1 is delivered, the consumer goes down, and #2 is logged but not yet published. */
  lemma UnquietOutage()
    ensures var es0, es1 := [Append("a", 1), Publish(0), Deliver(0)], [Append("b", 2)];
      && OutageBegins(Fresh, es0, []) && OutageEnds(Stopped(Fresh, es0, []), es1)
      && Run(Stopped(Fresh, es0, []), es1).value.fates == [Received, Pending]
  {
    DownAfterOne();
    OneMoreLogged(Stopped(Fresh, [Append("a", 1), Publish(0), Deliver(0)], []));
  }

  lemma DownAfterOne()
    ensures var es0 := [Append("a", 1), Publish(0), Deliver(0)];
      && OutageBegins(Fresh, es0, [])
      && var s1 := Stopped(Fresh, es0, []);
        s1.producerUp && s1.log == [Emission("a", 1, 1)] && s1.fates == [Received] && s1.next == 2
  {
    var es0 := [Append("a", 1), Publish(0), Deliver(0)];
    var s := DeliveredOne();
    assert es0 + [Snapshot] + [] + [StopConsumer] == es0 + [Snapshot, StopConsumer];
    RunConcat(Init(Fresh, FromTail), es0, [Snapshot, StopConsumer]);
    LatchAndStop(s);
  }

  lemma LatchAndStop(s: State)
    requires s.consumerUp
    ensures var t := Run(s, [Snapshot, StopConsumer]);
      && t.Some? && t.value.producerUp == s.producerUp && t.value.log == s.log && t.value.next == s.next
      && t.value.fates == DropAll(s.fates, InFlight)
  {
    TwoSteps(s, Snapshot, StopConsumer);
  }

  lemma OneMoreLogged(s: State)
    requires s.producerUp && s.log == [Emission("a", 1, 1)] && s.fates == [Received]
    ensures OutageEnds(s, [Append("b", 2)]) && Run(s, [Append("b", 2)]).value.fates == [Received, Pending]
  {
    OneStep(s, Append("b", 2));
  }

  lemma DeliveredOne() returns (s: State)
    ensures Run(Init(Fresh, FromTail), [Append("a", 1), Publish(0), Deliver(0)]) == Some(s)
    ensures s.fates == [Received] && s.log == [Emission("a", 1, 1)] && s.producerUp && s.consumerUp && s.next == 2
  {
    var start := Init(Fresh, FromTail);
    var appended := Step(start, Append("a", 1)).value;
    PublishedOnceUp(appended, 0);
    var sent := Step(appended, Publish(0)).value;
    DeliveredOnceSent(sent, 0);
    s := Step(sent, Deliver(0)).value;
    TwoSteps(start, Append("a", 1), Publish(0));
    ThreeSteps(start, Append("a", 1), Publish(0), Deliver(0));
  }
}
