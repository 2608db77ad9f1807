/** The loss-window scenario's own run, event by event: what its last check reports. */
module ScenarioRun {
  import opened Wrappers
  import opened Json
  import opened LossWindow
  import opened LossAccounting
  import EmissionLog
  import SinkDelivery
  import Text

  /** Record i logged, published and delivered; the scenario's readings count from 1. */
  function Relayed(hashes: seq<string>, i: nat): seq<Event>
    requires i < |hashes|
  {
    [Append(hashes[i], i + 1), Publish(i), Deliver(i)]
  }

  /** Record i logged and published. */
  function Sent(hashes: seq<string>, i: nat): seq<Event>
    requires i < |hashes|
  {
    [Append(hashes[i], i + 1), Publish(i)]
  }

  function OutageEvents(hashes: seq<string>): seq<Event>
    requires |hashes| == 5
  {
    Relayed(hashes, 0) + [Snapshot, StopConsumer] + (Sent(hashes, 1) + Sent(hashes, 2)) + [Ship(3)]
  }

  function RecoveryEvents(hashes: seq<string>): seq<Event>
    requires |hashes| == 5
  {
    [StartConsumer] + Relayed(hashes, 3) + [Ship(1)]
  }

  function RestartEvents(hashes: seq<string>): seq<Event>
    requires |hashes| == 5
  {
    [StopProducer(0), StartProducer] + Relayed(hashes, 4)
  }

  /** #1 is delivered, #2 and #3 are emitted while the consumer is down, #4 once it is back,
      and #5 after the producer has been restarted too; the mirror has caught up each time
      the log's size is waited for. */
  function ScenarioEvents(hashes: seq<string>): seq<Event>
    requires |hashes| == 5
  {
    OutageEvents(hashes) + RecoveryEvents(hashes) + RestartEvents(hashes)
  }

  /* ---- its phases ---- */

  lemma RelayedRun(s: State, hash: string, reading: int)
    requires s.producerUp && s.consumerUp && hash != "" && |s.fates| == |s.log|
    ensures var e := Emission(hash, s.next, reading);
      Run(s, [Append(hash, reading), Publish(|s.log|), Deliver(|s.log|)])
      == Some(s.(log := s.log + [e], fates := s.fates + [Received], next := s.next + 1, current := s.current + [SinkLine(e)]))
  {
    var n := |s.log|;
    var logged := Step(s, Append(hash, reading)).value;
    PublishedOnceUp(logged, n);
    var sent := Step(logged, Publish(n)).value;
    DeliveredOnceSent(sent, n);
    LastMarked(s.fates);
    TwoSteps(s, Append(hash, reading), Publish(n));
    ThreeSteps(s, Append(hash, reading), Publish(n), Deliver(n));
  }

  lemma LastMarked(fates: seq<Fate>)
    ensures (fates + [Pending])[|fates| := InFlight][|fates| := Received] == fates + [Received]
  {
  }

  lemma SentIntoVoid(s: State, hash: string, reading: int)
    requires s.producerUp && !s.consumerUp && hash != "" && |s.fates| == |s.log|
    ensures Run(s, [Append(hash, reading), Publish(|s.log|)])
         == Some(s.(log := s.log + [Emission(hash, s.next, reading)], fates := s.fates + [Dropped], next := s.next + 1))
  {
    var n := |s.log|;
    assert (s.fates + [Pending])[n := Dropped] == s.fates + [Dropped];
    TwoSteps(s, Append(hash, reading), Publish(n));
  }

  function Logged(hashes: seq<string>, n: nat): seq<Emission>
    requires n <= |hashes|
  {
    seq(n, i requires 0 <= i < n => Emission(hashes[i], i + 1, i + 1))
  }

  function AfterFirst(stream: Stream, seeding: Seeding, hashes: seq<string>): State
    requires |hashes| == 5
  {
    var first := Logged(hashes, 1);
    State(stream, seeding, first, [Received], true, 2, [], false, [], [SinkLine(first[0])], [SinkLine(first[0])])
  }

  function AfterOutage(stream: Stream, seeding: Seeding, hashes: seq<string>): State
    requires |hashes| == 5
  {
    var log := Logged(hashes, 3);
    AfterFirst(stream, seeding, hashes).(log := log, fates := [Received, Dropped, Dropped], next := 4, mirror := log)
  }

  function AfterRecovery(stream: Stream, seeding: Seeding, hashes: seq<string>): State
    requires |hashes| == 5
  {
    var log := Logged(hashes, 4);
    State(stream, seeding, log, [Received, Dropped, Dropped, Received], true, 5, log, true,
          [SinkLine(log[0])], [SinkLine(log[3])], [SinkLine(log[0])])
  }

  /** The number of #5: the producer's counter was restarted before it. */
  function LastNumber(seeding: Seeding): nat {
    if seeding.FromTail? then 5 else 1
  }

  function AfterRestart(stream: Stream, seeding: Seeding, hashes: seq<string>): State
    requires |hashes| == 5
  {
    var s, last := AfterRecovery(stream, seeding, hashes), Emission(hashes[4], LastNumber(seeding), 5);
    s.(log := s.log + [last], fates := s.fates + [Received], next := LastNumber(seeding) + 1,
       current := s.current + [SinkLine(last)])
  }

  lemma FirstPhase(stream: Stream, seeding: Seeding, hashes: seq<string>)
    requires |hashes| == 5 && "" !in hashes
    ensures Run(Init(stream, seeding), Relayed(hashes, 0) + [Snapshot, StopConsumer]) == Some(AfterFirst(stream, seeding, hashes))
  {
    var s := Init(stream, seeding);
    RelayedRun(s, hashes[0], 1);
    RunConcat(s, Relayed(hashes, 0), [Snapshot, StopConsumer]);
    var t := Run(s, Relayed(hashes, 0)).value;
    TwoSteps(t, Snapshot, StopConsumer);
    assert t.log == Logged(hashes, 1) && t.fates == [Received] && DropAll(t.fates, InFlight) == [Received];
    assert t.current == [SinkLine(t.log[0])] && SinkLines(t) == t.current;
    assert Step(t, Snapshot).value.(consumerUp := false) == AfterFirst(stream, seeding, hashes);
  }

  lemma OutagePhase(stream: Stream, seeding: Seeding, hashes: seq<string>)
    requires |hashes| == 5 && "" !in hashes
    ensures Run(Init(stream, seeding), OutageEvents(hashes)) == Some(AfterOutage(stream, seeding, hashes))
  {
    var s := AfterFirst(stream, seeding, hashes);
    FirstPhase(stream, seeding, hashes);
    SentIntoVoid(s, hashes[1], 2);
    var t := Run(s, Sent(hashes, 1)).value;
    SentIntoVoid(t, hashes[2], 3);
    RunConcat(s, Sent(hashes, 1), Sent(hashes, 2));
    assert Logged(hashes, 3) == Logged(hashes, 1) + [Emission(hashes[1], 2, 2)] + [Emission(hashes[2], 3, 3)];
    assert [Received] + [Dropped] + [Dropped] == [Received, Dropped, Dropped];
    RunConcat(Init(stream, seeding), Relayed(hashes, 0) + [Snapshot, StopConsumer], Sent(hashes, 1) + Sent(hashes, 2));
    AllShipped(AfterOutage(stream, seeding, hashes).(mirror := []), 3);
    RunConcat(Init(stream, seeding), Relayed(hashes, 0) + [Snapshot, StopConsumer] + (Sent(hashes, 1) + Sent(hashes, 2)), [Ship(3)]);
  }

  lemma AllShipped(s: State, n: nat)
    requires s.producerUp && s.mirror <= s.log && |s.mirror| + n == |s.log|
    ensures Run(s, [Ship(n)]) == Some(s.(mirror := s.log))
  {
    OneStep(s, Ship(n));
    assert ShipMore(s, n) == s.log;
  }

  lemma RecoveryPhase(stream: Stream, seeding: Seeding, hashes: seq<string>)
    requires |hashes| == 5 && "" !in hashes
    ensures Run(AfterOutage(stream, seeding, hashes), RecoveryEvents(hashes)) == Some(AfterRecovery(stream, seeding, hashes))
  {
    var s := AfterOutage(stream, seeding, hashes);
    OneStep(s, StartConsumer);
    var t := Run(s, [StartConsumer]).value;
    assert t.past == [] + s.current == s.current;
    RunConcat(s, [StartConsumer], Relayed(hashes, 3));
    RelayedRun(t, hashes[3], 4);
    assert Logged(hashes, 4)[..3] == Logged(hashes, 3);
    AllShipped(AfterRecovery(stream, seeding, hashes).(mirror := Logged(hashes, 3)), 1);
    RunConcat(s, [StartConsumer] + Relayed(hashes, 3), [Ship(1)]);
    assert Logged(hashes, 4) == Logged(hashes, 3) + [Emission(hashes[3], 4, 4)];
    assert [Received, Dropped, Dropped] + [Received] == [Received, Dropped, Dropped, Received];
    assert [] + [SinkLine(Emission(hashes[3], 4, 4))] == [SinkLine(Emission(hashes[3], 4, 4))];
  }

  lemma RestartPhase(stream: Stream, seeding: Seeding, hashes: seq<string>)
    requires |hashes| == 5 && "" !in hashes
    ensures Run(AfterRecovery(stream, seeding, hashes), RestartEvents(hashes)) == Some(AfterRestart(stream, seeding, hashes))
  {
    var s := AfterRecovery(stream, seeding, hashes);
    TwoSteps(s, StopProducer(0), StartProducer);
    assert ShipMore(s, 0) == s.log;
    assert DropAll(s.fates, Pending) == s.fates;
    var t := Run(s, [StopProducer(0), StartProducer]).value;
    assert t == s.(next := LastNumber(seeding));
    RunConcat(s, [StopProducer(0), StartProducer], Relayed(hashes, 4));
    RelayedRun(t, hashes[4], 5);
  }

  lemma ScenarioRuns(stream: Stream, seeding: Seeding, hashes: seq<string>)
    requires |hashes| == 5 && "" !in hashes
    ensures Run(Init(stream, seeding), ScenarioEvents(hashes)) == Some(AfterRestart(stream, seeding, hashes))
  {
    var s := Init(stream, seeding);
    OutagePhase(stream, seeding, hashes);
    RecoveryPhase(stream, seeding, hashes);
    RestartPhase(stream, seeding, hashes);
    RunConcat(s, OutageEvents(hashes), RecoveryEvents(hashes));
    RunConcat(s, OutageEvents(hashes) + RecoveryEvents(hashes), RestartEvents(hashes));
  }

  /* ---- its checks ---- */

  lemma NumbersSnoc(log: seq<Emission>, keep: seq<bool>, e: Emission, kept: bool)
    requires |keep| == |log|
    ensures Numbers(log + [e], keep + [kept]) == Numbers(log, keep) + if kept then [Text.Decimal(e.seqNo)] else []
  {
    assert (log + [e])[..|log|] == log && (keep + [kept])[..|log|] == keep;
  }

  lemma NumbersOfFive(a: Emission, b: Emission, c: Emission, d: Emission, e: Emission)
    ensures Numbers([a, b, c, d, e], [false, true, true, false, false]) == [Text.Decimal(b.seqNo), Text.Decimal(c.seqNo)]
  {
    NumbersOfThree(a, b, c);
    TwoUnnumbered([a, b, c], [false, true, true], d, e);
    assert [a, b, c] + [d] + [e] == [a, b, c, d, e];
    assert [false, true, true] + [false] + [false] == [false, true, true, false, false];
  }

  lemma TwoUnnumbered(log: seq<Emission>, keep: seq<bool>, d: Emission, e: Emission)
    requires |keep| == |log|
    ensures Numbers(log + [d] + [e], keep + [false] + [false]) == Numbers(log, keep)
  {
    NumbersSnoc(log, keep, d, false);
    NumbersSnoc(log + [d], keep + [false], e, false);
  }

  lemma NumbersOfThree(a: Emission, b: Emission, c: Emission)
    ensures Numbers([a, b, c], [false, true, true]) == [Text.Decimal(b.seqNo), Text.Decimal(c.seqNo)]
  {
    NumbersSnoc([], [], a, false);
    assert [] + [a] == [a] && [] + [false] == [false];
    TwoNumbered([a], [false], b, c);
    assert [a] + [b] + [c] == [a, b, c] && [false] + [true] + [true] == [false, true, true];
  }

  lemma TwoNumbered(log: seq<Emission>, keep: seq<bool>, b: Emission, c: Emission)
    requires |keep| == |log| && Numbers(log, keep) == []
    ensures Numbers(log + [b] + [c], keep + [true] + [true]) == [Text.Decimal(b.seqNo), Text.Decimal(c.seqNo)]
  {
    NumbersSnoc(log, keep, b, true);
    NumbersSnoc(log + [b], keep + [true], c, true);
  }

  lemma Digits()
    ensures Text.Decimal(1) == "1" && Text.Decimal(2) == "2" && Text.Decimal(3) == "3"
    ensures Text.Decimal(4) == "4" && Text.Decimal(5) == "5"
  {
  }

  /** The last state is reached by a run whose snapshot covers what was printed before the
      outage, and no lost record shares its hash with a received one. */
  lemma ScenarioComplete(stream: Stream, seeding: Seeding, hashes: seq<string>)
    requires |hashes| == 5 && "" !in hashes && forall i, j | 0 <= i < j < 5 :: hashes[i] != hashes[j]
    ensures var t := AfterRestart(stream, seeding, hashes); Inv(t) && Complete(t) && HashesSeparate(t)
  {
    var t := AfterRestart(stream, seeding, hashes);
    ScenarioRuns(stream, seeding, hashes);
    InitInv(stream, seeding);
    RunInv(Init(stream, seeding), ScenarioEvents(hashes));
    SnapshotCompletes(t);
    FateOfEach(stream, seeding, hashes);
  }

  lemma FateOfEach(stream: Stream, seeding: Seeding, hashes: seq<string>)
    requires |hashes| == 5 && "" !in hashes
    ensures var t := AfterRestart(stream, seeding, hashes);
      && |t.log| == |t.fates| == 5
      && (forall i | 0 <= i < 5 :: t.log[i].hash == hashes[i] && t.log[i].reading == i + 1)
      && (forall i | 0 <= i < 5 :: t.log[i].seqNo == if i == 4 then LastNumber(seeding) else i + 1)
      && (forall i | 0 <= i < 5 :: t.fates[i] == if i == 1 || i == 2 then Dropped else Received)
  {
  }

  /** The scenario's last check. Under either runtime, readings 1, 4 and 5 were delivered,
      nothing delivered is missing from the log, the restart leaves the checkpoint as it was,
      and the loss is named: 2 and 3. The numbers
      are 1 to 5 only if the producer's counter is seeded from the log's tail; a counter that
      restarts at 1 leaves the loss as it is. */
  lemma ScenarioNamesLoss(stream: Stream, seeding: Seeding, hashes: seq<string>)
    requires |hashes| == 5 && "" !in hashes && forall i, j | 0 <= i < j < 5 :: hashes[i] != hashes[j]
    ensures var t := Run(Init(stream, seeding), ScenarioEvents(hashes));
      && t.Some?
      && Reconciliation(t.value).sequences == ["1", "2", "3", "4", if seeding.FromTail? then "5" else "1"]
      && Reconciliation(t.value).lost == ["2", "3"]
      && Reconciliation(t.value).unlogged == []
      && View(t.value).readings.Keys == {1, 4, 5}
      && var before := Run(Init(stream, seeding), OutageEvents(hashes) + RecoveryEvents(hashes));
        before.Some? && before.value.mirror == before.value.log == t.value.mirror
  {
    ScenarioRuns(stream, seeding, hashes);
    OutagePhase(stream, seeding, hashes);
    RecoveryPhase(stream, seeding, hashes);
    RunConcat(Init(stream, seeding), OutageEvents(hashes), RecoveryEvents(hashes));
    ScenarioComplete(stream, seeding, hashes);
    FateOfEach(stream, seeding, hashes);
    FiveReported(AfterRestart(stream, seeding, hashes));
    ReadingsOfScenario(AfterRestart(stream, seeding, hashes));
  }

  lemma FiveReported(t: State)
    requires Inv(t) && Complete(t) && HashesSeparate(t) && |t.log| == 5
    requires forall i | 0 <= i < 5 :: t.log[i].seqNo == if i == 4 then LastNumber(t.seeding) else i + 1
    requires forall i | 0 <= i < 5 :: t.fates[i] == if i == 1 || i == 2 then Dropped else Received
    ensures Reconciliation(t).sequences == ["1", "2", "3", "4", if t.seeding.FromTail? then "5" else "1"]
    ensures Reconciliation(t).lost == ["2", "3"] && Reconciliation(t).unlogged == []
  {
    LossExact(t);
    assert t.log == [t.log[0], t.log[1], t.log[2], t.log[3], t.log[4]];
    assert Unreceived(t) == [false, true, true, false, false];
    NumbersOfFive(t.log[0], t.log[1], t.log[2], t.log[3], t.log[4]);
    Digits();
    FiveSequences(t.log, LastNumber(t.seeding));
  }

  lemma FiveSequences(log: seq<Emission>, last: nat)
    requires |log| == 5 && forall i | 0 <= i < 5 :: log[i].seqNo == if i == 4 then last else i + 1
    ensures EmissionLog.Sequences(LogRecords(log))
         == [Text.Decimal(1), Text.Decimal(2), Text.Decimal(3), Text.Decimal(4), Text.Decimal(last)]
  {
  }

  lemma ReadingsOfScenario(t: State)
    requires Inv(t) && Complete(t) && |t.log| == 5
    requires forall i | 0 <= i < 5 :: t.log[i].reading == i + 1
    requires forall i | 0 <= i < 5 :: t.fates[i] == if i == 1 || i == 2 then Dropped else Received
    ensures View(t).readings.Keys == {1, 4, 5}
  {
    ViewSets(t);
    assert t.log[0].reading in ReceivedReadings(t) && t.log[3].reading in ReceivedReadings(t) && t.log[4].reading in ReceivedReadings(t);
    assert ReceivedReadings(t) == {1, 4, 5};
  }
}
