/** The loss-window protocol: a producer with a durable emission log, a mirror shipped
    behind it, at-most-once delivery to a consumer that comes and goes, and the
    reconciliation of the log with what the consumer's output shows. */
module LossWindow {
  import opened Wrappers
  import opened Json
  import SinkDelivery

  datatype Emission = Emission(hash: string, seqNo: nat, reading: int)

  /** Where an emission is: logged only, on its way, lost, or printed by the consumer. */
  datatype Fate = Pending | InFlight | Dropped | Received

  /** What a restarted consumer's output starts from: nothing (a new process) or all it
      ever printed (a container's log). */
  datatype Stream = Fresh | Accumulating

  /** Where a restarted producer's counter starts from. */
  datatype Seeding = FromTail | FromOne

  datatype State = State(
    stream: Stream,
    seeding: Seeding,
    log: seq<Emission>,      // durable, in the producer's pipeline process
    fates: seq<Fate>,        // one per log record
    producerUp: bool,
    next: nat,               // the number the next emission gets; lost with the process
    mirror: seq<Emission>,   // the network process's copy, which serves checkpoints
    consumerUp: bool,
    past: seq<Document>,     // printed before the consumer's last restart
    current: seq<Document>,  // printed since
    snapshot: seq<Document>) // the lines the scenario saved

  datatype Event =
    | Append(hash: string, reading: int)
    | Publish(i: nat)
    | Deliver(i: nat)
    | Drop(i: nat)
    | Chatter(line: Document)
    | Ship(n: nat)
    | Snapshot
    | StopConsumer
    | StartConsumer
    | StopProducer(drained: nat)
    | StartProducer

  function Init(stream: Stream, seeding: Seeding): State {
    State(stream, seeding, [], [], true, 1, [], true, [], [], [])
  }

  function SinkLine(e: Emission): Document {
    Parsed(Object(map["credential" := Text(e.hash), "payload" := Object(map["reading" := Number(e.reading)])]))
  }

  /** The consumer's output as the runtime shows it. */
  function SinkLines(s: State): seq<Document> {
    if s.stream.Fresh? then s.current else s.past + s.current
  }

  /** Re-seeding reads the durable tail; the faulty variant forgets it. */
  function Seed(s: State): nat {
    if s.seeding.FromOne? || s.log == [] then 1 else s.log[|s.log| - 1].seqNo + 1
  }

  function DropAll(fates: seq<Fate>, which: Fate): (r: seq<Fate>)
    ensures |r| == |fates|
    ensures forall i | 0 <= i < |fates| :: r[i] == if fates[i] == which then Dropped else fates[i]
  {
    seq(|fates|, i requires 0 <= i < |fates| => if fates[i] == which then Dropped else fates[i])
  }

  function ShipMore(s: State, n: nat): seq<Emission>
    requires |s.mirror| + n <= |s.log|
  {
    s.mirror + s.log[|s.mirror|..|s.mirror| + n]
  }

  /** One step, or nothing if it cannot happen. The log append precedes the publish; a
      publish without a subscriber is lost; a stopping consumer loses what is under way
      to it and a stopping producer what it has not published. */
  function Step(s: State, e: Event): Option<State> {
    match e
    case Append(hash, reading) =>
      if !s.producerUp || hash == "" then None
      else Some(s.(log := s.log + [Emission(hash, s.next, reading)], fates := s.fates + [Pending], next := s.next + 1))
    case Publish(i) =>
      if !s.producerUp || i >= |s.fates| || s.fates[i] != Pending then None
      else Some(s.(fates := s.fates[i := if s.consumerUp then InFlight else Dropped]))
    case Deliver(i) =>
      if !s.consumerUp || i >= |s.fates| || i >= |s.log| || s.fates[i] != InFlight then None
      else Some(s.(fates := s.fates[i := Received], current := s.current + [SinkLine(s.log[i])]))
    case Drop(i) =>
      if i >= |s.fates| || s.fates[i] != InFlight then None else Some(s.(fates := s.fates[i := Dropped]))
    case Chatter(line) =>
      if !s.consumerUp || SinkDelivery.CredentialOf(line).Some? then None else Some(s.(current := s.current + [line]))
    case Ship(n) =>
      if !s.producerUp || |s.mirror| + n > |s.log| then None else Some(s.(mirror := ShipMore(s, n)))
    case Snapshot => Some(s.(snapshot := SinkLines(s)))
    case StopConsumer =>
      if !s.consumerUp then None else Some(s.(consumerUp := false, fates := DropAll(s.fates, InFlight)))
    case StartConsumer =>
      if s.consumerUp then None else Some(s.(consumerUp := true, past := s.past + s.current, current := []))
    case StopProducer(drained) =>
      if !s.producerUp || |s.mirror| + drained > |s.log| then None
      else Some(s.(producerUp := false, next := 0, fates := DropAll(s.fates, Pending), mirror := ShipMore(s, drained)))
    case StartProducer =>
      if s.producerUp then None else Some(s.(producerUp := true, next := Seed(s)))
  }

  function Run(s: State, es: seq<Event>): Option<State> {
    if es == [] then Some(s)
    else
      var before := Run(s, es[..|es| - 1]);
      if before.None? then None else Step(before.value, es[|es| - 1])
  }

  /* ---- what every run keeps ---- */

  ghost predicate Numbered(log: seq<Emission>) {
    forall i | 0 <= i < |log| :: log[i].seqNo == i + 1
  }

  ghost function ReceivedHashes(s: State): set<string>
    requires |s.fates| == |s.log|
  {
    set i | 0 <= i < |s.log| && s.fates[i] == Received :: s.log[i].hash
  }

  ghost function ReceivedReadings(s: State): set<int>
    requires |s.fates| == |s.log|
  {
    set i | 0 <= i < |s.log| && s.fates[i] == Received :: s.log[i].reading
  }

  ghost predicate Shaped(s: State) {
    && |s.fates| == |s.log|
    && s.mirror <= s.log
    && (forall i | 0 <= i < |s.log| :: s.log[i].hash != "")
    && (!s.producerUp ==> Pending !in s.fates)
    && (!s.consumerUp ==> InFlight !in s.fates)
    && (s.seeding.FromTail? ==> Numbered(s.log) && (s.producerUp ==> s.next == |s.log| + 1))
  }

  /** What the consumer printed is what it received. */
  ghost predicate Faithful(s: State)
    requires |s.fates| == |s.log|
  {
    && SinkDelivery.HashesIn(s.past + s.current) == ReceivedHashes(s)
    && SinkDelivery.ReadingsIn(s.past + s.current) == ReceivedReadings(s)
  }

  ghost predicate Inv(s: State) {
    Shaped(s) && Faithful(s) && forall line | line in s.snapshot :: line in s.past + s.current
  }

  lemma InitInv(stream: Stream, seeding: Seeding)
    ensures Inv(Init(stream, seeding))
  {
  }

  lemma SinkLineReads(e: Emission)
    requires e.hash != ""
    ensures SinkDelivery.CredentialOf(SinkLine(e)) == Some(e.hash)
    ensures SinkDelivery.ReadingOf(SinkLine(e)) == Some(e.reading)
  {
  }

  /** Nothing received is forgotten or changed by marking other records. */
  lemma ReceivedKept(s: State, t: State)
    requires |s.fates| == |s.log| && |t.fates| == |t.log| && s.log <= t.log
    requires forall i | 0 <= i < |s.log| :: s.fates[i] == Received <==> t.fates[i] == Received
    requires forall i | |s.log| <= i < |t.log| :: t.fates[i] != Received
    ensures ReceivedHashes(t) == ReceivedHashes(s) && ReceivedReadings(t) == ReceivedReadings(s)
  {
    assert forall i | 0 <= i < |s.log| :: s.log[i] == t.log[i];
  }

  lemma ReceivedAdds(s: State, t: State, i: nat)
    requires |s.fates| == |s.log| && i < |s.log| && t.log == s.log && t.fates == s.fates[i := Received]
    ensures ReceivedHashes(t) == ReceivedHashes(s) + {s.log[i].hash}
    ensures ReceivedReadings(t) == ReceivedReadings(s) + {s.log[i].reading}
  {
    assert t.fates[i] == Received;
    assert forall k | 0 <= k < |s.log| && s.fates[k] == Received :: t.fates[k] == Received;
    assert forall k | 0 <= k < |s.log| && t.fates[k] == Received && k != i :: s.fates[k] == Received;
  }

  lemma PrintedAdds(past: seq<Document>, current: seq<Document>, line: Document)
    ensures SinkDelivery.HashesIn(past + (current + [line]))
         == SinkDelivery.HashesIn(past + current) + (if SinkDelivery.CredentialOf(line).Some? then {SinkDelivery.CredentialOf(line).value} else {})
    ensures SinkDelivery.ReadingsIn(past + (current + [line]))
         == SinkDelivery.ReadingsIn(past + current) + (if SinkDelivery.ReadingOf(line).Some? then {SinkDelivery.ReadingOf(line).value} else {})
  {
    assert past + (current + [line]) == past + current + [line];
    SinkDelivery.HashesUnion(past + current, [line]);
    SinkDelivery.ReadingsUnion(past + current, [line]);
    SinkDelivery.ParsedOne(line);
  }

  lemma StepShaped(s: State, e: Event)
    requires Shaped(s) && Step(s, e).Some?
    ensures Shaped(Step(s, e).value)
  {
    StepMirrors(s, e);
    StepMarks(s, e);
    StepNumbers(s, e);
  }

  lemma StepMirrors(s: State, e: Event)
    requires Shaped(s) && Step(s, e).Some?
    ensures var t := Step(s, e).value; |t.fates| == |t.log| && t.mirror <= t.log
  {
    var t := Step(s, e).value;
    if e.Ship? || e.StopProducer? {
      assert t.mirror == s.log[..|t.mirror|];
    }
  }

  lemma StepMarks(s: State, e: Event)
    requires Shaped(s) && Step(s, e).Some?
    ensures var t := Step(s, e).value;
      (!t.producerUp ==> Pending !in t.fates) && (!t.consumerUp ==> InFlight !in t.fates)
  {
  }

  lemma StepNumbers(s: State, e: Event)
    requires Shaped(s) && Step(s, e).Some?
    ensures var t := Step(s, e).value;
      && (forall i | 0 <= i < |t.log| :: t.log[i].hash != "")
      && (t.seeding.FromTail? ==> Numbered(t.log) && (t.producerUp ==> t.next == |t.log| + 1))
  {
  }

  lemma StepFaithful(s: State, e: Event)
    requires Shaped(s) && Faithful(s) && Step(s, e).Some?
    requires |Step(s, e).value.fates| == |Step(s, e).value.log|
    ensures Faithful(Step(s, e).value)
  {
    var t := Step(s, e).value;
    match e
    case Deliver(i) =>
      ReceivedAdds(s, t, i);
      SinkLineReads(s.log[i]);
      PrintedAdds(s.past, s.current, SinkLine(s.log[i]));
    case Chatter(line) =>
      PrintedAdds(s.past, s.current, line);
      ReceivedKept(s, t);
    case StartConsumer =>
      assert s.past + s.current + [] == s.past + s.current;
      ReceivedKept(s, t);
    case _ => ReceivedKept(s, t);
  }

  lemma StepInv(s: State, e: Event)
    requires Inv(s) && Step(s, e).Some?
    ensures Inv(Step(s, e).value)
  {
    var t := Step(s, e).value;
    StepShaped(s, e);
    StepFaithful(s, e);
    forall line | line in t.snapshot ensures line in t.past + t.current {
      assert line in s.past + s.current;
    }
  }

  /** Every state of every run satisfies the invariant. */
  lemma {:induction false} RunInv(s: State, es: seq<Event>)
    requires Inv(s) && Run(s, es).Some?
    ensures Inv(Run(s, es).value)
  {
    if es != [] {
      RunInv(s, es[..|es| - 1]);
      StepInv(Run(s, es[..|es| - 1]).value, es[|es| - 1]);
    }
  }

  /** Over a run the log and the mirror only grow at their ends, and a record's final
      fate stands. */
  ghost predicate Grows(s: State, t: State) {
    && s.log <= t.log && s.mirror <= t.mirror && |s.fates| <= |t.fates|
    && (forall i | 0 <= i < |s.fates| :: s.fates[i] in [Dropped, Received] ==> t.fates[i] == s.fates[i])
    && t.stream == s.stream && t.seeding == s.seeding
  }

  lemma {:induction false} RunGrows(s: State, es: seq<Event>)
    requires Run(s, es).Some?
    ensures Grows(s, Run(s, es).value)
  {
    if es != [] {
      var before := Run(s, es[..|es| - 1]).value;
      RunGrows(s, es[..|es| - 1]);
      StepGrows(before, es[|es| - 1]);
    }
  }

  lemma StepGrows(s: State, e: Event)
    requires Step(s, e).Some?
    ensures Grows(s, Step(s, e).value)
  {
  }

  lemma {:induction false} RunConcat(s: State, a: seq<Event>, b: seq<Event>)
    requires Run(s, a).Some?
    ensures Run(s, a + b) == Run(Run(s, a).value, b)
  {
    if b == [] {
      assert a + b == a;
    } else {
      assert (a + b)[..|a + b| - 1] == a + b[..|b| - 1];
      RunConcat(s, a, b[..|b| - 1]);
    }
  }
}
