/** What becomes of each emission, told from the events of a run alone: at most one
    publish and one delivery each, nothing redelivered, and the scenario's own run. */
module AtMostOnce {
  import opened Wrappers
  import opened Json
  import opened LossWindow
  import opened LossAccounting
  import EmissionLog
  import SinkDelivery
  import Text

  /* ---- histories ---- */

  /** Whether the consumer is up after these events, started as it is at first. */
  predicate UpAfter(es: seq<Event>) {
    es == [] || (match es[|es| - 1]
                 case StopConsumer => false
                 case StartConsumer => true
                 case _ => UpAfter(es[..|es| - 1]))
  }

  lemma {:induction false} UpFromEvents(stream: Stream, seeding: Seeding, es: seq<Event>)
    requires Run(Init(stream, seeding), es).Some?
    ensures Run(Init(stream, seeding), es).value.consumerUp == UpAfter(es)
  {
    if es != [] {
      UpFromEvents(stream, seeding, es[..|es| - 1]);
    }
  }

  /** Record i went out at the j-th event to a consumer that was up, and nothing has ended
      its way since. */
  ghost predicate UnderWay(es: seq<Event>, i: nat, j: nat) {
    && j < |es| && es[j] == Publish(i) && UpAfter(es[..j])
    && forall m | j < m < |es| :: es[m] != StopConsumer && es[m] != Drop(i) && es[m] != Deliver(i)
  }

  lemma UnderWayLonger(es: seq<Event>, e: Event, i: nat, j: nat)
    requires UnderWay(es, i, j) && e != StopConsumer && e != Drop(i) && e != Deliver(i)
    ensures UnderWay(es + [e], i, j)
  {
    assert (es + [e])[..j] == es[..j];
  }

  lemma UnderWayShorter(es: seq<Event>, e: Event, i: nat, j: nat)
    requires UnderWay(es + [e], i, j) && e != Publish(i)
    ensures UnderWay(es, i, j) && e != StopConsumer && e != Drop(i) && e != Deliver(i)
  {
    var longer := es + [e];
    assert longer[|es|] == e && j != |es|;
    assert longer[..j] == es[..j];
    assert forall m | j < m < |es| :: longer[m] == es[m];
  }

  predicate On(s: State, i: nat) {
    i < |s.fates| && s.fates[i] == InFlight
  }

  /** A record is under way in the state exactly when it is by its events. */
  lemma {:induction false} UnderWayExactly(stream: Stream, seeding: Seeding, es: seq<Event>, i: nat)
    requires Run(Init(stream, seeding), es).Some?
    ensures On(Run(Init(stream, seeding), es).value, i) <==> exists j :: UnderWay(es, i, j)
  {
    if es != [] {
      var front, e := es[..|es| - 1], es[|es| - 1];
      assert es == front + [e];
      UnderWayExactly(stream, seeding, front, i);
      UpFromEvents(stream, seeding, front);
      OnStep(Run(Init(stream, seeding), front).value, e, i);
      if e == Publish(i) {
        LastPublish(front, i);
      } else {
        OneMoreEvent(front, e, i);
      }
    }
  }

  lemma OnStep(s: State, e: Event, i: nat)
    requires Step(s, e).Some?
    ensures On(Step(s, e).value, i)
      <==> if e == Publish(i) then s.consumerUp else On(s, i) && e != StopConsumer && e != Drop(i) && e != Deliver(i)
    ensures e == Publish(i) ==> !On(s, i)
  {
  }

  lemma LastPublish(front: seq<Event>, i: nat)
    requires forall j :: !UnderWay(front, i, j)
    ensures (exists j :: UnderWay(front + [Publish(i)], i, j)) <==> UpAfter(front)
  {
    var es := front + [Publish(i)];
    assert es[..|front|] == front;
    if UpAfter(front) {
      assert UnderWay(es, i, |front|);
    }
    forall j: nat | UnderWay(es, i, j) ensures j == |front| {
      if j < |front| {
        assert es[..j] == front[..j] && forall m | j < m < |front| :: es[m] == front[m];
        assert UnderWay(front, i, j);
      }
    }
  }

  lemma OneMoreEvent(front: seq<Event>, e: Event, i: nat)
    requires e != Publish(i)
    ensures (exists j :: UnderWay(front + [e], i, j))
      <==> (exists j :: UnderWay(front, i, j)) && e != StopConsumer && e != Drop(i) && e != Deliver(i)
  {
    if j :| UnderWay(front + [e], i, j) {
      UnderWayShorter(front, e, i, j);
    }
    if e != StopConsumer && e != Drop(i) && e != Deliver(i) {
      if j :| UnderWay(front, i, j) {
        UnderWayLonger(front, e, i, j);
      }
    }
  }

  /** Every delivery in a run was published before it, while the consumer was up and with
      no stop of the consumer in between. */
  lemma DeliveredWhileUp(stream: Stream, seeding: Seeding, es: seq<Event>, i: nat, k: nat)
    requires Run(Init(stream, seeding), es).Some? && k < |es| && es[k] == Deliver(i)
    ensures exists j :: UnderWay(es[..k], i, j)
  {
    StepAt(Init(stream, seeding), es, k);
    UnderWayExactly(stream, seeding, es[..k], i);
  }

  /** A run passes through each of its events. */
  lemma StepAt(s: State, es: seq<Event>, k: nat)
    requires Run(s, es).Some? && k < |es|
    ensures Run(s, es[..k]).Some? && Step(Run(s, es[..k]).value, es[k]).Some?
    ensures Run(s, es[..k + 1]) == Step(Run(s, es[..k]).value, es[k])
    ensures Run(s, es) == Run(Run(s, es[..k + 1]).value, es[k + 1..])
  {
    assert es == es[..k + 1] + es[k + 1..] && es[..k + 1][..k] == es[..k];
    RunPrefix(s, es[..k + 1], es[k + 1..]);
  }

  /* ---- a record's fate ---- */

  /** A record is received exactly when the run delivers it. */
  lemma {:induction false} ReceivedExactly(stream: Stream, seeding: Seeding, es: seq<Event>, i: nat)
    requires Run(Init(stream, seeding), es).Some?
    ensures var s := Run(Init(stream, seeding), es).value;
      (i < |s.fates| && s.fates[i] == Received) <==> Deliver(i) in es
  {
    if es != [] {
      var front, e := es[..|es| - 1], es[|es| - 1];
      assert es == front + [e];
      ReceivedExactly(stream, seeding, front, i);
      DeliveryOnly(Run(Init(stream, seeding), front).value, e, i);
    }
  }

  lemma DeliveryOnly(s: State, e: Event, i: nat)
    requires Step(s, e).Some?
    ensures var t := Step(s, e).value;
      (i < |t.fates| && t.fates[i] == Received) <==> e == Deliver(i) || (i < |s.fates| && s.fates[i] == Received)
  {
  }

  /** Once published, never pending again; delivered, never under way again. */
  lemma {:induction false} NeverBack(s: State, es: seq<Event>, i: nat)
    requires Run(s, es).Some? && i < |s.fates| && s.fates[i] != Pending
    ensures var t := Run(s, es).value; i < |t.fates| && t.fates[i] != Pending
    ensures s.fates[i] in [Dropped, Received] ==> Run(s, es).value.fates[i] == s.fates[i]
  {
    if es != [] {
      NeverBack(s, es[..|es| - 1], i);
    }
  }

  /** No record is published twice, and none is delivered twice. */
  lemma AtMostOnce(stream: Stream, seeding: Seeding, es: seq<Event>, j: nat, k: nat, i: nat)
    requires Run(Init(stream, seeding), es).Some? && j < k < |es|
    ensures !(es[j] == es[k] == Publish(i)) && !(es[j] == es[k] == Deliver(i))
  {
    StepAt(Init(stream, seeding), es, k);
    StepAt(Init(stream, seeding), es[..k], j);
    assert es[..k][..j + 1] == es[..j + 1] && es[..k][j] == es[j];
    if es[j] == Publish(i) || es[j] == Deliver(i) {
      NeverBack(Run(Init(stream, seeding), es[..j + 1]).value, es[..k][j + 1..], i);
    }
  }

  /** What is published to a consumer that is down is lost for good, whatever follows. */
  lemma VoidLoses(s: State, i: nat, es: seq<Event>)
    requires Inv(s) && s.producerUp && !s.consumerUp && i < |s.fates| && s.fates[i] == Pending
    requires Run(s, [Publish(i)] + es).Some?
    ensures var t := Run(s, [Publish(i)] + es).value; i < |t.fates| && t.fates[i] == Dropped
  {
    RunPrefix(s, [Publish(i)], es);
    OneStep(s, Publish(i));
    NeverBack(Step(s, Publish(i)).value, es, i);
  }

  /** What a stopping producer has not published, and what is under way to a stopping
      consumer, is lost for good. */
  lemma StopLoses(s: State, i: nat, e: Event, es: seq<Event>)
    requires Inv(s) && i < |s.fates| && Run(s, [e] + es).Some?
    requires (e.StopProducer? && s.fates[i] == Pending) || (e.StopConsumer? && s.fates[i] == InFlight)
    ensures var t := Run(s, [e] + es).value; i < |t.fates| && t.fates[i] == Dropped
  {
    RunPrefix(s, [e], es);
    OneStep(s, e);
    NeverBack(Step(s, e).value, es, i);
  }
}
