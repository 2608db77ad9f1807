/** Messages through a line of loops: any number of publishes, delivered in any order. */
module RelayRun {
  import opened Wrappers
  import opened LoopsBlock

  datatype Payload = Payload(reading: string, hop: Option<nat>)

  /** What a loop signs: its issuer, the predecessor's hash ("" for none) and the payload. */
  datatype Credential = Credential(issuer: string, previous: string, payload: Payload)

  datatype Message = Message(subject: string, credential: string, payload: Payload)

  datatype Record = Record(credential: string, verified: bool, payload: Payload)

  /** Hashing and signature checking, which belong to other packages. */
  datatype Crypto = Crypto(hash: Credential -> string, verifies: Credential -> bool)

  datatype Net = Net(pending: seq<Message>, store: map<string, Credential>, sink: seq<Record>, deliveries: nat)

  const EMPTY := Net([], map[], [], 0)

  /** Issue a credential over the payload and publish both. */
  function Issue(o: Crypto, net: Net, issuer: string, previous: string, payload: Payload, output: string): Net {
    var c := Credential(issuer, previous, payload);
    net.(store := net.store[o.hash(c) := c], pending := net.pending + [Message(output, o.hash(c), payload)])
  }

  /** The adjacent credential is held and its signature is good. */
  predicate Verified(o: Crypto, store: map<string, Credential>, credential: string) {
    credential in store && o.verifies(store[credential])
  }

  function Consume(o: Crypto, net: Net, loop: Loop, m: Message): Net {
    match loop
    case Source(_, _, output, issuer, _, _) => Issue(o, net, issuer, "", m.payload, output)
    case Chained(_, _, output, issuer, _, _, _, stamp) =>
      Issue(o, net, issuer, m.credential, m.payload.(hop := Some(stamp)), output)
    case Sink(_, _, _) =>
      net.(sink := net.sink + [Record(m.credential, Verified(o, net.store, m.credential), m.payload)])
  }

  /** Every loop that listens on the message's subject gets it. */
  function Offer(o: Crypto, net: Net, loops: seq<Loop>, m: Message): Net {
    if loops == [] then net
    else
      var last := loops[|loops| - 1];
      var before := Offer(o, net, loops[..|loops| - 1], m);
      if last.ingress == m.subject then Consume(o, before, last, m) else before
  }

  datatype Event = Publish(payload: Payload) | Deliver(k: nat)

  function Without<T>(s: seq<T>, k: nat): seq<T>
    requires k < |s|
  {
    s[..k] + s[k + 1..]
  }

  function Taken(net: Net, k: nat): Net
    requires k < |net.pending|
  {
    net.(pending := Without(net.pending, k), deliveries := net.deliveries + 1)
  }

  /** A publish from outside on the ingress subject, or the delivery of a pending message. */
  function Step(o: Crypto, ingress: string, loops: seq<Loop>, net: Net, e: Event): Net {
    match e
    case Publish(payload) => net.(pending := net.pending + [Message(ingress, "", payload)])
    case Deliver(k) => if k < |net.pending| then Offer(o, Taken(net, k), loops, net.pending[k]) else net
  }

  function Run(o: Crypto, ingress: string, loops: seq<Loop>, events: seq<Event>): Net {
    if events == [] then EMPTY
    else Step(o, ingress, loops, Run(o, ingress, loops, events[..|events| - 1]), events[|events| - 1])
  }

  /** What has been published, in order. */
  function Published(events: seq<Event>): seq<string> {
    if events == [] then []
    else
      var last := events[|events| - 1];
      Published(events[..|events| - 1]) + if last.Publish? then [last.payload.reading] else []
  }

  /* ---- a line of loops ---- */

  /** The subject consumed, and the identity that signs, at each position of a line. */
  datatype Line = Line(subject: nat -> string, issuer: nat -> string)

  ghost predicate Distinct(w: Line) {
    forall p: nat, q: nat :: w.subject(p) == w.subject(q) ==> p == q
  }

  /** The loop at position p: a source, then hops that stamp their number, then a sink. */
  predicate Placed(w: Line, n: nat, loop: Loop, p: nat) {
    && loop.ingress == w.subject(p)
    && (p == 0 ==> loop.Source?)
    && (0 < p <= n ==> loop.Chained? && loop.stamp == p)
    && (p <= n ==> loop.output == w.subject(p + 1) && loop.issuer == w.issuer(p))
    && (p == n + 1 ==> loop.Sink?)
  }

  ghost predicate Wired(w: Line, n: nat, loops: seq<Loop>) {
    && Distinct(w) && n > 0 && |loops| == n + 2
    && forall p | 0 <= p < |loops| :: Placed(w, n, loops[p], p)
  }

  /** Distinct credentials hash differently, no hash is empty, and what the line's own
      identities sign verifies. */
  ghost predicate Faithful(o: Crypto, w: Line) {
    && (forall c, d :: o.hash(c) == o.hash(d) ==> c == d)
    && (forall c :: o.hash(c) != "")
    && (forall c: Credential, i: nat :: c.issuer == w.issuer(i) ==> o.verifies(c))
  }

  predicate Outputs(loop: Loop, subject: string) {
    !loop.Sink? && loop.output == subject
  }

  /** The loop at position p alone consumes its subject; the one before it alone
      produces it, and nothing inside produces the ingress. */
  lemma OneProducerOneConsumer(w: Line, n: nat, loops: seq<Loop>, p: nat, q: nat)
    requires Wired(w, n, loops) && p <= n + 1 && q <= n + 1
    ensures loops[q].ingress == w.subject(p) <==> q == p
    ensures Outputs(loops[q], w.subject(p)) <==> p > 0 && q == p - 1
  {
    assert Placed(w, n, loops[q], q);
  }

  lemma {:induction false} OfferReachesOne(o: Crypto, net: Net, w: Line, n: nat, loops: seq<Loop>, p: nat, m: Message, i: nat)
    requires Wired(w, n, loops) && p <= n + 1 && m.subject == w.subject(p) && i <= n + 2
    ensures Offer(o, net, loops[..i], m) == if p < i then Consume(o, net, loops[p], m) else net
  {
    if i > 0 {
      assert loops[..i][..i - 1] == loops[..i - 1];
      OfferReachesOne(o, net, w, n, loops, p, m, i - 1);
      OneProducerOneConsumer(w, n, loops, p, i - 1);
    }
  }

  /** A delivery is its one listener consuming the message. */
  lemma DeliverIs(o: Crypto, w: Line, n: nat, loops: seq<Loop>, net: Net, k: nat, p: nat)
    requires Wired(w, n, loops) && k < |net.pending| && p <= n + 1 && net.pending[k].subject == w.subject(p)
    ensures Step(o, w.subject(0), loops, net, Deliver(k)) == Consume(o, Taken(net, k), loops[p], net.pending[k])
  {
    OfferReachesOne(o, Taken(net, k), w, n, loops, p, net.pending[k], n + 2);
    assert loops[..n + 2] == loops;
  }

  /* ---- lineage ---- */

  /** Walking predecessors from `hash` meets credentials issued by `issuers` and arrives
      at `rest`. */
  ghost predicate Leads(store: map<string, Credential>, hash: string, issuers: seq<string>, rest: string)
    decreases issuers
  {
    if issuers == [] then rest == hash
    else
      && hash != "" && hash in store && store[hash].issuer == issuers[0]
      && Leads(store, store[hash].previous, issuers[1..], rest)
  }

  /** The whole chain, ending at a credential with no predecessor. */
  ghost predicate Lineage(store: map<string, Credential>, hash: string, issuers: seq<string>) {
    Leads(store, hash, issuers, "")
  }

  /** The identity at position p, then the ones before it, back to the source. */
  function IssuersFrom(w: Line, p: nat): (issuers: seq<string>)
    ensures |issuers| == p + 1
  {
    if p == 0 then [w.issuer(0)] else [w.issuer(p)] + IssuersFrom(w, p - 1)
  }

  lemma {:induction false} LeadsGrows(store: map<string, Credential>, more: map<string, Credential>, hash: string,
                                      issuers: seq<string>, rest: string)
    requires Leads(store, hash, issuers, rest)
    requires forall h | h in store :: h in more && more[h] == store[h]
    ensures Leads(more, hash, issuers, rest)
    decreases issuers
  {
    if issuers != [] {
      LeadsGrows(store, more, store[hash].previous, issuers[1..], rest);
    }
  }

  /* ---- the invariant ---- */

  ghost predicate Stored(o: Crypto, store: map<string, Credential>) {
    forall h | h in store :: o.hash(store[h]) == h
  }

  predicate Stamped(payload: Payload, hops: nat) {
    hops > 0 ==> payload.hop == Some(hops)
  }

  /** A message waiting for the loop at position p. */
  ghost predicate Carried(w: Line, store: map<string, Credential>, m: Message, p: nat) {
    && m.subject == w.subject(p)
    && (p == 0 ==> m.credential == "")
    && (p > 0 ==> Lineage(store, m.credential, IssuersFrom(w, p - 1)) && Stamped(m.payload, p - 1))
  }

  ghost predicate Arrived(w: Line, store: map<string, Credential>, r: Record, n: nat) {
    r.verified && Lineage(store, r.credential, IssuersFrom(w, n)) && Stamped(r.payload, n)
  }

  ghost predicate InFlight(w: Line, store: map<string, Credential>, pending: seq<Message>, places: seq<nat>, n: nat) {
    && |places| == |pending|
    && (forall k | 0 <= k < |places| :: places[k] <= n + 1 && Carried(w, store, pending[k], places[k]))
  }

  ghost predicate Sound(o: Crypto, w: Line, n: nat, net: Net, places: seq<nat>) {
    && Stored(o, net.store)
    && InFlight(w, net.store, net.pending, places, n)
    && (forall r | r in net.sink :: Arrived(w, net.store, r, n))
  }

  lemma StoreGrows(o: Crypto, w: Line, store: map<string, Credential>, c: Credential)
    requires Faithful(o, w) && Stored(o, store)
    ensures Stored(o, store[o.hash(c) := c])
    ensures forall h | h in store :: store[o.hash(c) := c][h] == store[h]
  {
  }

  /** What holds of messages and records still holds after one more credential. */
  lemma SoundAfterIssue(o: Crypto, w: Line, n: nat, net: Net, places: seq<nat>, c: Credential)
    requires Faithful(o, w) && Sound(o, w, n, net, places)
    ensures Sound(o, w, n, net.(store := net.store[o.hash(c) := c]), places)
  {
    var more := net.store[o.hash(c) := c];
    StoreGrows(o, w, net.store, c);
    forall k | 0 <= k < |places| ensures Carried(w, more, net.pending[k], places[k]) {
      if places[k] > 0 {
        LeadsGrows(net.store, more, net.pending[k].credential, IssuersFrom(w, places[k] - 1), "");
      }
    }
    forall r | r in net.sink ensures Arrived(w, more, r, n) {
      LeadsGrows(net.store, more, r.credential, IssuersFrom(w, n), "");
    }
  }

  /** `previous` is what a credential at position p must name. */
  ghost predicate Precedes(w: Line, store: map<string, Credential>, previous: string, p: nat) {
    if p == 0 then previous == "" else Lineage(store, previous, IssuersFrom(w, p - 1))
  }

  lemma IssuedLineage(o: Crypto, w: Line, store: map<string, Credential>, p: nat, previous: string, payload: Payload)
    requires Faithful(o, w) && Stored(o, store) && Precedes(w, store, previous, p)
    ensures var c := Credential(w.issuer(p), previous, payload);
      Lineage(store[o.hash(c) := c], o.hash(c), IssuersFrom(w, p))
  {
    var c := Credential(w.issuer(p), previous, payload);
    var more := store[o.hash(c) := c];
    StoreGrows(o, w, store, c);
    if p == 0 {
      assert IssuersFrom(w, p)[1..] == [];
    } else {
      assert IssuersFrom(w, p)[1..] == IssuersFrom(w, p - 1);
      LeadsGrows(store, more, previous, IssuersFrom(w, p - 1), "");
    }
  }

  lemma IssueSound(o: Crypto, w: Line, n: nat, net: Net, places: seq<nat>, p: nat, previous: string, payload: Payload)
    requires Faithful(o, w) && Sound(o, w, n, net, places) && p <= n
    requires Precedes(w, net.store, previous, p) && Stamped(payload, p)
    ensures Sound(o, w, n, Issue(o, net, w.issuer(p), previous, payload, w.subject(p + 1)), places + [p + 1])
  {
    var c := Credential(w.issuer(p), previous, payload);
    SoundAfterIssue(o, w, n, net, places, c);
    IssuedLineage(o, w, net.store, p, previous, payload);
    var after := Issue(o, net, w.issuer(p), previous, payload, w.subject(p + 1));
    assert Carried(w, after.store, Message(w.subject(p + 1), o.hash(c), payload), p + 1);
  }

  lemma HeadVerified(o: Crypto, w: Line, store: map<string, Credential>, hash: string, p: nat)
    requires Faithful(o, w) && Lineage(store, hash, IssuersFrom(w, p))
    ensures Verified(o, store, hash)
  {
  }

  function NextPlace(n: nat, p: nat): seq<nat> {
    if p <= n then [p + 1] else []
  }

  /** The loop a message waits for passes it on, or records it. */
  lemma ConsumeSound(o: Crypto, w: Line, n: nat, loop: Loop, net: Net, places: seq<nat>, m: Message, p: nat)
    requires Faithful(o, w) && n > 0 && Sound(o, w, n, net, places)
    requires p <= n + 1 && Carried(w, net.store, m, p) && Placed(w, n, loop, p)
    ensures Sound(o, w, n, Consume(o, net, loop, m), places + NextPlace(n, p))
  {
    ConsumeIs(o, w, n, loop, net, m, p);
    if p <= n {
      IssueSound(o, w, n, net, places, p, m.credential, StampedAt(m.payload, p));
    } else {
      HeadVerified(o, w, net.store, m.credential, n);
      assert places + [] == places;
    }
  }

  function StampedAt(payload: Payload, p: nat): Payload {
    if p == 0 then payload else payload.(hop := Some(p))
  }

  /** What a loop does is settled by its position. */
  lemma ConsumeIs(o: Crypto, w: Line, n: nat, loop: Loop, net: Net, m: Message, p: nat)
    requires Placed(w, n, loop, p) && p <= n + 1 && (p == 0 ==> m.credential == "")
    ensures p <= n ==> Consume(o, net, loop, m) == Issue(o, net, w.issuer(p), m.credential, StampedAt(m.payload, p), w.subject(p + 1))
    ensures p == n + 1 ==>
      Consume(o, net, loop, m) == net.(sink := net.sink + [Record(m.credential, Verified(o, net.store, m.credential), m.payload)])
  {
  }

  lemma WithoutAt<T>(s: seq<T>, k: nat, j: nat)
    requires k < |s| && j < |s| - 1
    ensures Without(s, k)[j] == s[if j < k then j else j + 1]
  {
  }

  lemma TakenSound(o: Crypto, w: Line, n: nat, net: Net, places: seq<nat>, k: nat)
    requires Sound(o, w, n, net, places) && k < |places|
    ensures Sound(o, w, n, Taken(net, k), Without(places, k))
  {
    forall j | 0 <= j < |places| - 1
      ensures Without(places, k)[j] <= n + 1 && Carried(w, net.store, Without(net.pending, k)[j], Without(places, k)[j])
    {
      WithoutAt(places, k, j);
      WithoutAt(net.pending, k, j);
    }
  }

  lemma DeliverSound(o: Crypto, w: Line, n: nat, loops: seq<Loop>, net: Net, places: seq<nat>, k: nat)
    requires Faithful(o, w) && Wired(w, n, loops) && Sound(o, w, n, net, places) && k < |net.pending|
    ensures Sound(o, w, n, Step(o, w.subject(0), loops, net, Deliver(k)), Without(places, k) + NextPlace(n, places[k]))
  {
    var m, p := net.pending[k], places[k];
    DeliverIs(o, w, n, loops, net, k, p);
    TakenSound(o, w, n, net, places, k);
    ConsumeSound(o, w, n, loops[p], Taken(net, k), Without(places, k), m, p);
  }

  /* ---- accounting ---- */

  /** Deliveries still to come: each message has its own loop and every later one to go. */
  function Work(n: nat, places: seq<nat>): int {
    if places == [] then 0
    else Work(n, places[..|places| - 1]) + (n + 2 - places[|places| - 1])
  }

  lemma {:induction false} WorkConcat(n: nat, a: seq<nat>, b: seq<nat>)
    ensures Work(n, a + b) == Work(n, a) + Work(n, b)
  {
    if b == [] {
      assert a + b == a;
    } else {
      assert (a + b)[..|a + b| - 1] == a + b[..|b| - 1];
      WorkConcat(n, a, b[..|b| - 1]);
    }
  }

  /** Each delivery does one unit of the outstanding work. */
  lemma WorkDone(n: nat, places: seq<nat>, k: nat)
    requires k < |places| && places[k] <= n + 1
    ensures Work(n, Without(places, k) + NextPlace(n, places[k])) == Work(n, places) - 1
  {
    var p := places[k];
    assert places == places[..k] + ([p] + places[k + 1..]);
    WorkConcat(n, places[..k], [p] + places[k + 1..]);
    WorkConcat(n, [p], places[k + 1..]);
    WorkConcat(n, places[..k], places[k + 1..]);
    WorkConcat(n, Without(places, k), NextPlace(n, p));
    assert Work(n, [p]) == n + 2 - p;
    assert p <= n ==> Work(n, [p + 1]) == n + 1 - p;
  }

  lemma {:induction false} WorkPositive(n: nat, places: seq<nat>)
    requires forall k | 0 <= k < |places| :: places[k] <= n + 1
    ensures Work(n, places) >= |places|
  {
    if places != [] {
      WorkPositive(n, places[..|places| - 1]);
    }
  }

  function ReadingsOf(pending: seq<Message>): seq<string> {
    seq(|pending|, i requires 0 <= i < |pending| => pending[i].payload.reading)
  }

  function Delivered(sink: seq<Record>): seq<string> {
    seq(|sink|, i requires 0 <= i < |sink| => sink[i].payload.reading)
  }

  /** Readings in flight and readings recorded. */
  function Accounted(net: Net): multiset<string> {
    multiset(ReadingsOf(net.pending)) + multiset(Delivered(net.sink))
  }

  lemma ReadingsTaken(pending: seq<Message>, k: nat)
    requires k < |pending|
    ensures multiset(ReadingsOf(pending)) == multiset(ReadingsOf(Without(pending, k))) + multiset{pending[k].payload.reading}
  {
    var r := pending[k].payload.reading;
    assert ReadingsOf(pending) == ReadingsOf(pending[..k]) + [r] + ReadingsOf(pending[k + 1..]);
    assert ReadingsOf(Without(pending, k)) == ReadingsOf(pending[..k]) + ReadingsOf(pending[k + 1..]);
  }

  /** Whatever loop consumes it, the reading goes on or is recorded, once. */
  lemma ReadingKept(o: Crypto, net: Net, loop: Loop, m: Message)
    ensures Accounted(Consume(o, net, loop, m)) == Accounted(net) + multiset{m.payload.reading}
    ensures Consume(o, net, loop, m).deliveries == net.deliveries
  {
    var after := Consume(o, net, loop, m);
    if loop.Sink? {
      assert Delivered(after.sink) == Delivered(net.sink) + [m.payload.reading];
    } else {
      assert ReadingsOf(after.pending) == ReadingsOf(net.pending) + [m.payload.reading];
    }
  }

  lemma DeliverAccounts(o: Crypto, w: Line, n: nat, loops: seq<Loop>, net: Net, k: nat, p: nat)
    requires Wired(w, n, loops) && k < |net.pending| && p <= n + 1 && net.pending[k].subject == w.subject(p)
    ensures Accounted(Step(o, w.subject(0), loops, net, Deliver(k))) == Accounted(net)
    ensures Step(o, w.subject(0), loops, net, Deliver(k)).deliveries == net.deliveries + 1
  {
    DeliverIs(o, w, n, loops, net, k, p);
    ReadingsTaken(net.pending, k);
    ReadingKept(o, Taken(net, k), loops[p], net.pending[k]);
  }

  /** Every published reading accounted for, every message and record sound, and the
      deliveries made plus those to come n + 2 a publish. */
  ghost predicate Inv(o: Crypto, w: Line, n: nat, net: Net, published: seq<string>) {
    && Accounted(net) == multiset(published)
    && exists places :: Sound(o, w, n, net, places) && net.deliveries + Work(n, places) == (n + 2) * |published|
  }

  lemma PublishSound(o: Crypto, w: Line, n: nat, loops: seq<Loop>, net: Net, places: seq<nat>, payload: Payload)
    requires Sound(o, w, n, net, places)
    ensures Sound(o, w, n, Step(o, w.subject(0), loops, net, Publish(payload)), places + [0])
  {
    assert Carried(w, net.store, Message(w.subject(0), "", payload), 0);
  }

  lemma PublishAccounts(o: Crypto, ingress: string, loops: seq<Loop>, net: Net, payload: Payload)
    ensures var after := Step(o, ingress, loops, net, Publish(payload));
      Accounted(after) == Accounted(net) + multiset{payload.reading} && after.deliveries == net.deliveries
  {
    var after := Step(o, ingress, loops, net, Publish(payload));
    assert ReadingsOf(after.pending) == ReadingsOf(net.pending) + [payload.reading];
  }

  lemma PublishWork(n: nat, places: seq<nat>, published: nat)
    ensures Work(n, places + [0]) == Work(n, places) + (n + 2)
    ensures (n + 2) * (published + 1) == (n + 2) * published + (n + 2)
  {
    WorkConcat(n, places, [0]);
    assert Work(n, [0]) == n + 2;
  }

  lemma PublishKeepsInv(o: Crypto, w: Line, n: nat, loops: seq<Loop>, net: Net, published: seq<string>, payload: Payload)
    requires Inv(o, w, n, net, published)
    ensures Inv(o, w, n, Step(o, w.subject(0), loops, net, Publish(payload)), published + [payload.reading])
  {
    var places :| Sound(o, w, n, net, places) && net.deliveries + Work(n, places) == (n + 2) * |published|;
    PublishSound(o, w, n, loops, net, places, payload);
    PublishAccounts(o, w.subject(0), loops, net, payload);
    PublishWork(n, places, |published|);
  }

  lemma DeliverKeepsInv(o: Crypto, w: Line, n: nat, loops: seq<Loop>, net: Net, published: seq<string>, k: nat)
    requires Faithful(o, w) && Wired(w, n, loops) && Inv(o, w, n, net, published) && k < |net.pending|
    ensures Inv(o, w, n, Step(o, w.subject(0), loops, net, Deliver(k)), published)
  {
    var places :| Sound(o, w, n, net, places) && net.deliveries + Work(n, places) == (n + 2) * |published|;
    DeliverSound(o, w, n, loops, net, places, k);
    DeliverAccounts(o, w, n, loops, net, k, places[k]);
    WorkDone(n, places, k);
  }

  lemma {:induction false} RunKeepsInv(o: Crypto, w: Line, n: nat, loops: seq<Loop>, events: seq<Event>)
    requires Faithful(o, w) && Wired(w, n, loops)
    ensures Inv(o, w, n, Run(o, w.subject(0), loops, events), Published(events))
  {
    if events == [] {
      assert Sound(o, w, n, EMPTY, []);
    } else {
      var front, last := events[..|events| - 1], events[|events| - 1];
      var net := Run(o, w.subject(0), loops, front);
      RunKeepsInv(o, w, n, loops, front);
      match last
      case Publish(payload) => PublishKeepsInv(o, w, n, loops, net, Published(front), payload);
      case Deliver(k) =>
        assert Published(front) + [] == Published(front);
        if k < |net.pending| {
          DeliverKeepsInv(o, w, n, loops, net, Published(front), k);
        }
    }
  }

  /* ---- what every run delivers ---- */

  /** No partial relay ever reaches the sink: at any moment of any run each record is
      verified, stamped by the last hop, and backed by the whole chain. */
  lemma RecordsComplete(o: Crypto, w: Line, n: nat, loops: seq<Loop>, events: seq<Event>, r: Record)
    requires Faithful(o, w) && Wired(w, n, loops) && r in Run(o, w.subject(0), loops, events).sink
    ensures r.verified && r.payload.hop == Some(n)
    ensures Lineage(Run(o, w.subject(0), loops, events).store, r.credential, IssuersFrom(w, n))
  {
    RunKeepsInv(o, w, n, loops, events);
  }

  /** Nothing is lost or repeated: published readings are the ones in flight and the ones recorded. */
  lemma ReadingsConserved(o: Crypto, w: Line, n: nat, loops: seq<Loop>, events: seq<Event>)
    requires Faithful(o, w) && Wired(w, n, loops)
    ensures var net := Run(o, w.subject(0), loops, events);
      multiset(ReadingsOf(net.pending)) + multiset(Delivered(net.sink)) == multiset(Published(events))
  {
    RunKeepsInv(o, w, n, loops, events);
  }

  /** However deliveries are scheduled, the line falls quiet after exactly n + 2
      deliveries a publish, and no sooner. */
  lemma QuietExactly(o: Crypto, w: Line, n: nat, loops: seq<Loop>, events: seq<Event>)
    requires Faithful(o, w) && Wired(w, n, loops)
    ensures var net := Run(o, w.subject(0), loops, events);
      && net.deliveries <= (n + 2) * |Published(events)|
      && (net.pending == [] <==> net.deliveries == (n + 2) * |Published(events)|)
  {
    RunKeepsInv(o, w, n, loops, events);
    var net := Run(o, w.subject(0), loops, events);
    var places :| Sound(o, w, n, net, places) && net.deliveries + Work(n, places) == (n + 2) * |Published(events)|;
    WorkPositive(n, places);
  }

  /** One publish, once quiet, has made exactly one record, of that reading. */
  lemma OnePublishOneRecord(o: Crypto, w: Line, n: nat, loops: seq<Loop>, events: seq<Event>, reading: string)
    requires Faithful(o, w) && Wired(w, n, loops) && Published(events) == [reading]
    requires Run(o, w.subject(0), loops, events).pending == []
    ensures var sink := Run(o, w.subject(0), loops, events).sink;
      |sink| == 1 && sink[0].payload == Payload(reading, Some(n)) && sink[0].verified
  {
    var net := Run(o, w.subject(0), loops, events);
    ReadingsConserved(o, w, n, loops, events);
    var d := Delivered(net.sink);
    assert ReadingsOf(net.pending) == [];
    assert multiset(d) == multiset{reading};
    assert |d| == |multiset(d)| == 1;
    assert d[0] in multiset(d);
    RecordsComplete(o, w, n, loops, events, net.sink[0]);
  }

  /* ---- what the sink's verdict means, whatever the loops and whoever signs ---- */

  ghost predicate Sealing(o: Crypto) {
    && (forall c, d :: o.hash(c) == o.hash(d) ==> c == d)
    && (forall c :: o.hash(c) != "")
  }

  /** A message names a stored credential or none. */
  ghost predicate Backed(store: map<string, Credential>, credential: string) {
    credential == "" || credential in store
  }

  /** A record is marked verified exactly when its credential is held and its signature is good. */
  ghost predicate Truthful(o: Crypto, store: map<string, Credential>, r: Record) {
    && Backed(store, r.credential)
    && (r.verified <==> r.credential in store && o.verifies(store[r.credential]))
  }

  ghost predicate Honest(o: Crypto, net: Net) {
    && Stored(o, net.store)
    && (forall m | m in net.pending :: Backed(net.store, m.credential))
    && (forall r | r in net.sink :: Truthful(o, net.store, r))
  }

  lemma StoreHonest(o: Crypto, net: Net, c: Credential)
    requires Sealing(o) && Honest(o, net)
    ensures Honest(o, net.(store := net.store[o.hash(c) := c]))
    ensures forall h | h in net.store :: net.store[o.hash(c) := c][h] == net.store[h]
  {
    var more := net.store[o.hash(c) := c];
    forall h | h in net.store ensures more[h] == net.store[h] {
      assert o.hash(net.store[h]) == h;
    }
    forall r | r in net.sink ensures Truthful(o, more, r) {
      assert Truthful(o, net.store, r);
      assert forall h | h in more :: o.hash(more[h]) == h && h != "";
    }
  }

  lemma ConsumeHonest(o: Crypto, net: Net, loop: Loop, m: Message)
    requires Sealing(o) && Honest(o, net) && Backed(net.store, m.credential)
    ensures Honest(o, Consume(o, net, loop, m)) && net.store.Keys <= Consume(o, net, loop, m).store.Keys
  {
    match loop
    case Source(_, _, _, issuer, _, _) => StoreHonest(o, net, Credential(issuer, "", m.payload));
    case Chained(_, _, _, issuer, _, _, _, stamp) =>
      StoreHonest(o, net, Credential(issuer, m.credential, m.payload.(hop := Some(stamp))));
    case Sink(_, _, _) =>
  }

  lemma {:induction false} OfferHonest(o: Crypto, net: Net, loops: seq<Loop>, m: Message)
    requires Sealing(o) && Honest(o, net) && Backed(net.store, m.credential)
    ensures Honest(o, Offer(o, net, loops, m)) && net.store.Keys <= Offer(o, net, loops, m).store.Keys
  {
    if loops != [] {
      var n := |loops| - 1;
      OfferHonest(o, net, loops[..n], m);
      ConsumeHonest(o, Offer(o, net, loops[..n], m), loops[n], m);
    }
  }

  lemma {:induction false} RunHonest(o: Crypto, ingress: string, loops: seq<Loop>, events: seq<Event>)
    requires Sealing(o)
    ensures Honest(o, Run(o, ingress, loops, events))
  {
    if events != [] {
      var net := Run(o, ingress, loops, events[..|events| - 1]);
      RunHonest(o, ingress, loops, events[..|events| - 1]);
      match events[|events| - 1]
      case Publish(_) =>
      case Deliver(k) =>
        if k < |net.pending| {
          assert net.pending[k] in net.pending;
          OfferHonest(o, Taken(net, k), loops, net.pending[k]);
        }
    }
  }

  /** Over any run of any loops, with keys that need not be good: a sink record is marked
      verified exactly when its credential is in the store and verifies. */
  lemma VerifiedExactly(o: Crypto, ingress: string, loops: seq<Loop>, events: seq<Event>, r: Record)
    requires Sealing(o) && r in Run(o, ingress, loops, events).sink
    ensures var store := Run(o, ingress, loops, events).store;
      r.verified <==> r.credential in store && o.verifies(store[r.credential])
  {
    RunHonest(o, ingress, loops, events);
  }
}
