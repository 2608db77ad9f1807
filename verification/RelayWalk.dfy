/** The walk from the sink's record back to the origin, and what it establishes. */
module RelayWalk {
  import opened Wrappers
  import opened Relay
  import opened LoopsBlock
  import opened LoopsRead
  import opened RelayRun
  import opened Hocon
  import HoconLines

  datatype WalkError =
    | TooDeep(depth: nat) | Unresolved(depth: nat) | Unverified(depth: nat)
    | WrongLength(walked: nat) | WrongHead(issuer: string) | WrongOrigin(issuer: string)

  /** The part of the store that verifies. */
  ghost function Trusted(store: map<string, Credential>, verifies: Credential -> bool): map<string, Credential> {
    map h | h in store && verifies(store[h]) :: store[h]
  }

  /** A verified chain of hops + 1 credentials, ending at one without a predecessor, from
      the last hop's identity back to the origin's. */
  ghost predicate Passes(store: map<string, Credential>, verifies: Credential -> bool, head: string, hops: nat,
                         last: string, origin: string, issuers: seq<string>)
  {
    && |issuers| == hops + 1
    && Lineage(Trusted(store, verifies), head, issuers)
    && issuers[0] == last && issuers[hops] == origin
  }

  /** Verified predecessors lead from the head, in `depth` steps, to `rest`. */
  ghost predicate Arrives(store: map<string, Credential>, verifies: Credential -> bool, head: string, depth: nat, rest: string) {
    exists issuers :: |issuers| == depth && Leads(Trusted(store, verifies), head, issuers, rest)
  }

  lemma {:induction false} LeadsOn(store: map<string, Credential>, hash: string, issuers: seq<string>, rest: string)
    requires Leads(store, hash, issuers, rest) && rest != "" && rest in store
    ensures Leads(store, hash, issuers + [store[rest].issuer], store[rest].previous)
    decreases issuers
  {
    var more := issuers + [store[rest].issuer];
    if issuers == [] {
      assert more[1..] == [];
    } else {
      assert more[1..] == issuers[1..] + [store[rest].issuer];
      LeadsOn(store, store[hash].previous, issuers[1..], rest);
    }
  }

  /** There is only one way back: of two walks from the same place the longer continues the shorter. */
  lemma {:induction false} OneWayBack(store: map<string, Credential>, hash: string, a: seq<string>, ra: string,
                                      b: seq<string>, rb: string)
    requires Leads(store, hash, a, ra) && Leads(store, hash, b, rb) && |a| <= |b|
    ensures b[..|a|] == a && Leads(store, ra, b[|a|..], rb)
    decreases a
  {
    if a == [] {
      assert b[|a|..] == b;
    } else {
      OneWayBack(store, store[hash].previous, a[1..], ra, b[1..], rb);
      assert b[|a|..] == b[1..][|a[1..]|..];
      assert b[..|a|] == [b[0]] + b[1..][..|a[1..]|] && a == [a[0]] + a[1..];
    }
  }

  /** A walk that stopped short of the origin rules out a shorter complete chain. */
  lemma NoShorterChain(store: map<string, Credential>, hash: string, a: seq<string>, b: seq<string>, rest: string)
    requires Leads(store, hash, b, rest) && (rest != "" || |a| != |b|) && |a| <= |b|
    ensures !Lineage(store, hash, a)
  {
    if Lineage(store, hash, a) {
      OneWayBack(store, hash, a, "", b, rest);
    }
  }

  /** Where the store says nothing more, no complete chain goes further. */
  lemma NoLongerChain(store: map<string, Credential>, hash: string, a: seq<string>, b: seq<string>, rest: string)
    requires Leads(store, hash, b, rest) && |b| < |a| && (rest == "" || rest !in store)
    ensures !Lineage(store, hash, a)
  {
    if Lineage(store, hash, a) {
      OneWayBack(store, hash, b, rest, a, "");
    }
  }

  /** The test's walk. On any store it resolves at most hops + 2 credentials, and it
      accepts exactly the chains that pass. */
  method WalkBack(store: map<string, Credential>, verifies: Credential -> bool, head: string, hops: nat,
                  last: string, origin: string)
    returns (r: Result<seq<string>, WalkError>, resolves: nat)
    ensures resolves <= hops + 2
    ensures r.Success? ==> Passes(store, verifies, head, hops, last, origin, r.value)
    ensures r.Failure? ==> forall issuers :: !Passes(store, verifies, head, hops, last, origin, issuers)
    ensures r.Failure? && r.error.TooDeep? ==>
      r.error.depth == hops + 2 && exists rest :: rest != "" && Arrives(store, verifies, head, r.error.depth, rest)
    ensures r.Failure? && r.error.Unresolved? ==>
      r.error.depth <= hops + 1 && exists rest :: rest != "" && rest !in store && Arrives(store, verifies, head, r.error.depth, rest)
    ensures r.Failure? && r.error.Unverified? ==>
      r.error.depth <= hops + 1
      && exists rest :: rest in store && !verifies(store[rest]) && Arrives(store, verifies, head, r.error.depth, rest)
    ensures r.Failure? && r.error.WrongLength? ==>
      r.error.walked != hops + 1 && Arrives(store, verifies, head, r.error.walked, "")
    ensures r.Failure? && r.error.WrongHead? ==> r.error.issuer != last && Arrives(store, verifies, head, hops + 1, "")
    ensures r.Failure? && r.error.WrongOrigin? ==> r.error.issuer != origin && Arrives(store, verifies, head, hops + 1, "")
  {
    ghost var trusted := Trusted(store, verifies);
    var issuers, hash, depth := [], head, 0;
    resolves := 0;
    while hash != ""
      invariant depth == |issuers| == resolves <= hops + 2
      invariant Leads(trusted, head, issuers, hash)
      decreases hops + 2 - depth
    {
      if depth > hops + 1 {
        NothingPasses(store, verifies, head, hops, last, origin, issuers, hash);
        assert Arrives(store, verifies, head, depth, hash);
        return Failure(TooDeep(depth)), resolves;
      }
      resolves := resolves + 1;
      if hash !in store {
        NothingPasses(store, verifies, head, hops, last, origin, issuers, hash);
        return Failure(Unresolved(depth)), resolves;
      }
      var cred := store[hash];
      if !verifies(cred) {
        NothingPasses(store, verifies, head, hops, last, origin, issuers, hash);
        return Failure(Unverified(depth)), resolves;
      }
      LeadsOn(trusted, head, issuers, hash);
      issuers := issuers + [cred.issuer];
      hash := cred.previous;
      depth := depth + 1;
    }
    NothingElsePasses(store, verifies, head, hops, last, origin, issuers);
    if |issuers| != hops + 1 {
      return Failure(WrongLength(|issuers|)), resolves;
    }
    if issuers[0] != last {
      return Failure(WrongHead(issuers[0])), resolves;
    }
    if issuers[hops] != origin {
      return Failure(WrongOrigin(issuers[hops])), resolves;
    }
    r := Success(issuers);
  }

  lemma NothingPasses(store: map<string, Credential>, verifies: Credential -> bool, head: string, hops: nat,
                      last: string, origin: string, walked: seq<string>, rest: string)
    requires Leads(Trusted(store, verifies), head, walked, rest) && rest != ""
    requires |walked| > hops + 1 || rest !in store || !verifies(store[rest])
    ensures forall issuers :: !Passes(store, verifies, head, hops, last, origin, issuers)
  {
    forall issuers ensures !Passes(store, verifies, head, hops, last, origin, issuers) {
      if |issuers| == hops + 1 {
        if |issuers| <= |walked| {
          NoShorterChain(Trusted(store, verifies), head, issuers, walked, rest);
        } else {
          NoLongerChain(Trusted(store, verifies), head, issuers, walked, rest);
        }
      }
    }
  }

  lemma NothingElsePasses(store: map<string, Credential>, verifies: Credential -> bool, head: string, hops: nat,
                          last: string, origin: string, walked: seq<string>)
    requires Lineage(Trusted(store, verifies), head, walked)
    ensures forall issuers :: Passes(store, verifies, head, hops, last, origin, issuers) ==> issuers == walked
  {
    forall issuers | Passes(store, verifies, head, hops, last, origin, issuers) ensures issuers == walked {
      if |issuers| <= |walked| {
        OneWayBack(Trusted(store, verifies), head, issuers, "", walked, "");
        assert walked[|issuers|..] == [];
      } else {
        NoLongerChain(Trusted(store, verifies), head, issuers, walked, "");
      }
    }
  }

  /** The credentials of a passing chain one by one: each stored under its hash, verified,
      issued by its identity and naming the next, the last naming none. */
  ghost predicate Chain(store: map<string, Credential>, verifies: Credential -> bool, hashes: seq<string>, issuers: seq<string>, rest: string) {
    |hashes| == |issuers| && forall i | 0 <= i < |hashes| :: Link(store, verifies, hashes, issuers, rest, i)
  }

  ghost predicate Link(store: map<string, Credential>, verifies: Credential -> bool, hashes: seq<string>, issuers: seq<string>,
                       rest: string, i: nat)
    requires i < |hashes| == |issuers|
  {
    && hashes[i] != "" && hashes[i] in store && verifies(store[hashes[i]])
    && store[hashes[i]].issuer == issuers[i]
    && store[hashes[i]].previous == if i + 1 < |hashes| then hashes[i + 1] else rest
  }

  lemma {:induction false} ChainLeads(store: map<string, Credential>, verifies: Credential -> bool, hashes: seq<string>,
                                      issuers: seq<string>, rest: string)
    requires Chain(store, verifies, hashes, issuers, rest)
    ensures Leads(Trusted(store, verifies), if hashes == [] then rest else hashes[0], issuers, rest)
    decreases issuers
  {
    if issuers != [] {
      assert Link(store, verifies, hashes, issuers, rest, 0);
      forall i | 0 <= i < |hashes| - 1 ensures Link(store, verifies, hashes[1..], issuers[1..], rest, i) {
        assert Link(store, verifies, hashes, issuers, rest, i + 1);
      }
      ChainLeads(store, verifies, hashes[1..], issuers[1..], rest);
    }
  }

  lemma {:induction false} LeadsChain(store: map<string, Credential>, verifies: Credential -> bool, hash: string,
                                      issuers: seq<string>, rest: string) returns (hashes: seq<string>)
    requires Leads(Trusted(store, verifies), hash, issuers, rest)
    ensures Chain(store, verifies, hashes, issuers, rest) && hash == (if hashes == [] then rest else hashes[0])
    decreases issuers
  {
    if issuers == [] {
      hashes := [];
    } else {
      var more := LeadsChain(store, verifies, store[hash].previous, issuers[1..], rest);
      hashes := [hash] + more;
      forall i | 0 <= i < |hashes| ensures Link(store, verifies, hashes, issuers, rest, i) {
        if i > 0 {
          assert Link(store, verifies, more, issuers[1..], rest, i - 1);
        }
      }
    }
  }

  /** What the walk accepts, credential by credential. */
  lemma PassesExactly(store: map<string, Credential>, verifies: Credential -> bool, head: string, hops: nat,
                      last: string, origin: string, issuers: seq<string>)
    ensures Passes(store, verifies, head, hops, last, origin, issuers)
       <==> |issuers| == hops + 1 && issuers[0] == last && issuers[hops] == origin
            && exists hashes :: Chain(store, verifies, hashes, issuers, "") && |hashes| == hops + 1 && hashes[0] == head
  {
    if Passes(store, verifies, head, hops, last, origin, issuers) {
      var hashes := LeadsChain(store, verifies, head, issuers, "");
    }
    if |issuers| == hops + 1 {
      forall hashes | Chain(store, verifies, hashes, issuers, "") && |hashes| == hops + 1 && hashes[0] == head
        ensures Lineage(Trusted(store, verifies), head, issuers)
      {
        ChainLeads(store, verifies, hashes, issuers, "");
      }
    }
  }

  /** A credential that is its own ancestor starts no complete chain, of any length. */
  lemma {:induction false} CycleNeverEnds(store: map<string, Credential>, hash: string, cycle: seq<string>, issuers: seq<string>)
    requires Leads(store, hash, cycle, hash) && cycle != []
    ensures !Lineage(store, hash, issuers)
    decreases |issuers|
  {
    if |issuers| <= |cycle| {
      NoShorterChain(store, hash, issuers, cycle, hash);
    } else {
      CycleNeverEnds(store, hash, cycle, issuers[|cycle|..]);
      if Lineage(store, hash, issuers) {
        OneWayBack(store, hash, cycle, hash, issuers, "");
      }
    }
  }

  /* ---- the relay's own chain ---- */

  const RELAY := Line((p: nat) => SubjectAt(p), (p: nat) => ProcessAt(p))

  lemma RelayDistinct()
    ensures Distinct(RELAY)
  {
    forall p: nat, q: nat | RELAY.subject(p) == RELAY.subject(q) ensures p == q {
      SubjectInjective(p, q);
    }
  }

  lemma PipelineStarts(i: nat)
    ensures PipelineAt(i)[0] == 'd'
  {
    assert ORG[0] == 'd';
    assert PipelineAt(i) == ORG_BASE + NameAt(i);
  }

  lemma SubjectInjective(p: nat, q: nat)
    requires SubjectAt(p) == SubjectAt(q)
    ensures p == q
  {
    if p > 0 {
      PipelineStarts(p - 1);
    }
    if q > 0 {
      PipelineStarts(q - 1);
    }
    if p > 0 && q > 0 {
      PipelineInjective(p - 1, q - 1);
    }
  }

  lemma LoopPlaced(selfBase: string, n: nat, p: nat)
    requires p <= n + 1
    ensures Placed(RELAY, n, LoopAt(selfBase, n, p), p)
  {
  }

  /** The rendered topology is a line from the ingress to the sink, at every depth. */
  lemma RelayWired(selfBase: string, n: nat)
    requires n > 0
    ensures Wired(RELAY, n, Topology(selfBase, n))
  {
    RelayDistinct();
    forall p | 0 <= p <= n + 1 ensures Placed(RELAY, n, Topology(selfBase, n)[p], p) {
      LoopPlaced(selfBase, n, p);
    }
  }

  /** On the relay each internal subject has exactly one consumer and one producer, and
      nothing inside it produces the ingress. */
  lemma RelaySubjects(selfBase: string, n: nat, p: nat, q: nat)
    requires n > 0 && p <= n + 1 && q <= n + 1
    ensures Topology(selfBase, n)[q].ingress == SubjectAt(p) <==> q == p
    ensures Outputs(Topology(selfBase, n)[q], SubjectAt(p)) <==> p > 0 && q == p - 1
  {
    RelayWired(selfBase, n);
    OneProducerOneConsumer(RELAY, n, Topology(selfBase, n), p, q);
  }

  lemma {:induction false} LineageTrusted(o: Crypto, w: Line, store: map<string, Credential>, hash: string, p: nat)
    requires Faithful(o, w) && Lineage(store, hash, IssuersFrom(w, p))
    ensures Lineage(Trusted(store, o.verifies), hash, IssuersFrom(w, p))
    decreases p
  {
    if p == 0 {
      assert IssuersFrom(w, p)[1..] == [];
      assert Leads(store, store[hash].previous, [], "");
      assert Leads(Trusted(store, o.verifies), store[hash].previous, [], "");
    } else {
      assert IssuersFrom(w, p)[1..] == IssuersFrom(w, p - 1);
      LineageTrusted(o, w, store, store[hash].previous, p - 1);
    }
  }

  lemma {:induction false} IssuersEnd(w: Line, p: nat)
    ensures IssuersFrom(w, p)[0] == w.issuer(p) && IssuersFrom(w, p)[p] == w.issuer(0)
  {
    if p > 0 {
      IssuersEnd(w, p - 1);
    }
  }

  /** At every depth, in every run, each record of the sink passes the walk, which
      reconstructs the hops in reverse and then the source. */
  lemma EveryRecordWalks(o: Crypto, selfBase: string, n: nat, events: seq<Event>, r: Record)
    requires Faithful(o, RELAY) && n > 0
    requires r in Run(o, INGRESS, Topology(selfBase, n), events).sink
    ensures Passes(Run(o, INGRESS, Topology(selfBase, n), events).store, o.verifies, r.credential, n,
                   HopProcess(n), SOURCE_PROCESS, IssuersFrom(RELAY, n))
  {
    RelayWired(selfBase, n);
    var loops := Topology(selfBase, n);
    assert RELAY.subject(0) == INGRESS;
    RecordsComplete(o, RELAY, n, loops, events, r);
    LineageTrusted(o, RELAY, Run(o, INGRESS, loops, events).store, r.credential, n);
    IssuersEnd(RELAY, n);
  }

  /** The loops of the text are the loops that ran: whatever the rendered text configures,
      each record of its sink passes the walk. */
  lemma ConfiguredRelayWalks(o: Crypto, selfBase: string, n: nat, events: seq<Event>, r: Record)
    requires Faithful(o, RELAY) && n > 0 && Representable(selfBase)
    ensures var configured := Configured(HoconLines.Led(BlockLines(Topology(selfBase, n))));
      && configured.Some?
      && (r in Run(o, INGRESS, configured.value, events).sink ==>
            Passes(Run(o, INGRESS, configured.value, events).store, o.verifies, r.credential, n,
                   HopProcess(n), SOURCE_PROCESS, IssuersFrom(RELAY, n)))
  {
    TextConfiguresRelay(selfBase, n);
    var loops := Topology(selfBase, n);
    if r in Run(o, INGRESS, loops, events).sink {
      EveryRecordWalks(o, selfBase, n, events, r);
    }
  }

  /* ---- counting deliveries ---- */

  /** Records that carry a credential; the others are skipped. */
  function Credentialed(records: seq<Record>): nat {
    if records == [] then 0
    else Credentialed(records[..|records| - 1]) + if records[|records| - 1].credential == "" then 0 else 1
  }

  ghost function CredentialedAt(records: seq<Record>): set<nat> {
    set i: nat | i < |records| && records[i].credential != ""
  }

  /** The count is the number of places whose record has a credential. */
  lemma {:induction false} CountsPlaces(records: seq<Record>)
    ensures Credentialed(records) == |CredentialedAt(records)|
  {
    if records != [] {
      var n := |records| - 1;
      CountsPlaces(records[..n]);
      assert forall i | 0 <= i < n :: records[..n][i] == records[i];
      assert CredentialedAt(records) == CredentialedAt(records[..n]) + if records[n].credential != "" then {n} else {};
    }
  }

  /** The steady-state measurement's count. It fails on the first record that is not
      verified, or stamped by another hop than the last. */
  method VerifiedSinkCount(records: seq<Record>, hops: nat) returns (r: Result<nat, Record>)
    ensures r.Success? <==> forall rec | rec in records && rec.credential != "" :: rec.verified && rec.payload.hop == Some(hops)
    ensures r.Success? ==> r.value == |CredentialedAt(records)|
    ensures r.Failure? ==> exists k | 0 <= k < |records| ::
      && records[k] == r.error && r.error.credential != "" && (!r.error.verified || r.error.payload.hop != Some(hops))
      && forall j | 0 <= j < k && records[j].credential != "" :: records[j].verified && records[j].payload.hop == Some(hops)
  {
    var n := 0;
    for i := 0 to |records|
      invariant n == Credentialed(records[..i])
      invariant forall j | 0 <= j < i && records[j].credential != "" :: records[j].verified && records[j].payload.hop == Some(hops)
    {
      var rec := records[i];
      assert records[..i + 1][..i] == records[..i];
      if rec.credential == "" {
        continue;
      }
      if !rec.verified || rec.payload.hop != Some(hops) {
        assert rec in records;
        return Failure(rec);
      }
      n := n + 1;
    }
    assert records[..|records|] == records;
    CountsPlaces(records);
    r := Success(n);
  }

  lemma {:induction false} AllCredentialed(records: seq<Record>)
    requires forall r | r in records :: r.credential != ""
    ensures Credentialed(records) == |records|
  {
    if records != [] {
      var front := records[..|records| - 1];
      assert forall r | r in front :: r in records;
      assert records[|records| - 1] in records;
      AllCredentialed(front);
    }
  }

  /** On the relay the count never fails and misses no record: once quiet, it is the
      number of publishes. */
  lemma CountIsPublishes(o: Crypto, selfBase: string, n: nat, events: seq<Event>)
    requires Faithful(o, RELAY) && n > 0
    ensures var net := Run(o, INGRESS, Topology(selfBase, n), events);
      && (forall r | r in net.sink :: r.credential != "" && r.verified && r.payload.hop == Some(n))
      && Credentialed(net.sink) + |net.pending| == |Published(events)|
  {
    RelayWired(selfBase, n);
    var loops := Topology(selfBase, n);
    assert RELAY.subject(0) == INGRESS;
    var net := Run(o, INGRESS, loops, events);
    forall r | r in net.sink ensures r.credential != "" && r.verified && r.payload.hop == Some(n) {
      RecordsComplete(o, RELAY, n, loops, events, r);
    }
    AllCredentialed(net.sink);
    ReadingsConserved(o, RELAY, n, loops, events);
    assert |multiset(ReadingsOf(net.pending)) + multiset(Delivered(net.sink))| == |net.pending| + |net.sink|;
  }
}
