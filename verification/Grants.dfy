/** Cross-account grants as the broker sees them: account claims in a directory, copied
    to a resolver, cached by the broker on first use. */
module Grants {

  /** Accounts are named by their public keys here. An export offers a subject to
      importers; an import names the exporter and the subject. */
  datatype Claims = Claims(exports: set<string>, imports: set<(string, string)>)

  datatype Grant = Grant(exporter: string, importer: string, subject: string)

  const BARE := Claims({}, {})

  /** The claims that a set of grants gives an account. */
  function ClaimsFor(account: string, granted: set<Grant>): Claims {
    Claims(set g | g in granted && g.exporter == account :: g.subject,
           set g | g in granted && g.importer == account :: (g.exporter, g.subject))
  }

  function ClaimsOfAll(accounts: set<string>, granted: set<Grant>): map<string, Claims> {
    map a | a in accounts :: ClaimsFor(a, granted)
  }

  /** The broker's three copies of the claims. */
  datatype Broker = Broker(dir: map<string, Claims>, resolver: map<string, Claims>, live: map<string, Claims>)

  function AddExport(dir: map<string, Claims>, exporter: string, subject: string): map<string, Claims>
    requires exporter in dir
  {
    dir[exporter := dir[exporter].(exports := dir[exporter].exports + {subject})]
  }

  function AddImport(dir: map<string, Claims>, importer: string, exporter: string, subject: string): map<string, Claims>
    requires importer in dir
  {
    dir[importer := dir[importer].(imports := dir[importer].imports + {(exporter, subject)})]
  }

  function Bridged(b: Broker): Broker {
    b.(resolver := b.resolver + b.dir)
  }

  /** Pushing the directory's claims into an account the broker has loaded. Looking the
      account up may itself load it; `loads` says whether it does. */
  function Refreshed(b: Broker, account: string, loads: bool): Broker
    requires account in b.dir
  {
    if account in b.live || (loads && account in b.resolver) then b.(live := b.live[account := b.dir[account]]) else b
  }

  function Connected(b: Broker, account: string): Broker {
    if account in b.live || account !in b.resolver then b else b.(live := b.live[account := b.resolver[account]])
  }

  function Granted(b: Broker, g: Grant, loads: bool, refresh: bool): Broker
    requires g.exporter in b.dir && g.importer in b.dir
  {
    var b1 := b.(dir := AddImport(AddExport(b.dir, g.exporter, g.subject), g.importer, g.exporter, g.subject));
    var b2 := Bridged(b1);
    if refresh then Refreshed(Refreshed(b2, g.exporter, loads), g.importer, loads) else b2
  }

  /** The claims the broker acts on: the cached ones once loaded. */
  function Effective(b: Broker, account: string): Claims
    requires account in b.resolver
  {
    if account in b.live then b.live[account] else b.resolver[account]
  }

  /** A message of one account reaches another account's subscribers. */
  predicate Crosses(exporter: Claims, importer: Claims, from: string, subject: string) {
    subject in exporter.exports && (from, subject) in importer.imports
  }

  /** Bridging brings every published entry over and loses none that was there. */
  lemma BridgeKeeps(b: Broker, account: string)
    ensures account in Bridged(b).resolver <==> account in b.resolver || account in b.dir
    ensures account in b.dir ==> Bridged(b).resolver[account] == b.dir[account]
    ensures account in b.resolver && account !in b.dir ==> Bridged(b).resolver[account] == b.resolver[account]
    ensures Bridged(b).dir == b.dir && Bridged(b).live == b.live
  {
  }

  /* ---- coherence ---- */

  ghost predicate Coherent(b: Broker, accounts: set<string>, granted: set<Grant>) {
    && b.dir == ClaimsOfAll(accounts, granted)
    && b.resolver == b.dir
    && b.live.Keys <= b.dir.Keys && forall a | a in b.live :: b.live[a] == b.dir[a]
  }

  predicate Between(g: Grant, accounts: set<string>) {
    g.exporter in accounts && g.importer in accounts
  }

  lemma ClaimsGrow(account: string, granted: set<Grant>, g: Grant)
    ensures var before, after := ClaimsFor(account, granted), ClaimsFor(account, granted + {g});
      && after.exports == before.exports + (if g.exporter == account then {g.subject} else {})
      && after.imports == before.imports + (if g.importer == account then {(g.exporter, g.subject)} else {})
  {
    var before, after := ClaimsFor(account, granted), ClaimsFor(account, granted + {g});
    assert g in granted + {g};
    forall s ensures s in after.exports <==> s in before.exports || (g.exporter == account && s == g.subject) {
    }
    forall p ensures p in after.imports <==> p in before.imports || (g.importer == account && p == (g.exporter, g.subject)) {
    }
  }

  /** The directory after a grant is that of the larger set of grants. */
  lemma DirectoryGrows(accounts: set<string>, granted: set<Grant>, g: Grant)
    requires Between(g, accounts)
    ensures AddImport(AddExport(ClaimsOfAll(accounts, granted), g.exporter, g.subject), g.importer, g.exporter, g.subject)
         == ClaimsOfAll(accounts, granted + {g})
  {
    var dir := AddImport(AddExport(ClaimsOfAll(accounts, granted), g.exporter, g.subject), g.importer, g.exporter, g.subject);
    forall a | a in accounts ensures dir[a] == ClaimsFor(a, granted + {g}) {
      ClaimsGrow(a, granted, g);
    }
  }

  /** A grant with its refresh keeps all three copies together, whoever has connected. */
  lemma GrantCoherent(b: Broker, accounts: set<string>, granted: set<Grant>, g: Grant, loads: bool)
    requires Coherent(b, accounts, granted) && Between(g, accounts)
    ensures Coherent(Granted(b, g, loads, true), accounts, granted + {g})
  {
    DirectoryGrows(accounts, granted, g);
    var c := Granted(b, g, loads, true);
    GrantTouchesTwo(b, g, loads);
    forall a | a in c.live ensures c.live[a] == c.dir[a] {
      if a != g.exporter && a != g.importer {
        assert b.live[a] == b.dir[a];
      }
    }
  }

  /** A grant leaves other accounts alone, and the two it names current if loaded. */
  lemma GrantTouchesTwo(b: Broker, g: Grant, loads: bool)
    requires g.exporter in b.dir && g.importer in b.dir
    ensures var c := Granted(b, g, loads, true);
      && c.live.Keys <= b.live.Keys + b.dir.Keys
      && (forall a | a in c.live && a != g.exporter && a != g.importer :: a in b.live && c.live[a] == b.live[a])
      && (forall a | a in b.dir && a != g.exporter && a != g.importer :: c.dir[a] == b.dir[a])
      && (forall a | a in c.live && a in [g.exporter, g.importer] :: c.live[a] == c.dir[a])
  {
  }

  lemma ConnectCoherent(b: Broker, accounts: set<string>, granted: set<Grant>, account: string)
    requires Coherent(b, accounts, granted)
    ensures Coherent(Connected(b, account), accounts, granted)
  {
  }

  /* ---- every interleaving ---- */

  datatype Op = Connect(account: string) | Issue(g: Grant)

  function Provisioned(accounts: set<string>): Broker {
    var dir := map a | a in accounts :: BARE;
    Broker(dir, dir, map[])
  }

  function Issued(ops: seq<Op>): set<Grant> {
    set op | op in ops && op.Issue? :: op.g
  }

  predicate Known(ops: seq<Op>, accounts: set<string>) {
    forall op | op in ops :: op.Issue? ==> Between(op.g, accounts)
  }

  lemma KnownParts(ops: seq<Op>, accounts: set<string>)
    requires ops != [] && Known(ops, accounts)
    ensures Known(ops[..|ops| - 1], accounts)
    ensures ops[|ops| - 1].Issue? ==> Between(ops[|ops| - 1].g, accounts)
    ensures Issued(ops) == match ops[|ops| - 1]
      case Connect(_) => Issued(ops[..|ops| - 1])
      case Issue(g) => Issued(ops[..|ops| - 1]) + {g}
  {
    var front, last := ops[..|ops| - 1], ops[|ops| - 1];
    assert ops == front + [last];
    assert last in ops;
    forall op ensures op in ops <==> op in front || op == last {
    }
  }

  /** One connect, or one grant; a grant naming an account there is none of changes nothing. */
  function Act(b: Broker, op: Op, loads: bool, refresh: bool): Broker {
    match op
    case Connect(a) => Connected(b, a)
    case Issue(g) => if Between(g, b.dir.Keys) then Granted(b, g, loads, refresh) else b
  }

  lemma ActKeepsAccounts(b: Broker, op: Op, loads: bool, refresh: bool)
    requires b.resolver.Keys == b.dir.Keys
    ensures var c := Act(b, op, loads, refresh); c.dir.Keys == b.dir.Keys && c.resolver.Keys == b.dir.Keys
  {
  }

  /** The broker after a sequence of connects and grants. */
  function Play(accounts: set<string>, ops: seq<Op>, loads: bool, refresh: bool): (b: Broker)
    ensures b.dir.Keys == accounts && b.resolver.Keys == accounts
  {
    if ops == [] then Provisioned(accounts)
    else
      var before := Play(accounts, ops[..|ops| - 1], loads, refresh);
      ActKeepsAccounts(before, ops[|ops| - 1], loads, refresh);
      Act(before, ops[|ops| - 1], loads, refresh)
  }

  lemma BareWithoutGrants(accounts: set<string>)
    ensures ClaimsOfAll(accounts, {}) == map a | a in accounts :: BARE
  {
    forall a | a in accounts ensures ClaimsFor(a, {}) == BARE {
      assert ClaimsFor(a, {}).exports == {} && ClaimsFor(a, {}).imports == {};
    }
  }

  /** In whatever order accounts connect and grants are made, each account's effective
      claims are the directory's, and those are all the grants so far. */
  lemma {:induction false} PlayCoherent(accounts: set<string>, ops: seq<Op>, loads: bool)
    requires Known(ops, accounts)
    ensures Coherent(Play(accounts, ops, loads, true), accounts, Issued(ops))
    ensures forall a | a in accounts :: Effective(Play(accounts, ops, loads, true), a) == ClaimsFor(a, Issued(ops))
  {
    if ops == [] {
      BareWithoutGrants(accounts);
      assert Issued(ops) == {};
    } else {
      KnownParts(ops, accounts);
      PlayCoherent(accounts, ops[..|ops| - 1], loads);
      var before := Play(accounts, ops[..|ops| - 1], loads, true);
      match ops[|ops| - 1]
      case Connect(a) => ConnectCoherent(before, accounts, Issued(ops[..|ops| - 1]), a);
      case Issue(g) => GrantCoherent(before, accounts, Issued(ops[..|ops| - 1]), g, loads);
    }
  }

  predicate Concerns(op: Op, account: string) {
    op.Issue? && account in [op.g.exporter, op.g.importer]
  }

  lemma ActLoads(b: Broker, op: Op, loads: bool, refresh: bool, account: string)
    requires b.resolver.Keys == b.dir.Keys && (op.Issue? ==> Between(op.g, b.dir.Keys))
    ensures account in Act(b, op, loads, refresh).live
       <==> account in b.live
            || (account in b.dir && (op == Connect(account) || (refresh && loads && Concerns(op, account))))
  {
  }

  /** The broker has loaded an account exactly when it has connected, or a refresh that
      loads what it looks up has followed a grant that concerns it. */
  lemma {:induction false} LoadedExactly(accounts: set<string>, ops: seq<Op>, loads: bool, refresh: bool, account: string)
    requires Known(ops, accounts) && account in accounts
    ensures account in Play(accounts, ops, loads, refresh).live
       <==> Connect(account) in ops || (refresh && loads && exists op :: op in ops && Concerns(op, account))
  {
    if ops != [] {
      var front, last := ops[..|ops| - 1], ops[|ops| - 1];
      KnownParts(ops, accounts);
      LoadedExactly(accounts, front, loads, refresh, account);
      ActLoads(Play(accounts, front, loads, refresh), last, loads, refresh, account);
      assert ops == front + [last];
      assert forall op :: op in ops <==> op in front || op == last;
    }
  }

  /** Claims let a subject cross exactly between the accounts it was granted between:
      exports alone, imports alone, or a chain of grants do not suffice. */
  lemma CrossesExactly(granted: set<Grant>, exporter: string, importer: string, subject: string)
    ensures Crosses(ClaimsFor(exporter, granted), ClaimsFor(importer, granted), exporter, subject)
       <==> Grant(exporter, importer, subject) in granted
  {
    var g := Grant(exporter, importer, subject);
    if g in granted {
      assert g.subject in ClaimsFor(exporter, granted).exports;
      assert (g.exporter, g.subject) in ClaimsFor(importer, granted).imports;
    }
  }

  lemma DeliveryExactly(accounts: set<string>, ops: seq<Op>, loads: bool, exporter: string, importer: string, subject: string)
    requires Known(ops, accounts) && exporter in accounts && importer in accounts
    ensures var b := Play(accounts, ops, loads, true);
      Crosses(Effective(b, exporter), Effective(b, importer), exporter, subject)
      <==> Issue(Grant(exporter, importer, subject)) in ops
  {
    PlayCoherent(accounts, ops, loads);
    CrossesExactly(Issued(ops), exporter, importer, subject);
    var g := Grant(exporter, importer, subject);
    if Issue(g) in ops {
      assert Issue(g).g in Issued(ops);
    }
  }

  /* ---- what the refresh is for ---- */

  predicate NeverConnects(ops: seq<Op>, account: string) {
    Connect(account) !in ops
  }

  lemma GrantUnrefreshed(b: Broker, accounts: set<string>, granted: set<Grant>, g: Grant, loads: bool)
    requires b.dir == ClaimsOfAll(accounts, granted) && b.resolver == b.dir && Between(g, accounts)
    ensures var c := Granted(b, g, loads, false);
      c.dir == ClaimsOfAll(accounts, granted + {g}) && c.resolver == c.dir && c.live == b.live
  {
    DirectoryGrows(accounts, granted, g);
  }

  /** The directory and the resolver are right even without the refresh. */
  lemma {:induction false} ResolverCurrent(accounts: set<string>, ops: seq<Op>, loads: bool)
    requires Known(ops, accounts)
    ensures var b := Play(accounts, ops, loads, false);
      b.dir == ClaimsOfAll(accounts, Issued(ops)) && b.resolver == b.dir
  {
    if ops == [] {
      BareWithoutGrants(accounts);
      assert Issued(ops) == {};
    } else {
      KnownParts(ops, accounts);
      var front := ops[..|ops| - 1];
      ResolverCurrent(accounts, front, loads);
      if ops[|ops| - 1].Issue? {
        GrantUnrefreshed(Play(accounts, front, loads, false), accounts, Issued(front), ops[|ops| - 1].g, loads);
      }
    }
  }

  /** What the last operation does to the cache. */
  lemma CacheStep(accounts: set<string>, ops: seq<Op>, loads: bool)
    requires ops != [] && Known(ops, accounts)
    ensures var before := Play(accounts, ops[..|ops| - 1], loads, false);
      Play(accounts, ops, loads, false).live
      == if ops[|ops| - 1].Connect? then Connected(before, ops[|ops| - 1].account).live else before.live
  {
    assert ops[|ops| - 1] in ops;
  }

  lemma {:induction false} UnloadedUntilConnect(accounts: set<string>, ops: seq<Op>, loads: bool, account: string)
    requires Known(ops, accounts) && NeverConnects(ops, account)
    ensures account !in Play(accounts, ops, loads, false).live
  {
    if ops != [] {
      var front, last := ops[..|ops| - 1], ops[|ops| - 1];
      KnownParts(ops, accounts);
      CacheStep(accounts, ops, loads);
      assert forall op | op in front :: op in ops;
      assert last in ops;
      UnloadedUntilConnect(accounts, front, loads, account);
    }
  }

  lemma {:induction false} LoadedStaysStale(accounts: set<string>, before: seq<Op>, later: seq<Op>, loads: bool, account: string)
    requires Known(before + [Connect(account)] + later, accounts)
    requires account in accounts && NeverConnects(before, account)
    ensures var b := Play(accounts, before + [Connect(account)] + later, loads, false);
      account in b.live && b.live[account] == ClaimsFor(account, Issued(before))
    decreases |later|
  {
    var ops := before + [Connect(account)] + later;
    var front := ops[..|ops| - 1];
    KnownParts(ops, accounts);
    CacheStep(accounts, ops, loads);
    if later == [] {
      assert front == before && ops[|ops| - 1] == Connect(account);
      UnloadedUntilConnect(accounts, before, loads, account);
      ResolverCurrent(accounts, before, loads);
    } else {
      assert front == before + [Connect(account)] + later[..|later| - 1];
      LoadedStaysStale(accounts, before, later[..|later| - 1], loads, account);
    }
  }

  /** Without the refresh an account keeps the claims it first connected with, so it is
      right exactly when no grant since then has concerned it. */
  lemma StaleExactly(accounts: set<string>, before: seq<Op>, later: seq<Op>, loads: bool, account: string)
    requires Known(before + [Connect(account)] + later, accounts)
    requires account in accounts && NeverConnects(before, account)
    ensures var ops := before + [Connect(account)] + later;
      Effective(Play(accounts, ops, loads, false), account) == ClaimsFor(account, Issued(ops))
      <==> forall op | op in later && op.Issue? && account in [op.g.exporter, op.g.importer] ::
             && (op.g.exporter == account ==> op.g.subject in ClaimsFor(account, Issued(before)).exports)
             && (op.g.importer == account ==> (op.g.exporter, op.g.subject) in ClaimsFor(account, Issued(before)).imports)
  {
    var ops := before + [Connect(account)] + later;
    LoadedStaysStale(accounts, before, later, loads, account);
    forall g ensures g in Issued(ops) <==> g in Issued(before) || Issue(g) in later {
      IssuedIn(before, g);
      IssuedIn(ops, g);
    }
    var old', new' := ClaimsFor(account, Issued(before)), ClaimsFor(account, Issued(ops));
    forall op | op in later && op.Issue? ensures op.g in Issued(ops) {
      IssuedIn(ops, op.g);
    }
    if old' == new' {
      forall op | op in later && op.Issue?
        ensures (op.g.exporter == account ==> op.g.subject in old'.exports)
             && (op.g.importer == account ==> (op.g.exporter, op.g.subject) in old'.imports)
      {
        assert op.g in Issued(ops);
      }
    } else {
      ClaimsDiffer(account, Issued(before), Issued(ops));
    }
  }

  lemma IssuedIn(ops: seq<Op>, g: Grant)
    ensures g in Issued(ops) <==> Issue(g) in ops
  {
    if Issue(g) in ops {
      assert Issue(g).g in Issued(ops);
    }
  }

  lemma ClaimsDiffer(account: string, fewer: set<Grant>, more: set<Grant>)
    requires fewer <= more && ClaimsFor(account, fewer) != ClaimsFor(account, more)
    ensures exists g | g in more && g !in fewer ::
      || (g.exporter == account && g.subject !in ClaimsFor(account, fewer).exports)
      || (g.importer == account && (g.exporter, g.subject) !in ClaimsFor(account, fewer).imports)
  {
    var a, b := ClaimsFor(account, fewer), ClaimsFor(account, more);
    assert a.exports <= b.exports && a.imports <= b.imports;
    if a.exports != b.exports {
      var s :| s in b.exports && s !in a.exports;
      var g :| g in more && g.exporter == account && g.subject == s;
      assert g !in fewer;
    } else {
      var p :| p in b.imports && p !in a.imports;
      var g :| g in more && g.importer == account && (g.exporter, g.subject) == p;
      assert g !in fewer;
    }
  }
}
