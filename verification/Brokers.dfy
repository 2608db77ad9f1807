/** The two brokers of the harness: the live one of the process runtime, which is granted
    to while accounts come and go, and the compose one, provisioned before it boots. */
module Brokers {
  import opened Wrappers
  import opened Sorting
  import opened Grants

  /* ---- accounts by name ---- */

  function KeySet(keys: seq<string>): set<string> {
    set k | k in keys
  }

  /** Every name gets an account under a key of its own; a repeated name keeps its last. */
  function AccountsFor(names: seq<string>, keys: seq<string>): map<string, string>
    requires |names| == |keys|
  {
    if names == [] then map[]
    else
      var n := |names| - 1;
      AccountsFor(names[..n], keys[..n])[names[n] := keys[n]]
  }

  predicate OneToOne(accounts: map<string, string>) {
    forall m, n | m in accounts && n in accounts && accounts[m] == accounts[n] :: m == n
  }

  function NameSet(names: seq<string>): set<string> {
    set n | n in names
  }

  lemma {:induction false} AccountsCover(names: seq<string>, keys: seq<string>)
    requires |names| == |keys|
    ensures AccountsFor(names, keys).Keys == NameSet(names) && AccountsFor(names, keys).Values <= KeySet(keys)
  {
    if names != [] {
      var n := |names| - 1;
      AccountsCover(names[..n], keys[..n]);
      assert names == names[..n] + [names[n]] && keys == keys[..n] + [keys[n]];
      ValuesWith(AccountsFor(names[..n], keys[..n]), names[n], keys[n]);
    }
  }

  lemma ValuesWith(before: map<string, string>, name: string, key: string)
    ensures before[name := key].Values <= before.Values + {key}
  {
    var after := before[name := key];
    forall v | v in after.Values ensures v in before.Values + {key} {
      var m :| m in after && after[m] == v;
      assert m != name ==> before[m] in before.Values;
    }
  }

  lemma {:induction false} AccountsOneToOne(names: seq<string>, keys: seq<string>)
    requires |names| == |keys| && NoDuplicates(keys)
    ensures OneToOne(AccountsFor(names, keys))
  {
    if names != [] {
      var n := |names| - 1;
      AccountsOneToOne(names[..n], keys[..n]);
      AccountsCover(names[..n], keys[..n]);
      OneMore(AccountsFor(names[..n], keys[..n]), keys, n, names[n]);
    }
  }

  lemma OneMore(before: map<string, string>, keys: seq<string>, n: nat, name: string)
    requires OneToOne(before) && NoDuplicates(keys) && n < |keys| && before.Values <= KeySet(keys[..n])
    ensures OneToOne(before[name := keys[n]])
  {
    forall m | m in before ensures before[m] != keys[n] {
      assert before[m] in before.Values;
    }
  }

  /** Where the name occurs last. */
  function LastPlace(names: seq<string>, name: string): (i: nat)
    requires name in names
    ensures i < |names| && names[i] == name && name !in names[i + 1..]
  {
    var n := |names| - 1;
    if names[n] == name then n
    else
      assert names == names[..n] + [names[n]];
      var i := LastPlace(names[..n], name);
      assert names[i + 1..] == names[..n][i + 1..] + [names[n]];
      i
  }

  lemma {:induction false} LastKeyKept(names: seq<string>, keys: seq<string>, name: string)
    requires |names| == |keys| && name in names
    ensures name in AccountsFor(names, keys) && AccountsFor(names, keys)[name] == keys[LastPlace(names, name)]
  {
    var n := |names| - 1;
    if names[n] != name {
      assert names == names[..n] + [names[n]];
      LastKeyKept(names[..n], keys[..n], name);
    }
  }

  /** Each name has the key at its last place, and no two names share one. */
  ghost predicate Accounts(names: seq<string>, keys: seq<string>, accounts: map<string, string>)
    requires |names| == |keys|
  {
    && accounts.Keys == NameSet(names) && accounts.Values <= KeySet(keys) && OneToOne(accounts)
    && forall n | n in accounts :: n in names && accounts[n] == keys[LastPlace(names, n)]
  }

  lemma AccountsAre(names: seq<string>, keys: seq<string>)
    requires |names| == |keys| && NoDuplicates(keys)
    ensures Accounts(names, keys, AccountsFor(names, keys))
  {
    AccountsCover(names, keys);
    AccountsOneToOne(names, keys);
    var accounts := AccountsFor(names, keys);
    forall n | n in accounts ensures n in names && accounts[n] == keys[LastPlace(names, n)] {
      assert n in NameSet(names);
      LastKeyKept(names, keys, n);
    }
  }

  /** Mints an account for every name and publishes its bare claims. */
  method ProvisionAccounts(names: seq<string>, keys: seq<string>)
    returns (accounts: map<string, string>, claims: map<string, Claims>)
    requires |names| == |keys| && NoDuplicates(keys)
    ensures claims == Provisioned(KeySet(keys)).dir
    ensures accounts == AccountsFor(names, keys) && Accounts(names, keys, accounts)
  {
    accounts, claims := map[], map[];
    for i := 0 to |names|
      invariant claims == Provisioned(KeySet(keys[..i])).dir
      invariant accounts == AccountsFor(names[..i], keys[..i])
    {
      NextAccount(names, keys, i);
      claims := claims[keys[i] := BARE];
      accounts := accounts[names[i] := keys[i]];
    }
    assert names[..|names|] == names && keys[..|keys|] == keys;
    AccountsAre(names, keys);
  }

  lemma NextAccount(names: seq<string>, keys: seq<string>, i: nat)
    requires |names| == |keys| && i < |names|
    ensures AccountsFor(names[..i + 1], keys[..i + 1]) == AccountsFor(names[..i], keys[..i])[names[i] := keys[i]]
    ensures Provisioned(KeySet(keys[..i + 1])).dir == Provisioned(KeySet(keys[..i])).dir[keys[i] := BARE]
  {
    assert names[..i + 1][..i] == names[..i] && keys[..i + 1][..i] == keys[..i];
    assert keys[..i + 1] == keys[..i] + [keys[i]];
    assert KeySet(keys[..i + 1]) == KeySet(keys[..i]) + {keys[i]};
  }

  /* ---- grants by name ---- */

  /** A grant as a scenario makes it. */
  datatype Award = Award(exporter: string, importer: string, subject: string)

  predicate Names(accounts: map<string, string>, a: Award) {
    a.exporter in accounts && a.importer in accounts
  }

  function Keyed(accounts: map<string, string>, a: Award): Grant
    requires Names(accounts, a)
  {
    Grants.Grant(accounts[a.exporter], accounts[a.importer], a.subject)
  }

  function KeyedAll(accounts: map<string, string>, awarded: set<Award>): set<Grant> {
    set a | a in awarded && Names(accounts, a) :: Keyed(accounts, a)
  }

  lemma KeyedGrows(accounts: map<string, string>, awarded: set<Award>, a: Award)
    requires Names(accounts, a)
    ensures KeyedAll(accounts, awarded + {a}) == KeyedAll(accounts, awarded) + {Keyed(accounts, a)}
  {
    assert a in awarded + {a};
    forall x | x in awarded && Names(accounts, x) ensures Keyed(accounts, x) in KeyedAll(accounts, awarded + {a}) {
      assert x in awarded + {a};
    }
  }

  /** Distinct names being distinct accounts, a grant by key tells which names it was made for. */
  lemma KeyedExactly(accounts: map<string, string>, awarded: set<Award>, a: Award)
    requires OneToOne(accounts) && Names(accounts, a)
    ensures Keyed(accounts, a) in KeyedAll(accounts, awarded) <==> a in awarded
  {
    if Keyed(accounts, a) in KeyedAll(accounts, awarded) {
      var x :| x in awarded && Names(accounts, x) && Keyed(accounts, x) == Keyed(accounts, a);
      assert x == a;
    }
  }

  /** What a scenario does to a broker: a client of an account connects, or a grant is made. */
  datatype Call = Join(name: string) | Make(award: Award)

  predicate Named(accounts: map<string, string>, call: Call) {
    match call
    case Join(name) => name in accounts
    case Make(a) => Names(accounts, a)
  }

  predicate AllNamed(accounts: map<string, string>, calls: seq<Call>) {
    forall call | call in calls :: Named(accounts, call)
  }

  function AwardsIn(calls: seq<Call>): set<Award> {
    set call | call in calls && call.Make? :: call.award
  }

  lemma AwardIn(calls: seq<Call>, a: Award)
    ensures a in AwardsIn(calls) <==> Make(a) in calls
  {
    if Make(a) in calls {
      assert Make(a).award in AwardsIn(calls);
    }
  }

  lemma AwardsGrow(calls: seq<Call>, call: Call)
    ensures AwardsIn(calls + [call]) == AwardsIn(calls) + if call.Make? then {call.award} else {}
  {
    forall a ensures a in AwardsIn(calls + [call]) <==> a in AwardsIn(calls) || (call.Make? && a == call.award) {
      AwardIn(calls, a);
      AwardIn(calls + [call], a);
    }
  }

  function KeyedCall(accounts: map<string, string>, call: Call): Op
    requires Named(accounts, call)
  {
    match call
    case Join(name) => Op.Connect(accounts[name])
    case Make(a) => Issue(Keyed(accounts, a))
  }

  function KeyedCalls(accounts: map<string, string>, calls: seq<Call>): seq<Op>
    requires AllNamed(accounts, calls)
  {
    seq(|calls|, i requires 0 <= i < |calls| => KeyedCall(accounts, calls[i]))
  }

  lemma KeyedCallsKnown(accounts: map<string, string>, keys: set<string>, calls: seq<Call>)
    requires AllNamed(accounts, calls) && accounts.Values <= keys
    ensures Known(KeyedCalls(accounts, calls), keys)
    ensures Issued(KeyedCalls(accounts, calls)) == KeyedAll(accounts, AwardsIn(calls))
  {
    var ops := KeyedCalls(accounts, calls);
    forall op | op in ops && op.Issue? ensures Between(op.g, keys) && op.g in KeyedAll(accounts, AwardsIn(calls)) {
      var i :| 0 <= i < |ops| && ops[i] == op;
      assert calls[i] in calls;
      AwardIn(calls, calls[i].award);
    }
    forall a | a in AwardsIn(calls) ensures Keyed(accounts, a) in Issued(ops) {
      AwardIn(calls, a);
      var i :| 0 <= i < |calls| && calls[i] == Make(a);
      assert ops[i] == Issue(Keyed(accounts, a));
      assert ops[i].g in Issued(ops);
    }
  }

  /* ---- the resolver ---- */

  /** The resolver after storing the named entries of the directory. */
  function Stored(resolver: map<string, Claims>, dir: map<string, Claims>, entries: seq<string>): map<string, Claims>
    requires forall e | e in entries :: e in dir
  {
    if entries == [] then resolver
    else
      var last := entries[|entries| - 1];
      assert last in entries && forall e | e in entries[..|entries| - 1] :: e in entries;
      Stored(resolver, dir, entries[..|entries| - 1])[last := dir[last]]
  }

  lemma {:induction false} StoredMeans(resolver: map<string, Claims>, dir: map<string, Claims>, entries: seq<string>)
    requires forall e | e in entries :: e in dir
    ensures Stored(resolver, dir, entries) == resolver + map e | e in entries :: dir[e]
  {
    if entries != [] {
      var front, last := entries[..|entries| - 1], entries[|entries| - 1];
      assert entries == front + [last];
      StoredMeans(resolver, dir, front);
    }
  }

  lemma StoredNext(resolver: map<string, Claims>, dir: map<string, Claims>, entries: seq<string>, i: nat)
    requires i < |entries| && forall e | e in entries :: e in dir
    ensures entries[i] in dir
    ensures Stored(resolver, dir, entries[..i + 1]) == Stored(resolver, dir, entries[..i])[entries[i] := dir[entries[i]]]
  {
    assert entries[i] in entries && entries[..i + 1][..i] == entries[..i];
  }

  function KeysOf(accounts: map<string, string>, names: seq<string>): (keys: seq<string>)
    requires forall n | n in names :: n in accounts
    ensures |keys| == |names|
  {
    seq(|names|, i requires 0 <= i < |names| => accounts[names[i]])
  }

  lemma KeyAt(accounts: map<string, string>, names: seq<string>, i: nat)
    requires i < |names| && forall n | n in names :: n in accounts
    ensures names[i] in accounts && KeysOf(accounts, names)[i] == accounts[names[i]]
  {
    assert names[i] in names;
  }

  lemma KeysCover(accounts: map<string, string>, names: seq<string>)
    requires forall n :: n in names <==> n in accounts
    ensures forall a :: a in KeysOf(accounts, names) <==> a in accounts.Values
  {
    forall a | a in accounts.Values ensures a in KeysOf(accounts, names) {
      var n :| n in accounts && accounts[n] == a;
      assert n in names;
      var i :| 0 <= i < |names| && names[i] == n;
      assert KeysOf(accounts, names)[i] == a;
    }
  }

  lemma KeysPublished(accounts: map<string, string>, names: seq<string>, dir: map<string, Claims>)
    requires accounts.Values <= dir.Keys && forall n | n in names :: n in accounts
    ensures forall k | k in KeysOf(accounts, names) :: k in dir
  {
    forall i | 0 <= i < |names| ensures KeysOf(accounts, names)[i] in dir {
      assert names[i] in names;
      assert accounts[names[i]] in accounts.Values;
    }
  }

  /* ---- the compose broker's claims ---- */

  /** One grant entered in the directory. */
  function Entered(dir: map<string, Claims>, g: Grant): (r: map<string, Claims>) {
    if Between(g, dir.Keys) then AddImport(AddExport(dir, g.exporter, g.subject), g.importer, g.exporter, g.subject) else dir
  }

  /** The directory after a list of grants, from bare accounts. */
  function Compiled(accounts: set<string>, ops: seq<Op>): map<string, Claims> {
    if ops == [] then map a | a in accounts :: BARE
    else
      var before := Compiled(accounts, ops[..|ops| - 1]);
      match ops[|ops| - 1]
      case Connect(_) => before
      case Issue(g) => Entered(before, g)
  }

  lemma {:induction false} CompiledAre(accounts: set<string>, ops: seq<Op>)
    requires Known(ops, accounts)
    ensures Compiled(accounts, ops) == ClaimsOfAll(accounts, Issued(ops))
  {
    if ops == [] {
      BareWithoutGrants(accounts);
      assert Issued(ops) == {};
    } else {
      KnownParts(ops, accounts);
      CompiledAre(accounts, ops[..|ops| - 1]);
      if ops[|ops| - 1].Issue? {
        DirectoryGrows(accounts, Issued(ops[..|ops| - 1]), ops[|ops| - 1].g);
      }
    }
  }

  function Preloaded(accounts: map<string, string>, dir: map<string, Claims>): map<string, Claims> {
    map a | a in accounts.Values && a in dir :: dir[a]
  }

  /** The published claims of every account, whatever order the accounts are visited in. */
  method PreloadOf(accounts: map<string, string>, dir: map<string, Claims>) returns (preload: map<string, Claims>)
    requires accounts.Values <= dir.Keys
    ensures preload == Preloaded(accounts, dir)
  {
    preload := map[];
    var names := Enumerate(accounts.Keys);
    KeysPublished(accounts, names, dir);
    ghost var keys := KeysOf(accounts, names);
    for i := 0 to |names|
      invariant preload == Stored(map[], dir, keys[..i])
    {
      StoredNext(map[], dir, keys, i);
      KeyAt(accounts, names, i);
      var account := accounts[names[i]];
      preload := preload[account := dir[account]];
    }
    assert keys[..|names|] == keys;
    StoredMeans(map[], dir, keys);
    KeysCover(accounts, names);
  }

  lemma PublishedAre(dir: map<string, Claims>, accounts: set<string>, granted: set<Grant>)
    requires accounts <= dir.Keys && dir == ClaimsOfAll(dir.Keys, granted)
    ensures (map a | a in accounts && a in dir :: dir[a]) == ClaimsOfAll(accounts, granted)
  {
    forall a | a in accounts ensures dir[a] == ClaimsOfAll(accounts, granted)[a] {
      assert dir[a] == ClaimsOfAll(dir.Keys, granted)[a];
    }
  }

  /* ---- what a broker owes the grants made so far ---- */

  /** Names have accounts of their own, and the broker's three copies of their claims are
      the grants made so far. */
  ghost predicate Honours(b: Broker, accounts: map<string, string>, awarded: set<Award>) {
    && OneToOne(accounts) && accounts.Values <= b.dir.Keys && (forall a | a in awarded :: Names(accounts, a))
    && Coherent(b, b.dir.Keys, KeyedAll(accounts, awarded))
  }

  lemma ConnectHonours(b: Broker, accounts: map<string, string>, awarded: set<Award>, account: string)
    requires Honours(b, accounts, awarded)
    ensures Honours(Connected(b, account), accounts, awarded)
  {
    ConnectCoherent(b, b.dir.Keys, KeyedAll(accounts, awarded), account);
  }

  lemma GrantHonours(b: Broker, accounts: map<string, string>, awarded: set<Award>, a: Award, loads: bool, exp: string, imp: string)
    requires Honours(b, accounts, awarded) && Names(accounts, a) && exp == accounts[a.exporter] && imp == accounts[a.importer]
    ensures exp in b.dir && imp in b.dir
    ensures var after := Act(b, Issue(Keyed(accounts, a)), loads, true);
      && Honours(after, accounts, awarded + {a})
      && after == Refreshed(Refreshed(Bridged(b.(dir := AddImport(AddExport(b.dir, exp, a.subject), imp, exp, a.subject))), exp, loads), imp, loads)
  {
    assert exp in accounts.Values && imp in accounts.Values;
    GrantCoherent(b, b.dir.Keys, KeyedAll(accounts, awarded), Keyed(accounts, a), loads);
    KeyedGrows(accounts, awarded, a);
  }

  /** The directory of a compose broker does. */
  ghost predicate DirHonours(dir: map<string, Claims>, accounts: map<string, string>, awarded: set<Award>) {
    && OneToOne(accounts) && accounts.Values <= dir.Keys && (forall a | a in awarded :: Names(accounts, a))
    && dir == ClaimsOfAll(dir.Keys, KeyedAll(accounts, awarded))
  }

  lemma StartHonours(names: seq<string>, keys: seq<string>)
    requires |names| == |keys| && NoDuplicates(keys)
    ensures Honours(Provisioned(KeySet(keys)), AccountsFor(names, keys), {})
    ensures DirHonours(Provisioned(KeySet(keys)).dir, AccountsFor(names, keys), {})
  {
    AccountsCover(names, keys);
    AccountsOneToOne(names, keys);
    BareWithoutGrants(KeySet(keys));
    assert KeyedAll(AccountsFor(names, keys), {}) == {};
  }

  lemma EnteredHonours(dir: map<string, Claims>, accounts: map<string, string>, awarded: set<Award>, a: Award)
    requires DirHonours(dir, accounts, awarded) && Names(accounts, a)
    ensures Between(Keyed(accounts, a), dir.Keys)
    ensures DirHonours(Entered(dir, Keyed(accounts, a)), accounts, awarded + {a})
  {
    assert accounts[a.exporter] in accounts.Values && accounts[a.importer] in accounts.Values;
    DirectoryGrows(dir.Keys, KeyedAll(accounts, awarded), Keyed(accounts, a));
    KeyedGrows(accounts, awarded, a);
  }

  lemma ResolverIs(dir: map<string, Claims>)
    ensures map[] + dir == dir
  {
  }

  /** The embedded broker. Seeds, JWT encoding and signatures are left out: a JWT is the
      claims it carries. */
  class NATS {
    /** Whether the server's account lookup loads an account it does not have yet. */
    const loads: bool
    var accounts: map<string, string>
    var dir: map<string, Claims>
    var resolver: map<string, Claims>
    var live: map<string, Claims>
    ghost var awarded: set<Award>

    ghost function View(): Broker
      reads this
    {
      Broker(dir, resolver, live)
    }

    ghost predicate Valid()
      reads this
    {
      Honours(View(), accounts, awarded)
    }

    /** Provisioning gives every name a bare account under a fresh key. */
    constructor (names: seq<string>, keys: seq<string>, lookupLoads: bool)
      requires |names| == |keys| && NoDuplicates(keys)
      ensures Valid() && awarded == {} && View() == Provisioned(KeySet(keys)) && loads == lookupLoads
      ensures accounts == AccountsFor(names, keys)
    {
      var accs, claims := ProvisionAccounts(names, keys);
      loads := lookupLoads;
      accounts, dir, resolver, live := accs, claims, map[], map[];
      awarded := {};
      new;
      Bridge();
      ResolverIs(dir);
      StartHonours(names, keys);
    }

    /** Stores every published JWT in the resolver. */
    method Bridge()
      modifies this`resolver
      ensures resolver == old(resolver) + dir
    {
      var entries := Enumerate(dir.Keys);
      for i := 0 to |entries|
        invariant resolver == Stored(old(resolver), dir, entries[..i])
      {
        StoredNext(old(resolver), dir, entries, i);
        resolver := resolver[entries[i] := dir[entries[i]]];
      }
      assert entries[..|entries|] == entries;
      StoredMeans(old(resolver), dir, entries);
      assert (map e | e in entries :: dir[e]) == dir;
    }

    method Account(name: string) returns (r: Option<string>)
      ensures r == if name in accounts then Some(accounts[name]) else None
    {
      r := if name in accounts then Some(accounts[name]) else None;
    }

    /** A client of the account connects: the broker loads it from the resolver. */
    method Connect(name: string) returns (ok: bool)
      requires Valid()
      modifies this`live
      ensures Valid() && ok == (name in accounts)
      ensures View() == if ok then Connected(old(View()), accounts[name]) else old(View())
    {
      var account := Account(name);
      ok := account.Some?;
      if ok {
        ConnectHonours(View(), accounts, awarded, account.value);
        if account.value !in live && account.value in resolver {
          live := live[account.value := resolver[account.value]];
        }
      }
    }

    /** Pushes the published claims into an account the broker has loaded. */
    method RefreshLoaded(account: string)
      requires account in dir
      modifies this`live
      ensures View() == Refreshed(old(View()), account, loads)
    {
      if account !in live && loads && account in resolver {
        live := live[account := resolver[account]];
      }
      if account !in live {
        return;
      }
      live := live[account := dir[account]];
    }

    /** Into the directory, from there to the resolver, and on into the loaded accounts on
        both sides. */
    method Publish(exporter: string, importer: string, subject: string)
      requires exporter in dir && importer in dir
      modifies this`dir, this`resolver, this`live
      ensures var entered := AddImport(AddExport(old(dir), exporter, subject), importer, exporter, subject);
        View() == Refreshed(Refreshed(Bridged(old(View()).(dir := entered)), exporter, loads), importer, loads)
    {
      dir := AddExport(dir, exporter, subject);
      dir := AddImport(dir, importer, exporter, subject);
      Bridge();
      RefreshLoaded(exporter);
      RefreshLoaded(importer);
    }

    /** Export, import, bridge, refresh both sides. An unknown name stops it before
        anything changes. */
    method Grant(exporter: string, importer: string, subject: string) returns (ok: bool)
      requires Valid()
      modifies this`dir, this`resolver, this`live, this`awarded
      ensures Valid() && ok == Names(accounts, Award(exporter, importer, subject))
      ensures !ok ==> View() == old(View()) && awarded == old(awarded)
      ensures ok ==> awarded == old(awarded) + {Award(exporter, importer, subject)}
      ensures ok ==> View() == Act(old(View()), Issue(Keyed(accounts, Award(exporter, importer, subject))), loads, true)
    {
      var exp := Account(exporter);
      var imp := Account(importer);
      ok := exp.Some? && imp.Some?;
      if ok {
        ghost var a := Award(exporter, importer, subject);
        GrantHonours(View(), accounts, awarded, a, loads, exp.value, imp.value);
        Publish(exp.value, imp.value, subject);
        awarded := awarded + {a};
      }
    }

    /** One call of a scenario; it fails, changing nothing, on an unknown name. */
    method Perform(call: Call) returns (ok: bool)
      requires Valid()
      modifies this`dir, this`resolver, this`live, this`awarded
      ensures Valid() && ok == Named(accounts, call)
      ensures !ok ==> View() == old(View()) && awarded == old(awarded)
      ensures ok ==> awarded == old(awarded) + if call.Make? then {call.award} else {}
      ensures ok ==> View() == Act(old(View()), KeyedCall(accounts, call), loads, true)
    {
      match call {
        case Join(name) => ok := Connect(name);
        case Make(a) => ok := Grant(a.exporter, a.importer, a.subject);
      }
    }

    /** A subject of one account is heard by another account's clients. */
    ghost predicate Heard(from: string, to: string, subject: string)
      requires Valid() && from in accounts && to in accounts
      reads this
    {
      Crosses(Effective(View(), accounts[from]), Effective(View(), accounts[to]), accounts[from], subject)
    }

    /** Who hears whom, at any point between these calls: exactly the names granted. */
    lemma HeardExactly(from: string, to: string, subject: string)
      requires Valid() && from in accounts && to in accounts
      ensures Heard(from, to, subject) <==> Award(from, to, subject) in awarded
    {
      CrossesExactly(KeyedAll(accounts, awarded), accounts[from], accounts[to], subject);
      KeyedExactly(accounts, awarded, Award(from, to, subject));
    }
  }

  /** The provisioning of a compose broker, whose claims are fixed when its configuration
      is written. */
  class ComposeProvision {
    var accounts: map<string, string>
    var dir: map<string, Claims>
    var brokerConfigWritten: bool
    var preload: map<string, Claims>
    ghost var awarded: set<Award>

    ghost predicate Valid()
      reads this
    {
      && DirHonours(dir, accounts, awarded)
      && (brokerConfigWritten ==> preload == ClaimsOfAll(accounts.Values, KeyedAll(accounts, awarded)))
    }

    constructor (names: seq<string>, keys: seq<string>)
      requires |names| == |keys| && NoDuplicates(keys)
      ensures Valid() && awarded == {} && !brokerConfigWritten && dir == Compiled(KeySet(keys), [])
      ensures accounts == AccountsFor(names, keys)
    {
      var accs, claims := ProvisionAccounts(names, keys);
      StartHonours(names, keys);
      accounts, dir, brokerConfigWritten, preload := accs, claims, false, map[];
      awarded := {};
    }

    /** Fails, changing nothing, once the configuration has been written or for an unknown name. */
    method Grant(exporter: string, importer: string, subject: string) returns (ok: bool)
      requires Valid()
      modifies this`dir, this`awarded
      ensures Valid() && ok == (!brokerConfigWritten && Names(accounts, Award(exporter, importer, subject)))
      ensures !ok ==> dir == old(dir) && awarded == old(awarded)
      ensures ok ==> awarded == old(awarded) + {Award(exporter, importer, subject)}
      ensures ok ==> dir == Entered(old(dir), Keyed(accounts, Award(exporter, importer, subject)))
    {
      if brokerConfigWritten || exporter !in accounts || importer !in accounts {
        return false;
      }
      var exp, imp := accounts[exporter], accounts[importer];
      ghost var a := Award(exporter, importer, subject);
      EnteredHonours(dir, accounts, awarded, a);
      dir := AddExport(dir, exp, subject);
      dir := AddImport(dir, imp, exp, subject);
      awarded := awarded + {a};
      ok := true;
    }

    /** Preloads every account's published claims; the order of the accounts map does not show. */
    method WriteBrokerConfig()
      requires Valid()
      modifies this`brokerConfigWritten, this`preload
      ensures Valid() && brokerConfigWritten && preload == Preloaded(accounts, dir)
    {
      brokerConfigWritten := true;
      preload := PreloadOf(accounts, dir);
      PublishedAre(dir, accounts.Values, KeyedAll(accounts, awarded));
    }
  }

  /* ---- the two runtimes ---- */

  /** The process runtime: a broker, and clients connecting and grants being made in any
      order. It stops at the first name there is no account for. */
  method RunLive(names: seq<string>, keys: seq<string>, lookupLoads: bool, calls: seq<Call>) returns (broker: NATS, ok: bool)
    requires |names| == |keys| && NoDuplicates(keys)
    ensures fresh(broker) && broker.Valid() && broker.accounts == AccountsFor(names, keys)
    ensures ok <==> AllNamed(AccountsFor(names, keys), calls)
    ensures ok ==> broker.awarded == AwardsIn(calls)
    ensures ok ==> broker.View() == Play(KeySet(keys), KeyedCalls(AccountsFor(names, keys), calls), lookupLoads, true)
  {
    broker := new NATS(names, keys, lookupLoads);
    ghost var accounts, all := AccountsFor(names, keys), KeySet(keys);
    assert AwardsIn([]) == {};
    for i := 0 to |calls|
      invariant fresh(broker) && broker.Valid() && broker.accounts == accounts && broker.loads == lookupLoads
      invariant AllNamed(accounts, calls[..i]) && broker.awarded == AwardsIn(calls[..i])
      invariant broker.View() == Play(all, KeyedCalls(accounts, calls[..i]), lookupLoads, true)
    {
      ok := broker.Perform(calls[i]);
      if !ok {
        assert calls[i] in calls;
        return;
      }
      NextCall(accounts, calls, i);
      NextPlayed(all, accounts, calls, i, lookupLoads);
    }
    assert calls[..|calls|] == calls;
    ok := true;
  }

  lemma NextCall(accounts: map<string, string>, calls: seq<Call>, i: nat)
    requires i < |calls| && AllNamed(accounts, calls[..i]) && Named(accounts, calls[i])
    ensures AllNamed(accounts, calls[..i + 1])
    ensures AwardsIn(calls[..i + 1]) == AwardsIn(calls[..i]) + if calls[i].Make? then {calls[i].award} else {}
    ensures KeyedCalls(accounts, calls[..i + 1]) == KeyedCalls(accounts, calls[..i]) + [KeyedCall(accounts, calls[i])]
  {
    assert calls[..i + 1] == calls[..i] + [calls[i]];
    AwardsGrow(calls[..i], calls[i]);
  }

  lemma NextPlayed(all: set<string>, accounts: map<string, string>, calls: seq<Call>, i: nat, loads: bool)
    requires i < |calls| && AllNamed(accounts, calls[..i + 1]) && AllNamed(accounts, calls[..i]) && Named(accounts, calls[i])
    requires KeyedCalls(accounts, calls[..i + 1]) == KeyedCalls(accounts, calls[..i]) + [KeyedCall(accounts, calls[i])]
    ensures Play(all, KeyedCalls(accounts, calls[..i + 1]), loads, true)
         == Act(Play(all, KeyedCalls(accounts, calls[..i]), loads, true), KeyedCall(accounts, calls[i]), loads, true)
  {
    var ops := KeyedCalls(accounts, calls[..i]);
    assert (ops + [KeyedCall(accounts, calls[i])])[..|ops|] == ops;
  }

  /** The compose runtime: every grant first, then the broker's configuration. */
  method RunStatic(names: seq<string>, keys: seq<string>, calls: seq<Call>) returns (prov: ComposeProvision, ok: bool)
    requires |names| == |keys| && NoDuplicates(keys) && forall call | call in calls :: call.Make?
    ensures fresh(prov) && prov.Valid() && prov.accounts == AccountsFor(names, keys)
    ensures ok <==> AllNamed(AccountsFor(names, keys), calls)
    ensures ok ==> prov.brokerConfigWritten && prov.awarded == AwardsIn(calls)
    ensures ok ==> prov.preload == Preloaded(prov.accounts, Compiled(KeySet(keys), KeyedCalls(prov.accounts, calls)))
  {
    prov := new ComposeProvision(names, keys);
    ghost var accounts, all := AccountsFor(names, keys), KeySet(keys);
    assert AwardsIn([]) == {};
    for i := 0 to |calls|
      invariant fresh(prov) && prov.Valid() && prov.accounts == accounts && !prov.brokerConfigWritten
      invariant AllNamed(accounts, calls[..i]) && prov.awarded == AwardsIn(calls[..i])
      invariant prov.dir == Compiled(all, KeyedCalls(accounts, calls[..i]))
    {
      var call := calls[i];
      assert call in calls;
      ok := prov.Grant(call.award.exporter, call.award.importer, call.award.subject);
      if !ok {
        return;
      }
      NextCall(accounts, calls, i);
      NextCompiled(all, KeyedCalls(accounts, calls[..i]), KeyedCall(accounts, call));
    }
    assert calls[..|calls|] == calls;
    prov.WriteBrokerConfig();
    ok := true;
  }

  lemma NextCompiled(all: set<string>, ops: seq<Op>, op: Op)
    ensures Compiled(all, ops + [op]) == if op.Issue? then Entered(Compiled(all, ops), op.g) else Compiled(all, ops)
  {
    assert (ops + [op])[..|ops|] == ops;
  }

  /** The grants of a list of calls, in order, whatever else it holds. */
  function GrantsOnly(calls: seq<Call>): seq<Call> {
    if calls == [] then []
    else
      var last := calls[|calls| - 1];
      GrantsOnly(calls[..|calls| - 1]) + if last.Make? then [last] else []
  }

  lemma {:induction false} GrantsOnlyAre(calls: seq<Call>)
    ensures forall call :: call in GrantsOnly(calls) <==> call in calls && call.Make?
  {
    if calls != [] {
      GrantsOnlyAre(calls[..|calls| - 1]);
      assert calls == calls[..|calls| - 1] + [calls[|calls| - 1]];
    }
  }

  /** However connects and grants are interleaved on the live broker, and whatever keys
      each runtime mints, the two brokers let the same subjects cross between the same
      names: exactly those in the list of grants. */
  lemma StaticAgreesWithLive(names: seq<string>, liveKeys: seq<string>, composeKeys: seq<string>, loads: bool,
                             calls: seq<Call>, from: string, to: string, subject: string)
    requires |names| == |liveKeys| == |composeKeys| && NoDuplicates(liveKeys) && NoDuplicates(composeKeys)
    requires from in names && to in names
    requires AllNamed(AccountsFor(names, liveKeys), calls)
    ensures AccountsFor(names, liveKeys).Keys == AccountsFor(names, composeKeys).Keys == NameSet(names)
    ensures AllNamed(AccountsFor(names, composeKeys), GrantsOnly(calls))
    ensures LiveHears(AccountsFor(names, liveKeys), liveKeys, calls, loads, from, to, subject)
       <==> Make(Award(from, to, subject)) in calls
    ensures StaticHears(AccountsFor(names, composeKeys), composeKeys, GrantsOnly(calls), from, to, subject)
       <==> Make(Award(from, to, subject)) in calls
  {
    AccountsAre(names, liveKeys);
    AccountsAre(names, composeKeys);
    GrantsOnlyAre(calls);
    assert AllNamed(AccountsFor(names, composeKeys), GrantsOnly(calls));
    LiveHearsExactly(AccountsFor(names, liveKeys), liveKeys, calls, loads, from, to, subject);
    StaticHearsExactly(AccountsFor(names, composeKeys), composeKeys, GrantsOnly(calls), from, to, subject);
  }

  /** After these calls the live broker lets the subject through from one name to the other. */
  ghost predicate LiveHears(accounts: map<string, string>, keys: seq<string>, calls: seq<Call>, loads: bool,
                            from: string, to: string, subject: string)
  {
    && AllNamed(accounts, calls) && from in accounts && to in accounts
    && accounts[from] in keys && accounts[to] in keys
    && var b := Play(KeySet(keys), KeyedCalls(accounts, calls), loads, true);
      Crosses(Effective(b, accounts[from]), Effective(b, accounts[to]), accounts[from], subject)
  }

  /** The compose broker booted after these grants does. */
  ghost predicate StaticHears(accounts: map<string, string>, keys: seq<string>, grants: seq<Call>,
                              from: string, to: string, subject: string)
  {
    && AllNamed(accounts, grants) && from in accounts && to in accounts
    && accounts.Values <= KeySet(keys)
    && var preload := Preloaded(accounts, Compiled(KeySet(keys), KeyedCalls(accounts, grants)));
      && accounts[from] in preload && accounts[to] in preload
      && Crosses(preload[accounts[from]], preload[accounts[to]], accounts[from], subject)
  }

  lemma LiveHearsExactly(accounts: map<string, string>, keys: seq<string>, calls: seq<Call>, loads: bool,
                         from: string, to: string, subject: string)
    requires OneToOne(accounts) && accounts.Values <= KeySet(keys) && AllNamed(accounts, calls)
    requires from in accounts && to in accounts
    ensures LiveHears(accounts, keys, calls, loads, from, to, subject) <==> Make(Award(from, to, subject)) in calls
  {
    var all := KeySet(keys);
    assert accounts[from] in accounts.Values && accounts[to] in accounts.Values;
    KeyedCallsKnown(accounts, all, calls);
    PlayCoherent(all, KeyedCalls(accounts, calls), loads);
    CrossesExactly(KeyedAll(accounts, AwardsIn(calls)), accounts[from], accounts[to], subject);
    KeyedExactly(accounts, AwardsIn(calls), Award(from, to, subject));
    AwardIn(calls, Award(from, to, subject));
  }

  lemma StaticHearsExactly(accounts: map<string, string>, keys: seq<string>, grants: seq<Call>,
                           from: string, to: string, subject: string)
    requires OneToOne(accounts) && accounts.Values <= KeySet(keys) && AllNamed(accounts, grants)
    requires from in accounts && to in accounts
    ensures StaticHears(accounts, keys, grants, from, to, subject) <==> Make(Award(from, to, subject)) in grants
  {
    var all := KeySet(keys);
    assert accounts[from] in accounts.Values && accounts[to] in accounts.Values;
    KeyedCallsKnown(accounts, all, grants);
    CompiledAre(all, KeyedCalls(accounts, grants));
    PublishedAre(ClaimsOfAll(all, KeyedAll(accounts, AwardsIn(grants))), accounts.Values, KeyedAll(accounts, AwardsIn(grants)));
    CrossesExactly(KeyedAll(accounts, AwardsIn(grants)), accounts[from], accounts[to], subject);
    KeyedExactly(accounts, AwardsIn(grants), Award(from, to, subject));
    AwardIn(grants, Award(from, to, subject));
  }
}
