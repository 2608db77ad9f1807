/** Local key provisioning. A DID's keys live in the directory its colon-separated
    segments spell, so saving one key pair also creates the directories of every DID
    it extends, and a directory that exists is refused. */
module KeyProvisioning {
  import opened Wrappers
  import opened Text

  /** The key directory of a DID, one path component a segment. */
  function Directory(did: string): (path: seq<string>)
    ensures path != []
  {
    Split(did, ":")
  }

  /** The DID is the other one or extends it, segment by segment. */
  predicate Nests(did: string, under: string) {
    Directory(under) <= Directory(did)
  }

  /** Every directory that exists once the DIDs have been saved. */
  ghost predicate Made(dids: seq<string>, dir: seq<string>) {
    dir != [] && exists i :: 0 <= i < |dids| && dir <= Directory(dids[i])
  }

  /** Those are the directories there are. */
  ghost predicate Holds(dirs: set<seq<string>>, dids: seq<string>) {
    forall d :: d in dirs <==> Made(dids, d)
  }

  /** No DID comes after an equal one or an extension of it. */
  ghost predicate Fits(dids: seq<string>) {
    forall i, j :: 0 <= i < j < |dids| ==> !Nests(dids[i], dids[j])
  }

  /** The keystore on disk, as the directories it has under its root. */
  class KeyStore {
    var dirs: set<seq<string>>

    constructor ()
      ensures dirs == {}
    {
      dirs := {};
    }

    /** The directories after saving: the path and every path it runs through. */
    static function WithPath(dirs: set<seq<string>>, path: seq<string>): set<seq<string>> {
      dirs + set k | 1 <= k <= |path| :: path[..k]
    }

    method MakePath(path: seq<string>)
      modifies this
      ensures dirs == WithPath(old(dirs), path)
    {
      for k := 0 to |path|
        invariant dirs == old(dirs) + set j | 1 <= j <= k :: path[..j]
      {
        dirs := dirs + {path[..k + 1]};
      }
    }

    /** Fails, changing nothing, when the DID's directory is already there. */
    method SaveKeyPair(did: string) returns (saved: bool)
      modifies this
      ensures saved == (Directory(did) !in old(dirs))
      ensures dirs == if saved then WithPath(old(dirs), Directory(did)) else old(dirs)
    {
      saved := Directory(did) !in dirs;
      if saved {
        MakePath(Directory(did));
      }
    }
  }

  lemma MadeGrows(dids: seq<string>, dirs: set<seq<string>>, did: string)
    requires Holds(dirs, dids)
    ensures Holds(KeyStore.WithPath(dirs, Directory(did)), dids + [did])
  {
    var path := Directory(did);
    forall d ensures d in KeyStore.WithPath(dirs, path) <==> Made(dids + [did], d) {
      if d in KeyStore.WithPath(dirs, path) {
        if d in dirs {
          var i :| 0 <= i < |dids| && d <= Directory(dids[i]);
          assert (dids + [did])[i] == dids[i];
        } else {
          assert d <= Directory((dids + [did])[|dids|]);
        }
      }
      if Made(dids + [did], d) {
        var i :| 0 <= i < |dids + [did]| && d <= Directory((dids + [did])[i]);
        if i < |dids| {
          assert Made(dids, d);
        } else {
          assert d == path[..|d|];
        }
      }
    }
  }

  /** A saved list takes one DID more exactly when the list so extended still fits. */
  lemma FitsGrows(dids: seq<string>, did: string)
    requires Fits(dids)
    ensures Fits(dids + [did]) <==> !Made(dids, Directory(did))
  {
    var more := dids + [did];
    if Fits(more) {
      forall i | 0 <= i < |dids| ensures !(Directory(did) <= Directory(dids[i])) {
        assert !Nests(more[i], more[|dids|]);
      }
    }
    if !Made(dids, Directory(did)) {
      forall i, j | 0 <= i < j < |more| ensures !Nests(more[i], more[j]) {
        if j < |dids| {
          assert !Nests(dids[i], dids[j]);
        }
      }
    }
  }

  lemma FitsPrefix(a: seq<string>, b: seq<string>)
    requires Fits(a + b)
    ensures Fits(a)
  {
    forall i, j | 0 <= i < j < |a| ensures !Nests(a[i], a[j]) {
      assert !Nests((a + b)[i], (a + b)[j]);
    }
  }

  datatype Stop = Taken(did: string) | NodeNotProvisioned(did: string)

  /** The public halves minted for each DID; a DID named twice would keep the later ones. */
  function KeysFor<Keys>(dids: seq<string>, minted: seq<Keys>): map<string, Keys>
    requires |dids| == |minted|
  {
    if dids == [] then map[]
    else KeysFor(dids[..|dids| - 1], minted[..|dids| - 1])[dids[|dids| - 1] := minted[|dids| - 1]]
  }

  lemma KeysForGrows<Keys>(dids: seq<string>, minted: seq<Keys>, k: nat)
    requires |dids| == |minted| && k < |dids|
    ensures KeysFor(dids[..k + 1], minted[..k + 1]) == KeysFor(dids[..k], minted[..k])[dids[k] := minted[k]]
  {
    assert dids[..k + 1][..k] == dids[..k] && minted[..k + 1][..k] == minted[..k];
  }

  /** Fitting lists name no DID twice, so each DID keeps the keys minted for it. */
  lemma {:induction false} KeysForEach<Keys>(dids: seq<string>, minted: seq<Keys>)
    requires |dids| == |minted| && Fits(dids)
    ensures KeysFor(dids, minted).Keys == (set d | d in dids)
    ensures forall i :: 0 <= i < |dids| ==> KeysFor(dids, minted)[dids[i]] == minted[i]
  {
    if dids != [] {
      var k := |dids| - 1;
      var front := dids[..k];
      assert dids == front + [dids[k]];
      FitsPrefix(front, [dids[k]]);
      KeysForEach(front, minted[..k]);
      forall i | 0 <= i < |dids| ensures dids[i] in KeysFor(dids, minted) && KeysFor(dids, minted)[dids[i]] == minted[i] {
        if i < k {
          assert !Nests(dids[i], dids[k]) && front[i] == dids[i];
        }
      }
    }
  }

  /** Where provisioning stops: the first DID whose directory an earlier one made. */
  ghost predicate StopsAt(dids: seq<string>, k: nat) {
    k < |dids| && Fits(dids[..k]) && Made(dids[..k], Directory(dids[k]))
  }

  lemma StopsWithoutFit(dids: seq<string>, k: nat)
    requires StopsAt(dids, k)
    ensures !Fits(dids)
  {
    FitsGrows(dids[..k], dids[k]);
    assert dids[..k] + [dids[k]] == dids[..k + 1];
    var i, j :| 0 <= i < j < |dids[..k + 1]| && Nests(dids[..k + 1][i], dids[..k + 1][j]);
    assert Nests(dids[i], dids[j]);
  }

  /** The first `i` DIDs are saved, under the keys minted for them. */
  ghost predicate Provisioned<Keys>(dirs: set<seq<string>>, dids: seq<string>, minted: seq<Keys>, i: nat, extKeys: map<string, Keys>)
    requires |dids| == |minted| && i <= |dids|
  {
    && Fits(dids[..i])
    && Holds(dirs, dids[..i])
    && extKeys == KeysFor(dids[..i], minted[..i])
  }

  lemma IdentityStep<Keys>(dirs: set<seq<string>>, dids: seq<string>, minted: seq<Keys>, i: nat, extKeys: map<string, Keys>)
    requires |dids| == |minted| && i < |dids| && Provisioned(dirs, dids, minted, i, extKeys)
    ensures Fits(dids[..i + 1]) <==> Directory(dids[i]) !in dirs
    ensures Directory(dids[i]) !in dirs
        ==> Provisioned(KeyStore.WithPath(dirs, Directory(dids[i])), dids, minted, i + 1, extKeys[dids[i] := minted[i]])
    ensures Directory(dids[i]) in dirs ==> StopsAt(dids, i)
  {
    FitsGrows(dids[..i], dids[i]);
    MadeGrows(dids[..i], dirs, dids[i]);
    KeysForGrows(dids, minted, i);
    assert dids[..i] + [dids[i]] == dids[..i + 1];
  }

  /** One more DID under its own freshly minted keys. */
  method ProvisionIdentity<Keys>(store: KeyStore, ghost dids: seq<string>, ghost minted: seq<Keys>, ghost i: nat,
                                 extKeys: map<string, Keys>, did: string, keys: Keys)
    returns (saved: bool, more: map<string, Keys>)
    requires |dids| == |minted| && i < |dids| && did == dids[i] && keys == minted[i]
    requires Provisioned(store.dirs, dids, minted, i, extKeys)
    modifies store
    ensures saved <==> Fits(dids[..i + 1])
    ensures saved ==> Provisioned(store.dirs, dids, minted, i + 1, more)
    ensures !saved ==> StopsAt(dids, i) && store.dirs == old(store.dirs)
  {
    IdentityStep(store.dirs, dids, minted, i, extKeys);
    saved := store.SaveKeyPair(did);
    more := extKeys[did := keys];
  }

  /** Pipelines first, then processes, each DID under freshly minted keys; then the
      node's own DID must be one of them. It succeeds exactly when no DID is
      provisioned after an equal one or an extension of it and the node DID is listed. */
  method Provision<Keys>(store: KeyStore, pipelines: seq<string>, processes: seq<string>, nodeDID: string,
                         minted: seq<Keys>)
    returns (r: Result<map<string, Keys>, Stop>)
    requires store.dirs == {} && |minted| == |pipelines| + |processes|
    modifies store
    ensures r.Success? <==> Fits(pipelines + processes) && nodeDID in pipelines + processes
    ensures r.Success? ==> r.value == KeysFor(pipelines + processes, minted)
    ensures r.Failure? && r.error.NodeNotProvisioned? ==> r.error.did == nodeDID && Fits(pipelines + processes)
    ensures r.Success? || r.error.NodeNotProvisioned? ==> Holds(store.dirs, pipelines + processes)
    ensures r.Failure? && r.error.Taken? ==>
      exists k: nat :: StopsAt(pipelines + processes, k) && r.error.did == (pipelines + processes)[k]
                       && Holds(store.dirs, (pipelines + processes)[..k])
  {
    ghost var dids := pipelines + processes;
    var extKeys: map<string, Keys> := map[];
    for i := 0 to |pipelines|
      invariant Provisioned(store.dirs, dids, minted, i, extKeys)
    {
      var saved, more := ProvisionIdentity(store, dids, minted, i, extKeys, pipelines[i], minted[i]);
      if !saved {
        StopsWithoutFit(dids, i);
        return Failure(Taken(pipelines[i]));
      }
      extKeys := more;
    }
    for i := 0 to |processes|
      invariant Provisioned(store.dirs, dids, minted, |pipelines| + i, extKeys)
    {
      var k := |pipelines| + i;
      var saved, more := ProvisionIdentity(store, dids, minted, k, extKeys, processes[i], minted[k]);
      if !saved {
        StopsWithoutFit(dids, k);
        return Failure(Taken(processes[i]));
      }
      extKeys := more;
    }
    assert dids[..|dids|] == dids && minted[..|dids|] == minted;
    KeysForEach(dids, minted);
    if nodeDID !in extKeys {
      return Failure(NodeNotProvisioned(nodeDID));
    }
    return Success(extKeys);
  }

  /** A DID one colon longer nests under the one it extends. */
  lemma ExtensionNests(did: string, rest: string)
    ensures Directory(did + ":" + rest) == Directory(did) + Directory(rest)
    ensures Nests(did + ":" + rest, did)
  {
    SplitConcat(did, rest, ":");
  }

  /** The order is load-bearing: wherever a process comes before its own pipeline,
      provisioning fails. */
  lemma ProcessBeforePipelineFails(dids: seq<string>, i: nat, j: nat, rest: string)
    requires i < j < |dids| && dids[i] == dids[j] + ":" + rest
    ensures !Fits(dids)
  {
    ExtensionNests(dids[j], rest);
    assert Nests(dids[i], dids[j]);
  }

  /** Pipelines that do not nest, then processes that do not nest and are deeper than
      every pipeline: the two loops always succeed. */
  lemma TwoLoopsFit(pipelines: seq<string>, processes: seq<string>)
    requires Fits(pipelines) && Fits(processes)
    requires forall p, q | p in pipelines && q in processes :: |Directory(p)| < |Directory(q)|
    ensures Fits(pipelines + processes)
  {
    var dids := pipelines + processes;
    forall i, j | 0 <= i < j < |dids| ensures !Nests(dids[i], dids[j]) {
      if j < |pipelines| {
        assert !Nests(pipelines[i], pipelines[j]);
      } else if i < |pipelines| {
        assert pipelines[i] in pipelines && processes[j - |pipelines|] in processes;
      } else {
        assert !Nests(processes[i - |pipelines|], processes[j - |pipelines|]);
      }
    }
  }
}
