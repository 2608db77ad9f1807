/** The preflight over the scenario directories: every scenario ships a compose twin,
    and only an open finding excuses a missing one. */
module ComposeParity {
  import opened Register
  import opened RegisterPrinting

  /** One entry of the scenarios directory; `hasTwin` says its compose file exists. */
  datatype DirEntry = DirEntry(name: string, isDir: bool, hasTwin: bool)

  datatype Complaint = MissingTwin(name: string) | StaleDeferral(name: string, id: string)

  function Complaints(entries: seq<DirEntry>, deferred: map<string, string>): seq<Complaint> {
    if entries == [] then []
    else
      var e := entries[|entries| - 1];
      var before := Complaints(entries[..|entries| - 1], deferred);
      if e.isDir && !e.hasTwin && e.name !in deferred then before + [MissingTwin(e.name)]
      else if e.isDir && e.hasTwin && e.name in deferred then before + [StaleDeferral(e.name, deferred[e.name])]
      else before
  }

  ghost function Scenarios(entries: seq<DirEntry>): set<string> {
    set e | e in entries && e.isDir :: e.name
  }

  ghost function Twinless(entries: seq<DirEntry>): set<string> {
    set e | e in entries && e.isDir && !e.hasTwin :: e.name
  }

  lemma ComplaintsGrow(entries: seq<DirEntry>, i: nat, deferred: map<string, string>)
    requires i < |entries|
    ensures var e, before := entries[i], Complaints(entries[..i], deferred);
      Complaints(entries[..i + 1], deferred)
      == if e.isDir && !e.hasTwin && e.name !in deferred then before + [MissingTwin(e.name)]
         else if e.isDir && e.hasTwin && e.name in deferred then before + [StaleDeferral(e.name, deferred[e.name])]
         else before
    ensures entries[..i + 1] == entries[..i] + [entries[i]]
  {
    assert entries[..i + 1][..i] == entries[..i];
  }

  /** The guard fails without scenarios, and otherwise reports each scenario that breaks the rule. */
  method CheckParity(entries: seq<DirEntry>, md: string) returns (complaints: seq<Complaint>, vacuous: bool)
    ensures complaints == Complaints(entries, Deferrals(md))
    ensures vacuous <==> Scenarios(entries) == {}
  {
    var deferred := OpenComposeDeferrals(md);
    var scenarios := 0;
    complaints := [];
    for i := 0 to |entries|
      invariant complaints == Complaints(entries[..i], deferred)
      invariant scenarios == 0 <==> forall e | e in entries[..i] :: !e.isDir
    {
      ComplaintsGrow(entries, i, deferred);
      var e := entries[i];
      if !e.isDir {
        continue;
      }
      scenarios := scenarios + 1;
      if !e.hasTwin && e.name !in deferred {
        complaints := complaints + [MissingTwin(e.name)];
      } else if e.hasTwin && e.name in deferred {
        complaints := complaints + [StaleDeferral(e.name, deferred[e.name])];
      }
    }
    assert entries[..|entries|] == entries;
    vacuous := scenarios == 0;
    if vacuous {
      assert Scenarios(entries) == {};
    } else {
      var e :| e in entries && e.isDir;
      assert e.name in Scenarios(entries);
    }
  }

  /** Which complaints there are: a missing twin for each scenario without twin or licence,
      a stale deferral, under the licence's id, for each with both. */
  lemma {:induction false} ComplaintsExactly(entries: seq<DirEntry>, deferred: map<string, string>, name: string, id: string)
    ensures MissingTwin(name) in Complaints(entries, deferred)
       <==> DirEntry(name, true, false) in entries && name !in deferred
    ensures StaleDeferral(name, id) in Complaints(entries, deferred)
       <==> DirEntry(name, true, true) in entries && name in deferred && deferred[name] == id
  {
    if entries != [] {
      var n := |entries| - 1;
      ComplaintsExactly(entries[..n], deferred, name, id);
      assert entries == entries[..n] + [entries[n]];
      assert entries[n] == DirEntry(entries[n].name, entries[n].isDir, entries[n].hasTwin);
    }
  }

  /** Each scenario breaks the rule in at most one way, and is reported when it does. */
  lemma {:induction false} NoComplaints(entries: seq<DirEntry>, deferred: map<string, string>)
    ensures Complaints(entries, deferred) == []
       <==> forall e | e in entries && e.isDir :: e.hasTwin <==> e.name !in deferred
  {
    if entries != [] {
      var n := |entries| - 1;
      NoComplaints(entries[..n], deferred);
      assert entries == entries[..n] + [entries[n]];
    }
  }

  /** The guard passes exactly when the twinless scenarios are the licensed ones. A
      licence for a name that is no scenario is not noticed. */
  lemma ParityExactly(entries: seq<DirEntry>, deferred: map<string, string>)
    requires forall i, j | 0 <= i < j < |entries| :: entries[i].name != entries[j].name
    ensures Complaints(entries, deferred) == [] <==> Twinless(entries) == Scenarios(entries) * deferred.Keys
  {
    NoComplaints(entries, deferred);
    forall e | e in entries && e.isDir ensures e.name in Scenarios(entries) && (e.name in Twinless(entries) <==> !e.hasTwin) {
      TwinlessByName(entries, e);
    }
    if Complaints(entries, deferred) == [] {
      assert Twinless(entries) == Scenarios(entries) * deferred.Keys;
    }
  }

  lemma TwinlessByName(entries: seq<DirEntry>, e: DirEntry)
    requires forall i, j | 0 <= i < j < |entries| :: entries[i].name != entries[j].name
    requires e in entries && e.isDir
    ensures e.name in Twinless(entries) <==> !e.hasTwin
  {
    if e.name in Twinless(entries) {
      var e' :| e' in entries && e'.isDir && !e'.hasTwin && e'.name == e.name;
      var i :| 0 <= i < |entries| && entries[i] == e;
      var j :| 0 <= j < |entries| && entries[j] == e';
      assert i == j;
    }
  }

  /** End to end: over a printed register, no scenario is reported exactly when the ones
      without a twin are those an open finding names. */
  lemma ParityOfRegister(preamble: seq<string>, findings: seq<Finding>, entries: seq<DirEntry>)
    requires OneLiners(preamble) && NoHeadings(preamble)
    requires forall f | f in findings :: WellWritten(f)
    ensures Complaints(entries, Deferrals(PrintRegister(preamble, findings))) == []
       <==> forall e | e in entries && e.isDir ::
              e.hasTwin <==> !exists f | f in findings :: Names(f, e.name)
  {
    RegisterReadsBack(preamble, findings);
    NoComplaints(entries, Licences(findings));
    forall name ensures name in Licences(findings) <==> exists f | f in findings :: Names(f, name) {
      LicensedNames(findings, name);
    }
  }

  lemma StillLicensed(findings: seq<Finding>, name: string)
    requires findings != []
    ensures var n := |findings| - 1;
      name in Licences(findings) <==> name in Licences(findings[..n]) || Names(findings[n], name)
  {
    var n := |findings| - 1;
    GrantMeans(Licences(findings[..n]), findings[n].scenarios, findings[n].id);
  }

  lemma {:induction false} LicensedNames(findings: seq<Finding>, name: string)
    ensures name in Licences(findings) <==> exists f | f in findings :: Names(f, name)
  {
    if findings != [] {
      var n := |findings| - 1;
      LicensedNames(findings[..n], name);
      StillLicensed(findings, name);
      assert forall f :: f in findings <==> f in findings[..n] || f == findings[n];
      if f :| f in findings[..n] && Names(f, name) {
        assert f in findings;
      }
    }
  }
}
