/** Where the locations that maintenance expects come from: every one of them was in the table when
    some pass scanned it, and a rewrite succeeds only if it stayed there ever since. */
module Origins {
  import opened DiskLocations
  import opened Protocol
  import opened Invariant
  import C = Concurrency
  import L = Lost
  import P = Preservation
  import U = Runs
  import E = Effects

  predicate PassHas(s: State, t: ThreadId, o: ObjectId, l: Loc) {
    t in s.passes && o in s.passes[t].scanned && s.passes[t].scanned[o] == l
  }

  predicate WriteHas(s: State, g: Lsn, o: ObjectId, l: Loc) {
    g in s.writes && o in s.writes[g].scanned && s.writes[g].scanned[o] == l
  }

  /** Action `a` in state `s` scans object `o` at `l`, where the table has it. */
  predicate Sights(s: State, a: Action, o: ObjectId, l: Loc) {
    a.Scan? && a.key == l.file && a.id == o && o in s.table && s.table[o] == l
  }

  /** Before step `n`, and since the store was last opened, some pass scanned object `o` at `l`. */
  ghost predicate WasScanned(states: seq<State>, actions: seq<Action>, n: nat, o: ObjectId, l: Loc)
    requires n < |states| && |states| == |actions| + 1
  {
    exists i :: 0 <= i < n && U.OneOpening(actions, i, n) && Sights(states[i], actions[i], o, l)
  }

  // ---------------------------------------------------------------- one step

  lemma ScanSource(s: State, t: ThreadId, k: Lsn, o: ObjectId, u: ThreadId, x: ObjectId, l: Loc)
    requires Inv(s) && Enabled(s, Scan(t, k, o)) && PassHas(Apply(s, Scan(t, k, o)), u, x, l)
    ensures PassHas(s, u, x, l) || Sights(s, Scan(t, k, o), x, l)
  {
    hide Inv, Enabled, Apply, Raw;
    ScanIs(s, t, k, o);
    E.Safe(s, Scan(t, k, o));
    E.ScanEffect(s, t, k, o);
    E.WordShowsFile(s, k, o);
  }

  lemma ScanIs(s: State, t: ThreadId, k: Lsn, o: ObjectId)
    requires Enabled(s, Scan(t, k, o))
    ensures t in s.passes && k in s.files && o in s.files[k].locs
  {
  }

  lemma StartSource(s: State, a: Action)
    requires Enabled(s, a) && (a.StartWrite? || a.StartGc?)
    ensures Apply(s, a).passes == s.passes && (a.StartGc? ==> a.thread in s.passes)
    ensures forall g, o, l :: WriteHas(Apply(s, a), g, o, l) ==>
      WriteHas(s, g, o, l) || (a.StartGc? && PassHas(s, a.thread, o, l))
  {
    hide File.WellFormed, File.Key;
  }

  lemma PassSource(s: State, a: Action, t: ThreadId, o: ObjectId, l: Loc)
    requires Inv(s) && Enabled(s, a) && C.StillKnown(s, a) && OfPass(a) && PassHas(Apply(s, a), t, o, l)
    ensures PassHas(s, t, o, l) || Sights(s, a, o, l)
  {
    if a.ScanLost? {
      hide Inv, Enabled, Apply;
      P.ScanLostIdle(s, a.thread, a.key, a.id);
    } else if a.Scan? {
      hide Inv, Enabled, Apply;
      ScanSource(s, a.thread, a.key, a.id, t, o, l);
    } else {
      hide Inv;
    }
  }

  /** What threads remember after a step they remembered before, unless the step is a scan, or the
      start of a rewrite, which takes over what its pass remembers. */
  lemma StepSources(s: State, a: Action, o: ObjectId, l: Loc)
    requires Inv(s) && Enabled(s, a) && C.StillKnown(s, a)
    ensures forall t :: PassHas(Apply(s, a), t, o, l) ==> !C.Reopens(a) && (PassHas(s, t, o, l) || Sights(s, a, o, l))
    ensures forall g :: WriteHas(Apply(s, a), g, o, l) ==>
      !C.Reopens(a) && (WriteHas(s, g, o, l) || (a.StartGc? && PassHas(s, a.thread, o, l)))
  {
    hide Inv, Enabled, Apply;
    if OfPass(a) {
      C.PassFrame(s, a);
      forall t | PassHas(Apply(s, a), t, o, l) ensures PassHas(s, t, o, l) || Sights(s, a, o, l) {
        PassSource(s, a, t, o, l);
      }
    } else if OfWrite(a) {
      WriteKeepsScanned(s, a);
    } else if a.Install? {
      E.InstallEffect(s, a.key, a.id);
      InstallInWrites(s, a.key, a.id);
    } else if a.StartWrite? || a.StartGc? {
      StartSource(s, a);
    } else if a.Delete? {
      C.DeleteFrame(s, a.key);
    } else {
      ReopenForgets(s, a);
    }
  }

  lemma WriteKeepsScanned(s: State, a: Action)
    requires Enabled(s, a) && OfWrite(a)
    ensures Apply(s, a).passes == s.passes
    ensures forall g :: g in Apply(s, a).writes ==>
      g in s.writes && Apply(s, a).writes[g].scanned == s.writes[g].scanned
  {
    hide Enabled, ApplyPass, ApplyWrite;
  }

  lemma InstallInWrites(s: State, k: Lsn, o: ObjectId)
    requires Enabled(s, Install(k, o))
    ensures k in s.writes
  {
  }

  lemma ReopenForgets(s: State, a: Action)
    requires Enabled(s, a) && C.Reopens(a)
    ensures Apply(s, a).passes == map[] && Apply(s, a).writes == map[]
  {
    hide RecoveredTable, Attributed, MonotonicOrder, NextLsn, Surviving;
  }

  // ---------------------------------------------------------------- whole runs

  lemma StillScanned(states: seq<State>, actions: seq<Action>, n: nat, o: ObjectId, l: Loc)
    requires n < |actions| && |states| == |actions| + 1 && !C.Reopens(actions[n])
    requires WasScanned(states, actions, n, o, l) || Sights(states[n], actions[n], o, l)
    ensures WasScanned(states, actions, n + 1, o, l)
  {
    if WasScanned(states, actions, n, o, l) {
      var i :| 0 <= i < n && U.OneOpening(actions, i, n) && Sights(states[i], actions[i], o, l);
      assert U.OneOpening(actions, i, n + 1);
    } else {
      assert U.OneOpening(actions, n, n + 1);
    }
  }

  /** Every location that a pass or a rewrite remembers was scanned, in this opening, while the table
      had it. */
  lemma {:induction false} RememberedWasScanned(states: seq<State>, actions: seq<Action>, n: nat, o: ObjectId, l: Loc)
    requires IsRun(states, actions) && n < |states|
    ensures forall t :: PassHas(states[n], t, o, l) ==> WasScanned(states, actions, n, o, l)
    ensures forall g :: WriteHas(states[n], g, o, l) ==> WasScanned(states, actions, n, o, l)
  {
    hide Enabled, Apply, Inv, WasScanned, L.LostOk;
    if n > 0 {
      var s, a := states[n - 1], actions[n - 1];
      RememberedWasScanned(states, actions, n - 1, o, l);
      U.RunInv(states, actions, n - 1);
      L.LostIsKnown(s, a);
      StepSources(s, a, o, l);
      if !C.Reopens(a) && (WasScanned(states, actions, n - 1, o, l) || Sights(s, a, o, l)) {
        StillScanned(states, actions, n - 1, o, l);
      }
    }
  }

  /** The object stayed at `l` from its scan at step `i` on, through step `j`. */
  ghost predicate UntouchedSince(states: seq<State>, actions: seq<Action>, i: nat, j: nat, o: ObjectId, l: Loc)
    requires |states| == |actions| + 1
  {
    && i < j < |states| && U.OneOpening(actions, i, j) && Sights(states[i], actions[i], o, l)
    && forall m :: i <= m <= j ==> o in states[m].table && states[m].table[o] == l
  }

  /** A `cas` by maintenance that succeeds met a cell nobody had touched since maintenance scanned
      it: some step of this opening scanned the object at the expected location, and it was there all
      the time in between. */
  lemma CasMeansUntouched(states: seq<State>, actions: seq<Action>, j: nat, g: Lsn, o: ObjectId)
    requires IsRun(states, actions) && j < |actions| && actions[j] == Install(g, o)
    requires g in states[j].files && states[j].files[g].IsGc() && states[j + 1].table != states[j].table
    ensures g in states[j].writes && o in states[j].writes[g].scanned
    ensures exists i :: UntouchedSince(states, actions, i, j, o, states[j].writes[g].scanned[o])
  {
    hide Enabled, Apply, Inv, L.LostOk;
    U.RunInv(states, actions, j);
    E.InstallEffect(states[j], g, o);
    InstallInWrites(states[j], g, o);
    E.ScannedIfGc(states[j], g, o);
    var l := states[j].writes[g].scanned[o];
    RememberedWasScanned(states, actions, j, o, l);
    assert WriteHas(states[j], g, o, l);
    var i :| 0 <= i < j && U.OneOpening(actions, i, j) && Sights(states[i], actions[i], o, l);
    forall m | i <= m <= j ensures o in states[m].table && states[m].table[o] == l {
      if !(o in states[m].table && states[m].table[o] == l) {
        U.NeverReturns(states, actions, i, m, j, o, l);
        assert false;
      }
    }
    assert UntouchedSince(states, actions, i, j, o, l);
  }
}
