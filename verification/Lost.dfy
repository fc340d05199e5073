/** Records that a rewrite wrote but lost to a writer. They stay in the file without a trailer entry,
    and later passes, also after the store has been opened again, scan them and expect their objects
    to be in the table. They are: some finished file with a claim to the object is always on disk. */
module Lost {
  import opened Protocol
  import opened Invariant
  import P = Preservation
  import R = Reopening
  import C = Concurrency
  import E = Effects

  /** File `k` has not come to its rename yet. */
  predicate Busy(writes: map<Lsn, Write>, k: Lsn) { k in writes && writes[k].phase == Installing }

  /** The unfinished write `j` put its own entry of `o` in place of that of file `k`. */
  predicate Link(writes: map<Lsn, Write>, o: ObjectId, j: Lsn, k: Lsn) {
    Busy(writes, j) && o in writes[j].replaced && writes[j].replaced[o].file == k
  }

  /** From file `k` back through unfinished writes to a finished file. */
  ghost predicate Chain(writes: map<Lsn, Write>, o: ObjectId, k: Lsn, path: seq<Lsn>) {
    && path != [] && path[0] == k && !Busy(writes, path[|path| - 1])
    && forall i :: 0 <= i < |path| - 1 ==> Link(writes, o, path[i], path[i + 1])
  }

  /** Object `o` is known, and going back from the table over unfinished writes leads to a finished
      file that had it. */
  ghost predicate Rooted(table: map<ObjectId, Loc>, writes: map<Lsn, Write>, o: ObjectId) {
    o in table && exists path :: Chain(writes, o, table[o].file, path)
  }

  predicate LostIn(files: map<Lsn, File>, k: Lsn, o: ObjectId) { k in files && o in files[k].lost }

  predicate PassScanned(passes: map<ThreadId, Maintenance>, t: ThreadId,
                        o: ObjectId) { t in passes && o in passes[t].scanned }

  predicate WriteScanned(writes: map<Lsn, Write>, g: Lsn, o: ObjectId) { g in writes && o in writes[g].scanned }

  /** Some file has lost a record of `o`, or somebody has scanned `o` and may yet lose it. */
  ghost predicate Recalled(s: State, o: ObjectId) {
    || (exists k :: LostIn(s.files, k, o)) || (exists k :: LostIn(s.disk, k, o))
    || (exists t :: PassScanned(s.passes, t, o)) || (exists g :: WriteScanned(s.writes, g, o))
  }

  ghost predicate LostOk(s: State) {
    forall o :: Recalled(s, o) ==> Rooted(s.table, s.writes, o)
  }

  lemma InitialLost()
    ensures LostOk(Initial())
  {
  }

  /** The lookup that the source expects to succeed does. */
  lemma LostIsKnown(s: State, a: Action)
    requires LostOk(s) && Enabled(s, a)
    ensures C.StillKnown(s, a)
  {
    if a.ScanLost? { assert LostIn(s.files, a.key, a.id) && Recalled(s, a.id); }
  }

  // ---------------------------------------------------------------- chains

  /** A chain survives when its links do, or the files they start from are finished. */
  lemma {:induction false} ChainStays(writes: map<Lsn, Write>, writes': map<Lsn, Write>, o: ObjectId, k: Lsn,
                                      path: seq<Lsn>)
    requires Chain(writes, o, k, path)
    requires forall i :: 0 <= i < |path| && !Busy(writes, path[i]) ==> !Busy(writes', path[i])
    requires forall i, j :: Link(writes, o, i, j) ==> Link(writes', o, i, j) || !Busy(writes', i)
    ensures exists path' :: Chain(writes', o, k, path')
    decreases |path|
  {
    hide Link, Busy;
    if !Busy(writes', k) {
      assert Chain(writes', o, k, [k]);
    } else {
      assert |path| > 1;
      var rest := path[1..];
      assert Chain(writes, o, path[1], rest);
      ChainStays(writes, writes', o, path[1], rest);
      var path' :| Chain(writes', o, path[1], path');
      LongerChain(writes', o, k, path[1], path');
    }
  }

  lemma LongerChain(writes: map<Lsn, Write>, o: ObjectId, k: Lsn, j: Lsn, path: seq<Lsn>)
    requires Link(writes, o, k, j) && Chain(writes, o, j, path)
    ensures Chain(writes, o, k, [k] + path)
  {
    hide Link, Busy;
    var longer := [k] + path;
    forall i | 0 <= i < |longer| - 1 ensures Link(writes, o, longer[i], longer[i + 1]) {
      if i > 0 { assert longer[i] == path[i - 1] && longer[i + 1] == path[i]; }
    }
  }

  lemma FinishedRoots(table: map<ObjectId, Loc>, writes: map<Lsn, Write>, o: ObjectId)
    requires o in table && !Busy(writes, table[o].file)
    ensures Rooted(table, writes, o)
  {
    assert Chain(writes, o, table[o].file, [table[o].file]);
  }

  /** All files of a chain are in the map, and hold a token for the object. */
  lemma {:induction false} ChainHolds(s: State, o: ObjectId, k: Lsn, path: seq<Lsn>)
    requires Chain(s.writes, o, k, path) && ReplacedOk(s.writes, s.table, s.files, s.present)
    requires k in s.present && k in s.files && o in s.files[k].locs && (InTable(s.table, k, o) || Owed(s.writes, k, o))
    ensures forall i :: 0 <= i < |path| ==> path[i] in s.present && path[i] in s.files && o in s.files[path[i]].locs
    ensures var last := path[|path| - 1]; InTable(s.table, last, o) || Owed(s.writes, last, o)
    decreases |path|
  {
    if |path| > 1 {
      var j := path[1];
      assert Link(s.writes, o, path[0], path[1]);
      assert LeftBehind(s.writes[k].replaced[o], k, o, s.table, s.files, s.present);
      assert Owes(s.writes[k], j, o);
      hide ReplacedOk, Link, Busy, Owed, InTable, LeftBehind;
      assert Chain(s.writes, o, j, path[1..]);
      ChainHolds(s, o, j, path[1..]);
      assert forall i :: 1 <= i < |path| ==> path[i] == path[1..][i - 1];
    }
  }

  lemma TableChain(s: State, o: ObjectId, path: seq<Lsn>)
    requires Inv(s) && o in s.table && Chain(s.writes, o, s.table[o].file, path)
    ensures forall i :: 0 <= i < |path| ==> path[i] in s.present && path[i] in s.files && o in s.files[path[i]].locs
    ensures var last := path[|path| - 1]; InTable(s.table, last, o) || Owed(s.writes, last, o)
  {
    hide FilesOk, LiveOk, WritesOk, ReplacedOk, UnsettledOk, CopiesOk, KnownOk, StageOk, ClaimsOk, PassesOk, DebugOk;
    hide DiskOk, Chain, Owed;
    assert Wrote(s.files, s.table[o], o);
    ChainHolds(s, o, s.table[o].file, path);
  }

  /** So some trailer on disk mentions the object. */
  lemma RootedOnDisk(s: State, o: ObjectId)
    requires Inv(s) && Rooted(s.table, s.writes, o)
    ensures o in Objects(s.disk)
  {
    var path :| Chain(s.writes, o, s.table[o].file, path);
    var last := path[|path| - 1];
    hide FilesOk, TableOk, LiveOk, WritesOk, ReplacedOk, UnsettledOk, CopiesOk, KnownOk, StageOk, ClaimsOk, PassesOk;
    hide DebugOk, InTable, Owed;
    TableChain(s, o, path);
    hide Chain;
    assert last in s.disk && o in s.disk[last].locs;
  }

  // ---------------------------------------------------------------- steps

  /** Nothing new is recalled, and chains have not been cut. */
  ghost predicate Carries(s: State, s': State) {
    && s'.table == s.table
    && (forall k :: k in s.files && Busy(s'.writes, k) ==> Busy(s.writes, k))
    && (forall o, j, k :: Link(s.writes, o, j, k) ==> Link(s'.writes, o, j, k) || !Busy(s'.writes, j))
  }

  lemma CarriesRooted(s: State, s': State, o: ObjectId)
    requires Carries(s, s') && Rooted(s.table, s.writes, o) && Inv(s)
    ensures Rooted(s'.table, s'.writes, o)
  {
    hide Busy, Link, Inv;
    var path :| Chain(s.writes, o, s.table[o].file, path);
    TableChain(s, o, path);
    ChainStays(s.writes, s'.writes, o, s.table[o].file, path);
  }

  lemma CarriesLost(s: State, s': State)
    requires LostOk(s) && Carries(s, s')
    requires (forall o :: Recalled(s', o) ==> Recalled(s, o) || Rooted(s.table, s.writes, o)) && Inv(s)
    ensures LostOk(s')
  {
    hide Carries, Rooted, Recalled, Inv;
    forall o | Recalled(s', o) ensures Rooted(s'.table, s'.writes, o) {
      CarriesRooted(s, s', o);
    }
  }

  lemma SameWritesCarries(s: State, s': State)
    requires s'.table == s.table && s'.writes == s.writes
    ensures Carries(s, s')
  {
    hide Busy, Link;
  }

  lemma ScanLeavesRooted(s: State, t: ThreadId, k: Lsn, o: ObjectId)
    requires Inv(s) && Enabled(s, Scan(t, k, o)) && o in s.table && s.table[o].file == k
    ensures Rooted(s.table, s.writes, o)
  {
    hide Inv;
    C.TableIsOk(s);
    assert Wrote(s.files, s.table[o], o) && k in s.present;
    E.DescribedFinished(s, k);
    hide Rooted;
    FinishedRoots(s.table, s.writes, o);
  }

  lemma ScanRecalls(s: State, t: ThreadId, k: Lsn, o: ObjectId, u: ThreadId, x: ObjectId)
    requires Inv(s) && Enabled(s, Scan(t, k, o)) && PassScanned(Apply(s, Scan(t, k, o)).passes, u, x)
    ensures PassScanned(s.passes, u, x) || Rooted(s.table, s.writes, x)
  {
    hide Inv, Apply, Rooted, Raw;
    E.Safe(s, Scan(t, k, o));
    E.ScanEffect(s, t, k, o);
    E.WordShowsFile(s, k, o);
    if s.table[o].file == k { ScanLeavesRooted(s, t, k, o); }
  }

  lemma PassRecalls(s: State, a: Action, u: ThreadId, x: ObjectId)
    requires Inv(s) && Enabled(s, a) && OfPass(a) && !a.ScanLost? && PassScanned(Apply(s, a).passes, u, x)
    ensures PassScanned(s.passes, u, x) || Rooted(s.table, s.writes, x)
  {
    if a.Scan? {
      hide Inv, Enabled, Apply, Rooted;
      ScanRecalls(s, a.thread, a.key, a.id, u, x);
    } else {
      hide Inv, Rooted;
      PassForgets(s, a, u, x);
    }
  }

  /** Nothing but a scan makes a pass remember more. */
  lemma PassForgets(s: State, a: Action, u: ThreadId, x: ObjectId)
    requires Enabled(s, a) && OfPass(a) && !a.Scan? && !a.ScanLost? && PassScanned(Apply(s, a).passes, u, x)
    ensures PassScanned(s.passes, u, x)
  {
    hide NextLsn, Surviving, Recovered, ApplyWrite, DoStart, DoInstall, DoScan, DoScanLost, File.WellFormed, Trailer;
    assert Apply(s, a) == ApplyPass(s, a);
    hide Apply;
    if a.Claim? {
      assert Apply(s, a).passes == DoClaim(s, a.thread).passes;
    }
  }

  lemma PassKeepsLost(s: State, a: Action)
    requires LostOk(s) && Enabled(s, a) && OfPass(a) && Inv(s)
    ensures LostOk(Apply(s, a))
  {
    hide Inv, Enabled, Apply, Rooted;
    if a.ScanLost? {
      LostIsKnown(s, a);
      P.ScanLostIdle(s, a.thread, a.key, a.id);
    } else {
      var s' := Apply(s, a);
      C.PassFrame(s, a);
      SameWritesCarries(s, s');
      forall o | Recalled(s', o) ensures Recalled(s, o) || Rooted(s.table, s.writes, o) {
        if t :| PassScanned(s'.passes, t, o) { PassRecalls(s, a, t, o); }
      }
      CarriesLost(s, s');
    }
  }

  lemma WriteCarries(s: State, a: Action)
    requires Enabled(s, a) && OfWrite(a)
    ensures Carries(s, Apply(s, a)) && Apply(s, a).passes == s.passes && Apply(s, a).files == s.files
    ensures forall g, o :: WriteScanned(Apply(s, a).writes, g, o) ==> WriteScanned(s.writes, g, o)
  {
    hide Enabled, ApplyPass, ApplyWrite;
  }

  lemma RenameRecalls(s: State, k: Lsn, j: Lsn, o: ObjectId)
    requires Inv(s) && Enabled(s, Rename(k)) && LostIn(Apply(s, Rename(k)).disk, j, o)
    ensures Recalled(s, o)
  {
    hide FilesOk, TableOk, LiveOk, ReplacedOk, UnsettledOk, CopiesOk, KnownOk, StageOk, ClaimsOk, PassesOk, DebugOk;
    hide DiskOk;
    P.WriteIsOk(s, k);
    hide Inv;
    if LostIn(s.disk, j, o) {
    } else if LostIn(s.files, k, o) {
    } else {
      assert WriteScanned(s.writes, k, o);
    }
  }

  lemma WriteKeepsLost(s: State, a: Action)
    requires LostOk(s) && Enabled(s, a) && OfWrite(a) && Inv(s)
    ensures LostOk(Apply(s, a))
  {
    hide Inv, Enabled, Apply, Carries;
    var s' := Apply(s, a);
    WriteCarries(s, a);
    C.WriteFrame(s, a);
    forall o | Recalled(s', o) ensures Recalled(s, o) {
      if k :| LostIn(s'.disk, k, o) {
        if a.Rename? { RenameRecalls(s, a.key, k, o); }
      }
    }
    CarriesLost(s, s');
  }

  // ---------------------------------------------------------------- installing

  lemma InstallLinks(s: State, k: Lsn, o: ObjectId)
    requires Inv(s) && Enabled(s, Install(k, o))
    ensures var s' := Apply(s, Install(k, o));
      && s'.files == s.files && s'.disk == s.disk && s'.passes == s.passes
      && (forall j :: Busy(s'.writes, j) <==> Busy(s.writes, j))
      && (forall x, i, j :: Link(s.writes, x, i, j) ==> Link(s'.writes, x, i, j))
      && (forall g, x :: WriteScanned(s'.writes, g, x) ==> WriteScanned(s.writes, g, x))
      && (forall x :: x in s.table && x != o ==> x in s'.table && s'.table[x] == s.table[x])
      && (o in s.table ==>
            && o in s'.table
            && (s'.table[o] == s.table[o] || Link(s'.writes, o, s'.table[o].file, s.table[o].file)))
  {
    hide Inv, Enabled, Apply, Raw, Busy, Link, E.Loses;
    InstallTurn(s, k, o);
    NotYetReplaced(s, k, o);
    E.InstallEffect(s, k, o);
    WriteLinks(s.writes, Apply(s, Install(k, o)).writes, k, o);
  }

  lemma InstallTurn(s: State, k: Lsn, o: ObjectId)
    requires Enabled(s, Install(k, o))
    ensures k in s.writes && o in s.writes[k].todo && s.writes[k].phase == Installing
  {
  }

  lemma WriteLinks(writes: map<Lsn, Write>, writes': map<Lsn, Write>, k: Lsn, o: ObjectId)
    requires k in writes && writes[k].phase == Installing && o !in writes[k].replaced && k in writes'
    requires writes' == writes[k := writes'[k]]
    requires writes'[k].phase == Installing && writes'[k].scanned == writes[k].scanned
    requires forall x :: x in writes[k].replaced ==>
      x in writes'[k].replaced && writes'[k].replaced[x] == writes[k].replaced[x]
    ensures forall j :: Busy(writes', j) <==> Busy(writes, j)
    ensures forall x, i, j :: Link(writes, x, i, j) ==> Link(writes', x, i, j)
    ensures forall g, x :: WriteScanned(writes', g, x) ==> WriteScanned(writes, g, x)
    ensures o in writes'[k].replaced ==> Link(writes', o, k, writes'[k].replaced[o].file)
  {
  }

  lemma NotYetReplaced(s: State, k: Lsn, o: ObjectId)
    requires Inv(s) && k in s.writes && o in s.writes[k].todo
    ensures o !in s.writes[k].replaced
  {
    hide FilesOk, TableOk, LiveOk, WritesOk, UnsettledOk, CopiesOk, KnownOk, StageOk, ClaimsOk, PassesOk, DebugOk;
    hide DiskOk, LeftBehind;
    assert Unsettled(s.writes, k, o);
  }

  lemma InstallRooted(s: State, k: Lsn, o: ObjectId, x: ObjectId)
    requires Inv(s) && Enabled(s, Install(k, o)) && Rooted(s.table, s.writes, x)
    ensures Rooted(Apply(s, Install(k, o)).table, Apply(s, Install(k, o)).writes, x)
  {
    hide Inv, Enabled, Apply, Busy, Link;
    InstallLinks(s, k, o);
    var s' := Apply(s, Install(k, o));
    var path :| Chain(s.writes, x, s.table[x].file, path);
    ChainStays(s.writes, s'.writes, x, s.table[x].file, path);
    var path' :| Chain(s'.writes, x, s.table[x].file, path');
    if s'.table[x] != s.table[x] {
      LongerChain(s'.writes, x, s'.table[x].file, s.table[x].file, path');
    }
  }

  lemma InstallKeepsLost(s: State, k: Lsn, o: ObjectId)
    requires LostOk(s) && Enabled(s, Install(k, o)) && Inv(s)
    ensures LostOk(Apply(s, Install(k, o)))
  {
    hide Inv, Enabled, Apply, Rooted, Busy, Link;
    InstallLinks(s, k, o);
    var s' := Apply(s, Install(k, o));
    forall x | Recalled(s', x) ensures Rooted(s'.table, s'.writes, x) {
      assert Recalled(s, x);
      InstallRooted(s, k, o, x);
    }
  }

  // ---------------------------------------------------------------- starting

  lemma StartCarries(s: State, a: Action)
    requires Inv(s) && Enabled(s, a) && (a.StartWrite? || a.StartGc?)
    ensures Carries(s, Apply(s, a)) && forall o :: Recalled(Apply(s, a), o) ==> Recalled(s, o)
  {
    hide Inv, File.Key, File.WellFormed;
    E.StartEffect(s, a, a.file);
    E.NextIsFree(s, a.file);
    E.NoWriteYet(s, a.file.Key());
    var s' := Apply(s, a);
    var scanned := if a.StartWrite? then map[] else s.passes[a.thread].scanned;
    assert s' == DoStart(s, a.file, scanned);
    assert a.file.lost == map[];
    assert a.StartGc? ==> a.thread in s.passes;
    hide Enabled, Apply;
    forall o | Recalled(s', o) ensures Recalled(s, o) {
      if g :| WriteScanned(s'.writes, g, o) && !WriteScanned(s.writes, g, o) {
        assert PassScanned(s.passes, a.thread, o);
      } else if k :| LostIn(s'.files, k, o) {
        assert LostIn(s.files, k, o);
      }
    }
  }

  // ---------------------------------------------------------------- opening

  lemma OpenedLost(s: State, disk: map<Lsn, File>)
    requires forall k, o :: LostIn(disk, k, o) ==> o in Objects(disk)
    ensures LostOk(Recovered(s, disk))
  {
    hide RecoveredTable, Attributed, MonotonicOrder, NextLsn, IsPredecessor;
    var s' := Recovered(s, disk);
    forall o | Recalled(s', o) ensures Rooted(s'.table, s'.writes, o) {
      var k :| LostIn(disk, k, o);
      R.RecoveredEntry(disk, o);
      FinishedRoots(s'.table, s'.writes, o);
    }
  }

  lemma CrashKeepsLost(s: State)
    requires LostOk(s) && Inv(s)
    ensures LostOk(Recovered(s, s.disk))
  {
    hide Inv, Rooted, Recovered;
    forall k, o | LostIn(s.disk, k, o) ensures o in Objects(s.disk) {
      assert Recalled(s, o);
      RootedOnDisk(s, o);
    }
    OpenedLost(s, s.disk);
  }

  lemma RestartKeepsLost(s: State)
    requires LostOk(s) && s.writes == map[] && Inv(s)
    ensures LostOk(Recovered(s, Surviving(s)))
  {
    hide Inv, Rooted, Recovered;
    var disk := Surviving(s);
    forall k, o | LostIn(disk, k, o) ensures o in Objects(disk) {
      assert LostIn(s.disk, k, o);
      assert Recalled(s, o);
      RootedSurvives(s, o);
    }
    hide Surviving;
    OpenedLost(s, disk);
  }

  /** Where nothing is in progress, the file that the table names for an object is not empty, so it
      outlives the store. */
  lemma RootedSurvives(s: State, o: ObjectId)
    requires Rooted(s.table, s.writes, o) && s.writes == map[] && Inv(s)
    ensures o in Objects(Surviving(s))
  {
    var k := s.table[o].file;
    hide FilesOk, TableOk, LiveOk, WritesOk, ReplacedOk, UnsettledOk, CopiesOk, KnownOk, StageOk, ClaimsOk, PassesOk;
    hide DebugOk, Rooted, IsPart;
    C.EntryWritten(s, o);
    C.HeldIsLive(s, k, o);
    assert InTable(s.table, k, o);
    assert k in s.disk && o in s.disk[k].locs;
    hide Inv, DiskOk;
    assert k in Surviving(s) && Surviving(s)[k] == s.disk[k];
  }

  /** Every step keeps what later scans rely on. */
  lemma StepKeepsLost(s: State, a: Action)
    requires LostOk(s) && Enabled(s, a) && Inv(s)
    ensures LostOk(Apply(s, a))
  {
    hide Inv, LostOk, Carries, Recalled;
    if OfPass(a) {
      hide Enabled, Apply;
      PassKeepsLost(s, a);
    } else if OfWrite(a) {
      hide Enabled, Apply;
      WriteKeepsLost(s, a);
    } else if a.Install? {
      hide Enabled, Apply;
      InstallKeepsLost(s, a.key, a.id);
    } else if a.StartWrite? || a.StartGc? {
      hide Enabled, Apply;
      StartCarries(s, a);
      CarriesLost(s, Apply(s, a));
    } else if a.Delete? {
      DeleteKeepsLost(s, a.key);
    } else if a.Crash? {
      hide Recovered;
      CrashKeepsLost(s);
    } else {
      hide Recovered, Surviving, NextLsn;
      RestartKeepsLost(s);
    }
  }

  lemma DeleteKeepsLost(s: State, k: Lsn)
    requires LostOk(s) && Enabled(s, Delete(k)) && Inv(s)
    ensures LostOk(Apply(s, Delete(k)))
  {
    hide Inv, Rooted, Enabled, Apply;
    var s' := Apply(s, Delete(k));
    DeleteShrinks(s, k);
    C.DeleteFrame(s, k);
    SameWritesCarries(s, s');
    forall o | Recalled(s', o) ensures Recalled(s, o) {
      if j :| LostIn(s'.disk, j, o) { assert LostIn(s.disk, j, o); }
    }
    CarriesLost(s, s');
  }

  lemma DeleteShrinks(s: State, k: Lsn)
    requires Enabled(s, Delete(k))
    ensures var s' := Apply(s, Delete(k)); forall j :: j in s'.disk ==> j in s.disk && s'.disk[j] == s.disk[j]
  {
  }
}
