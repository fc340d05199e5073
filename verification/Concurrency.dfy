/** What every run of the store keeps, however its threads interleave. */
module Concurrency {
  import opened Basics
  import opened Protocol
  import opened Invariant
  import P = Preservation
  import R = Reopening

  /** Every object whose lost record is scanned is in the table: this is what the source expects
      there, and what every run guarantees. */
  predicate StillKnown(s: State, a: Action) { a.ScanLost? ==> a.id in s.table }

  lemma StepKeepsInv(s: State, a: Action)
    requires Inv(s) && Enabled(s, a) && StillKnown(s, a)
    ensures Inv(Apply(s, a))
  {
    hide Inv, Enabled, Apply;
    match a
    case StartWrite(f) => P.StartWriteKeeps(s, f);
    case StartGc(t, f) => P.StartGcKeeps(s, t, f);
    case Install(k, o) => P.InstallKeeps(s, k, o);
    case Rename(k) => P.RenameKeeps(s, k);
    case Decrement(k, o) => P.DecrementKeeps(s, k, o);
    case SetPath(k) => P.SetPathKeeps(s, k);
    case SetMetadata(k) => P.SetMetadataKeeps(s, k);
    case Subtract(k) => P.SubtractKeeps(s, k);
    case Finish(k) => P.FinishKeeps(s, k);
    case AbortGc(k) => P.AbortGcKeeps(s, k);
    case Begin(t) => P.BeginKeeps(s, t);
    case LookFragmented(t, k) => P.LookFragmentedKeeps(s, t, k);
    case LookEmpty(t, k) => P.LookEmptyKeeps(s, t, k);
    case Claim(t) => P.ClaimKeeps(s, t);
    case Scan(t, k, o) => P.ScanKeeps(s, t, k, o);
    case ScanLost(t, k, o) => P.ScanLostIdle(s, t, k, o);
    case Forget(t) => P.ForgetKeeps(s, t);
    case Remove(t, k) => P.RemoveKeeps(s, t, k);
    case Release(t, k) => P.ReleaseKeeps(s, t, k);
    case End(t) => P.EndKeeps(s, t);
    case Delete(k) => P.DeleteKeeps(s, k);
    case Crash => R.CrashKeeps(s);
    case Restart => R.RestartKeeps(s);
  }

  lemma InitialInv()
    ensures Inv(Initial())
  {
  }

  // ---------------------------------------------------------------- token conservation

  ghost function InTableEntries(s: State, k: Lsn): set<ObjectId>
    requires k in s.files
  {
    set o | o in s.files[k].locs && InTable(s.table, k, o)
  }

  ghost function OwedEntries(s: State, k: Lsn): set<ObjectId>
    requires k in s.files
  {
    set o | o in s.files[k].locs && Owed(s.writes, k, o)
  }

  function ToInstall(s: State, k: Lsn): set<ObjectId> { if k in s.writes then s.writes[k].todo else {} }

  function ToSubtract(s: State, k: Lsn): set<ObjectId> { if k in s.writes then s.writes[k].failed else {} }

  /** A file's live count is exactly: its entries in the table, plus its entries some write has
      replaced and not yet decremented, plus entries its own write has yet to install, plus
      entries that write failed to install and has not yet subtracted. */
  lemma LiveCountIsTokenSum(s: State, k: Lsn)
    requires Inv(s) && k in s.files
    ensures k in s.live
    ensures s.live[k] == |InTableEntries(s, k)| + |OwedEntries(s, k)| + |ToInstall(s, k)| + |ToSubtract(s, k)|
  {
    hide FilesOk, TableOk, LiveOk, WritesOk, ReplacedOk, UnsettledOk, CopiesOk, KnownOk, StageOk, ClaimsOk, PassesOk;
    hide DebugOk, DiskOk;
    hide InTableEntries, OwedEntries, ToInstall, ToSubtract, Tokens;
    CountIsTokens(s, k);
    TokensSplit(s, k);
    SumOfFour(InTableEntries(s, k), OwedEntries(s, k), ToInstall(s, k), ToSubtract(s, k));
  }

  lemma TokensSplit(s: State, k: Lsn)
    requires UnsettledOk(s.writes, s.table) && WritesOk(s.writes, s.files, s.present) && k in s.files
    requires ReplacedOk(s.writes, s.table, s.files, s.present)
    ensures var a, b, c, d := InTableEntries(s, k), OwedEntries(s, k), ToInstall(s, k), ToSubtract(s, k);
      && Tokens(s.table, s.writes, s.files[k], k) == a + b + c + d
      && a !! b && c !! d && a !! c && a !! d && b !! c && b !! d
  {
    TableNotOwed(s, k);
    UnsettledApart(s, k, ToInstall(s, k), ToSubtract(s, k));
    hide UnsettledOk, WritesOk, ReplacedOk, Owed, InTable;
    assert forall o :: o in ToInstall(s, k) + ToSubtract(s, k) <==> Unsettled(s.writes, k, o);
  }

  lemma SumOfFour<T>(a: set<T>, b: set<T>, c: set<T>, d: set<T>)
    requires a !! b && c !! d && a !! c && a !! d && b !! c && b !! d
    ensures |a + b + c + d| == |a| + |b| + |c| + |d|
  {
    assert (a + b) !! c && (a + b + c) !! d;
  }

  lemma UnsettledApart(s: State, k: Lsn, c: set<ObjectId>, d: set<ObjectId>)
    requires UnsettledOk(s.writes, s.table) && WritesOk(s.writes, s.files, s.present) && k in s.files
    requires c == if k in s.writes then s.writes[k].todo else {}
    requires d == if k in s.writes then s.writes[k].failed else {}
    ensures c !! d && c + d <= s.files[k].locs.Keys
    ensures forall o :: o in c + d ==> !InTable(s.table, k, o) && !Owed(s.writes, k, o)
  {
    if k in s.writes { P.WriteIsOk(s, k); }
    hide WritesOk, Owed, InTable;
    assert forall o :: o in c + d ==> Unsettled(s.writes, k, o);
  }

  lemma TableNotOwed(s: State, k: Lsn)
    requires ReplacedOk(s.writes, s.table, s.files, s.present)
    ensures forall o :: !(InTable(s.table, k, o) && Owed(s.writes, k, o))
  {
    forall o | Owed(s.writes, k, o) ensures !InTable(s.table, k, o) {
      var g :| g in s.writes && Owes(s.writes[g], k, o);
      assert LeftBehind(s.writes[g].replaced[o], g, o, s.table, s.files, s.present);
    }
  }

  lemma CountIsTokens(s: State, k: Lsn)
    requires LiveOk(s.live, s.table, s.writes, s.files) && k in s.files
    ensures k in s.live && s.live[k] == |Tokens(s.table, s.writes, s.files[k], k)|
  {
    hide Tokens;
  }

  lemma HeldIsLive(s: State, r: Lsn, o: ObjectId)
    requires Inv(s) && r in s.files && o in s.files[r].locs && Held(s.table, s.writes, r, o)
    ensures r in s.live && s.live[r] >= 1
  {
    hide FilesOk, TableOk, LiveOk, WritesOk, ReplacedOk, UnsettledOk, CopiesOk, KnownOk, StageOk, ClaimsOk, PassesOk;
    hide DebugOk, DiskOk, Held;
    CountIsTokens(s, r);
    assert o in Tokens(s.table, s.writes, s.files[r], r);
    P.Within({o}, Tokens(s.table, s.writes, s.files[r], r));
  }

  // ---------------------------------------------------------------- lookup

  /** In every state the search of the file map finds the writer of each table entry and of each
      replaced location still to be paid for. */
  lemma LookupAlwaysFindsWriter(s: State)
    requires Inv(s)
    ensures forall o, k :: o in s.table ==> (IsPredecessor(s.present, Raw(s.table[o]), k) <==> k == s.table[o].file)
    ensures forall g, o, k :: g in s.writes && o in s.writes[g].replaced ==>
      (IsPredecessor(s.present, Raw(s.writes[g].replaced[o]), k) <==> k == s.writes[g].replaced[o].file)
    ensures forall g, o :: g in s.writes && o in s.writes[g].replaced ==> s.writes[g].replaced[o].file != g
  {
    hide FilesOk, TableOk, LiveOk, WritesOk, ReplacedOk, UnsettledOk, CopiesOk, KnownOk, StageOk, ClaimsOk, PassesOk;
    hide DebugOk, DiskOk;
    hide IsPredecessor, Raw;
    P.FilesPresent(s);
    forall o | o in s.table ensures forall k :: IsPredecessor(s.present, Raw(s.table[o]), k) <==> k == s.table[o].file {
      assert Wrote(s.files, s.table[o], o) && s.table[o].file in s.present by { EntryWritten(s, o); }
      LookupFindsWriter(s, s.table[o], o);
    }
    forall g, o | g in s.writes && o in s.writes[g].replaced
      ensures s.writes[g].replaced[o].file != g
      ensures forall k ::
        IsPredecessor(s.present, Raw(s.writes[g].replaced[o]), k) <==> k == s.writes[g].replaced[o].file
    {
      P.DecrementTarget(s, g, o);
    }
  }

  lemma EntryWritten(s: State, o: ObjectId)
    requires TableOk(s.table, s.files, s.present) && o in s.table
    ensures Wrote(s.files, s.table[o], o) && s.table[o].file in s.present
  {
  }

  // ---------------------------------------------------------------- what a step leaves alone

  predicate Reopens(a: Action) { a.Crash? || a.Restart? }

  /** Between two openings file records, paths and the debug history only grow, and a file that
      left the map does not come back. */
  ghost predicate Grows(s: State, s': State) {
    && (forall k :: k in s.files ==> k in s'.files && s'.files[k] == s.files[k])
    && (forall k :: k in s.files && k in s'.present ==> k in s.present)
    && s.pathed <= s'.pathed && s.adds <= s'.adds && s.removes <= s'.removes
  }

  lemma StartGrows(s: State, f: File, scanned: map<ObjectId, Loc>)
    requires FilesOk(s.files, s.nextLsn) && f.WellFormed() && f.base == s.nextLsn
    ensures f.Key() !in s.files && Grows(s, DoStart(s, f, scanned))
  {
  }

  lemma ReplaceGrows(s: State, k: Lsn, o: ObjectId, w: Write, there: Loc, was: Option<Loc>)
    ensures Grows(s, Replace(s, k, o, w, there, was))
  {
  }

  lemma InstallGrows(s: State, k: Lsn, o: ObjectId)
    requires k in s.writes
    ensures Grows(s, DoInstall(s, k, o))
  {
    hide Raw, Replace, Grows;
    var s' := DoInstall(s, k, o);
    if s'.table == s.table && s'.adds == s.adds && s'.removes == s.removes && s'.files == s.files
      && s'.present == s.present && s'.pathed == s.pathed
    {
      SameGrows(s, s');
    } else {
      var w := s.writes[k].(todo := s.writes[k].todo - {o});
      var there := Loc(k, s.files[k].locs[o]);
      ReplaceGrows(s, k, o, w, there,
        if o in w.scanned then Some(w.scanned[o]) else if o in s.table then Some(s.table[o]) else None);
    }
  }

  lemma SameGrows(s: State, s': State)
    requires s'.adds == s.adds && s'.removes == s.removes && s'.files == s.files
    requires s'.present <= s.present && s.pathed <= s'.pathed
    ensures Grows(s, s')
  {
  }

  /** A step of a maintenance pass touches passes, claims and the file map only. */
  lemma PassFrame(s: State, a: Action)
    requires Enabled(s, a) && OfPass(a)
    ensures var s' := Apply(s, a);
      && s' == s.(passes := s'.passes, claimed := s'.claimed, present := s'.present, panicked := s'.panicked)
      && s'.present == if a.Remove? then s.present - {a.key} else s.present
  {
    hide Enabled, ApplyPass, ApplyWrite;
  }

  /** A step of a write past installation leaves the table, file records and debug history alone. */
  lemma WriteFrame(s: State, a: Action)
    requires Enabled(s, a) && OfWrite(a)
    ensures var s' := Apply(s, a);
      && s'.table == s.table && s'.files == s.files && s'.adds == s.adds && s'.removes == s.removes
      && s'.nextLsn == s.nextLsn && s'.passes == s.passes
      && (!a.Rename? ==> s'.disk == s.disk && s'.history == s.history)
      && s'.present == (if a.AbortGc? then s.present - {a.key} else s.present)
      && s'.pathed == (if a.AbortGc? || a.SetPath? then s.pathed + {a.key} else s.pathed)
  {
    hide Enabled, ApplyPass, ApplyWrite;
  }

  lemma DeleteFrame(s: State, k: Lsn)
    requires Enabled(s, Delete(k))
    ensures var s' := Apply(s, Delete(k)); s' == s.(disk := s'.disk, panicked := s'.panicked)
  {
  }

  /** No step but the start and the installation of objects, and reopening, touches the table, the
      file records or the debug history. */
  lemma OtherFrame(s: State, a: Action)
    requires Enabled(s, a) && !Reopens(a) && !a.StartWrite? && !a.StartGc? && !a.Install?
    ensures var s' := Apply(s, a);
      && s'.table == s.table && s'.files == s.files && s'.adds == s.adds && s'.removes == s.removes
      && s'.nextLsn == s.nextLsn && s'.present <= s.present && s.pathed <= s'.pathed
  {
    hide Enabled, Apply;
    if OfPass(a) {
      PassFrame(s, a);
    } else if OfWrite(a) {
      WriteFrame(s, a);
    } else {
      DeleteFrame(s, a.key);
    }
  }

  lemma StartStepGrows(s: State, a: Action)
    requires FilesOk(s.files, s.nextLsn) && Enabled(s, a) && (a.StartWrite? || a.StartGc?)
    ensures Grows(s, Apply(s, a))
  {
    hide FilesOk, Grows, File.WellFormed, DoStart;
    StartGrows(s, a.file, if a.StartWrite? then map[] else s.passes[a.thread].scanned);
  }

  lemma InstallStepGrows(s: State, k: Lsn, o: ObjectId)
    requires Enabled(s, Install(k, o))
    ensures Grows(s, Apply(s, Install(k, o)))
  {
    hide Grows, DoInstall;
    InstallGrows(s, k, o);
  }

  lemma StepGrows(s: State, a: Action)
    requires Inv(s) && Enabled(s, a) && !Reopens(a)
    ensures Grows(s, Apply(s, a))
  {
    hide Inv, FilesOk, Grows, Enabled, Apply;
    FilesAreOk(s);
    if a.StartWrite? || a.StartGc? {
      StartStepGrows(s, a);
    } else if a.Install? {
      InstallStepGrows(s, a.key, a.id);
    } else {
      OtherFrame(s, a);
      SameGrows(s, Apply(s, a));
    }
  }

  lemma FilesAreOk(s: State)
    requires Inv(s)
    ensures FilesOk(s.files, s.nextLsn)
  {
    hide FilesOk, TableOk, LiveOk, WritesOk, ReplacedOk, UnsettledOk, CopiesOk, KnownOk, StageOk, ClaimsOk, PassesOk;
    hide DebugOk, DiskOk;
  }

  // ---------------------------------------------------------------- an empty file stays empty

  /** What the pruner looks for: the path is set and the count is zero. */
  predicate EmptyFile(s: State, k: Lsn) {
    k in s.files && k in s.pathed && k in s.live && s.live[k] == 0
  }

  /** Nothing points into the file, and no write in progress has still to pay it or to install it. */
  ghost predicate Unreachable(s: State, k: Lsn) {
    forall o :: !InTable(s.table, k, o) && !Owed(s.writes, k, o) && !Unsettled(s.writes, k, o)
  }

  lemma EmptyIsUnreachable(s: State, k: Lsn)
    requires Inv(s) && EmptyFile(s, k)
    ensures Unreachable(s, k)
  {
    hide FilesOk, TableOk, LiveOk, WritesOk, ReplacedOk, UnsettledOk, CopiesOk, KnownOk, StageOk, ClaimsOk, PassesOk;
    hide DebugOk, DiskOk;
    P.ZeroHoldsNothing(s, k);
    TokensAreEntries(s, k);
    forall o ensures !InTable(s.table, k, o) && !Owed(s.writes, k, o) && !Unsettled(s.writes, k, o) {
      assert !Held(s.table, s.writes, k, o);
    }
  }

  lemma TokensAreEntries(s: State, k: Lsn)
    requires TableOk(s.table, s.files, s.present) && WritesOk(s.writes, s.files, s.present)
    requires ReplacedOk(s.writes, s.table, s.files, s.present) && k in s.files
    ensures forall o :: Held(s.table, s.writes, k, o) ==> o in s.files[k].locs
  {
    forall o | Held(s.table, s.writes, k, o) ensures o in s.files[k].locs {
      if InTable(s.table, k, o) {
        EntryWritten(s, o);
      } else if Unsettled(s.writes, k, o) {
        P.WriteIsOk(s, k);
      } else {
        var g :| g in s.writes && Owes(s.writes[g], k, o);
        assert LeftBehind(s.writes[g].replaced[o], g, o, s.table, s.files, s.present);
      }
    }
  }

  lemma InstallLeavesCounts(s: State, k: Lsn, o: ObjectId)
    requires k in s.writes
    ensures DoInstall(s, k, o).live == s.live
  {
    hide DoInstall;
  }

  lemma PaymentsFall(s: State, a: Action, k: Lsn)
    requires Enabled(s, a) && OfWrite(a)
    requires k in s.live && s.live[k] >= 0
    ensures k in Apply(s, a).live && Apply(s, a).live[k] <= s.live[k]
  {
    hide Enabled, IsPredecessor, Raw, Trailer, ApplyPass, DoDecrement;
    if a.Decrement? {
      DecrementFalls(s, a.key, a.id, k);
    }
  }

  lemma DecrementFalls(s: State, k: Lsn, o: ObjectId, j: Lsn)
    requires Enabled(s, Decrement(k, o)) && j in s.live
    ensures var s' := Apply(s, Decrement(k, o)); j in s'.live && s'.live[j] <= s.live[j]
  {
    hide IsPredecessor, Raw, NextLsn, Surviving, File.WellFormed;
    assert Apply(s, Decrement(k, o)) == DoDecrement(s, k, o);
    hide Enabled, Apply;
  }

  lemma StartLeavesCounts(s: State, f: File, scanned: map<ObjectId, Loc>, k: Lsn)
    requires FilesOk(s.files, s.nextLsn) && f.WellFormed() && f.base == s.nextLsn && k in s.files && k in s.live
    ensures k in DoStart(s, f, scanned).live && DoStart(s, f, scanned).live[k] == s.live[k]
  {
    StartGrows(s, f, scanned);
    hide FilesOk, Grows;
  }

  lemma LiveFalls(s: State, a: Action, k: Lsn)
    requires LiveOk(s.live, s.table, s.writes, s.files) && FilesOk(s.files, s.nextLsn)
    requires Enabled(s, a) && !Reopens(a) && k in s.files
    ensures k in s.live && k in Apply(s, a).live && Apply(s, a).live[k] <= s.live[k]
  {
    CountIsTokens(s, k);
    hide LiveOk, FilesOk, NextLsn, Surviving, Recovered, File.WellFormed;
    if a.StartWrite? {
      hide DoStart;
      StartLeavesCounts(s, a.file, map[], k);
    } else if a.StartGc? {
      hide DoStart;
      StartLeavesCounts(s, a.file, s.passes[a.thread].scanned, k);
    } else if a.Install? {
      hide DoInstall;
      InstallLeavesCounts(s, a.key, a.id);
    } else {
      hide Enabled, Apply;
      if OfPass(a) {
        PassFrame(s, a);
      } else if OfWrite(a) {
        PaymentsFall(s, a, k);
      } else {
        DeleteFrame(s, a.key);
      }
    }
  }

  lemma EmptyStays(s: State, a: Action, k: Lsn)
    requires Inv(s) && Enabled(s, a) && StillKnown(s, a) && !Reopens(a) && EmptyFile(s, k)
    ensures EmptyFile(Apply(s, a), k)
  {
    StepKeepsInv(s, a);
    StepGrows(s, a);
    hide Enabled, Apply;
    hide FilesOk, TableOk, LiveOk, WritesOk, ReplacedOk, UnsettledOk, CopiesOk, KnownOk, StageOk, ClaimsOk, PassesOk;
    hide DebugOk, DiskOk;
    LiveFalls(s, a, k);
    CountIsTokens(Apply(s, a), k);
  }

  // ---------------------------------------------------------------- maintenance is a stutter

  lemma StartLeavesTable(s: State, a: Action)
    requires Enabled(s, a) && (a.StartWrite? || a.StartGc?)
    ensures Apply(s, a).table == s.table
  {
    hide Enabled;
  }

  lemma SameView(s: State, s': State)
    requires TableOk(s.table, s.files, s.present) && Grows(s, s') && s'.table == s.table
    ensures View(s') == View(s)
  {
    forall o | o in s.table ensures s'.files[s.table[o].file] == s.files[s.table[o].file] {
      EntryWritten(s, o);
    }
  }

  /** `View` maps exactly the objects of the table. */
  lemma ViewDomain(s: State)
    requires FilesOk(s.files, s.nextLsn) && TableOk(s.table, s.files, s.present)
    ensures View(s).Keys == s.table.Keys
  {
    forall o | o in s.table ensures o in View(s) {
      EntryWritten(s, o);
      P.FileWellFormed(s, s.table[o].file);
    }
  }

  lemma InstallView(s: State, k: Lsn, o: ObjectId)
    requires Inv(s) && Enabled(s, Install(k, o))
    ensures k in s.files && o in s.files[k].vals
    ensures var s' := Apply(s, Install(k, o));
      if s.files[k].IsGc() then View(s') == View(s)
      else if o in s.table && Raw(Loc(k, s.files[k].locs[o])) < Raw(s.table[o]) then View(s') == View(s)
      else View(s') == View(s)[o := s.files[k].vals[o]]
  {
    hide FilesOk, TableOk, LiveOk, WritesOk, ReplacedOk, UnsettledOk, CopiesOk, KnownOk, StageOk, ClaimsOk, PassesOk;
    hide DebugOk, DiskOk;
    hide Raw, DoInstall, View, Replace;
    P.InstallOutcome(s, k, o);
    assert o in s.files[k].vals by { P.FileWellFormed(s, k); }
    hide Enabled, File.WellFormed;
    var s' := DoInstall(s, k, o);
    if if s.files[k].IsGc() then s.table[o] != s.writes[k].scanned[o]
       else o in s.table && Raw(Loc(k, s.files[k].locs[o])) < Raw(s.table[o])
    {
      assert s'.table == s.table && s'.files == s.files;
      hide P.Fails, Inv;
      UnchangedView(s, s');
    } else {
      hide P.Fails;
      if s.files[k].IsGc() {
        CopyIsFaithful(s, k, o);
      }
      hide Inv;
      ReplacedView(s, k, o, s.writes[k].(todo := s.writes[k].todo - {o}),
        if o in s.table then Some(s.table[o]) else None);
    }
  }

  lemma UnchangedView(s: State, s': State)
    requires s'.table == s.table && s'.files == s.files
    ensures View(s') == View(s)
  {
  }

  lemma ReplacedView(s: State, k: Lsn, o: ObjectId, w: Write, was: Option<Loc>)
    requires k in s.files && o in s.files[k].vals && o in s.files[k].locs
    ensures View(Replace(s, k, o, w, Loc(k, s.files[k].locs[o]), was)) == View(s)[o := s.files[k].vals[o]]
    ensures forall l :: o in s.table && s.table[o] == l && Copied(s.files, s.pathed, l, o, s.files[k].vals[o]) ==>
      View(s)[o := s.files[k].vals[o]] == View(s)
  {
  }

  lemma CopyIsFaithful(s: State, k: Lsn, o: ObjectId)
    requires CopiesOk(s.writes, s.files, s.pathed) && k in s.writes && k in s.files && s.files[k].IsGc()
    requires o in s.files[k].vals && o in s.writes[k].scanned
    ensures Copied(s.files, s.pathed, s.writes[k].scanned[o], o, s.files[k].vals[o])
  {
  }

  /** Only an installation by `write_batch` changes what any object reads as; every step of
      maintenance, its `cas` included, leaves all values and deletions as they were, in the midst
      of any number of writers. */
  lemma OnlyWritesChangeView(s: State, a: Action)
    requires Inv(s) && Enabled(s, a) && !Reopens(a)
    ensures a.Install? ==> a.key in s.files
    ensures !(a.Install? && !s.files[a.key].IsGc()) ==> View(Apply(s, a)) == View(s)
  {
    if a.Install? {
      InstallView(s, a.key, a.id);
    } else {
      StepGrows(s, a);
      hide Enabled, Apply, Grows, View;
      if a.StartWrite? || a.StartGc? { StartLeavesTable(s, a); } else { OtherFrame(s, a); }
      TableIsOk(s);
      hide Inv, TableOk;
      SameView(s, Apply(s, a));
    }
  }

  lemma TableIsOk(s: State)
    requires Inv(s)
    ensures TableOk(s.table, s.files, s.present)
  {
    hide FilesOk, TableOk, LiveOk, WritesOk, ReplacedOk, UnsettledOk, CopiesOk, KnownOk, StageOk, ClaimsOk, PassesOk;
    hide DebugOk, DiskOk;
  }

  // ---------------------------------------------------------------- no ABA

  lemma DebugIsOk(s: State)
    requires Inv(s)
    ensures DebugOk(s.adds, s.removes, s.table, s.files, s.writes)
  {
    hide FilesOk, TableOk, LiveOk, WritesOk, ReplacedOk, UnsettledOk, CopiesOk, KnownOk, StageOk, ClaimsOk, PassesOk;
    hide DebugOk, DiskOk;
  }

  lemma LeftMeansRemoved(s: State, t: State, u: State, o: ObjectId, l: Loc)
    requires Inv(s) && Inv(t) && Inv(u) && Grows(s, t) && Grows(t, u)
    requires o in s.table && s.table[o] == l && !(o in t.table && t.table[o] == l)
    ensures !(o in u.table && u.table[o] == l)
  {
    hide Inv;
    DebugIsOk(s);
    DebugIsOk(t);
    DebugIsOk(u);
    hide Wrote, Unsettled;
    assert (o, l) in s.adds && (o, l) in t.removes;
  }

  // ---------------------------------------------------------------- claims

  ghost predicate HoldsClaim(s: State, holder: Option<ThreadId>, k: Lsn) {
    match holder
    case None => k in s.writes
    case Some(t) => t in s.passes && k in s.passes[t].claims
  }

  /** A claim on a file of the map has exactly one holder: the write that made the file, or one
      maintenance pass; and only claimed files have holders. */
  lemma OneHolder(s: State, k: Lsn)
    requires Inv(s) && k in s.present
    ensures k in s.claimed <==> exists h :: HoldsClaim(s, h, k)
    ensures forall h, h' :: HoldsClaim(s, h, k) && HoldsClaim(s, h', k) ==> h == h'
  {
    hide FilesOk, TableOk, LiveOk, WritesOk, ReplacedOk, UnsettledOk, CopiesOk, KnownOk, StageOk, PassesOk, DebugOk;
    hide DiskOk;
    if k in s.claimed {
      if k in s.writes {
        assert HoldsClaim(s, None, k);
      } else {
        var t :| t in s.passes && k in s.passes[t].claims;
        assert HoldsClaim(s, Some(t), k);
      }
    }
  }

  /** When no write and no maintenance pass is in progress, every claim on a surviving file has
      been released. */
  lemma AllReleased(s: State)
    requires Inv(s) && s.writes == map[] && s.passes == map[]
    ensures s.claimed !! s.present
  {
    forall k | k in s.present ensures k !in s.claimed {
      OneHolder(s, k);
      assert forall h :: !HoldsClaim(s, h, k);
      hide Inv;
    }
  }

  lemma RemovablePresent(s: State, t: ThreadId, k: Lsn)
    requires Inv(s) && Enabled(s, Remove(t, k))
    ensures k in s.present && k in s.files && EmptyFile(s, k)
  {
    hide FilesOk, TableOk, LiveOk, WritesOk, ReplacedOk, UnsettledOk, CopiesOk, KnownOk, StageOk, ClaimsOk, PassesOk;
    hide DebugOk, DiskOk;
    P.RemovePass(s, t, k);
    P.InFiles(s, k);
    ClaimedPathed(s, t, k);
  }

  lemma ClaimedPathed(s: State, t: ThreadId, k: Lsn)
    requires PassesOk(s.passes, s.files, s.present, s.live, s.pathed) && t in s.passes && k in s.passes[t].empties
    ensures k in s.pathed
  {
    assert PassOk(s.passes[t], s.files, s.present, s.live, s.pathed);
  }

}
