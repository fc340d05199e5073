/** What crash refinement means for a user of the store. */
module CrashTheorems {
  import opened Basics
  import opened DiskLocations
  import opened Protocol
  import opened Invariant
  import opened CrashRefinement
  import P = Preservation
  import R = Reopening
  import C = Concurrency
  import L = Lost
  import U = Runs

  // ---------------------------------------------------------------- replaying batches

  /** The committed batches applied one after the other in the order of their sequence numbers. */
  ghost function Replay(history: map<nat, Batch>): Batch {
    if history == map[] then map[] else
    assert history.Keys != {};
    var last := MaxOf(history.Keys);
    Replay(history - {last}) + history[last]
  }

  /** Replaying leaves each object as the last batch that mentions it says. */
  lemma {:induction false} ReplayIsLast(history: map<nat, Batch>, o: ObjectId)
    ensures o in Replay(history) ==> Current(history, o, Replay(history)[o])
    ensures forall h :: h in history && o in history[h] ==> o in Replay(history)
  {
    if history != map[] {
      assert history.Keys != {};
      var last := MaxOf(history.Keys);
      var rest := history - {last};
      if o in history[last] {
        assert IsLast(history, o, last);
      } else {
        ReplayIsLast(rest, o);
        if o in Replay(history) {
          var h :| IsLast(rest, o, h) && rest[h][o] == Replay(rest)[o];
          forall i | i in history && o in history[i] ensures i <= h {
            assert i in rest && rest[i] == history[i];
          }
          assert IsLast(history, o, h);
        }
        forall h | h in history && o in history[h] ensures o in Replay(history) {
          assert h in rest && o in rest[h];
        }
      }
    }
  }

  lemma CurrentIsReplay(history: map<nat, Batch>, o: ObjectId, v: Option<Bytes>)
    requires Current(history, o, v)
    ensures o in Replay(history) && Replay(history)[o] == v
  {
    ReplayIsLast(history, o);
    var h :| IsLast(history, o, h) && history[h][o] == v;
    var i :| IsLast(history, o, i) && history[i][o] == Replay(history)[o];
    assert h == i;
  }

  // ---------------------------------------------------------------- crash atomicity

  lemma RecoveredReads(s: State, disk: map<Lsn, File>, o: ObjectId)
    requires Refines(disk, s.history) && R.DirectoryOk(disk)
    ensures var s' := Recovered(s, disk);
      && (o in View(s') <==> o in Replay(s.history))
      && (o in View(s') ==> View(s')[o] == Replay(s.history)[o])
  {
    hide RecoveredTable, Current, Replay, Attributed, MonotonicOrder, NextLsn, Superseded;
    R.RecoveredEntry(disk, o);
    ReplayIsLast(s.history, o);
    if o in Objects(disk) {
      var k := RecoveredTable(disk)[o].file;
      assert o in disk[k].vals;
      CurrentIsReplay(s.history, o, disk[k].vals[o]);
    } else if o in Replay(s.history) {
      hide IsLatest;
      var h := MentionedBy(s.history, o, Replay(s.history)[o]);
      SupersededObject(disk, o, h);
      assert false;
    }
  }

  lemma MentionedBy(history: map<nat, Batch>, o: ObjectId, v: Option<Bytes>) returns (h: nat)
    requires Current(history, o, v)
    ensures h in history && o in history[h]
  {
    h :| IsLast(history, o, h) && history[h][o] == v;
  }

  lemma SupersededObject(disk: map<Lsn, File>, o: ObjectId, b: nat)
    requires Superseded(disk, disk.Keys, o, b)
    ensures o in Objects(disk)
  {
  }

  /** Crash atomicity. In every run in which no rewrite begins and no file is pruned between a batch's
      reservation and its rename, a crash at any moment recovers exactly the batches whose rename has
      happened, replayed in sequence order; unfinished writes, unfinished rewrites and half-done
      pruning leave no trace. */
  lemma CrashRecoversCommitted(states: seq<State>, actions: seq<Action>, i: nat)
    requires IsCarefulRun(states, actions) && i < |states|
    ensures View(Recovered(states[i], states[i].disk)) == Replay(states[i].history)
  {
    hide Inv, Durable, CrashInv, Enabled, Apply, View, Recovered, Replay, Refines, R.DirectoryOk, Careful;
    RunCrashInv(states, actions, i);
    RecoveredIsReplay(states[i]);
  }

  /** The crash itself, as a step of the run: it leaves the directory as it is, ends every write and pass,
      and the store that comes up holds the batches renamed before it, replayed in sequence order. */
  lemma CrashStepRecovers(states: seq<State>, actions: seq<Action>, i: nat)
    requires IsCarefulRun(states, actions) && i < |actions| && actions[i] == Crash
    ensures states[i + 1].disk == states[i].disk && states[i + 1].history == states[i].history
    ensures states[i + 1].writes == map[] && states[i + 1].passes == map[] && !states[i + 1].panicked
    ensures View(states[i + 1]) == Replay(states[i].history)
  {
    hide Inv, CrashInv, View, Replay, Careful, RecoveredTable, Attributed, MonotonicOrder, NextLsn, L.LostOk;
    CrashRecoversCommitted(states, actions, i);
    U.NeverPanics(states, actions, i + 1);
    assert states[i + 1] == Apply(states[i], actions[i]);
  }

  /** It is possible in every state with numbers left for the next opening. */
  lemma CrashPossible(s: State)
    requires forall j, k :: j in s.disk && k in s.disk ==> s.disk[j].base + s.disk[k].size + 1 <= NEW_WRITE_BATCH_BIT
    ensures Enabled(s, Crash)
  {
    hide NextLsn;
    var j, k := R.NextLsnIs(s.disk);
  }

  lemma RecoveredIsReplay(s: State)
    requires Inv(s) && Durable(s)
    ensures View(Recovered(s, s.disk)) == Replay(s.history)
  {
    hide Inv, Durable, CrashInv, View, Recovered, Replay, Refines, R.DirectoryOk;
    DirectoryIsOk(s, s.disk);
    RefinesFrom(s);
    var v, w := View(Recovered(s, s.disk)), Replay(s.history);
    forall o ensures (o in v <==> o in w) && (o in v ==> v[o] == w[o]) {
      RecoveredReads(s, s.disk, o);
    }
    assert v == w;
  }

  lemma RefinesFrom(s: State)
    requires Durable(s)
    ensures Refines(s.disk, s.history) && HistoryOk(s.history, s.nextLsn, s.disk)
  {
    hide HistoryOk, DiskBelow, HistoryBelow, TriedBelow, CopiesCurrent, RewritesOk, RewritesCurrent, Backed, WritersOk;
    hide Refines;
  }

  /** The history changes only when a batch is renamed, and then by the whole of that batch. */
  lemma CommitIsWhole(s: State, a: Action)
    requires Inv(s) && Enabled(s, a)
    ensures a.Rename? ==> a.key in s.files
    ensures Apply(s, a).history ==
      if a.Rename? && !s.files[a.key].IsGc() then s.history[s.files[a.key].base := s.files[a.key].vals] else s.history
  {
    hide Inv, Raw, IsPredecessor, Trailer, RecoveredTable, Attributed, MonotonicOrder;
    if a.Rename? {
    } else if OfPass(a) {
      C.PassFrame(s, a);
    } else if OfWrite(a) {
      C.WriteFrame(s, a);
    } else if a.Install? {
      InstallLeavesHistory(s, a.key, a.id);
    }
  }

  lemma InstallLeavesHistory(s: State, k: Lsn, o: ObjectId)
    requires k in s.writes
    ensures DoInstall(s, k, o).history == s.history
  {
    hide DoInstall;
  }

  /** When `write_batch` is about to return, its batch is committed, whole. */
  lemma FinishedIsCommitted(s: State, k: Lsn)
    requires Inv(s) && Durable(s) && Enabled(s, Finish(k)) && k in s.files && !s.files[k].IsGc()
    ensures s.files[k].base in s.history && s.history[s.files[k].base] == s.files[k].vals
  {
    hide FilesOk, TableOk, LiveOk, WritesOk, ReplacedOk, UnsettledOk, CopiesOk, KnownOk, StageOk, ClaimsOk, PassesOk;
    hide DebugOk, DiskOk;
    RefinesFrom(s);
    hide Durable, Refines;
    P.WriteIsOk(s, k);
    ClosedOnDisk(s, k);
    DiskFile(s, k);
  }

  /** A rename never takes the place of an earlier batch. */
  lemma StepKeepsHistory(s: State, a: Action, h: nat)
    requires h in s.history && Enabled(s, a) && Inv(s) && Durable(s)
    ensures h in Apply(s, a).history && Apply(s, a).history[h] == s.history[h]
  {
    hide Inv, Durable, CrashInv, Apply;
    CommitIsWhole(s, a);
    if a.Rename? {
      WritersFrom(s);
      if !s.files[a.key].IsGc() { WriterWas(s, a.key); }
    }
  }

  lemma {:induction false} HistoryStays(states: seq<State>, actions: seq<Action>, i: nat, j: nat, h: nat)
    requires IsCarefulRun(states, actions) && i <= j < |states| && h in states[i].history
    ensures h in states[j].history && states[j].history[h] == states[i].history[h]
    decreases j - i
  {
    hide Inv, Durable, CrashInv, Enabled, Apply, Careful;
    if i < j {
      HistoryStays(states, actions, i, j - 1, h);
      RunCrashInv(states, actions, j - 1);
      StepKeepsHistory(states[j - 1], actions[j - 1], h);
    }
  }

  /** Durability: once `write_batch` has returned, its batch is committed, whole and for good, through
      every later crash and restart. */
  lemma ReturnedIsCommitted(states: seq<State>, actions: seq<Action>, i: nat, j: nat, k: Lsn)
    requires IsCarefulRun(states, actions) && i < j < |states| && actions[i] == Finish(k)
    requires k in states[i].files && !states[i].files[k].IsGc()
    ensures var f := states[i].files[k]; f.base in states[j].history && states[j].history[f.base] == f.vals
  {
    hide Inv, Durable, CrashInv, Enabled, Apply, Careful;
    RunCrashInv(states, actions, i);
    FinishedIsCommitted(states[i], k);
    HistoryStays(states, actions, i, j, states[i].files[k].base);
  }

  lemma ClosedOnDisk(s: State, k: Lsn)
    requires DiskOk(s.disk, s.files, s.present, s.writes, s.table) && k in s.present && !Open(s.writes, k)
    ensures k in s.disk
  {
    hide IsPart, InTable, Owed;
  }

  // ---------------------------------------------------------------- between crashes

  lemma QuietRead(s: State, o: ObjectId)
    requires Inv(s) && Durable(s) && NoneInstalling(s)
    ensures o in View(s) <==> o in Replay(s.history)
    ensures o in View(s) ==> View(s)[o] == Replay(s.history)[o]
  {
    hide FilesOk, TableOk, LiveOk, WritesOk, ReplacedOk, UnsettledOk, CopiesOk, KnownOk, StageOk, ClaimsOk, PassesOk;
    hide DebugOk, DiskOk;
    hide HistoryOk, DiskBelow, HistoryBelow, TriedBelow, CopiesCurrent, RewritesOk, RewritesCurrent, Backed, WritersOk;
    hide Refines, Current, Replay;
    C.ViewDomain(s);
    ReplayIsLast(s.history, o);
    if o in s.table {
      var k := s.table[o].file;
      C.EntryWritten(s, o);
      P.FileWellFormed(s, k);
      if Open(s.writes, k) {
        OpenCopyIsCurrent(s, o);
      } else {
        ClosedIsCurrent(s, o);
      }
      CurrentIsReplay(s.history, o, s.files[k].vals[o]);
    } else if o in Replay(s.history) {
      var h := MentionedBy(s.history, o, Replay(s.history)[o]);
      MentionedInTable(s, h, o);
      assert false;
    }
  }

  lemma OpenCopyIsCurrent(s: State, o: ObjectId)
    requires CopiesCurrent(s.table, s.files, s.history) && NoneInstalling(s)
    requires o in s.table && Open(s.writes, s.table[o].file) && s.table[o].file in s.files
    requires o in s.files[s.table[o].file].vals
    ensures Current(s.history, o, s.files[s.table[o].file].vals[o])
  {
    hide Current;
  }

  lemma MentionedInTable(s: State, h: nat, o: ObjectId)
    requires HistoryBelow(s.history, s.table, s.files) && h in s.history && o in s.history[h]
    ensures o in s.table
  {
  }

  /** Whenever no batch is between reservation and rename, in the middle of maintenance or not, the store
      reads as the committed batches replayed: the last value written, or nothing. */
  lemma QuietStoreIsReplay(states: seq<State>, actions: seq<Action>, i: nat)
    requires IsCarefulRun(states, actions) && i < |states| && NoneInstalling(states[i])
    ensures View(states[i]) == Replay(states[i].history)
  {
    hide Inv, Durable, CrashInv, Enabled, Apply, View, Replay, NoneInstalling, Careful;
    RunCrashInv(states, actions, i);
    var v, w := View(states[i]), Replay(states[i].history);
    forall o ensures (o in v <==> o in w) && (o in v ==> v[o] == w[o]) {
      QuietRead(states[i], o);
    }
    assert v == w;
  }

  lemma InstallRaises(s: State, k: Lsn, id: ObjectId, o: ObjectId)
    requires o in s.table && s.table[o].file in s.files && Enabled(s, Install(k, id)) && Inv(s) && Durable(s)
    ensures var s' := Apply(s, Install(k, id));
      && o in s'.table && s'.table[o].file in s'.files
      && (s'.table[o] != s.table[o] ==> s.files[s.table[o].file].base < s'.files[s'.table[o].file].base)
  {
    hide Durable, Inv, DoInstall;
    WritersFrom(s);
    InstallCases(s, k, id);
    hide WritersOk;
  }

  lemma StepRaises(s: State, a: Action, o: ObjectId)
    requires Inv(s) && Durable(s) && Enabled(s, a) && !C.Reopens(a) && o in s.table
    ensures var s' := Apply(s, a);
      && o in s'.table && s.table[o].file in s.files && s'.table[o].file in s'.files
      && (s'.table[o] != s.table[o] ==> s.files[s.table[o].file].base < s'.files[s'.table[o].file].base)
  {
    hide Durable, Inv;
    C.TableIsOk(s);
    C.EntryWritten(s, o);
    hide TableOk;
    if a.Install? {
      InstallRaises(s, a.key, a.id, o);
    } else {
      C.StepGrows(s, a);
      hide Enabled, Apply;
      if a.StartWrite? || a.StartGc? { C.StartLeavesTable(s, a); } else { C.OtherFrame(s, a); }
    }
  }

  /** As long as the store stays open, an object's masked sequence number only rises, although its raw
      location drops whenever maintenance moves it out of the upper half. */
  lemma {:induction false} MaskedLsnRises(states: seq<State>, actions: seq<Action>, i: nat, j: nat, o: ObjectId)
    requires IsCarefulRun(states, actions) && U.OneOpening(actions, i, j) && o in states[i].table
    ensures o in states[j].table && states[i].table[o].file in states[i].files
    ensures states[j].table[o].file in states[j].files
    ensures states[j].table[o] != states[i].table[o] ==>
      states[i].files[states[i].table[o].file].base < states[j].files[states[j].table[o].file].base
    decreases j - i
  {
    hide Inv, Durable, CrashInv, Enabled, Apply, Careful, TableOk;
    if i < j {
      MaskedLsnRises(states, actions, i, j - 1, o);
      RunCrashInv(states, actions, j - 1);
      StepRaises(states[j - 1], actions[j - 1], o);
      U.RunGrows(states, actions, i, j - 1);
      U.RunGrows(states, actions, j - 1, j);
    } else {
      RunCrashInv(states, actions, i);
      C.TableIsOk(states[i]);
      C.EntryWritten(states[i], o);
    }
  }

  // ---------------------------------------------------------------- restart

  lemma SurvivingEntry(s: State, o: ObjectId)
    requires Inv(s) && Durable(s) && s.writes == map[] && o in s.table
    ensures var k := s.table[o].file;
      k in Surviving(s) && IsLatest(Surviving(s), o, k) && Surviving(s)[k].locs[o] == s.table[o].rel
  {
    var k := s.table[o].file;
    hide FilesOk, TableOk, LiveOk, WritesOk, ReplacedOk, UnsettledOk, CopiesOk, KnownOk, StageOk, ClaimsOk, PassesOk;
    hide DebugOk, DiskOk;
    hide HistoryOk, DiskBelow, HistoryBelow, TriedBelow, CopiesCurrent, RewritesOk, RewritesCurrent, Backed, WritersOk;
    hide Refines;
    C.EntryWritten(s, o);
    C.HeldIsLive(s, k, o);
    PresentOnDisk(s, k, o);
    TrailerEntry(s, k, o);
    LatestIsTable(s, o);
    hide Inv, Durable;
  }

  lemma TrailerEntry(s: State, k: Lsn, o: ObjectId)
    requires DiskOk(s.disk, s.files, s.present, s.writes, s.table) && k in s.disk && o in s.disk[k].locs && k in s.files
    ensures o in s.files[k].locs && s.files[k].locs[o] == s.disk[k].locs[o]
  {
    assert IsPart(s.disk[k], s.files[k]);
    assert (o, s.disk[k].locs[o]) in s.disk[k].locs.Items;
  }

  lemma LatestIsTable(s: State, o: ObjectId)
    requires DiskBelow(s.disk, s.table, s.files) && o in s.table && s.table[o].file in s.files
    ensures forall j :: j in s.disk && o in s.disk[j].locs ==> s.disk[j].base <= s.files[s.table[o].file].base
  {
    forall j | j in s.disk && o in s.disk[j].locs ensures s.disk[j].base <= s.files[s.table[o].file].base {
      assert AtOrAbove(s.table, s.files, o, s.disk[j].base);
    }
  }

  lemma RestartTable(s: State, o: ObjectId)
    requires Inv(s) && Durable(s) && s.writes == map[]
    ensures o in s.table <==> o in RecoveredTable(Surviving(s))
    ensures o in s.table ==> RecoveredTable(Surviving(s))[o] == s.table[o]
  {
    hide Inv, Durable, CrashInv, RecoveredTable, R.DirectoryOk;
    var disk := Surviving(s);
    DirectoryIsOk(s, disk);
    hide Surviving;
    R.RecoveredEntry(disk, o);
    if o in s.table {
      SurvivingEntry(s, o);
      assert o in Objects(disk);
      R.LatestUnique(disk, o, s.table[o].file, RecoveredTable(disk)[o].file);
    } else if o in Objects(disk) {
      SurvivorInTable(s, o);
      assert false;
    }
  }

  lemma SurvivorInTable(s: State, o: ObjectId)
    requires Durable(s) && o in Objects(Surviving(s))
    ensures o in s.table
  {
    hide HistoryOk, HistoryBelow, TriedBelow, CopiesCurrent, RewritesOk, RewritesCurrent, Backed, WritersOk, Refines;
    var k :| k in Surviving(s) && o in Surviving(s)[k].locs;
    assert AtOrAbove(s.table, s.files, o, s.disk[k].base);
  }

  lemma RestartCounts(s: State, s': State, k: Lsn)
    requires Inv(s) && Inv(s') && s.writes == map[]
    requires s'.files == Surviving(s) && s'.writes == map[] && s'.table == s.table && k in s'.files
    ensures k in s.live && k in s'.live && s'.live[k] == s.live[k] && s'.live[k] != 0
    ensures s'.files[k].base + s'.files[k].len < s'.nextLsn
  {
    hide FilesOk, TableOk, LiveOk, WritesOk, ReplacedOk, UnsettledOk, CopiesOk, KnownOk, StageOk, ClaimsOk, PassesOk;
    hide DebugOk, DiskOk;
    hide Tokens;
    DiskFile(s, k);
    C.CountIsTokens(s, k);
    C.CountIsTokens(s', k);
    RestartTokens(s, k);
    EndInRange(s', k);
  }

  lemma EndInRange(s: State, k: Lsn)
    requires FilesOk(s.files, s.nextLsn) && k in s.files
    ensures s.files[k].base + s.files[k].len < s.nextLsn
  {
  }

  lemma RestartTokens(s: State, k: Lsn)
    requires DiskOk(s.disk, s.files, s.present, s.writes, s.table) && k in s.disk && k in s.files && s.writes == map[]
    ensures Tokens(s.table, map[], s.disk[k], k) == Tokens(s.table, map[], s.files[k], k)
  {
    forall o ensures o in Tokens(s.table, map[], s.disk[k], k) <==> o in Tokens(s.table, map[], s.files[k], k) {
      if o in s.disk[k].locs { TrailerEntry(s, k, o); }
    }
  }

  /** Restart agreement: closing the quiet store, which deletes its empty files, and opening it again
      gives back the same table, the same counts for the files that are left, no claim, and a next
      sequence number above every range on disk. */
  lemma RestartAgrees(s: State)
    requires Inv(s) && Durable(s) && Enabled(s, Restart)
    ensures var s' := Apply(s, Restart);
      && s'.table == s.table
      && (forall k :: k in s'.files ==> k in s.live && k in s'.live && s'.live[k] == s.live[k] && s'.live[k] != 0)
      && (forall o :: o in s.table ==> s.table[o].file in s'.files)
      && s'.claimed == {}
      && (forall k :: k in s'.files ==> s'.files[k].base + s'.files[k].len < s'.nextLsn)
  {
    hide Inv, Durable, CrashInv, Enabled, Apply, RecoveredTable;
    var s' := Apply(s, Restart);
    var table := RecoveredTable(Surviving(s));
    R.RestartKeeps(s);
    RestartShape(s);
    forall o ensures (o in s.table <==> o in table) && (o in s.table ==> table[o] == s.table[o]) {
      RestartTable(s, o);
    }
    assert table == s.table;
    forall k | k in s'.files
      ensures k in s.live && k in s'.live && s'.live[k] == s.live[k] && s'.live[k] != 0
      ensures s'.files[k].base + s'.files[k].len < s'.nextLsn
    {
      RestartCounts(s, s', k);
    }
    forall o | o in s.table ensures s.table[o].file in s'.files {
      SurvivingEntry(s, o);
    }
  }

  lemma RestartShape(s: State)
    requires Enabled(s, Restart)
    ensures var s' := Apply(s, Restart);
      s'.files == Surviving(s) && s'.table == RecoveredTable(Surviving(s)) && s'.claimed == {} && s'.writes == map[]
    ensures s.writes == map[]
  {
    hide RecoveredTable, Attributed, MonotonicOrder, Surviving, NextLsn;
  }
}
