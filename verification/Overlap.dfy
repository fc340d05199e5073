/** Why crash atomicity needs its two conditions. The documentation says that maintenance blocks writers;
    the code takes no lock. Here are two runs in which they overlap and a committed batch is lost by
    the next recovery: in one a rewrite begins, in the other a file is pruned, while a batch is between
    its reservation and its rename. */
module Overlap {
  import opened Basics
  import opened DiskLocations
  import opened Protocol
  import opened Invariant
  import opened CrashRefinement
  import opened CrashTheorems
  import opened Sequential
  import R = Reopening
  import C = Concurrency
  import L = Lost
  import U = Runs
  import E = Effects

  const BIT := NEW_WRITE_BATCH_BIT
  const HEADER: Relative := Relative(0, false)
  const FIRST: Bytes := []
  const SECOND: Bytes := [1]

  /** One object, written twice and copied once: the copy's sequence number is above the second
      write's, which was reserved earlier. */
  const F1 := File(0, 1, 20, 60, 1, map[0 := HEADER], map[0 := Some(FIRST)], map[])
  const F2 := File(0, 22, 21, 61, 1, map[0 := HEADER], map[0 := Some(SECOND)], map[])
  const G := File(1, 44, 20, 60, 1, map[0 := HEADER], map[0 := Some(FIRST)], map[])
  const K1: Lsn := 1 + BIT
  const K2: Lsn := 22 + BIT

  const AT1 := Loc(K1, HEADER)
  const AT2 := Loc(K2, HEADER)
  const AT3 := Loc(44, HEADER)

  /** Each of the three files is what a writer produces. */
  lemma Shapes()
    ensures F1.WellFormed() && F2.WellFormed() && G.WellFormed()
    ensures |F1.locs| == 1 && |F2.locs| == 1 && |G.locs| == 1
    ensures F1.locs.Keys == {0} && F2.locs.Keys == {0} && G.locs.Keys == {0}
    ensures F1.Key() == K1 && F2.Key() == K2 && G.Key() == 44
  {
    assert F1.locs.Keys == {0} == F1.vals.Keys;
    assert F2.locs.Keys == {0} == F2.vals.Keys;
    assert G.locs.Keys == {0} == G.vals.Keys;
    assert 0 in F1.locs && 0 in F2.locs && 0 in G.locs;
  }

  /** The run ends in state `s`. */
  ghost predicate Reaches(states: seq<State>, actions: seq<Action>, s: State) {
    IsRun(states, actions) && s == states[|actions|] && Inv(s)
  }

  predicate NoPruning(actions: seq<Action>) { forall i :: 0 <= i < |actions| ==> !actions[i].Remove? }

  predicate NoRewriting(actions: seq<Action>) { forall i :: 0 <= i < |actions| ==> !actions[i].StartGc? }

  /** The run reopens nothing, and all its steps are careful. */
  ghost predicate Tame(states: seq<State>, actions: seq<Action>) {
    |actions| <= |states| && forall i :: 0 <= i < |actions| ==> Careful(states[i], actions[i]) && !C.Reopens(actions[i])
  }

  lemma Go(states: seq<State>, actions: seq<Action>, s: State, a: Action)
    returns (states': seq<State>, actions': seq<Action>, s': State)
    requires Enabled(s, a) && Reaches(states, actions, s)
    ensures Reaches(states', actions', s') && s' == Apply(s, a) && Inv(s') && !s'.panicked
    ensures actions' == actions + [a]
    ensures NoPruning(actions) && !a.Remove? ==> NoPruning(actions')
    ensures NoRewriting(actions) && !a.StartGc? ==> NoRewriting(actions')
    ensures Tame(states, actions) && Careful(s, a) && !C.Reopens(a) ==> Tame(states', actions')
    ensures states <= states'
  {
    hide Enabled, Apply, Inv, L.LostOk, Careful;
    s' := Apply(states[|actions|], a);
    states', actions' := states + [s'], actions + [a];
    forall i | 0 <= i < |actions'|
      ensures Enabled(states'[i], actions'[i]) && states'[i + 1] == Apply(states'[i], actions'[i])
    {
      if i < |actions| { assert states'[i] == states[i] && states'[i + 1] == states[i + 1]; }
    }
    U.RunInv(states', actions', |actions'|);
    E.Unpanicked(s');
  }

  lemma StartReady(s: State, f: File)
    requires f in {F1, F2} && f.base == s.nextLsn
    ensures Enabled(s, StartWrite(f))
  {
    Shapes();
    hide File.WellFormed, NextLsn, Surviving;
  }

  lemma InstallReady(s: State, k: Lsn)
    requires k in s.writes && 0 in s.writes[k].todo && s.writes[k].phase == Installing
    ensures Enabled(s, Install(k, 0))
  {
  }

  // ---------------------------------------------------------------- pieces of both runs

  const STARTED := Write(map[], {0}, map[], {}, Installing)
  const INSTALLED := Write(map[], {}, map[], {}, Installing)
  const BEATEN := Write(map[], {}, map[], {0}, Installing)

  /** The first batch reserves its sequence number. */
  lemma Begins() returns (states: seq<State>, actions: seq<Action>, s: State)
    ensures Reaches(states, actions, s) && Inv(s) && NoPruning(actions) && NoRewriting(actions) && Tame(states, actions)
    ensures s == Initial().(files := map[K1 := F1], present := {K1}, live := map[K1 := 1], claimed := {K1},
                            nextLsn := 22, writes := map[K1 := STARTED])
  {
    hide Enabled, Apply, Inv;
    C.InitialInv();
    StartReady(Initial(), F1);
    states, actions, s := Go([Initial()], [], Initial(), StartWrite(F1));
    Started(s);
  }

  lemma Started(s: State)
    requires Enabled(Initial(), StartWrite(F1)) && s == Apply(Initial(), StartWrite(F1)) && !s.panicked
    ensures s == Initial().(files := map[K1 := F1], present := {K1}, live := map[K1 := 1], claimed := {K1},
                            nextLsn := 22, writes := map[K1 := STARTED])
  {
    Shapes();
    hide File.WellFormed, File.Key;
  }

  lemma RenameFresh(s: State, k: Lsn)
    requires k in s.files && k in s.writes && s.writes[k].todo == {} && s.writes[k].phase == Installing
    requires s.files[k].locs != map[] && !s.files[k].IsGc()
    ensures Enabled(s, Rename(k)) && Apply(s, Rename(k)) == RenamedTo(s, k)
  {
  }

  /** The last four steps of a write. */
  lemma Closes(states: seq<State>, actions: seq<Action>, s: State, k: Lsn)
    returns (states': seq<State>, actions': seq<Action>, s': State)
    requires k in s.writes && s.writes[k].phase == Renamed && s.writes[k].replaced == map[] && k in s.live
    requires Reaches(states, actions, s) && Inv(s)
    ensures Reaches(states', actions', s') && Inv(s')
    ensures s' == s.(pathed := s.pathed + {k}, described := s.described + {k}, claimed := s.claimed - {k},
                     writes := s.writes - {k}, live := s.live[k := s.live[k] - |s.writes[k].failed|])
    ensures (NoPruning(actions) ==> NoPruning(actions')) && (NoRewriting(actions) ==> NoRewriting(actions'))
    ensures (Tame(states, actions) ==> Tame(states', actions')) && states <= states'
  {
    hide Enabled, Apply, Inv, Reaches, NoPruning, NoRewriting, Tame;
    E.WriterPresent(s, k);
    LastSteps(s, k);
    states', actions', s' := Go(states, actions, s, SetPath(k));
    E.SetPathEffect(s, k);
    var s1 := s';
    LastSteps(s1, k);
    states', actions', s' := Go(states', actions', s', SetMetadata(k));
    E.SetMetadataEffect(s1, k);
    var s2 := s';
    LastSteps(s2, k);
    states', actions', s' := Go(states', actions', s', Subtract(k));
    E.SubtractEffect(s2, k);
    var s3 := s';
    LastSteps(s3, k);
    states', actions', s' := Go(states', actions', s', Finish(k));
    E.FinishEffect(s3, k);
    assert s'.writes == s.writes - {k};
  }

  // ---------------------------------------------------------------- a crash

  /** The first batch is written without interruption. */
  lemma FirstBatch() returns (states: seq<State>, actions: seq<Action>, s: State)
    ensures Reaches(states, actions, s) && Inv(s) && NoPruning(actions) && Tame(states, actions)
    ensures s.table == map[0 := AT1] && s.files == map[K1 := F1] && s.writes == map[] && s.passes == map[]
    ensures s.nextLsn == 22 && K1 in s.pathed && s.present == {K1}
    ensures s.disk == map[K1 := F1] && s.history == map[1 := F1.vals] && K1 in s.described && s.claimed == {}
    ensures s.live == map[K1 := 1]
  {
    hide Enabled, Apply, Inv, Reaches, NoPruning, NoRewriting, Tame, Raw, DoStart, File.WellFormed;
    states, actions, s := Begins();
    InstallReady(s, K1);
    var s1 := s;
    states, actions, s := Go(states, actions, s, Install(K1, 0));
    E.InstallEffect(s1, K1, 0);
    assert 0 in F1.locs && {0} - {0} == {};
    assert s.table == map[0 := AT1] && s.writes == map[K1 := INSTALLED];
    RenameFresh(s, K1);
    var s2 := s;
    states, actions, s := Go(states, actions, s, Rename(K1));
    assert s.disk == map[K1 := F1] && s.history == map[1 := F1.vals]
      && s.writes == map[K1 := INSTALLED.(phase := Renamed)];
    states, actions, s := Closes(states, actions, s, K1);
    assert s.writes == map[] && s.claimed == {} && s.live == map[K1 := 1];
  }

  /** A crash in the middle of a write, without any overlap: the object already reads as the batch says, but
      the batch is not renamed, and after the crash the object reads as before. */
  lemma CrashMidWrite() returns (states: seq<State>, actions: seq<Action>, i: nat)
    ensures IsCarefulRun(states, actions) && i < |actions| && actions[i] == Crash
    ensures K2 in states[i].writes && states[i].writes[K2].phase == Installing
    ensures 0 in View(states[i]) && View(states[i])[0] == Some(SECOND)
    ensures 0 in View(states[i + 1]) && View(states[i + 1])[0] == Some(FIRST)
  {
    hide Enabled, Apply, Inv, Reaches, Tame, NoPruning, NoRewriting, Raw, DoStart, File.WellFormed, View, Replay;
    var s;
    states, actions, s := FirstBatch();
    var s1 := s;
    StartReady(s1, F2);
    states, actions, s := Go(states, actions, s1, StartWrite(F2));
    E.StartEffect(s1, StartWrite(F2), F2);
    Reserved(s1, s);
    var s2 := s;
    InstallReady(s2, K2);
    states, actions, s := Go(states, actions, s2, Install(K2, 0));
    E.InstallEffect(s2, K2, 0);
    LaterIsHigher();
    SecondReads(s);
    assert 0 in F2.locs;
    i := |actions|;
    CrashReady(s);
    var before, states0, actions0 := s, states, actions;
    states, actions, s := Go(states0, actions0, s, Crash);
    ReachesEnd(states0, actions0, before);
    assert states[i] == before && actions[i] == Crash;
    ReachesEnd(states, actions, s);
    CarefulToo(states0, actions0, states, actions, Crash);
    CrashStepRecovers(states, actions, i);
    CommittedFirst(before.history);
  }

  lemma ReachesEnd(states: seq<State>, actions: seq<Action>, s: State)
    requires Reaches(states, actions, s)
    ensures IsRun(states, actions) && |states| == |actions| + 1 && states[|actions|] == s
  {
    hide Enabled, Apply, Inv;
  }

  /** A step that neither begins a rewrite nor prunes makes no run careless. */
  lemma CarefulToo(states: seq<State>, actions: seq<Action>, states': seq<State>, actions': seq<Action>, a: Action)
    requires Tame(states, actions) && !a.StartGc? && !a.Remove? && IsRun(states', actions')
    requires states <= states' && actions' == actions + [a]
    ensures IsCarefulRun(states', actions')
  {
    hide NoneInstalling, Enabled, Apply;
    forall i | 0 <= i < |actions'| ensures Careful(states'[i], actions'[i]) {
      if i < |actions| { assert states'[i] == states[i] && Careful(states[i], actions[i]); }
    }
  }

  lemma SecondReads(s: State)
    requires K2 in s.files && s.files[K2] == F2 && 0 in s.table && s.table[0].file == K2
    ensures 0 in View(s) && View(s)[0] == Some(SECOND)
  {
    assert F2.vals[0] == Some(SECOND);
  }

  lemma CrashReady(s: State)
    requires s.disk == map[K1 := F1]
    ensures Enabled(s, Crash)
  {
    CrashPossible(s);
  }

  // ---------------------------------------------------------------- a rewrite begins

  lemma Reserved(s: State, s': State)
    requires s.files == map[K1 := F1] && s.writes == map[] && s.claimed == {} && s.live == map[K1 := 1]
    requires s.nextLsn == 22
    requires s' == DoStart(s, F2, map[])
    ensures s'.files == map[K1 := F1, K2 := F2] && s'.writes == map[K2 := STARTED] && s'.claimed == {K2}
    ensures s'.live == map[K1 := 1, K2 := 1]
    ensures s'.nextLsn == 44 && s'.table == s.table && s'.passes == s.passes && s'.disk == s.disk
    ensures s'.history == s.history
    ensures s'.described == s.described
  {
    Shapes();
    hide File.WellFormed, File.Key;
  }

  /** The second batch reserves its sequence number, then maintenance claims and scans the first file. */
  lemma Scans(states: seq<State>, actions: seq<Action>, s: State)
    returns (states': seq<State>, actions': seq<Action>, s': State)
    requires Reaches(states, actions, s) && Inv(s) && NoPruning(actions)
    requires s.table == map[0 := AT1] && s.files == map[K1 := F1] && s.writes == map[] && s.passes == map[]
    requires s.nextLsn == 22
    requires s.disk == map[K1 := F1] && s.history == map[1 := F1.vals] && K1 in s.described && s.claimed == {}
    requires s.live == map[K1 := 1]
    ensures Reaches(states', actions', s') && Inv(s') && NoPruning(actions')
    ensures s'.table == map[0 := AT1] && s'.files == map[K1 := F1, K2 := F2] && s'.writes == map[K2 := STARTED]
    ensures s'.nextLsn == 44
    ensures s'.disk == map[K1 := F1] && s'.history == map[1 := F1.vals]
    ensures 7 in s'.passes && s'.passes[7].scanned == map[0 := AT1] && s'.passes[7].batch == F1.vals
  {
    hide Enabled, Apply, Inv, Reaches, NoPruning, NoRewriting, Tame, Raw, DoStart, File.WellFormed;
    StartReady(s, F2);
    states', actions', s' := Go(states, actions, s, StartWrite(F2));
    E.StartEffect(s, StartWrite(F2), F2);
    Reserved(s, s');
    var s1 := s';
    PassReady(s1);
    states', actions', s' := Go(states', actions', s', Begin(7));
    E.BeginEffect(s1, 7);
    E.NoteEffect(s1, Begin(7));
    var s2 := s';
    LookReady(s2);
    states', actions', s' := Go(states', actions', s', LookFragmented(7, K1));
    E.LookEffect(s2, 7, K1);
    E.NoteEffect(s2, LookFragmented(7, K1));
    var s3 := s';
    E.ClaimEffect(s3, 7);
    states', actions', s' := Go(states', actions', s', Claim(7));
    var s4 := s';
    ScanReady(s4);
    states', actions', s' := Go(states', actions', s', Scan(7, K1, 0));
    E.ScanEffect(s4, 7, K1, 0);
    E.NoteEffect(s4, Scan(7, K1, 0));
    assert s'.passes[7].batch == F1.vals;
  }

  lemma PassReady(s: State)
    requires 7 !in s.passes
    ensures Enabled(s, Begin(7))
  {
  }

  lemma LookReady(s: State)
    requires 7 in s.passes && K1 in s.described && K1 in s.live && s.live[K1] != 0
    ensures Enabled(s, LookFragmented(7, K1))
  {
  }

  lemma ScanReady(s: State)
    requires 7 in s.passes && K1 in s.passes[7].claims && K1 in s.described && K1 in s.files && 0 in s.files[K1].locs
    ensures Enabled(s, Scan(7, K1, 0))
  {
  }

  lemma CopyReady(s: State)
    requires s.nextLsn == 44 && 7 in s.passes && s.passes[7].scanned == map[0 := AT1] && s.passes[7].batch == F1.vals
    ensures Enabled(s, StartGc(7, G))
  {
    Shapes();
    hide File.WellFormed, NextLsn, Surviving;
    assert G.vals == F1.vals;
  }

  const W3 := Write(map[0 := AT1], {0}, map[], {}, Installing)

  lemma CopyStarted(s: State, s': State)
    requires s.files == map[K1 := F1, K2 := F2] && s.writes == map[K2 := STARTED] && s' == DoStart(s, G, map[0 := AT1])
    ensures s'.files == map[K1 := F1, K2 := F2, 44 := G] && s'.writes == map[K2 := STARTED, 44 := W3]
    ensures s'.table == s.table && s'.disk == s.disk && s'.history == s.history
  {
    Shapes();
    hide File.WellFormed, File.Key;
  }

  lemma CopyInstalled(s: State, s': State)
    requires s.files == map[K1 := F1, K2 := F2, 44 := G] && s.writes == map[K2 := STARTED, 44 := W3]
    requires s.table == map[0 := AT1]
    requires s'.table == s.table[0 := AT3]
    requires s' == s.(table := s'.table, writes := s'.writes, adds := s'.adds, removes := s'.removes)
    requires s'.writes == s.writes[44 := s.writes[44].(todo := s.writes[44].todo - {0},
                                                                replaced := s.writes[44].replaced[0 := AT1])]
    ensures s'.table == map[0 := AT3] && K2 in s'.writes && s'.writes[K2] == STARTED && 44 in s'.writes
    ensures s'.writes[44].phase == Installing && s'.writes[44].todo == {} && s'.writes[44].failed == {}
  {
  }

  /** Maintenance copies the object and renames its file. */
  lemma Copies(states: seq<State>, actions: seq<Action>, s: State)
    returns (states': seq<State>, actions': seq<Action>, s': State)
    requires Reaches(states, actions, s) && Inv(s) && NoPruning(actions)
    requires s.table == map[0 := AT1] && s.files == map[K1 := F1, K2 := F2] && s.writes == map[K2 := STARTED]
    requires s.nextLsn == 44
    requires s.disk == map[K1 := F1] && s.history == map[1 := F1.vals]
    requires 7 in s.passes && s.passes[7].scanned == map[0 := AT1] && s.passes[7].batch == F1.vals
    ensures Reaches(states', actions', s') && Inv(s') && NoPruning(actions')
    ensures s'.table == map[0 := AT3] && s'.files == map[K1 := F1, K2 := F2, 44 := G] && K2 in s'.writes
    ensures s'.writes[K2] == STARTED
    ensures s'.disk == map[K1 := F1, 44 := G] && s'.history == map[1 := F1.vals]
  {
    hide Enabled, Apply, Inv, Reaches, NoPruning, NoRewriting, Tame, Raw, DoStart, File.WellFormed;
    CopyReady(s);
    states', actions', s' := Go(states, actions, s, StartGc(7, G));
    E.StartEffect(s, StartGc(7, G), G);
    CopyStarted(s, s');
    var s1 := s';
    InstallReady(s1, 44);
    states', actions', s' := Go(states', actions', s', Install(44, 0));
    E.InstallEffect(s1, 44, 0);
    CopyInstalled(s1, s');
    var s2 := s';
    assert 0 in G.locs;
    RenameWhole(s2, 44);
    states', actions', s' := Go(states', actions', s', Rename(44));
  }

  /** The second batch is installed over the copy and renamed. */
  lemma Overtakes(states: seq<State>, actions: seq<Action>, s: State)
    returns (states': seq<State>, actions': seq<Action>, s': State)
    requires Reaches(states, actions, s) && Inv(s) && NoPruning(actions)
    requires s.table == map[0 := AT3] && s.files == map[K1 := F1, K2 := F2, 44 := G] && K2 in s.writes
    requires s.writes[K2] == STARTED
    requires s.disk == map[K1 := F1, 44 := G] && s.history == map[1 := F1.vals]
    ensures Reaches(states', actions', s') && Inv(s') && NoPruning(actions')
    ensures s'.table == map[0 := AT2] && s'.files == map[K1 := F1, K2 := F2, 44 := G]
    ensures s'.disk == map[K1 := F1, 44 := G, K2 := F2] && s'.history == map[1 := F1.vals, 22 := F2.vals]
  {
    hide Enabled, Apply, Inv, Reaches, NoPruning, NoRewriting, Tame, File.WellFormed;
    InstallReady(s, K2);
    states', actions', s' := Go(states, actions, s, Install(K2, 0));
    E.InstallEffect(s, K2, 0);
    assert Raw(AT3) < Raw(AT2);
    var s1 := s';
    assert {0} - {0} == {};
    assert 0 in F2.locs;
    RenameFresh(s1, K2);
    states', actions', s' := Go(states', actions', s', Rename(K2));
  }

  lemma LatestIsCopy()
    ensures IsLatest(map[K1 := F1, 44 := G, K2 := F2], 0, 44)
  {
    Shapes();
    hide File.WellFormed, File.Key;
  }

  lemma RecoversFirst(s: State)
    requires s.disk == map[K1 := F1, 44 := G, K2 := F2] && R.DirectoryOk(s.disk)
    ensures 0 in View(Recovered(s, s.disk)) && View(Recovered(s, s.disk))[0] == Some(FIRST)
  {
    LatestIsCopy();
    hide RecoveredTable, IsLatest, R.DirectoryOk, Attributed, MonotonicOrder, NextLsn, IsPredecessor;
    assert 44 in s.disk && s.disk[44] == G && 0 in G.locs;
    assert 0 in Objects(s.disk);
    R.RecoveredEntry(s.disk, 0);
    R.LatestUnique(s.disk, 0, 44, RecoveredTable(s.disk)[0].file);
  }

  lemma CommittedSecond(history: map<nat, Batch>)
    requires history == map[1 := F1.vals, 22 := F2.vals]
    ensures 0 in Replay(history) && Replay(history)[0] == Some(SECOND)
  {
    hide Replay;
    assert history[22] == F2.vals && F2.vals[0] == Some(SECOND);
    assert IsLast(history, 0, 22);
    CurrentIsReplay(history, 0, Some(SECOND));
  }

  lemma ReadsSecond(s: State)
    requires s.files == map[K1 := F1, K2 := F2, 44 := G] && s.table == map[0 := AT2]
    ensures 0 in View(s) && View(s)[0] == Some(SECOND)
  {
    assert s.files[K2] == F2 && F2.vals[0] == Some(SECOND);
  }

  /** If a rewrite may begin between a batch's reservation and its rename, crash atomicity fails: in this
      run both batches are committed and the store reads as the second, but a crash brings the first one
      back. */
  lemma RewriteLosesCommitted() returns (states: seq<State>, actions: seq<Action>)
    ensures IsRun(states, actions) && NoPruning(actions) && !IsCarefulRun(states, actions)
    ensures var s := states[|actions|]; var v := View(Recovered(s, s.disk));
      && 0 in View(s) && View(s)[0] == Some(SECOND) && 0 in Replay(s.history) && Replay(s.history)[0] == Some(SECOND)
      && 0 in v && v[0] == Some(FIRST)
  {
    hide Enabled, Apply, Inv, View, Recovered, Replay, R.DirectoryOk, NoPruning, Tame;
    var s;
    states, actions, s := FirstBatch();
    states, actions, s := Scans(states, actions, s);
    states, actions, s := Copies(states, actions, s);
    states, actions, s := Overtakes(states, actions, s);
    DirectoryIsOk(s, s.disk);
    RecoversFirst(s);
    CommittedSecond(s.history);
    ReadsSecond(s);
    hide IsCarefulRun;
    if IsCarefulRun(states, actions) { CrashRecoversCommitted(states, actions, |actions|); }
  }

  // ---------------------------------------------------------------- a file is pruned

  /** The second batch reserves its number before the first installs anything. */
  lemma BothReserve() returns (states: seq<State>, actions: seq<Action>, s: State)
    ensures Reaches(states, actions, s) && Inv(s) && NoRewriting(actions)
    ensures s.table == map[] && s.files == map[K1 := F1, K2 := F2] && s.writes == map[K1 := STARTED, K2 := STARTED]
    ensures s.disk == map[] && s.history == map[] && s.live == map[K1 := 1, K2 := 1] && s.passes == map[]
  {
    hide Enabled, Apply, Inv, Reaches, NoPruning, NoRewriting, Tame, DoStart, File.WellFormed;
    states, actions, s := Begins();
    StartReady(s, F2);
    var s1 := s;
    states, actions, s := Go(states, actions, s, StartWrite(F2));
    E.StartEffect(s1, StartWrite(F2), F2);
    SecondReserved(s1, s);
  }

  lemma SecondReserved(s: State, s': State)
    requires s.files == map[K1 := F1] && s.writes == map[K1 := STARTED] && s.live == map[K1 := 1]
    requires s' == DoStart(s, F2, map[])
    ensures s'.files == map[K1 := F1, K2 := F2] && s'.writes == map[K1 := STARTED, K2 := STARTED]
    ensures s'.live == map[K1 := 1, K2 := 1] && s'.table == s.table && s'.disk == s.disk && s'.history == s.history
    ensures s'.passes == s.passes
  {
    Shapes();
    hide File.WellFormed, File.Key;
  }

  /** The second batch installs the object, so that the first one fails to, but is committed all the same. */
  lemma FirstIsBeaten(states: seq<State>, actions: seq<Action>, s: State)
    returns (states': seq<State>, actions': seq<Action>, s': State)
    requires Reaches(states, actions, s) && Inv(s) && NoRewriting(actions)
    requires s.table == map[] && s.files == map[K1 := F1, K2 := F2] && s.writes == map[K1 := STARTED, K2 := STARTED]
    requires s.disk == map[] && s.history == map[] && s.live == map[K1 := 1, K2 := 1] && s.passes == map[]
    ensures Reaches(states', actions', s') && Inv(s') && NoRewriting(actions')
    ensures s'.files == map[K1 := F1, K2 := F2] && s'.writes == map[K2 := INSTALLED] && s'.disk == map[K1 := F1]
    ensures s'.history == map[1 := F1.vals] && s'.live == map[K1 := 0, K2 := 1] && K1 !in s'.claimed
    ensures s'.passes == map[]
    ensures K1 in s'.pathed
  {
    hide Enabled, Apply, Inv, Reaches, NoPruning, NoRewriting, Tame, DoStart, File.WellFormed, Raw;
    assert 0 in F1.locs && 0 in F2.locs && {0} - {0} == {} && {} + {0} == {0};
    InstallReady(s, K2);
    states', actions', s' := Go(states, actions, s, Install(K2, 0));
    E.InstallEffect(s, K2, 0);
    assert s'.table == map[0 := AT2] && s'.writes == map[K1 := STARTED, K2 := INSTALLED];
    InstallReady(s', K1);
    var s1 := s';
    states', actions', s' := Go(states', actions', s', Install(K1, 0));
    E.InstallEffect(s1, K1, 0);
    LaterIsHigher();
    assert s'.writes == map[K1 := BEATEN, K2 := INSTALLED];
    RenameFresh(s', K1);
    states', actions', s' := Go(states', actions', s', Rename(K1));
    assert s'.writes == map[K1 := BEATEN.(phase := Renamed), K2 := INSTALLED];
    states', actions', s' := Closes(states', actions', s', K1);
    assert s'.writes == map[K2 := INSTALLED] && s'.live == map[K1 := 0, K2 := 1];
  }

  lemma LaterIsHigher()
    ensures Raw(AT1) < Raw(AT2)
  {
  }

  /** Maintenance finds the first file empty and drops it from the map. */
  lemma Prunes(states: seq<State>, actions: seq<Action>, s: State)
    returns (states': seq<State>, actions': seq<Action>, s': State)
    requires K1 in s.pathed && K1 in s.live && s.live[K1] == 0 && K1 !in s.claimed && s.passes == map[]
    requires Reaches(states, actions, s) && Inv(s)
    ensures Reaches(states', actions', s') && Inv(s') && 7 in s'.passes
    ensures s' == s.(present := s.present - {K1}, claimed := s'.claimed, passes := s'.passes)
    ensures (NoRewriting(actions) ==> NoRewriting(actions')) && states <= states'
    ensures Tame(states, actions) && s.writes == map[] ==> Tame(states', actions')
  {
    hide Enabled, Apply, Inv, Reaches, NoPruning, NoRewriting, Tame;
    PassReady(s);
    states', actions', s' := Go(states, actions, s, Begin(7));
    E.BeginEffect(s, 7);
    E.NoteEffect(s, Begin(7));
    var s1 := s';
    EmptyReady(s1);
    states', actions', s' := Go(states', actions', s', LookEmpty(7, K1));
    E.LookEffect(s1, 7, K1);
    E.NoteEffect(s1, LookEmpty(7, K1));
    E.ClaimEffect(s', 7);
    states', actions', s' := Go(states', actions', s', Claim(7));
    var s2 := s';
    PruneReady(s2);
    states', actions', s' := Go(states', actions', s', Remove(7, K1));
    E.RemoveEffect(s2, 7, K1);
  }

  lemma EmptyReady(s: State)
    requires 7 in s.passes && K1 in s.pathed && K1 in s.live && s.live[K1] == 0
    ensures Enabled(s, LookEmpty(7, K1))
  {
  }

  lemma PruneReady(s: State)
    requires 7 in s.passes
    ensures K1 in s.passes[7].empties ==> Enabled(s, Remove(7, K1))
    ensures K1 in s.files && K1 in s.live && K1 !in s.present && K1 !in s.writes ==> Enabled(s, Delete(K1))
  {
  }

  lemma RecoversNothing(s: State)
    requires s.disk == map[]
    ensures 0 !in View(Recovered(s, s.disk))
  {
    hide Attributed, MonotonicOrder, NextLsn, IsPredecessor;
    assert Objects(s.disk) == {};
  }

  lemma CommittedFirst(history: map<nat, Batch>)
    requires history == map[1 := F1.vals]
    ensures 0 in Replay(history) && Replay(history)[0] == Some(FIRST)
  {
    hide Replay;
    assert history[1] == F1.vals && F1.vals[0] == Some(FIRST);
    assert IsLast(history, 0, 1);
    CurrentIsReplay(history, 0, Some(FIRST));
  }

  /** If a file may be pruned between a batch's reservation and its rename, crash atomicity fails: the first
      batch was overtaken, committed and returned, its file was pruned as empty, and the batch that
      overtook it is not committed yet. A crash loses it. */
  lemma PruningLosesCommitted() returns (states: seq<State>, actions: seq<Action>)
    ensures IsRun(states, actions) && NoRewriting(actions) && !IsCarefulRun(states, actions)
    ensures var s := states[|actions|];
      0 in Replay(s.history) && Replay(s.history)[0] == Some(FIRST) && 0 !in View(Recovered(s, s.disk))
  {
    hide Enabled, Apply, Inv, View, Recovered, Replay, NoRewriting, Tame;
    var s;
    states, actions, s := BothReserve();
    states, actions, s := FirstIsBeaten(states, actions, s);
    states, actions, s := Prunes(states, actions, s);
    PruneReady(s);
    var s1 := s;
    states, actions, s := Go(states, actions, s, Delete(K1));
    E.DeleteEffect(s1, K1);
    assert s.disk == map[];
    RecoversNothing(s);
    CommittedFirst(s.history);
    hide IsCarefulRun;
    if IsCarefulRun(states, actions) { CrashRecoversCommitted(states, actions, |actions|); }
  }
}
