/** A run that comes to scan a record which its file has lost: a rewrite copies two objects, a batch has
    replaced one of them in the meantime, the store is opened again, and maintenance looks at the copy. */
module Leftovers {
  import opened Basics
  import opened DiskLocations
  import opened Protocol
  import opened Invariant
  import opened Overlap
  import R = Reopening
  import C = Concurrency
  import E = Effects

  const SECOND_RECORD: Relative := Relative(20, false)

  const BOTH: Batch := map[0 := Some(FIRST), 1 := Some(FIRST)]
  const PLACES: map<ObjectId, Relative> := map[0 := HEADER, 1 := SECOND_RECORD]

  /** A batch of two empty objects, a batch that replaces the first of them, and a copy of the first batch. */
  const FA := File(0, 1, 40, 92, 2, PLACES, BOTH, map[])
  const FB := File(0, 42, 21, 57, 1, map[0 := HEADER], map[0 := Some(SECOND)], map[])
  const FC := File(1, 64, 40, 92, 2, PLACES, BOTH, map[])
  const KA: Lsn := 1 + BIT
  const KB: Lsn := 42 + BIT
  const KC: Lsn := 64

  const SCANNED: map<ObjectId, Loc> := map[0 := Loc(KA, HEADER), 1 := Loc(KA, SECOND_RECORD)]

  lemma TheShapes()
    ensures FA.WellFormed() && FB.WellFormed() && FC.WellFormed()
    ensures FA.Key() == KA && FB.Key() == KB && FC.Key() == KC
    ensures PLACES.Keys == {0, 1} && |PLACES| == 2 && BOTH.Keys == {0, 1} && |FB.locs| == 1 && FB.locs.Keys == {0}
  {
    assert PLACES.Keys == {0, 1} == BOTH.Keys;
    assert |PLACES| == |PLACES.Keys| == 2;
    assert FB.locs.Keys == {0} == FB.vals.Keys;
    assert 0 in PLACES && 0 in FB.locs;
  }

  // ---------------------------------------------------------------- what can be done next

  lemma WritesReady(s: State)
    ensures s.nextLsn == 1 ==> Enabled(s, StartWrite(FA))
    ensures s.nextLsn == 42 ==> Enabled(s, StartWrite(FB))
    ensures s.nextLsn == 64 && 7 in s.passes && s.passes[7].scanned == SCANNED && s.passes[7].batch == BOTH ==>
      Enabled(s, StartGc(7, FC))
  {
    TheShapes();
    hide File.WellFormed, NextLsn, Surviving;
  }

  lemma InstallsReady(s: State, k: Lsn, o: ObjectId)
    requires k in s.writes && o in s.writes[k].todo && s.writes[k].phase == Installing
    ensures Enabled(s, Install(k, o))
  {
  }

  lemma LooksReady(s: State, k: Lsn, o: ObjectId)
    requires 7 in s.passes
    ensures k in s.described && k in s.live && s.live[k] != 0 ==> Enabled(s, LookFragmented(7, k))
    ensures k in s.passes[7].claims && k in s.described && k in s.files && o in s.files[k].locs ==>
      Enabled(s, Scan(7, k, o))
    ensures k in s.passes[7].claims && k in s.described && k in s.files && o in s.files[k].lost ==>
      Enabled(s, ScanLost(7, k, o))
  {
  }

  // ---------------------------------------------------------------- the run

  /** Two objects are installed and their file closed. */
  lemma BothWritten() returns (states: seq<State>, actions: seq<Action>, s: State)
    ensures Reaches(states, actions, s) && Inv(s)
    ensures s.table == SCANNED && s.files == map[KA := FA] && s.writes == map[] && s.passes == map[] && s.nextLsn == 42
    ensures s.disk == map[KA := FA] && KA in s.described && s.claimed == {} && s.live == map[KA := 2]
  {
    hide Enabled, Apply, Inv, Reaches, NoPruning, NoRewriting, Tame, Raw, DoStart, File.WellFormed;
    var s0 := Initial();
    StartsRun();
    WritesReady(s0);
    states, actions, s := Go([s0], [], s0, StartWrite(FA));
    E.StartEffect(s0, StartWrite(FA), FA);
    FirstStarted(s);
    var s1 := s;
    InstallsReady(s1, KA, 0);
    states, actions, s := Go(states, actions, s1, Install(KA, 0));
    E.InstallEffect(s1, KA, 0);
    assert s.table == map[0 := Loc(KA, HEADER)] && s.writes == map[KA := Write(map[], {1}, map[], {}, Installing)] by {
      assert {0, 1} - {0} == {1};
    }
    var s2 := s;
    InstallsReady(s2, KA, 1);
    states, actions, s := Go(states, actions, s2, Install(KA, 1));
    E.InstallEffect(s2, KA, 1);
    assert s.table == SCANNED && s.writes == map[KA := INSTALLED] by { assert {1} - {1} == {}; }
    assert 0 in FA.locs;
    RenameFresh(s, KA);
    states, actions, s := Go(states, actions, s, Rename(KA));
    assert s.writes == map[KA := INSTALLED.(phase := Renamed)] && s.disk == map[KA := FA];
    states, actions, s := Closes(states, actions, s, KA);
    assert s.writes == map[] && s.claimed == {} && s.live == map[KA := 2];
  }

  lemma StartsRun()
    ensures Reaches([Initial()], [], Initial()) && Inv(Initial())
  {
    C.InitialInv();
  }

  lemma FirstStarted(s: State)
    requires s == DoStart(Initial(), FA, map[])
    ensures s == Initial().(files := map[KA := FA], present := {KA}, live := map[KA := 2], claimed := {KA},
                            nextLsn := 42, panicked := s.panicked,
                            writes := map[KA := Write(map[], {0, 1}, map[], {}, Installing)])
  {
    TheShapes();
    hide File.WellFormed, File.Key;
  }

  /** A pass claims the file and scans both objects. */
  lemma BothScanned(states: seq<State>, actions: seq<Action>, s: State)
    returns (states': seq<State>, actions': seq<Action>, s': State)
    requires s.table == SCANNED && s.files == map[KA := FA] && s.writes == map[] && s.passes == map[] && s.nextLsn == 42
    requires s.disk == map[KA := FA] && KA in s.described && s.claimed == {} && s.live == map[KA := 2]
    requires Reaches(states, actions, s) && Inv(s)
    ensures Reaches(states', actions', s') && Inv(s')
    ensures s'.table == SCANNED && s'.files == map[KA := FA] && s'.writes == map[] && s'.nextLsn == 42
    ensures s'.disk == map[KA := FA]
    ensures 7 in s'.passes && s'.passes[7].scanned == SCANNED && s'.passes[7].batch == BOTH
  {
    hide Enabled, Apply, Inv, Reaches, NoPruning, NoRewriting, Tame, Raw, File.WellFormed;
    PassReady(s);
    states', actions', s' := Go(states, actions, s, Begin(7));
    E.BeginEffect(s, 7);
    E.NoteEffect(s, Begin(7));
    var s1 := s';
    LooksReady(s1, KA, 0);
    states', actions', s' := Go(states', actions', s1, LookFragmented(7, KA));
    E.LookEffect(s1, 7, KA);
    E.NoteEffect(s1, LookFragmented(7, KA));
    E.ClaimEffect(s', 7);
    states', actions', s' := Go(states', actions', s', Claim(7));
    var s2 := s';
    assert 0 in FA.locs && 1 in FA.locs && 0 in FA.vals && 1 in FA.vals;
    LooksReady(s2, KA, 0);
    states', actions', s' := Go(states', actions', s2, Scan(7, KA, 0));
    E.ScanEffect(s2, 7, KA, 0);
    E.NoteEffect(s2, Scan(7, KA, 0));
    var s3 := s';
    LooksReady(s3, KA, 1);
    states', actions', s' := Go(states', actions', s3, Scan(7, KA, 1));
    E.ScanEffect(s3, 7, KA, 1);
    E.NoteEffect(s3, Scan(7, KA, 1));
    assert s'.passes[7].scanned == SCANNED && s'.passes[7].batch == BOTH;
  }

  const REPLACED := Write(map[], {}, map[0 := Loc(KA, HEADER)], {}, Renamed)

  /** The second batch replaces the first object. */
  lemma FirstReplaced(states: seq<State>, actions: seq<Action>, s: State)
    returns (states': seq<State>, actions': seq<Action>, s': State)
    requires s.table == SCANNED && s.files == map[KA := FA] && s.writes == map[] && s.nextLsn == 42
    requires s.disk == map[KA := FA]
    requires 7 in s.passes && s.passes[7].scanned == SCANNED && s.passes[7].batch == BOTH
    requires Reaches(states, actions, s) && Inv(s)
    ensures Reaches(states', actions', s') && Inv(s') && s'.passes == s.passes && s'.nextLsn == 64
    ensures s'.table == map[0 := Loc(KB, HEADER), 1 := Loc(KA, SECOND_RECORD)]
    ensures s'.files == map[KA := FA, KB := FB] && s'.disk == map[KA := FA, KB := FB]
    ensures s'.writes == map[KB := REPLACED]
  {
    hide Enabled, Apply, Inv, Reaches, NoPruning, NoRewriting, Tame, Raw, DoStart, File.WellFormed;
    WritesReady(s);
    states', actions', s' := Go(states, actions, s, StartWrite(FB));
    E.StartEffect(s, StartWrite(FB), FB);
    SecondStarted(s, s');
    var s1 := s';
    InstallsReady(s1, KB, 0);
    states', actions', s' := Go(states', actions', s1, Install(KB, 0));
    E.InstallEffect(s1, KB, 0);
    SecondIsHigher();
    assert s'.writes == map[KB := REPLACED.(phase := Installing)] by { assert {0} - {0} == {}; }
    assert s'.table == map[0 := Loc(KB, HEADER), 1 := Loc(KA, SECOND_RECORD)];
    assert 0 in FB.locs;
    RenameFresh(s', KB);
    states', actions', s' := Go(states', actions', s', Rename(KB));
    assert s'.writes == map[KB := REPLACED] && s'.disk == map[KA := FA, KB := FB];
  }

  lemma SecondStarted(s: State, s': State)
    requires s.files == map[KA := FA] && s.writes == map[] && s.nextLsn == 42 && s' == DoStart(s, FB, map[])
    ensures s'.files == map[KA := FA, KB := FB] && s'.writes == map[KB := STARTED] && s'.nextLsn == 64
    ensures s'.table == s.table && s'.passes == s.passes && s'.disk == s.disk
  {
    TheShapes();
    hide File.WellFormed, File.Key;
  }

  lemma SecondIsHigher()
    ensures Raw(Loc(KA, HEADER)) < Raw(Loc(KB, HEADER))
  {
  }

  const COPYING := Write(SCANNED, {0, 1}, map[], {}, Installing)

  /** The copy loses the first object, and is renamed with the second alone in its trailer. */
  lemma CopyLoses(states: seq<State>, actions: seq<Action>, s: State)
    returns (states': seq<State>, actions': seq<Action>, s': State)
    requires s.table == map[0 := Loc(KB, HEADER), 1 := Loc(KA, SECOND_RECORD)] && s.nextLsn == 64
    requires s.files == map[KA := FA, KB := FB] && s.disk == map[KA := FA, KB := FB] && s.writes == map[KB := REPLACED]
    requires 7 in s.passes && s.passes[7].scanned == SCANNED && s.passes[7].batch == BOTH
    requires Reaches(states, actions, s) && Inv(s)
    ensures Reaches(states', actions', s') && Inv(s')
    ensures s'.disk == map[KA := FA, KB := FB, KC := FC.Without({0})]
  {
    hide Enabled, Apply, Inv, Reaches, NoPruning, NoRewriting, Tame, Raw, DoStart, File.WellFormed, File.Without;
    WritesReady(s);
    states', actions', s' := Go(states, actions, s, StartGc(7, FC));
    E.StartEffect(s, StartGc(7, FC), FC);
    CopyBegins(s, s');
    var s1 := s';
    InstallsReady(s1, KC, 0);
    states', actions', s' := Go(states', actions', s1, Install(KC, 0));
    E.InstallEffect(s1, KC, 0);
    assert s'.table == s1.table;
    assert s'.writes == map[KB := REPLACED, KC := COPYING.(todo := {1}, failed := {0})] by {
      assert {0, 1} - {0} == {1} && {} + {0} == {0};
    }
    var s2 := s';
    InstallsReady(s2, KC, 1);
    states', actions', s' := Go(states', actions', s2, Install(KC, 1));
    E.InstallEffect(s2, KC, 1);
    assert KC in s'.writes && s'.writes[KC].todo == {} && s'.writes[KC].failed == {0} by { assert {1} - {1} == {}; }
    CopyRenames(s');
    states', actions', s' := Go(states', actions', s', Rename(KC));
  }

  lemma CopyBegins(s: State, s': State)
    requires s.files == map[KA := FA, KB := FB] && s.writes == map[KB := REPLACED] && s' == DoStart(s, FC, SCANNED)
    ensures s'.files == map[KA := FA, KB := FB, KC := FC] && s'.writes == map[KB := REPLACED, KC := COPYING]
    ensures s'.table == s.table && s'.disk == s.disk
  {
    TheShapes();
    hide File.WellFormed, File.Key;
  }

  lemma CopyRenames(s: State)
    requires KC in s.files && s.files[KC] == FC && s.disk == map[KA := FA, KB := FB]
    requires KC in s.writes && s.writes[KC].phase == Installing && s.writes[KC].todo == {} && s.writes[KC].failed == {0}
    ensures Enabled(s, Rename(KC)) && Apply(s, Rename(KC)).disk == map[KA := FA, KB := FB, KC := FC.Without({0})]
  {
    LeftOver();
    hide File.Without, NextLsn, Surviving, Recovered, ApplyPass, DoStart, DoInstall, DoDecrement, DoSubtract;
    assert Trailer(s, KC) == FC.Without({0}) && 1 in FC.Without({0}).locs;
    assert Apply(s, Rename(KC)) == DoRename(s, KC);
  }

  lemma LeftOver()
    ensures var f := FC.Without({0});
      && 0 in f.lost && 1 in f.locs && f.base == 64 && f.size <= 92 && f.locs == map[1 := SECOND_RECORD]
  {
    assert 0 in FC.locs && 0 in FC.vals && 1 in FC.locs;
  }

  /** Scans of lost records do happen: this run ends in a state where one is possible. */
  lemma LostRecordScanned() returns (states: seq<State>, actions: seq<Action>)
    ensures IsRun(states, actions) && Enabled(states[|actions|], ScanLost(7, KC, 0))
  {
    hide Enabled, Apply, Inv, Reaches, NoPruning, NoRewriting, Tame, File.Without, Recovered;
    var s;
    states, actions, s := BothWritten();
    states, actions, s := BothScanned(states, actions, s);
    states, actions, s := FirstReplaced(states, actions, s);
    states, actions, s := CopyLoses(states, actions, s);
    var s1 := s;
    LeftOver();
    CrashNow(s1);
    states, actions, s := Go(states, actions, s1, Crash);
    Reopens(s1, s);
    var s2 := s;
    PassReady(s2);
    states, actions, s := Go(states, actions, s2, Begin(7));
    E.BeginEffect(s2, 7);
    E.NoteEffect(s2, Begin(7));
    var s3 := s;
    LooksReady(s3, KC, 0);
    states, actions, s := Go(states, actions, s3, LookFragmented(7, KC));
    E.LookEffect(s3, 7, KC);
    E.NoteEffect(s3, LookFragmented(7, KC));
    E.ClaimEffect(s, 7);
    states, actions, s := Go(states, actions, s, Claim(7));
    LooksReady(s, KC, 0);
    ReachesEnd(states, actions, s);
  }

  lemma CrashNow(s: State)
    requires s.disk == map[KA := FA, KB := FB, KC := FC.Without({0})]
    ensures Enabled(s, Crash) && Apply(s, Crash) == Recovered(s, s.disk)
  {
    hide Recovered, NextLsn, File.Without;
    LeftOver();
    var j, k := R.NextLsnIs(s.disk);
  }

  /** After the crash the copy is known, described and not empty. */
  lemma Reopens(s: State, s': State)
    requires s.disk == map[KA := FA, KB := FB, KC := FC.Without({0})] && s' == Recovered(s, s.disk) && Inv(s')
    ensures s'.files == s.disk && KC in s'.described && KC in s'.live && s'.live[KC] != 0 && s'.claimed == {}
    ensures s'.passes == map[]
  {
    hide Inv, File.Without, RecoveredTable, Attributed, MonotonicOrder, NextLsn;
    LeftOver();
    var disk := s.disk;
    assert 1 in disk[KC].locs;
    TheLatest(disk);
    hide IsLatest;
    C.HeldIsLive(s', KC, 1);
  }

  lemma TheLatest(disk: map<Lsn, File>)
    requires disk == map[KA := FA, KB := FB, KC := FC.Without({0})]
    ensures 1 in RecoveredTable(disk) && RecoveredTable(disk)[1] == Loc(KC, SECOND_RECORD)
  {
    hide RecoveredTable, File.Without;
    LeftOver();
    assert IsLatest(disk, 1, KC);
    assert 1 in Objects(disk);
    R.RecoveredEntry(disk, 1);
    var k := RecoveredTable(disk)[1].file;
    assert k == KC by {
      assert disk[KC].base <= disk[k].base;
    }
  }
}
