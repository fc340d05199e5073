/** Reads among other threads. `read` loads an object's location in one step and searches the file map
    in another, so that a prune may come in between. */
module Reads {
  import opened Protocol
  import opened Invariant
  import opened CrashRefinement
  import opened Overlap
  import P = Preservation
  import C = Concurrency
  import E = Effects
  import L = Lost
  import U = Runs

  predicate Drops(a: Action, k: Lsn) { a.Remove? && a.key == k }

  /** An entry that has ever been installed keeps its file from being abandoned. */
  lemma NotAbandoned(s: State, o: ObjectId, l: Loc)
    requires (o, l) in s.adds && Inv(s)
    ensures !Enabled(s, AbortGc(l.file))
  {
    hide FilesOk, TableOk, LiveOk, WritesOk, ReplacedOk, UnsettledOk, CopiesOk, KnownOk, StageOk, ClaimsOk, PassesOk;
    hide DiskOk, NextLsn, Surviving;
    assert Wrote(s.files, l, o) && !Unsettled(s.writes, l.file, o);
    hide DebugOk;
    assert l.file in s.writes && s.writes[l.file].phase == Installing ==> o in Trailer(s, l.file).locs;
  }

  lemma StepDrops(s: State, a: Action, o: ObjectId, l: Loc)
    requires l.file in s.present && (o, l) in s.adds && Enabled(s, a) && !C.Reopens(a) && Inv(s)
    ensures l.file in Apply(s, a).present <==> !Drops(a, l.file)
  {
    hide Inv;
    if a.StartWrite? || a.StartGc? {
      E.StartEffect(s, a, a.file);
    } else if a.Install? {
      hide DoInstall;
    } else {
      hide Enabled, Apply;
      if OfPass(a) {
        C.PassFrame(s, a);
      } else if OfWrite(a) {
        NotAbandoned(s, o, l);
        C.WriteFrame(s, a);
      } else {
        C.DeleteFrame(s, a.key);
      }
    }
  }

  /** The file of an installed entry stays in the map until it is pruned. */
  lemma {:induction false} PresentUntilDropped(states: seq<State>, actions: seq<Action>, i: nat, j: nat, o: ObjectId,
                                               l: Loc)
    requires IsRun(states, actions) && U.OneOpening(actions, i, j)
    requires (o, l) in states[i].adds && l.file in states[i].present
    ensures l.file in states[j].present <==> !exists m :: i <= m < j && Drops(actions[m], l.file)
    decreases j - i
  {
    hide Inv, L.LostOk, Enabled, Apply;
    if i < j {
      PresentUntilDropped(states, actions, i, j - 1, o, l);
      U.RunInv(states, actions, i);
      U.RunInv(states, actions, j - 1);
      U.RunGrows(states, actions, i, j - 1);
      U.RunGrows(states, actions, j - 1, j);
      E.PresentAreFiles(states[i]);
      if l.file in states[j - 1].present {
        StepDrops(states[j - 1], actions[j - 1], o, l);
      }
    }
  }

  /** A read that loads an object's location at step `i` and searches the file map at step `j`: unless the
      file was pruned in between, and only then, the search finds the file that wrote the location, and
      what is read there is the object's value at step `i`, whatever happened to the object since. */
  lemma SplitRead(states: seq<State>, actions: seq<Action>, i: nat, j: nat, o: ObjectId)
    requires IsRun(states, actions) && U.OneOpening(actions, i, j) && o in states[i].table
    ensures var l := states[i].table[o];
      && (IsPredecessor(states[j].present, Raw(l), l.file) <==> !exists m :: i <= m < j && Drops(actions[m], l.file))
      && (IsPredecessor(states[j].present, Raw(l), l.file) ==>
            forall k :: IsPredecessor(states[j].present, Raw(l), k) ==> k == l.file)
      && Wrote(states[j].files, l, o) && o in states[j].files[l.file].vals
      && o in View(states[i]) && View(states[i])[o] == states[j].files[l.file].vals[o]
  {
    var s, s', l := states[i], states[j], states[i].table[o];
    U.RunInv(states, actions, i);
    U.RunInv(states, actions, j);
    U.RunGrows(states, actions, i, j);
    assert (o, l) in s.adds by { InstalledOnce(s, o); }
    hide Inv, L.LostOk, Raw, Enabled, Apply;
    C.TableIsOk(s);
    C.EntryWritten(s, o);
    PresentUntilDropped(states, actions, i, j, o, l);
    hide IsRun, TableOk;
    ViewOf(s, o);
    C.FilesAreOk(s');
    E.PresentAreFiles(s');
    if l.file in s'.present {
      LookupFindsWriter(s', l, o);
    }
  }

  lemma InstalledOnce(s: State, o: ObjectId)
    requires o in s.table && Inv(s)
    ensures (o, s.table[o]) in s.adds
  {
    hide FilesOk, TableOk, LiveOk, WritesOk, ReplacedOk, UnsettledOk, CopiesOk, KnownOk, StageOk, ClaimsOk, PassesOk;
    hide DiskOk;
  }

  lemma ViewOf(s: State, o: ObjectId)
    requires o in s.table && Wrote(s.files, s.table[o], o) && Inv(s)
    ensures o in s.files[s.table[o].file].vals && o in View(s) && View(s)[o] == s.files[s.table[o].file].vals[o]
  {
    C.FilesAreOk(s);
    hide Inv;
    P.FileWellFormed(s, s.table[o].file);
  }

  // ---------------------------------------------------------------- a read that fails

  const REPLACING := Write(map[], {}, map[0 := AT1], {}, Installing)

  /** The second batch replaces the object and is finished. */
  lemma SecondBatch(states: seq<State>, actions: seq<Action>, s: State)
    returns (states': seq<State>, actions': seq<Action>, s': State)
    requires s.table == map[0 := AT1] && s.files == map[K1 := F1] && s.writes == map[] && s.passes == map[]
    requires s.nextLsn == 22 && s.claimed == {} && s.live == map[K1 := 1] && K1 in s.pathed && s.present == {K1}
    requires Tame(states, actions) && Reaches(states, actions, s) && Inv(s)
    ensures s'.writes == map[] && s'.passes == map[] && K1 in s'.pathed && K1 !in s'.claimed
    ensures K1 in s'.live && s'.live[K1] == 0 && s'.present == {K1, K2}
    ensures Tame(states', actions') && Reaches(states', actions', s') && Inv(s') && states <= states'
  {
    hide Enabled, Apply, Inv, Reaches, NoPruning, NoRewriting, Tame, DoStart, File.WellFormed, Raw;
    StartReady(s, F2);
    states', actions', s' := Go(states, actions, s, StartWrite(F2));
    E.StartEffect(s, StartWrite(F2), F2);
    Reserved(s, s');
    AlsoPresent(s, s');
    assert 0 in F2.locs && {0} - {0} == {};
    InstallReady(s', K2);
    var s1 := s';
    states', actions', s' := Go(states', actions', s', Install(K2, 0));
    E.InstallEffect(s1, K2, 0);
    LaterIsHigher();
    assert s'.writes == map[K2 := REPLACING];
    RenameFresh(s', K2);
    states', actions', s' := Go(states', actions', s', Rename(K2));
    assert s'.writes == map[K2 := REPLACING.(phase := Renamed)];
    var s2 := s';
    PayReady(s2);
    states', actions', s' := Go(states', actions', s', Decrement(K2, 0));
    E.DecrementIs(s2, K2, 0);
    E.DecrementEffect(s2, K2, 0);
    assert s'.writes == map[K2 := INSTALLED.(phase := Renamed)];
    states', actions', s' := Closes(states', actions', s', K2);
  }

  lemma AlsoPresent(s: State, s': State)
    requires s' == DoStart(s, F2, map[]) && s.present == {K1}
    ensures s'.present == {K1, K2} && s'.pathed == s.pathed
  {
    Shapes();
    hide File.WellFormed, File.Key;
  }

  lemma PayReady(s: State)
    requires K2 in s.writes && s.writes[K2].phase == Renamed && 0 in s.writes[K2].replaced
    ensures Enabled(s, Decrement(K2, 0))
  {
  }

  lemma NothingBelow()
    ensures forall k :: !IsPredecessor({K1, K2} - {K1}, Raw(AT1), k)
  {
  }

  /** It does fail, even where all steps are careful: a reader loads the location of the object; a batch
      replaces the object and its old file is pruned; then the reader's search finds no file at all. */
  lemma SplitReadFails() returns (states: seq<State>, actions: seq<Action>, i: nat)
    ensures IsCarefulRun(states, actions) && U.OneOpening(actions, i, |actions|)
    ensures 0 in states[i].table && !states[i].table[0].rel.isDelete
    ensures forall k :: !IsPredecessor(states[|actions|].present, Raw(states[i].table[0]), k)
  {
    hide Enabled, Apply, Inv, NoPruning, NoRewriting, Raw, IsPredecessor, Careful;
    var s;
    states, actions, s := FirstBatch();
    i := |actions|;
    var early := states[i];
    states, actions, s := SecondBatch(states, actions, s);
    states, actions, s := Prunes(states, actions, s);
    assert states[i] == early;
    NothingBelow();
  }
}
