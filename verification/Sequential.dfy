/** Steps of a write that nobody interrupts. */
module Sequential {
  import opened DiskLocations
  import opened Protocol
  import opened Invariant
  import opened CrashRefinement
  import P = Preservation
  import C = Concurrency
  import E = Effects
  import L = Lost

  /** Everything known of a state that a run with maintenance kept apart can reach. */
  ghost predicate Sound(s: State) { Inv(s) && CrashInv(s) && Exclusive(s) }

  lemma IsDurable(s: State)
    requires CrashInv(s)
    ensures Durable(s) && L.LostOk(s)
  {
    hide Durable, L.LostOk;
  }

  lemma StepIsSafe(s: State, a: Action)
    requires Inv(s) && CrashInv(s) && Enabled(s, a)
    ensures Inv(Apply(s, a)) && C.StillKnown(s, a)
  {
    hide Inv, Durable, L.LostOk, Enabled, Apply;
    L.LostIsKnown(s, a);
    C.StepKeepsInv(s, a);
  }

  lemma SoundStep(s: State, a: Action)
    requires Sound(s) && Enabled(s, a) && Exclusive(Apply(s, a))
    ensures Sound(Apply(s, a))
  {
    hide Inv, CrashInv, Exclusive, Careful, Enabled, Apply;
    StepIsSafe(s, a);
    ExclusiveIsCareful(s, a);
    StepKeepsCrashInv(s, a);
  }

  /** The one write in progress is that of file `k`; if it is a fresh write, so is no maintenance. */
  ghost predicate Alone(s: State, k: Lsn) {
    s.writes.Keys == {k} && k in s.files && (!s.files[k].IsGc() ==> s.passes == map[])
  }

  lemma AloneExclusive(s: State, k: Lsn)
    requires Alone(s, k)
    ensures Exclusive(s)
  {
  }

  // ---------------------------------------------------------------- installing everything

  /** The table once the objects `done` of file `k` are installed. */
  ghost function Overlay(table: map<ObjectId, Loc>, k: Lsn, locs: map<ObjectId, Relative>,
                         done: set<ObjectId>): map<ObjectId, Loc>
    requires done <= locs.Keys
  {
    map o | o in table.Keys + done :: if o in done then Loc(k, locs[o]) else table[o]
  }

  /** What they replaced. */
  ghost function Taken(table: map<ObjectId, Loc>, done: set<ObjectId>): map<ObjectId, Loc> {
    map o | o in done && o in table :: table[o]
  }

  /** The state in the middle of the installation of file `k`, which began in state `s`. */
  ghost predicate Between(s: State, s': State, k: Lsn, done: set<ObjectId>) {
    && k in s.files && done <= s.files[k].locs.Keys && k in s.writes
    && s' == s.(table := s'.table, writes := s'.writes, adds := s'.adds, removes := s'.removes)
    && s'.table == Overlay(s.table, k, s.files[k].locs, done)
    && s'.writes == s.writes[k := s.writes[k].(todo := s.files[k].locs.Keys - done, replaced := Taken(s.table, done))]
  }

  /** No object of the write is lost, seen from its start. */
  ghost predicate Wins(s: State, k: Lsn) {
    && k in s.files && k in s.writes && s.writes[k].phase == Installing
    && s.writes[k].todo == s.files[k].locs.Keys && s.writes[k].replaced == map[] && s.writes[k].failed == {}
    && forall o :: o in s.files[k].locs ==> !E.Loses(s, k, o)
  }

  lemma InstallNext(s: State, s': State, k: Lsn, done: set<ObjectId>, o: ObjectId)
    requires Wins(s, k) && Between(s, s', k, done) && o in s.files[k].locs && o !in done
    requires Enabled(s', Install(k, o)) && Inv(s')
    ensures Between(s, Apply(s', Install(k, o)), k, done + {o})
    ensures !E.Loses(s', k, o) && (o in s'.table <==> o in s.table) && (o in s.table ==> s'.table[o] == s.table[o])
  {
    hide Inv, Enabled, Apply, Raw;
    E.InstallEffect(s', k, o);
    var s'' := Apply(s', Install(k, o));
    var locs := s.files[k].locs;
    assert Overlay(s.table, k, locs, done)[o := Loc(k, locs[o])] == Overlay(s.table, k, locs, done + {o});
    assert Taken(s.table, done + {o}) ==
      if o in s.table then Taken(s.table, done)[o := s.table[o]] else Taken(s.table, done);
    assert locs.Keys - done - {o} == locs.Keys - (done + {o});
  }

  lemma BetweenStart(s: State, k: Lsn)
    requires Wins(s, k)
    ensures Between(s, s, k, {})
  {
    assert Overlay(s.table, k, s.files[k].locs, {}) == s.table;
    assert Taken(s.table, {}) == map[];
    assert s.files[k].locs.Keys - {} == s.files[k].locs.Keys;
    assert s.writes == s.writes[k := s.writes[k]];
  }

  lemma InstallEnabled(s: State, s': State, k: Lsn, done: set<ObjectId>, o: ObjectId)
    requires Wins(s, k) && Between(s, s', k, done) && o in s.files[k].locs && o !in done
    ensures Enabled(s', Install(k, o)) && s'.writes[k].scanned == s.writes[k].scanned && s'.files == s.files
  {
  }

  lemma StillAlone(s: State, s': State, k: Lsn, done: set<ObjectId>)
    requires Alone(s, k) && Between(s, s', k, done)
    ensures Alone(s', k) && Exclusive(s')
  {
  }

  // ---------------------------------------------------------------- starting

  ghost function ScannedBy(s: State, a: Action): map<ObjectId, Loc> {
    if a.StartGc? && a.thread in s.passes then s.passes[a.thread].scanned else map[]
  }

  /** Nothing has been written since maintenance scanned the objects of `f`; fresh writes run
      without maintenance. */
  ghost predicate Undisturbed(s: State, a: Action) {
    && s.writes == map[] && (a.StartWrite? || a.StartGc?)
    && (a.StartWrite? ==> s.passes == map[])
    && (a.StartGc? ==> a.thread in s.passes)
    && (a.StartGc? ==> forall o :: o in a.file.locs ==>
         o in s.table && o in ScannedBy(s, a) && s.table[o] == ScannedBy(s, a)[o])
  }

  /** A fresh file lies above everything in the table. */
  lemma FreshIsHighest(s: State, f: File, o: ObjectId)
    requires Inv(s) && f.base == s.nextLsn && !f.IsGc() && o in s.table && o in f.locs
    ensures Raw(s.table[o]) < Raw(Loc(f.Key(), f.locs[o]))
  {
    C.FilesAreOk(s);
    C.TableIsOk(s);
    hide Inv;
    assert Wrote(s.files, s.table[o], o);
    var g := s.files[s.table[o].file];
    assert g.WellFormed() && g.Key() == s.table[o].file && g.base + g.len < s.nextLsn;
    assert s.table[o].rel == g.locs[o];
    hide FilesOk, TableOk;
  }

  lemma StartedAlone(s: State, a: Action)
    requires Undisturbed(s, a) && Inv(s) && Enabled(s, a)
    ensures Alone(Apply(s, a), a.file.Key()) && Apply(s, a) == DoStart(s, a.file, ScannedBy(s, a))
    ensures !Apply(s, a).panicked
  {
    hide Inv, File.WellFormed;
    E.Safe(s, a);
    E.StartEffect(s, a, a.file);
  }

  lemma StartWins(s: State, a: Action)
    requires Undisturbed(s, a) && Inv(s) && Enabled(s, a)
    ensures Wins(DoStart(s, a.file, ScannedBy(s, a)), a.file.Key())
  {
    hide Inv, Raw;
    var f, s' := a.file, DoStart(s, a.file, ScannedBy(s, a));
    var k := f.Key();
    forall o | o in f.locs ensures !E.Loses(s', k, o) {
      if a.StartWrite? && o in s.table {
        FreshIsHighest(s, f, o);
      }
    }
  }

  lemma StartSound(s: State, a: Action)
    requires Sound(s) && Undisturbed(s, a) && Enabled(s, a)
    ensures Sound(Apply(s, a)) && Alone(Apply(s, a), a.file.Key()) && Wins(Apply(s, a), a.file.Key())
    ensures Apply(s, a) == DoStart(s, a.file, ScannedBy(s, a))
  {
    hide Inv, CrashInv, Enabled, Apply, Wins, Alone, DoStart, Exclusive;
    StartedAlone(s, a);
    StartWins(s, a);
    AloneExclusive(Apply(s, a), a.file.Key());
    SoundStep(s, a);
  }

  // ---------------------------------------------------------------- after installation

  lemma WholeTrailer(s: State, k: Lsn)
    requires k in s.files && k in s.writes && s.writes[k].failed == {}
    ensures Trailer(s, k) == s.files[k]
  {
    WithoutNothing(s.files[k]);
    hide File.Without;
  }

  lemma WithoutNothing(f: File)
    ensures f.Without({}) == f
  {
    assert f.locs - {} == f.locs && f.vals - {} == f.vals && f.locs.Keys * {} == {};
    assert f.Without({}).lost == f.lost;
  }

  ghost function RenamedTo(s: State, k: Lsn): State
    requires k in s.files && k in s.writes
  {
    var f := s.files[k];
    s.(disk := s.disk[k := f], writes := s.writes[k := s.writes[k].(phase := Renamed)],
       history := if f.IsGc() then s.history else s.history[f.base := f.vals])
  }

  /** A write that lost nothing puts its whole file on disk. */
  lemma RenameWhole(s: State, k: Lsn)
    requires k in s.files && k in s.writes && s.writes[k].failed == {} && s.writes[k].todo == {}
    requires s.writes[k].phase == Installing
    requires s.files[k].locs != map[]
    ensures Enabled(s, Rename(k)) && Apply(s, Rename(k)) == RenamedTo(s, k)
  {
    WholeTrailer(s, k);
  }

  lemma AloneAfter(s: State, s': State, k: Lsn)
    requires Alone(s, k) && s'.writes.Keys == {k} && s'.files == s.files && s'.passes == s.passes
    ensures Exclusive(s') && Alone(s', k)
  {
  }

  /** The state while write `k`, renamed in state `s`, pays for what it replaced. */
  ghost predicate Paying(s: State, s': State, k: Lsn) {
    && k in s.writes && k in s'.writes
    && s' == s.(live := s'.live, writes := s.writes[k := s.writes[k].(replaced := s'.writes[k].replaced)])
  }

  lemma PayNext(s: State, s': State, k: Lsn, o: ObjectId)
    requires Paying(s, s', k) && s.writes[k].phase == Renamed && o in s'.writes[k].replaced && Inv(s')
    ensures Enabled(s', Decrement(k, o))
    ensures Paying(s, Apply(s', Decrement(k, o)), k)
    ensures Apply(s', Decrement(k, o)).writes[k].replaced == s'.writes[k].replaced - {o}
  {
    hide Inv, Raw, IsPredecessor, Enabled, Apply, DoDecrement;
    PayEnabled(s, s', k, o);
    E.Safe(s', Decrement(k, o));
    E.DecrementEffect(s', k, o);
    E.DecrementIs(s', k, o);
    P.NotPanicked(s');
  }

  lemma PayEnabled(s: State, s': State, k: Lsn, o: ObjectId)
    requires Paying(s, s', k) && s.writes[k].phase == Renamed && o in s'.writes[k].replaced
    ensures Enabled(s', Decrement(k, o))
  {
  }

  /** The last four steps of a write come one after the other. */
  lemma LastSteps(s: State, k: Lsn)
    requires k in s.writes
    ensures s.writes[k].phase == Renamed && s.writes[k].replaced == map[] ==> Enabled(s, SetPath(k))
    ensures s.writes[k].phase == Pathed ==> Enabled(s, SetMetadata(k))
    ensures s.writes[k].phase == Described ==> Enabled(s, Subtract(k))
    ensures s.writes[k].phase == Settled ==> Enabled(s, Finish(k))
  {
  }

  /** The state after write `k`, all installed in state `s`, has been renamed, paid and closed. */
  ghost predicate Committed(s: State, s': State, k: Lsn) {
    && k in s.files && k in s.writes
    && s' == s.(disk := s.disk[k := s.files[k]], live := s'.live, pathed := s.pathed + {k},
                described := s.described + {k}, claimed := s.claimed - {k}, writes := s.writes - {k},
                history := if s.files[k].IsGc() then s.history else s.history[s.files[k].base := s.files[k].vals])
  }

  /** The state after an uninterrupted write of file `f` from state `s`, live counts aside. */
  ghost predicate Extended(s: State, s': State, f: File) {
    var k := f.Key();
    && s'.table == Overlay(s.table, k, f.locs, f.locs.Keys)
    && s'.files == s.files[k := f] && s'.present == s.present + {k} && s'.claimed == s.claimed
    && s'.pathed == s.pathed + {k} && s'.described == s.described + {k}
    && s'.nextLsn == s.nextLsn + f.len + 1 && s'.writes == map[] && s'.passes == s.passes
    && s'.disk == s.disk[k := f]
    && s'.history == if f.IsGc() then s.history else s.history[f.base := f.vals]
  }

  lemma CommittedExtends(s: State, s1: State, s2: State, s': State, f: File, scanned: map<ObjectId, Loc>)
    requires s.writes == map[] && f.Key() !in s.claimed
    requires s1 == DoStart(s, f, scanned) && Between(s1, s2, f.Key(), f.locs.Keys) && Committed(s2, s', f.Key())
    ensures Extended(s, s', f)
  {
    hide Overlay, Taken, File.Key;
    var k := f.Key();
    assert s2.writes.Keys == {k};
    assert (s.claimed + {k}) - {k} == s.claimed;
  }

  /** Giving up a reserved range of sequence numbers does no harm. */
  lemma SkipSound(s: State, next: nat)
    requires Sound(s) && s.nextLsn <= next <= NEW_WRITE_BATCH_BIT
    ensures Sound(s.(nextLsn := next))
  {
    hide TableOk, LiveOk, WritesOk, ReplacedOk, UnsettledOk, CopiesOk, KnownOk, StageOk, ClaimsOk, PassesOk, DebugOk;
    hide DiskOk;
    hide DiskBelow, HistoryBelow, TriedBelow, CopiesCurrent, RewritesOk, RewritesCurrent, Backed, WritersOk, Refines;
    hide Exclusive;
    hide L.LostOk;
    var s' := s.(nextLsn := next);
    assert L.LostOk(s') by { SkipLost(s, next); }
    assert Exclusive(s') by { SameExclusive(s, s'); }
  }

  lemma SkipLost(s: State, next: nat)
    requires L.LostOk(s)
    ensures L.LostOk(s.(nextLsn := next))
  {
    hide L.Rooted;
    var s' := s.(nextLsn := next);
    forall o | L.Recalled(s', o) ensures L.Rooted(s'.table, s'.writes, o) {
      assert L.Recalled(s, o);
    }
  }

  lemma SameExclusive(s: State, s': State)
    requires Exclusive(s) && s'.writes == s.writes && s'.files == s.files && s'.passes == s.passes
    ensures Exclusive(s')
  {
  }

  // ---------------------------------------------------------------- what a write means

  lemma WritesValues(s: State, s': State, f: File)
    requires Extended(s, s', f) && TableOk(s.table, s.files, s.present) && FilesOk(s.files, s.nextLsn)
    requires f.Key() !in s.files && f.locs.Keys == f.vals.Keys
    ensures View(s') == View(s) + f.vals
  {
    hide File.Key, FilesOk, TableOk, View, Extended;
    var v, w := View(s'), View(s) + f.vals;
    forall o ensures (o in v <==> o in w) && (o in v ==> v[o] == w[o]) {
      if o in s.table { EntryHasValue(s, o); }
      ValueAfter(s, s', f, o);
    }
    assert v == w;
  }

  lemma ValueAfter(s: State, s': State, f: File, o: ObjectId)
    requires Extended(s, s', f) && f.Key() !in s.files && f.locs.Keys == f.vals.Keys
    requires o in s.table ==> s.table[o].file in s.files && o in s.files[s.table[o].file].vals
    ensures o in View(s') <==> o in View(s) || o in f.vals
    ensures o in View(s') ==> View(s')[o] == if o in f.vals then f.vals[o] else View(s)[o]
  {
    hide File.Key;
    assert s'.files[f.Key()] == f;
    assert o in s'.table <==> o in s.table || o in f.locs;
  }

  lemma EntryHasValue(s: State, o: ObjectId)
    requires TableOk(s.table, s.files, s.present) && FilesOk(s.files, s.nextLsn) && o in s.table
    ensures s.table[o].file in s.files && o in s.files[s.table[o].file].vals
  {
    assert Wrote(s.files, s.table[o], o);
    assert s.files[s.table[o].file].WellFormed();
  }

  lemma ExtendedView(s: State, s': State, f: File)
    requires Extended(s, s', f) && f.Key() !in s.files && f.locs.Keys == f.vals.Keys && Inv(s)
    ensures View(s') == View(s) + f.vals
  {
    hide Inv, Extended, View, FilesOk, TableOk, File.Key;
    C.FilesAreOk(s);
    C.TableIsOk(s);
    WritesValues(s, s', f);
  }
}
