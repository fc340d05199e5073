/** The end of a maintenance pass, the whole pass, and what it amounts to. */
module Upkeep {
  import opened Basics
  import opened DiskLocations
  import opened Protocol
  import opened Invariant
  import opened CrashRefinement
  import opened Cells
  import opened Selection
  import opened Sequential
  import opened Images
  import opened Ledger
  import opened Store
  import opened Maintenance
  import C = Concurrency
  import E = Effects
  import N = FileNames

  // ---------------------------------------------------------------- releasing claims

  function WithoutClaims(fams: map<Lsn, Fam>, claims: set<Lsn>): map<Lsn, Fam> {
    map k | k in fams :: if k in claims then fams[k].(claim := false) else fams[k]
  }

  /** The state once the pass has released `released` of its claims. */
  ghost function Releasing(s: State, claims: set<Lsn>, released: set<Lsn>): State {
    s.(claimed := s.claimed - (released * s.present), passes := Pass(claims - released, {}, map[], map[]))
  }

  /** Dropping the claims of a pass. */
  method ReleaseAll(m: Marble, claims: set<Lsn>)
    requires m.cells.s.passes == Pass(claims, {}, map[], map[]) && m.Steady()
    modifies m.cells`fams, m.cells`s
    ensures m.cells.s == Releasing(old(m.cells.s), claims, claims)
    ensures m.cells.fams == WithoutClaims(old(m.cells.fams), claims)
    ensures m.Steady()
  {
    hide Inv, CrashInv, FamsAgree, TableAgrees, Kept, Faithful, Enabled, Apply, Exclusive, Releasing, WithoutClaims;
    ghost var s0, fams0 := m.cells.s, m.cells.fams;
    var rest := claims;
    FamsKeys(fams0, s0);
    NothingReleased(s0, fams0, claims);
    assert claims - rest == {};
    while rest != {}
      invariant rest <= claims && m.cells.s == Releasing(s0, claims, claims - rest)
      invariant m.cells.fams == WithoutClaims(fams0, claims - rest)
      invariant CrashInv(m.cells.s) && m.cells.Valid()
      decreases rest
    {
      var k :| k in rest;
      ghost var s := m.cells.s;
      ReleaseReady(s0, claims, claims - rest, k);
      ReleasingFrame(s0, claims, claims - rest);
      E.Safe(s, Release(0, k));
      E.ReleaseEffect(s, 0, k);
      m.cells.Release(0, k);
      NobodyExclusive(s);
      ReleaseNext(s0, fams0, claims, claims - rest, k);
      assert claims - (rest - {k}) == claims - rest + {k};
      ReleasingFrame(s0, claims, claims - rest + {k});
      NobodyExclusive(m.cells.s);
      SoundStep(s, Release(0, k));
      rest := rest - {k};
    }
    assert claims - rest == claims;
    ReleasingFrame(s0, claims, claims);
    ReleasedStored(fams0, claims);
    KeptStored(m.lib, m.disk, fams0, m.cells.fams, s0, m.cells.s);
  }

  lemma NothingReleased(s: State, fams: map<Lsn, Fam>, claims: set<Lsn>)
    requires s.passes == Pass(claims, {}, map[], map[])
    ensures Releasing(s, claims, {}) == s && WithoutClaims(fams, {}) == fams
  {
    assert claims - {} == claims && s.claimed - ({} * s.present) == s.claimed;
  }

  lemma ReleaseReady(s: State, claims: set<Lsn>, released: set<Lsn>, k: Lsn)
    requires k in claims && k !in released
    ensures 0 in Releasing(s, claims, released).passes && Enabled(Releasing(s, claims, released), Release(0, k))
  {
  }

  lemma ReleaseNext(s: State, fams: map<Lsn, Fam>, claims: set<Lsn>, released: set<Lsn>, k: Lsn)
    requires 0 in Releasing(s, claims, released).passes
    ensures E.Released(Releasing(s, claims, released), 0, k) == Releasing(s, claims, released + {k})
    ensures var f := WithoutClaims(fams, released);
      (if k in f then f[k := f[k].(claim := false)] else f) == WithoutClaims(fams, released + {k})
  {
    ReleaseNextFams(fams, released, k);
    hide WithoutClaims;
    assert claims - released - {k} == claims - (released + {k});
    ReleaseSets(s.claimed, s.present, released, k);
  }

  lemma ReleaseSets(claimed: set<Lsn>, present: set<Lsn>, released: set<Lsn>, k: Lsn)
    ensures claimed - ((released + {k}) * present) ==
      if k in present then claimed - (released * present) - {k} else claimed - (released * present)
  {
  }

  lemma ReleaseNextFams(fams: map<Lsn, Fam>, released: set<Lsn>, k: Lsn)
    ensures var f := WithoutClaims(fams, released);
      (if k in f then f[k := f[k].(claim := false)] else f) == WithoutClaims(fams, released + {k})
  {
  }

  lemma ReleasingFrame(s: State, claims: set<Lsn>, released: set<Lsn>)
    ensures var s' := Releasing(s, claims, released);
      s'.files == s.files && s'.disk == s.disk && s'.writes == s.writes && s'.present == s.present
  {
  }

  lemma ReleasedStored(fams: map<Lsn, Fam>, claims: set<Lsn>)
    ensures SameStored(fams, WithoutClaims(fams, claims))
  {
  }

  // ---------------------------------------------------------------- pruning

  /** The state once the pass has claimed these empty files. */
  ghost function Emptying(s: State, empties: set<Lsn>): State {
    s.(claimed := s.claimed + empties, passes := Pass(empties, empties, map[], map[]))
  }

  /** First loop of `prune_empty_files`: empty files are claimed for removal. */
  method ClaimEmpty(m: Marble) returns (empties: set<Lsn>)
    requires m.cells.s.passes == Pass({}, {}, map[], map[]) && m.cells.s.claimed !! m.cells.s.present
    requires m.Steady()
    modifies m.cells`fams, m.cells`s
    ensures empties == EmptyFiles(old(m.cells.fams)) && m.cells.s == Emptying(old(m.cells.s), empties)
    ensures m.cells.fams == WithClaims(old(m.cells.fams), empties)
    ensures m.Steady()
  {
    hide Inv, CrashInv, FamsAgree, TableAgrees, Kept, Faithful, Enabled, Apply, Exclusive, Emptying, WithClaims;
    ghost var s0, fams0 := m.cells.s, m.cells.fams;
    var rest := m.cells.fams.Keys;
    empties := {};
    NothingEmptied(s0, fams0);
    while rest != {}
      invariant rest <= fams0.Keys && empties == EmptyFiles(fams0) - rest
      invariant m.cells.fams == WithClaims(fams0, empties) && m.cells.s == Emptying(s0, empties)
      invariant CrashInv(m.cells.s) && m.cells.Valid()
      decreases rest
    {
      var k :| k in rest;
      EmptyReady(fams0, s0, empties, k);
      var fam := m.cells.fams[k];
      if fam.path.Some? && fam.live == 0 {
        LookEmptyReady(m.cells.fams, m.cells.s, k);
        var got := ClaimFile(m, k, true);
        EmptyNext(fams0, s0, empties, k);
        if got {
          empties := empties + {k};
        }
      }
      rest := rest - {k};
    }
    EmptyingFrame(s0, empties);
    ClaimsStored(fams0, empties);
    KeptStored(m.lib, m.disk, fams0, m.cells.fams, s0, m.cells.s);
  }

  lemma NothingEmptied(s: State, fams: map<Lsn, Fam>)
    requires s.passes == Pass({}, {}, map[], map[])
    ensures Emptying(s, {}) == s && WithClaims(fams, {}) == fams
  {
    assert s.claimed + {} == s.claimed;
  }

  lemma EmptyReady(fams: map<Lsn, Fam>, s: State, empties: set<Lsn>, k: Lsn)
    requires k in fams && k !in empties && FamsAgree(fams, s) && s.claimed !! s.present && s.writes == map[] && Inv(s)
    ensures k in WithClaims(fams, empties) && WithClaims(fams, empties)[k] == fams[k] && fams[k].path.Some?
    ensures var s' := Emptying(s, empties);
      k !in s'.claimed && 0 in s'.passes && s'.passes[0].look == Nothing && s'.writes == map[]
  {
    Finished(s, k);
    hide Inv;
    assert FamAgrees(fams[k], s, k);
  }

  lemma LookEmptyReady(fams: map<Lsn, Fam>, s: State, k: Lsn)
    requires FamsAgree(fams, s) && k in fams && fams[k].path.Some? && fams[k].live == 0 && 0 in s.passes
    ensures Enabled(s, LookEmpty(0, k))
  {
    assert FamAgrees(fams[k], s, k);
  }

  lemma EmptyNext(fams: map<Lsn, Fam>, s: State, empties: set<Lsn>, k: Lsn)
    requires k in fams && k in WithClaims(fams, empties) && 0 in Emptying(s, empties).passes
    ensures E.Claimed(Emptying(s, empties), 0, k, true) == Emptying(s, empties + {k})
    ensures WithClaims(fams, empties)[k := WithClaims(fams, empties)[k].(claim := true)] ==
      WithClaims(fams, empties + {k})
  {
    assert s.claimed + empties + {k} == s.claimed + (empties + {k});
  }

  lemma EmptyingFrame(s: State, empties: set<Lsn>)
    ensures var s' := Emptying(s, empties);
      s'.files == s.files && s'.disk == s.disk && s'.writes == s.writes && s'.live == s.live && s'.present == s.present
  {
  }

  /** The state once the pass has removed `removed` of the empty files it claimed. */
  ghost function Pruning(s: State, empties: set<Lsn>, removed: set<Lsn>): State {
    s.(present := s.present - removed, disk := s.disk - removed,
      passes := Pass(empties, empties - removed, map[], map[]))
  }

  /** Second loop of `prune_empty_files`: a removed file's record is dropped, and with it the file. */
  method RemoveEmpty(m: Marble, empties: set<Lsn>)
    requires m.cells.s.passes == Pass(empties, empties, map[], map[]) && empties <= m.cells.fams.Keys
    requires forall k :: k in empties ==> k in m.cells.fams && m.cells.fams[k].live == 0
    requires m.Steady()
    modifies m`disk, m.cells`fams, m.cells`s
    ensures m.cells.s == Pruning(old(m.cells.s), empties, empties)
    ensures m.cells.fams == old(m.cells.fams) - empties
    ensures m.Steady()
  {
    hide Inv, CrashInv, FamsAgree, TableAgrees, Kept, Faithful, Enabled, Apply, Exclusive, Pruning;
    ghost var s0, fams0 := m.cells.s, m.cells.fams;
    var rest := empties;
    NothingPruned(s0, fams0, empties);
    assert empties - rest == {};
    while rest != {}
      invariant rest <= empties && m.cells.s == Pruning(s0, empties, empties - rest)
      invariant m.cells.fams == fams0 - (empties - rest)
      invariant m.Steady()
      decreases rest
    {
      var k :| k in rest;
      ghost var removed := empties - rest;
      PruneReady(s0, empties, removed, k);
      RemoveOne(m, k);
      PruneNext(s0, fams0, empties, removed, k);
      assert empties - (rest - {k}) == removed + {k};
      rest := rest - {k};
    }
    assert empties - rest == empties;
  }

  method RemoveOne(m: Marble, k: Lsn)
    requires 0 in m.cells.s.passes && k in m.cells.s.passes[0].empties && k in m.cells.fams && m.cells.fams[k].live == 0
    requires m.Steady()
    modifies m`disk, m.cells`fams, m.cells`s
    ensures 0 in old(m.cells.s.passes)
    ensures m.cells.s == Erased(old(m.cells.s), k)
    ensures m.cells.fams == old(m.cells.fams) - {k}
    ensures m.Steady()
  {
    hide Inv, CrashInv, FamsAgree, TableAgrees, Kept, Faithful, Enabled, Apply, Exclusive;
    ghost var s0, fams0 := m.cells.s, m.cells.fams;
    RemoveEnabled(s0, k);
    FileOf(m.lib, m.disk, fams0, s0, k);
    NobodyExclusive(s0);
    E.Safe(s0, Remove(0, k));
    E.RemoveEffect(s0, 0, k);
    PathOf(m.lib, m.disk, fams0, s0, k);
    var path := m.cells.fams[k].path.value;
    m.cells.RemoveFam(0, k);
    ghost var s1 := m.cells.s;
    NobodyExclusive(s1);
    SoundStep(s0, Remove(0, k));
    DeleteEnabled(s1, k);
    m.disk := m.disk - {path};
    m.cells.Drop(k);
    NobodyExclusive(m.cells.s);
    SoundStep(s1, Delete(k));
    KeysAgree(s0);
    KeptRemove(m.lib, old(m.disk), fams0, s0, m.cells.s, k);
  }

  /** The state without empty file `k`. */
  ghost function Erased(s: State, k: Lsn): State
    requires 0 in s.passes
  {
    E.Removed(s, 0, k).(disk := s.disk - {k})
  }

  lemma RemoveEnabled(s: State, k: Lsn)
    requires 0 in s.passes && k in s.passes[0].empties
    ensures Enabled(s, Remove(0, k))
  {
  }

  lemma DeleteEnabled(s: State, k: Lsn)
    requires k in s.files && k in s.live && k !in s.present && s.writes == map[]
    ensures Enabled(s, Delete(k))
  {
  }

  lemma PathOf(lib: Library, disk: map<string, Bytes>, fams: map<Lsn, Fam>, s: State, k: Lsn)
    requires Kept(lib, disk, fams, s) && k in fams
    ensures fams[k].path.Some? && fams[k].path.value in disk
  {
    hide IsImage, Accounted, N.ToFileName, N.Spellable;
    assert KeptFile(lib, disk, fams[k], s.files[k]);
  }

  /** Deleting one file under its name leaves the others kept. */
  lemma KeptRemove(lib: Library, disk: map<string, Bytes>, fams: map<Lsn, Fam>, s: State, s': State, k: Lsn)
    requires Kept(lib, disk, fams, s) && k in fams && fams[k].path.Some? && s'.files == s.files
    requires s'.disk == s.disk - {k}
    requires forall j :: j in s.files ==> s.files[j].Key() == j
    ensures Kept(lib, disk - {fams[k].path.value}, fams - {k}, s')
  {
    hide IsImage, Accounted, N.ToFileName, N.Spellable, N.IsTemporary, File.Key;
    var name := fams[k].path.value;
    assert s'.disk.Keys == (fams - {k}).Keys;
    forall j | j in fams - {k} ensures KeptFile(lib, disk - {name}, fams[j], s.files[j]) {
      assert KeptFile(lib, disk, fams[j], s.files[j]) && KeptFile(lib, disk, fams[k], s.files[k]);
      if fams[j].path.value == name {
        N.NamesDiffer(MetadataOf(s.files[j]), MetadataOf(s.files[k]));
        assert false;
      }
    }
    AccountedRemove(disk, fams, k);
  }

  lemma AccountedRemove(disk: map<string, Bytes>, fams: map<Lsn, Fam>, k: Lsn)
    requires Accounted(disk, fams) && k in fams && fams[k].path.Some?
    ensures Accounted(disk - {fams[k].path.value}, fams - {k})
  {
    hide N.IsTemporary;
    forall name | name in disk - {fams[k].path.value}
      ensures N.IsTemporary(name) || name == N.LEGEND || exists j ::
        j in fams - {k} && (fams - {k})[j].path == Some(name)
    {
      if j :| j in fams && fams[j].path == Some(name) {
        assert j in fams - {k} && (fams - {k})[j].path == Some(name);
      }
    }
  }

  lemma NothingPruned(s: State, fams: map<Lsn, Fam>, empties: set<Lsn>)
    requires s.passes == Pass(empties, empties, map[], map[])
    ensures Pruning(s, empties, {}) == s && fams - {} == fams
  {
    assert s.present - {} == s.present && s.disk - {} == s.disk && empties - {} == empties;
  }

  lemma PruneReady(s: State, empties: set<Lsn>, removed: set<Lsn>, k: Lsn)
    requires k in empties && k !in removed
    ensures var s' := Pruning(s, empties, removed); 0 in s'.passes && k in s'.passes[0].empties
  {
  }

  lemma PruneNext(s: State, fams: map<Lsn, Fam>, empties: set<Lsn>, removed: set<Lsn>, k: Lsn)
    requires 0 in Pruning(s, empties, removed).passes
    ensures Erased(Pruning(s, empties, removed), k) == Pruning(s, empties, removed + {k})
    ensures fams - removed - {k} == fams - (removed + {k})
  {
    assert s.present - removed - {k} == s.present - (removed + {k});
    assert s.disk - removed - {k} == s.disk - (removed + {k});
    assert empties - removed - {k} == empties - (removed + {k});
  }

  // ---------------------------------------------------------------- accounting

  /** The live counts of these files, added up, as the statistics do for all files. */
  ghost function LiveSum(fams: map<Lsn, Fam>, ks: set<Lsn>): int
    requires ks <= fams.Keys
  {
    if ks == {} then 0 else var k :| k in ks; fams[k].live + LiveSum(fams, ks - {k})
  }

  lemma {:induction false} SumIsCount(s: State, fams: map<Lsn, Fam>, ks: set<Lsn>)
    requires ks <= fams.Keys && s.writes == map[] && FamsAgree(fams, s) && Inv(s)
    ensures LiveSum(fams, ks) == |LiveIn(s, ks)|
    decreases ks
  {
    hide Inv, FamsAgree;
    if ks == {} {
      assert LiveIn(s, ks) == {};
    } else {
      var k :| k in ks && LiveSum(fams, ks) == fams[k].live + LiveSum(fams, ks - {k});
      CountOf(s, fams, k);
      SumIsCount(s, fams, ks - {k});
      var a, b := LiveIn(s, {k}), LiveIn(s, ks - {k});
      assert LiveIn(s, ks) == a + b && a !! b;
    }
  }

  lemma CountOf(s: State, fams: map<Lsn, Fam>, k: Lsn)
    requires k in fams && s.writes == map[] && FamsAgree(fams, s) && Inv(s)
    ensures fams[k].live == |LiveIn(s, {k})| && k in s.files
  {
    hide Inv, LiveIn;
    assert FamAgrees(fams[k], s, k);
    LiveIsCount(s, k);
  }

  /** The live counts of all files add up to the number of objects in the table. */
  lemma TotalIsTable(s: State, fams: map<Lsn, Fam>, table: map<nat, nat>)
    requires s.writes == map[] && Agrees(table, fams, s.nextLsn, s)
    ensures LiveSum(fams, fams.Keys) == |table|
  {
    hide Inv, FamsAgree, TableAgrees, LiveIn, LiveSum;
    SumIsCount(s, fams, fams.Keys);
    FamsKeys(fams, s);
    AgreesKeys(table, s.table);
    AllLive(s);
    assert |table| == |table.Keys|;
  }

  lemma AllLive(s: State)
    requires Inv(s)
    ensures LiveIn(s, s.present) == s.table.Keys
  {
    hide Inv;
    C.TableIsOk(s);
  }

  // ---------------------------------------------------------------- what compaction leaves

  /** The records after compaction and the release of its claims: rewritten files are empty, others
      as before, new files all live. */
  ghost predicate Settled(config: Config, fams: map<Lsn, Fam>, fams': map<Lsn, Fam>) {
    && (forall k :: k in fams ==>
         k in fams' && fams'[k] == fams[k].(live := if k in Compacted(config, fams) then 0 else fams[k].live))
    && (forall k :: k in fams' && k !in fams ==> FullyLive(fams'[k]))
    && (Compacted(config, fams) == {} ==> fams'.Keys <= fams.Keys)
  }

  lemma SettledTidies(config: Config, fams: map<Lsn, Fam>, fams': map<Lsn, Fam>)
    requires Settled(config, fams, fams')
    ensures Tidied(config, fams, fams' - EmptyFiles(fams'))
  {
    hide Compacted, FullyLive;
    assert forall k :: k in fams' && k !in fams ==> fams'[k].live > 0 by { NewNotEmpty(fams, fams'); }
  }

  lemma NewNotEmpty(fams: map<Lsn, Fam>, fams': map<Lsn, Fam>)
    requires forall k :: k in fams' && k !in fams ==> FullyLive(fams'[k])
    ensures forall k :: k in fams' && k !in fams ==> fams'[k].live > 0
  {
  }

  lemma CompactedCount(s0: State, s: State, compacted: set<Lsn>, done: set<ObjectId>, n: nat, k: Lsn)
    requires Progress(s0, s, compacted, done, n) && k in s0.files
    ensures LiveIn(s, {k}) == if k in compacted then {} else LiveIn(s0, {k})
  {
  }

  lemma NewCount(s0: State, s: State, done: set<ObjectId>, k: Lsn)
    requires Moved(s0, s, done) && k in s.files && k !in s0.files
    ensures HoldsOnlyLive(s, k)
  {
  }

  lemma NewFullyLive(s: State, fams: map<Lsn, Fam>, k: Lsn)
    requires k in fams && s.writes == map[] && FamsAgree(fams, s) && Inv(s) && k in s.files && HoldsOnlyLive(s, k)
    ensures FullyLive(fams[k])
  {
    hide Inv;
    CountOf(s, fams, k);
    Finished(s, k);
    E.FinishedOnDisk(s, k);
    C.TableIsOk(s);
    assert FamAgrees(fams[k], s, k);
    assert LiveIn(s, {k}) == s.files[k].locs.Keys by {
      forall o ensures o in LiveIn(s, {k}) <==> o in s.files[k].locs {
        if o in s.table { assert Wrote(s.files, s.table[o], o); }
      }
    }
    assert s.files[k].locs.Keys != {};
    assert |s.files[k].locs| == |s.files[k].locs.Keys| > 0;
  }

  lemma NothingNew(s0: State, s: State, done: set<ObjectId>, n: nat, k: Lsn)
    requires Progress(s0, s, {}, done, n) && (forall o :: o in s0.table ==> s0.table[o].file in s0.files)
    ensures s.table == s0.table && (k in s.files ==> k in s0.files)
  {
    assert done == {};
    if k in s.files && k !in s0.files {
      assert false;
    }
  }

  lemma SettledOld(config: Config, s0: State, s: State, fams0: map<Lsn, Fam>, fams: map<Lsn, Fam>, claims: set<Lsn>,
                   done: set<ObjectId>, n: nat, k: Lsn)
    requires k in fams0 && s0.writes == map[] && s.writes == map[] && s0.claimed !! s0.present
    requires FamsAgree(fams0, s0) && FamsAgree(fams, s) && FamsExtend(WithClaims(fams0, claims), fams)
    requires Progress(Claiming(s0, claims), s, Compacted(config, fams0), done, n)
    requires Inv(s0) && Inv(s)
    ensures k in fams
    ensures WithoutClaims(fams, claims)[k] ==
      fams0[k].(live := if k in Compacted(config, fams0) then 0 else fams0[k].live)
  {
    hide Inv, Compacted, Progress, LiveIn;
    assert FamAgrees(fams0[k], s0, k);
    CountOf(s0, fams0, k);
    assert k in WithClaims(fams0, claims);
    CountOf(s, fams, k);
    CompactedCount(Claiming(s0, claims), s, Compacted(config, fams0), done, n, k);
    ClaimingLive(s0, claims, k);
  }

  lemma ClaimingLive(s: State, claims: set<Lsn>, k: Lsn)
    ensures LiveIn(Claiming(s, claims), {k}) == LiveIn(s, {k})
  {
  }

  lemma SettledNew(s0: State, s: State, fams0: map<Lsn, Fam>, fams: map<Lsn, Fam>, claims: set<Lsn>,
                   done: set<ObjectId>, k: Lsn)
    requires k in fams && k !in fams0 && s.writes == map[] && FamsAgree(fams0, s0) && FamsAgree(fams, s)
    requires Moved(Claiming(s0, claims), s, done) && Inv(s0) && Inv(s)
    ensures FullyLive(WithoutClaims(fams, claims)[k])
  {
    hide Inv, HoldsOnlyLive;
    assert FamAgrees(fams[k], s, k);
    assert k !in s0.present && k in s.present;
    NewCount(Claiming(s0, claims), s, done, k);
    hide Moved, FamsAgree;
    NewFullyLive(s, fams, k);
  }

  lemma SettledAfter(config: Config, s0: State, s: State, fams0: map<Lsn, Fam>, fams: map<Lsn, Fam>, claims: set<Lsn>,
                     done: set<ObjectId>, n: nat)
    requires s0.writes == map[] && s.writes == map[] && s0.claimed !! s0.present
    requires FamsAgree(fams0, s0) && FamsAgree(fams, s) && FamsExtend(WithClaims(fams0, claims), fams)
    requires Moved(Claiming(s0, claims), s, done)
    requires Progress(Claiming(s0, claims), s, Compacted(config, fams0), done, n)
    requires (forall o :: o in s0.table ==> s0.table[o].file in s0.files) && Inv(s0) && Inv(s)
    ensures Settled(config, fams0, WithoutClaims(fams, claims))
  {
    hide Inv, FamsAgree, FamsExtend, Progress, Moved, Compacted, FullyLive, WithClaims, WithoutClaims, Claiming;
    var fams' := WithoutClaims(fams, claims);
    assert fams'.Keys == fams.Keys by { ReleasedStored(fams, claims); }
    forall k | k in fams0
      ensures k in fams' && fams'[k] == fams0[k].(live := if k in Compacted(config, fams0) then 0 else fams0[k].live)
    {
      SettledOld(config, s0, s, fams0, fams, claims, done, n, k);
    }
    forall k | k in fams' && k !in fams0 ensures FullyLive(fams'[k]) {
      SettledNew(s0, s, fams0, fams, claims, done, k);
    }
    if Compacted(config, fams0) == {} {
      forall k | k in fams' ensures k in fams0 {
        NotNew(s0, s, fams0, fams, claims, done, n, k);
      }
    }
  }

  lemma NotNew(s0: State, s: State, fams0: map<Lsn, Fam>, fams: map<Lsn, Fam>, claims: set<Lsn>, done: set<ObjectId>,
               n: nat, k: Lsn)
    requires FamsAgree(fams0, s0) && FamsAgree(fams, s) && k in fams && Progress(Claiming(s0, claims), s, {}, done, n)
    requires forall o :: o in s0.table ==> s0.table[o].file in s0.files
    ensures k in fams0
  {
    var s1 := Claiming(s0, claims);
    assert s1.table == s0.table && s1.files == s0.files && s1.present == s0.present;
    NothingNew(s1, s, done, n, k);
    assert FamAgrees(fams[k], s, k);
    assert FilesMoved(s1.files, s.files, s1.present, s.present);
  }

  /** Everything up to the release of the rewrite claims. */
  method ClaimAndCompact(m: Marble, io: (nat, nat) -> bool) returns (ok: bool, n: nat, ghost log: Log)
    requires m.cells.s.passes == map[] && |m.cells.table| < U64 && m.Steady()
    modifies m, m.cells
    ensures ok <==> log.halt.Complete?
    ensures Works(m.lib, m.config, io, log, MemoryOf(old(m.cells.fams), old(m.cells.s)),
      MemoryOf(m.cells.fams, m.cells.s))
    ensures m.cells.s.passes == Pass({}, {}, map[], map[]) && m.Contents() == old(m.Contents())
    ensures ok ==> Settled(m.config, old(m.cells.fams), m.cells.fams)
    ensures ok ==> n == LiveSum(old(m.cells.fams), Compacted(m.config, old(m.cells.fams)))
    ensures Compacted(m.config, old(m.cells.fams)) == {} ==> ok && m.cells.table == old(m.cells.table)
    ensures m.Steady()
  {
    hide Inv, CrashInv, FamsAgree, TableAgrees, Kept, Faithful, Enabled, Apply, Exclusive, View, Moved, FamsExtend;
    hide Progress, Compacted, MemoryOf, Works;
    hide WithClaims, WithoutClaims, Claiming, Releasing, Settled, LiveSum;
    ghost var s0, fams0 := m.cells.s, m.cells.fams;
    NobodyExclusive(s0);
    BeginPass(s0);
    m.cells.Note(Begin(0));
    ghost var s1 := m.cells.s;
    NobodyExclusive(s1);
    SoundStep(s0, Begin(0));
    KeptSame(m.lib, m.disk, fams0, s0, s1);
    NoneClaimed(s1);
    SamePassView(s0, s1);
    var groups, claims := ClaimFiles(m);
    ghost var s2 := m.cells.s;
    ClaimedFacts(s1, fams0, claims);
    ghost var done;
    ok, n, done, log := CompactAll(m, groups, io, claims, fams0);
    ghost var s3, fams3 := m.cells.s, m.cells.fams;
    MovedFrame(s2, s3, done);
    ReleaseAll(m, claims);
    ReleasedFacts(s3, claims);
    ClaimedMemory(fams0, s0, s1, claims);
    ReleasedMemory(fams3, s3, claims);
    assert Compacted(m.config, fams0) == {} ==> ok by {
      MemoryCompacted(m.config, fams0, s0);
      if Compacted(m.config, fams0) == {} {
        IdlePass(m.lib, m.config, io, log, MemoryOf(fams0, s0), MemoryOf(fams3, s3));
      }
    }
    if ok {
      Accounts(m.config, s1, s3, fams0, fams3, claims, done, n, old(m.cells.table), m.cells.table);
    }
  }

  lemma ClaimedMemory(fams: map<Lsn, Fam>, s: State, s': State, claims: set<Lsn>)
    requires s' == s.(passes := s'.passes)
    ensures MemoryOf(fams, Claiming(s', claims)) == MemoryOf(fams, s)
  {
    SameMemory(fams, s, Claiming(s', claims));
  }

  lemma ReleasedMemory(fams: map<Lsn, Fam>, s: State, claims: set<Lsn>)
    ensures MemoryOf(WithoutClaims(fams, claims), Releasing(s, claims, claims)) == MemoryOf(fams, s)
  {
    SameMemory(fams, s, Releasing(s, claims, claims));
    SameFamsMemory(fams, WithoutClaims(fams, claims), Releasing(s, claims, claims));
  }

  lemma ClaimedFacts(s: State, fams: map<Lsn, Fam>, claims: set<Lsn>)
    ensures var s' := Claiming(s, claims);
      && s'.passes == Pass(claims, {}, map[], map[]) && s'.writes == s.writes && View(s') == View(s)
      && s'.table == s.table && s'.files == s.files
    ensures WithClaims(fams, claims).Keys == fams.Keys
  {
  }

  lemma ReleasedFacts(s: State, claims: set<Lsn>)
    ensures var s' := Releasing(s, claims, claims); s'.passes == Pass({}, {}, map[], map[]) && View(s') == View(s)
  {
    assert claims - claims == {};
  }

  /** What has been counted is the live counts of the compacted files. */
  lemma Accounts(config: Config, s: State, s': State, fams: map<Lsn, Fam>, fams': map<Lsn, Fam>, claims: set<Lsn>,
                 done: set<ObjectId>, n: nat, table: map<nat, nat>, table': map<nat, nat>)
    requires s.writes == map[] && s'.writes == map[] && s.claimed !! s.present
    requires FamsAgree(fams, s) && FamsAgree(fams', s') && FamsExtend(WithClaims(fams, claims), fams')
    requires TableAgrees(table, s.table) && TableAgrees(table', s'.table)
    requires Moved(Claiming(s, claims), s', done) && Progress(Claiming(s, claims), s', Compacted(config, fams), done, n)
    requires Inv(s) && Inv(s')
    ensures Settled(config, fams, WithoutClaims(fams', claims))
    ensures n == LiveSum(fams, Compacted(config, fams))
    ensures Compacted(config, fams) == {} ==> table' == table
  {
    hide Inv, FamsAgree, TableAgrees, FamsExtend, WithClaims, WithoutClaims, Moved, Settled, LiveSum, Compacted;
    hide Claiming;
    InFilesAll(s);
    SettledAfter(config, s, s', fams, fams', claims, done, n);
    CompactedInFams(config, fams);
    SumIsCount(s, fams, Compacted(config, fams));
    ClaimingLiveAll(s, claims, Compacted(config, fams));
    if Compacted(config, fams) == {} {
      hide Progress;
      SameTable(s, s', claims, done, n);
      SameWords(s.table, table, table');
    }
  }

  lemma InFilesAll(s: State)
    requires Inv(s)
    ensures forall o :: o in s.table ==> s.table[o].file in s.files
  {
    hide Inv;
    C.TableIsOk(s);
  }

  lemma CompactedInFams(config: Config, fams: map<Lsn, Fam>)
    ensures Compacted(config, fams) <= fams.Keys
  {
  }

  lemma ClaimingLiveAll(s: State, claims: set<Lsn>, ks: set<Lsn>)
    ensures LiveIn(Claiming(s, claims), ks) == LiveIn(s, ks)
  {
  }

  lemma SameTable(s: State, s': State, claims: set<Lsn>, done: set<ObjectId>, n: nat)
    requires Progress(Claiming(s, claims), s', {}, done, n) && forall o :: o in s.table ==> s.table[o].file in s.files
    ensures s'.table == s.table
  {
    var s1 := Claiming(s, claims);
    assert s1.table == s.table && s1.files == s.files;
    hide Claiming, Progress;
    NothingNew(s1, s', done, n, 0);
  }

  lemma BeginPass(s: State)
    requires s.passes == map[]
    ensures Enabled(s, Begin(0)) && Apply(s, Begin(0)).passes == Pass({}, {}, map[], map[])
  {
  }

  lemma NoneClaimed(s: State)
    requires Inv(s) && s.writes == map[] && s.passes == Pass({}, {}, map[], map[])
    ensures s.claimed !! s.present
  {
    hide Inv;
    forall k | k in s.present ensures k !in s.claimed {
      C.OneHolder(s, k);
      assert forall h :: !C.HoldsClaim(s, h, k);
    }
  }

  // ---------------------------------------------------------------- the whole pass

  /** `prune_empty_files`. */
  method Prune(m: Marble)
    requires m.cells.s.passes == Pass({}, {}, map[], map[]) && m.Steady()
    modifies m`disk, m.cells`fams, m.cells`s
    ensures m.cells.fams == old(m.cells.fams) - EmptyFiles(old(m.cells.fams))
    ensures MemoryOf(m.cells.fams, m.cells.s) == Pruned(MemoryOf(old(m.cells.fams), old(m.cells.s)))
    ensures m.cells.s.passes == Pass({}, {}, map[], map[]) && m.Contents() == old(m.Contents())
    ensures m.Steady()
  {
    hide Inv, CrashInv, FamsAgree, TableAgrees, Kept, Faithful, View, WithClaims, WithoutClaims, Emptying, Pruning;
    hide Releasing, MemoryOf, Ledger.Pruned;
    ghost var s0, fams0 := m.cells.s, m.cells.fams;
    NoneClaimed(s0);
    var empties := ClaimEmpty(m);
    EmptiedFacts(s0, fams0, empties);
    RemoveEmpty(m, empties);
    PrunedFacts(Emptying(s0, empties), empties);
    ReleaseAll(m, empties);
    ReleasedFacts(Pruning(Emptying(s0, empties), empties, empties), empties);
    PrunedFams(fams0, empties);
    PrunedMemory(fams0, s0, empties);
  }

  lemma PrunedMemory(fams: map<Lsn, Fam>, s: State, empties: set<Lsn>)
    requires empties == EmptyFiles(fams)
    ensures MemoryOf(fams - empties, Releasing(Pruning(Emptying(s, empties), empties, empties), empties, empties)) ==
      Ledger.Pruned(MemoryOf(fams, s))
  {
    var m := MemoryOf(fams, s);
    assert EmptyFiles(m.fams) == empties;
    assert MemoryOf(fams - empties, s).fams == m.fams - empties;
  }

  lemma EmptiedFacts(s: State, fams: map<Lsn, Fam>, empties: set<Lsn>)
    requires empties == EmptyFiles(fams)
    ensures var s' := Emptying(s, empties); s'.passes == Pass(empties, empties, map[], map[]) && View(s') == View(s)
    ensures empties <= WithClaims(fams, empties).Keys
    ensures forall k :: k in empties ==> k in WithClaims(fams, empties) && WithClaims(fams, empties)[k].live == 0
  {
  }

  lemma PrunedFacts(s: State, empties: set<Lsn>)
    ensures var s' := Pruning(s, empties, empties); s'.passes == Pass(empties, {}, map[], map[]) && View(s') == View(s)
  {
    assert empties - empties == {};
  }

  lemma PrunedFams(fams: map<Lsn, Fam>, empties: set<Lsn>)
    ensures WithoutClaims(WithClaims(fams, empties) - empties, empties) == fams - empties
  {
  }

  datatype MaintenanceResult = Rewritten(objects: nat) | Aborted

  /** `maintenance`. A pass changes no object's value. If it succeeds, it has rewritten as many objects
      as the compacted files had live, those files are gone, no empty file is left, and every new
      file is fully live. If a file cannot be read or written, the pass stops with all claims
      released. The log accounts for every file written and every number taken. */
  method Maintain(m: Marble, io: (nat, nat) -> bool)
    returns (r: MaintenanceResult, ghost log: Log, ghost before: map<Lsn, Fam>)
    requires m.cells.s.passes == map[] && |m.cells.table| < U64 && m.Steady()
    modifies m, m.cells
    ensures before == old(m.cells.fams)
    ensures r.Rewritten? ==> forall k :: k in before ==>
      (k !in m.cells.fams <==>
        || before[k].live == 0
        || (&& before[k].metadata.Some?
            && (|| 100 * before[k].live < m.config.compactionPercent
                     * (if before[k].metadata.value.presentObjects == 0 then 1
                        else before[k].metadata.value.presentObjects)
                || (m.config.smallFileCleanupThreshold <= |before|
                    && before[k].metadata.value.fileSize * m.config.minCompactionFiles < m.config.targetFileSize))
            && m.config.minCompactionFiles <= |set j | j in before && before[j].metadata.Some? && before[j].live != 0
                 && (|| 100 * before[j].live < m.config.compactionPercent
                          * (if before[j].metadata.value.presentObjects == 0 then 1
                             else before[j].metadata.value.presentObjects)
                     || (m.config.smallFileCleanupThreshold <= |before|
                         && before[j].metadata.value.fileSize * m.config.minCompactionFiles < m.config.targetFileSize))
                 && (before[j].generation == before[k].generation
                     || (before[j].generation >= 2 && before[k].generation >= 2))|))
    ensures r.Rewritten? <==> log.halt.Complete?
    ensures Tidies(m.lib, m.config, io, log, MemoryOf(old(m.cells.fams), old(m.cells.s)),
      MemoryOf(m.cells.fams, m.cells.s))
    ensures m.cells.nextLsn == NextAfter(m.lib, m.config, log, old(m.cells.nextLsn))
    ensures m.Contents() == old(m.Contents()) && m.cells.s.passes == map[]
    ensures r.Rewritten? ==> Tidied(m.config, old(m.cells.fams), m.cells.fams)
    ensures r.Rewritten? ==> r.objects == LiveSum(old(m.cells.fams), Compacted(m.config, old(m.cells.fams)))
    ensures Compacted(m.config, old(m.cells.fams)) == {} ==>
      r.Rewritten? && m.cells.table == old(m.cells.table) && m.cells.nextLsn == old(m.cells.nextLsn)
    ensures |m.cells.table| == |old(m.cells.table)|
    ensures m.Steady()
  {
    hide Inv, CrashInv, FamsAgree, TableAgrees, Kept, Faithful, View, Enabled, Apply, Exclusive, Compacted, LiveSum;
    hide Settled, Tidied, EmptyFiles, MemoryOf, Works, Ledger.Pruned, Tidies, NextAfter;
    ghost var s0, fams0 := m.cells.s, m.cells.fams;
    ghost var a := MemoryOf(fams0, s0);
    ViewSize(s0, m.cells.table);
    var ok, n;
    ok, n, log := ClaimAndCompact(m, io);
    ghost var mid := MemoryOf(m.cells.fams, m.cells.s);
    if ok {
      SettledTidies(m.config, fams0, m.cells.fams);
      Prune(m);
    }
    ghost var s := m.cells.s;
    EndPass(s);
    m.cells.Note(End(0));
    NobodyExclusive(s);
    NobodyExclusive(m.cells.s);
    SoundStep(s, End(0));
    KeptSame(m.lib, m.disk, m.cells.fams, s, m.cells.s);
    SamePassView(s, m.cells.s);
    ViewSize(m.cells.s, m.cells.table);
    SameMemory(m.cells.fams, s, m.cells.s);
    PassAccounted(m.lib, m.config, io, log, fams0, s0, mid, m.cells.fams, m.cells.s);
    r := if ok then Rewritten(n) else Aborted;
    before := fams0;
    if ok { TidiedLeft(m.config, fams0, m.cells.fams); }
  }

  /** Which files a pass leaves, in numbers: all but the empty ones and those that were picked together with
      enough others. */
  lemma TidiedLeft(config: Config, fams: map<Lsn, Fam>, fams': map<Lsn, Fam>)
    requires Tidied(config, fams, fams')
    ensures forall k :: k in fams ==>
      (k !in fams' <==>
        || fams[k].live == 0
        || (&& fams[k].metadata.Some?
            && (|| 100 * fams[k].live < config.compactionPercent
                     * (if fams[k].metadata.value.presentObjects == 0 then 1 else fams[k].metadata.value.presentObjects)
                || (config.smallFileCleanupThreshold <= |fams|
                    && fams[k].metadata.value.fileSize * config.minCompactionFiles < config.targetFileSize))
            && config.minCompactionFiles <= |set j | j in fams && fams[j].metadata.Some? && fams[j].live != 0
                 && (|| 100 * fams[j].live < config.compactionPercent
                          * (if fams[j].metadata.value.presentObjects == 0 then 1
                             else fams[j].metadata.value.presentObjects)
                     || (config.smallFileCleanupThreshold <= |fams|
                         && fams[j].metadata.value.fileSize * config.minCompactionFiles < config.targetFileSize))
                 && (fams[j].generation == fams[k].generation
                     || (fams[j].generation >= 2 && fams[k].generation >= 2))|))
  {
    forall k | k in fams ensures k in fams' <==> fams[k].live != 0 && k !in Compacted(config, fams) {
      hide Compacted;
    }
    hide Tidied, Compacted;
    forall k | k in fams
      ensures k !in fams' <==>
        || fams[k].live == 0
        || (&& fams[k].metadata.Some?
            && (|| 100 * fams[k].live < config.compactionPercent
                     * (if fams[k].metadata.value.presentObjects == 0 then 1 else fams[k].metadata.value.presentObjects)
                || (config.smallFileCleanupThreshold <= |fams|
                    && fams[k].metadata.value.fileSize * config.minCompactionFiles < config.targetFileSize))
            && config.minCompactionFiles <= |set j | j in fams && fams[j].metadata.Some? && fams[j].live != 0
                 && (|| 100 * fams[j].live < config.compactionPercent
                          * (if fams[j].metadata.value.presentObjects == 0 then 1
                             else fams[j].metadata.value.presentObjects)
                     || (config.smallFileCleanupThreshold <= |fams|
                         && fams[j].metadata.value.fileSize * config.minCompactionFiles < config.targetFileSize))
                 && (fams[j].generation == fams[k].generation || (fams[j].generation >= 2 && fams[k].generation >= 2))|)
    {
      CompactedIs(config, fams, k);
    }
  }

  lemma PassAccounted(lib: Library, config: Config, io: (nat, nat) -> bool, log: Log, fams: map<Lsn, Fam>, s: State,
                      mid: Memory, fams': map<Lsn, Fam>, s': State)
    requires Works(lib, config, io, log, MemoryOf(fams, s), mid)
    requires MemoryOf(fams', s') == if log.halt.Complete? then Ledger.Pruned(mid) else mid
    ensures Tidies(lib, config, io, log, MemoryOf(fams, s), MemoryOf(fams', s'))
    ensures s'.nextLsn == NextAfter(lib, config, log, s.nextLsn)
    ensures Compacted(config, fams) == {} ==> s'.nextLsn == s.nextLsn
  {
    hide Works, Compacted, NextAfter;
    assert Tidies(lib, config, io, log, MemoryOf(fams, s), MemoryOf(fams', s'));
    NumbersOfPass(lib, config, io, log, MemoryOf(fams, s), MemoryOf(fams', s'));
    if Compacted(config, fams) == {} {
      MemoryCompacted(config, fams, s);
      IdlePass(lib, config, io, log, MemoryOf(fams, s), mid);
    }
  }

  lemma EndPass(s: State)
    requires s.passes == Pass({}, {}, map[], map[])
    ensures Enabled(s, End(0)) && Apply(s, End(0)).passes == map[]
  {
  }

  lemma ViewSize(s: State, table: map<nat, nat>)
    requires TableAgrees(table, s.table) && Inv(s)
    ensures |table| == |View(s)|
  {
    hide Inv;
    forall o ensures o in s.table <==> o in View(s) {
      if o in s.table { EntryFacts(s, o); }
    }
    assert table.Keys == View(s).Keys;
    assert |table.Keys| == |View(s).Keys|;
  }

  /** Idempotence: right after a successful pass, with fewer files than the small-file threshold
      before each, another pass succeeds, rewrites nothing, takes no numbers and leaves table and file map
      alone. */
  method MaintainTwice(m: Marble, io: (nat, nat) -> bool, io': (nat, nat) -> bool)
    returns (r: MaintenanceResult, r': MaintenanceResult, ghost fams: map<Lsn, Fam>, ghost table: map<nat, nat>,
      ghost next: nat)
    requires m.config.compactionPercent <= 99 && |m.cells.fams| < m.config.smallFileCleanupThreshold
    requires m.cells.s.passes == map[] && |m.cells.table| < U64 && m.Steady()
    modifies m, m.cells
    ensures r.Rewritten? ==> Tidied(m.config, old(m.cells.fams), fams)
    ensures r.Rewritten? && |fams| < m.config.smallFileCleanupThreshold ==>
      r' == Rewritten(0) && m.cells.fams == fams && m.cells.table == table && m.cells.nextLsn == next
    ensures m.Contents() == old(m.Contents()) && m.cells.s.passes == map[] && m.Steady()
  {
    hide Inv, CrashInv, FamsAgree, TableAgrees, Kept, Faithful, View, Compacted, LiveSum, Tidied, Tidies, NextAfter;
    hide MemoryOf;
    ghost var log, before;
    r, log, before := Maintain(m, io);
    fams, table, next := m.cells.fams, m.cells.table, m.cells.nextLsn;
    r', log, before := Maintain(m, io');
    if r.Rewritten? && |fams| < m.config.smallFileCleanupThreshold {
      SecondPassIdle(m.config, old(m.cells.fams), fams);
      TidiedLive(m.config, old(m.cells.fams), fams);
      IdlePassKeeps(m.config, fams, m.cells.fams);
      SumOfNone(fams);
    }
  }

  lemma TidiedLive(config: Config, fams: map<Lsn, Fam>, fams': map<Lsn, Fam>)
    requires Tidied(config, fams, fams')
    ensures forall k :: k in fams' ==> fams'[k].live != 0
  {
  }

  lemma SumOfNone(fams: map<Lsn, Fam>)
    ensures LiveSum(fams, {}) == 0
  {
  }
}
