/** Every action keeps the invariant: one lemma per action, each built from what the action does
    to the predicates whose cells it touches. */
module Preservation {
  import opened Basics
  import opened DiskLocations
  import opened Protocol
  import opened Invariant

  /** Claims after one pass's claims changed from `mine` to `mine'`. */
  lemma ClaimsAfter(s: State, s': State, t: ThreadId, k: Lsn)
    requires ClaimsOk(s.claimed, s.present, s.writes, s.passes)
    requires s'.writes == s.writes && s'.present <= s.present
    requires forall u :: u != t ==> (u in s.passes <==> u in s'.passes)
    requires forall u :: u != t && u in s.passes ==> s'.passes[u].claims == s.passes[u].claims
    requires var mine := if t in s.passes then s.passes[t].claims else {};
             var mine' := if t in s'.passes then s'.passes[t].claims else {};
             || (mine' == mine && s'.claimed == s.claimed)
             || (mine' == mine + {k} && k !in s.claimed && s'.claimed == s.claimed + {k})
             || (mine' == mine - {k} && k in mine
               && s'.claimed == if k in s.present then s.claimed - {k} else s.claimed)
    ensures ClaimsOk(s'.claimed, s'.present, s'.writes, s'.passes)
  {
    forall j | j in s'.claimed && j in s'.present && j !in s'.writes
      ensures exists u :: u in s'.passes && j in s'.passes[u].claims
    {
      if j in s.claimed {
        var u :| u in s.passes && j in s.passes[u].claims;
        assert u in s'.passes && j in s'.passes[u].claims;
      } else {
        assert t in s'.passes && j in s'.passes[t].claims;
      }
    }
  }

  lemma BeginKeeps(s: State, t: ThreadId)
    requires Inv(s) && Enabled(s, Begin(t))
    ensures Inv(Apply(s, Begin(t)))
  {
    hide FilesOk, TableOk, LiveOk, WritesOk, ReplacedOk, UnsettledOk, CopiesOk, KnownOk, StageOk, ClaimsOk, DebugOk;
    hide DiskOk;
    var s' := Apply(s, Begin(t));
    ClaimsAfter(s, s', t, 0);
  }

  lemma LookFragmentedKeeps(s: State, t: ThreadId, k: Lsn)
    requires Inv(s) && Enabled(s, LookFragmented(t, k))
    ensures Inv(Apply(s, LookFragmented(t, k)))
  {
    hide FilesOk, TableOk, LiveOk, WritesOk, ReplacedOk, UnsettledOk, CopiesOk, KnownOk, ClaimsOk, DebugOk, DiskOk;
    ClaimsAfter(s, Apply(s, LookFragmented(t, k)), t, k);
  }

  lemma LookEmptyKeeps(s: State, t: ThreadId, k: Lsn)
    requires Inv(s) && Enabled(s, LookEmpty(t, k))
    ensures Inv(Apply(s, LookEmpty(t, k)))
  {
    hide FilesOk, TableOk, LiveOk, WritesOk, ReplacedOk, UnsettledOk, CopiesOk, KnownOk, StageOk, ClaimsOk, DebugOk;
    hide DiskOk;
    ClaimsAfter(s, Apply(s, LookEmpty(t, k)), t, k);
  }

  lemma ClaimPass(s: State, t: ThreadId)
    requires PassesOk(s.passes, s.files, s.present, s.live, s.pathed)
    requires Enabled(s, Claim(t))
    requires StageOk(s.files, s.present, s.writes, s.claimed, s.pathed, s.described, s.live)
    ensures var s' := DoClaim(s, t); PassesOk(s'.passes, s'.files, s'.present, s'.live, s'.pathed)
    ensures s.passes[t].look.file in s.files
  {
    hide Copied;
    assert PassOk(s.passes[t], s.files, s.present, s.live, s.pathed);
  }

  lemma ClaimKeeps(s: State, t: ThreadId)
    requires Inv(s) && Enabled(s, Claim(t))
    ensures Inv(Apply(s, Claim(t)))
  {
    hide FilesOk, TableOk, LiveOk, WritesOk, ReplacedOk, UnsettledOk, CopiesOk, KnownOk, ClaimsOk, PassesOk, DebugOk;
    hide DiskOk;
    ClaimPass(s, t);
    var k := s.passes[t].look.file;
    assert k in s.claimed ==> s.claimed + {k} == s.claimed;
    ClaimsAfter(s, Apply(s, Claim(t)), t, k);
  }

  lemma ScanOne(m: Maintenance, files: map<Lsn, File>, present: set<Lsn>, live: map<Lsn, int>, pathed: set<Lsn>,
                k: Lsn, o: ObjectId)
    requires PassOk(m, files, present, live, pathed)
    requires k in files && k in pathed && o in files[k].locs && o in files[k].vals
    ensures PassOk(m.(scanned := m.scanned[o := Loc(k, files[k].locs[o])], batch := m.batch[o := files[k].vals[o]]),
                   files, present, live, pathed)
  {
  }

  lemma ScanPass(s: State, t: ThreadId, k: Lsn, o: ObjectId)
    requires PassesOk(s.passes, s.files, s.present, s.live, s.pathed)
    requires Enabled(s, Scan(t, k, o)) && k in s.pathed
    ensures var s' := DoScan(s, t, k, o); PassesOk(s'.passes, s'.files, s'.present, s'.live, s'.pathed)
  {
    hide PassOk, Raw;
    var s' := DoScan(s, t, k, o);
    assert PassOk(s.passes[t], s.files, s.present, s.live, s.pathed);
    if o in s.files[k].vals { ScanOne(s.passes[t], s.files, s.present, s.live, s.pathed, k, o); }
    forall u | u in s'.passes ensures PassOk(s'.passes[u], s.files, s.present, s.live, s.pathed) {
      assert u != t ==> s'.passes[u] == s.passes[u];
    }
  }

  /** A file that has its metadata was installed completely, so the table knows its objects. */
  lemma DescribedIsKnown(s: State, k: Lsn, o: ObjectId)
    requires WritesOk(s.writes, s.files, s.present) && KnownOk(s.writes, s.table, s.files)
    requires StageOk(s.files, s.present, s.writes, s.claimed, s.pathed, s.described, s.live)
    requires k in s.pathed && k in s.files && o in s.files[k].locs
    ensures o in s.table
  {
  }

  lemma ScanKeeps(s: State, t: ThreadId, k: Lsn, o: ObjectId)
    requires Inv(s) && Enabled(s, Scan(t, k, o))
    ensures Inv(Apply(s, Scan(t, k, o)))
  {
    hide FilesOk, TableOk, LiveOk, WritesOk, ReplacedOk, UnsettledOk, CopiesOk, KnownOk, ClaimsOk, PassesOk, DebugOk;
    hide DiskOk;
    DescribedIsKnown(s, k, o);
    ScanPass(s, t, k, o);
    ClaimsAfter(s, Apply(s, Scan(t, k, o)), t, k);
  }

  /** A record that the trailer does not mention is never what the table has: scanning it changes
      nothing, as long as its object is known at all. */
  lemma ScanLostIdle(s: State, t: ThreadId, k: Lsn, o: ObjectId)
    requires Inv(s) && Enabled(s, ScanLost(t, k, o)) && o in s.table
    ensures Apply(s, ScanLost(t, k, o)) == s
  {
    hide FilesOk, TableOk, LiveOk, WritesOk, ReplacedOk, UnsettledOk, CopiesOk, KnownOk, StageOk, ClaimsOk, PassesOk;
    hide DebugOk, DiskOk;
    hide Raw, NextLsn, Surviving, File.WellFormed;
    LostDiffers(s, k, o);
    assert k in s.pathed by { DescribedIsPathed(s, k); }
    hide Inv;
    assert Apply(s, ScanLost(t, k, o)) == DoScanLost(s, t, k, o);
  }

  lemma DescribedIsPathed(s: State, k: Lsn)
    requires StageOk(s.files, s.present, s.writes, s.claimed, s.pathed, s.described, s.live) && k in s.described
    ensures k in s.pathed
  {
  }

  lemma LostDiffers(s: State, k: Lsn, o: ObjectId)
    requires FilesOk(s.files, s.nextLsn) && TableOk(s.table, s.files, s.present)
    requires k in s.files && o in s.files[k].lost && o in s.table
    ensures Raw(s.table[o]) != Raw(Loc(k, s.files[k].lost[o].rel))
  {
    hide Raw;
    var l := s.table[o];
    assert Wrote(s.files, l, o) && s.files[k].WellFormed() && s.files[l.file].WellFormed();
    assert l.file != k && Disjoint(s.files[l.file], s.files[k]);
    hide FilesOk, TableOk, Disjoint;
    FileRange(s, k);
    FileRange(s, l.file);
    DisjointWords(s.files[l.file], s.files[k], l.rel, s.files[k].lost[o].rel);
  }

  lemma FileRange(s: State, k: Lsn)
    requires FilesOk(s.files, s.nextLsn) && k in s.files
    ensures s.files[k].Key() == k && s.files[k].base + s.files[k].len < NEW_WRITE_BATCH_BIT
  {
    hide File.WellFormed, File.Key;
  }

  lemma DisjointWords(f: File, g: File, a: Relative, b: Relative)
    requires Disjoint(f, g) && f.base + f.len < NEW_WRITE_BATCH_BIT && g.base + g.len < NEW_WRITE_BATCH_BIT
    requires a.offset <= f.len && b.offset <= g.len
    ensures Raw(Loc(f.Key(), a)) != Raw(Loc(g.Key(), b))
  {
  }

  lemma ForgetKeeps(s: State, t: ThreadId)
    requires Inv(s) && Enabled(s, Forget(t))
    ensures Inv(Apply(s, Forget(t)))
  {
    hide FilesOk, TableOk, LiveOk, WritesOk, ReplacedOk, UnsettledOk, CopiesOk, KnownOk, StageOk, ClaimsOk, DebugOk;
    hide DiskOk;
    ClaimsAfter(s, Apply(s, Forget(t)), t, 0);
  }

  lemma ReleasePass(s: State, t: ThreadId, k: Lsn)
    requires PassesOk(s.passes, s.files, s.present, s.live, s.pathed)
    requires ClaimsOk(s.claimed, s.present, s.writes, s.passes)
    requires StageOk(s.files, s.present, s.writes, s.claimed, s.pathed, s.described, s.live)
    requires Enabled(s, Release(t, k))
    ensures k in s.claimed
    ensures var s' := Apply(s, Release(t, k));
      && PassesOk(s'.passes, s'.files, s'.present, s'.live, s'.pathed)
      && StageOk(s'.files, s'.present, s'.writes, s'.claimed, s'.pathed, s'.described, s'.live)
  {
    hide PassesOk;
    ReleaseOnePass(s, t, k);
  }

  lemma ReleaseOnePass(s: State, t: ThreadId, k: Lsn)
    requires PassesOk(s.passes, s.files, s.present, s.live, s.pathed) && Enabled(s, Release(t, k))
    ensures var s' := Apply(s, Release(t, k)); PassesOk(s'.passes, s'.files, s'.present, s'.live, s'.pathed)
  {
    hide Copied;
    assert PassOk(s.passes[t], s.files, s.present, s.live, s.pathed);
  }

  lemma ReleaseKeeps(s: State, t: ThreadId, k: Lsn)
    requires Inv(s) && Enabled(s, Release(t, k))
    ensures Inv(Apply(s, Release(t, k)))
  {
    hide FilesOk, TableOk, LiveOk, WritesOk, ReplacedOk, UnsettledOk, CopiesOk, KnownOk, StageOk, ClaimsOk, PassesOk;
    hide DebugOk, DiskOk;
    ReleasePass(s, t, k);
    ClaimsAfter(s, Apply(s, Release(t, k)), t, k);
  }

  lemma EndKeeps(s: State, t: ThreadId)
    requires Inv(s) && Enabled(s, End(t))
    ensures Inv(Apply(s, End(t)))
  {
    hide FilesOk, TableOk, LiveOk, WritesOk, ReplacedOk, UnsettledOk, CopiesOk, KnownOk, StageOk, ClaimsOk, DebugOk;
    hide DiskOk;
    ClaimsAfter(s, Apply(s, End(t)), t, 0);
  }

  lemma DeleteDisk(s: State, k: Lsn)
    requires DiskOk(s.disk, s.files, s.present, s.writes, s.table) && k !in s.present
    ensures DiskOk(s.disk - {k}, s.files, s.present, s.writes, s.table)
  {
    hide IsPart, InTable, Owed;
  }

  lemma DeleteKeeps(s: State, k: Lsn)
    requires Inv(s) && Enabled(s, Delete(k))
    ensures Inv(Apply(s, Delete(k)))
  {
    hide FilesOk, TableOk, LiveOk, WritesOk, ReplacedOk, UnsettledOk, CopiesOk, KnownOk, ClaimsOk, PassesOk, DebugOk;
    hide DiskOk;
    DeleteDisk(s, k);
  }

  /** A file whose count is zero holds no token: nothing in the table points at it, no write in
      progress has yet to pay it, and its own write is over. */
  lemma ZeroHoldsNothing(s: State, k: Lsn)
    requires LiveOk(s.live, s.table, s.writes, s.files)
    requires k in s.files && s.live[k] == 0
    ensures forall o :: o in s.files[k].locs ==> !Held(s.table, s.writes, k, o)
  {
    hide Held;
    assert Tokens(s.table, s.writes, s.files[k], k) == {};
    forall o | o in s.files[k].locs ensures !Held(s.table, s.writes, k, o) {
      assert o !in Tokens(s.table, s.writes, s.files[k], k);
    }
  }

  lemma RemoveMap(s: State, k: Lsn)
    requires TableOk(s.table, s.files, s.present)
    requires WritesOk(s.writes, s.files, s.present) && k !in s.writes
    requires ReplacedOk(s.writes, s.table, s.files, s.present)
    requires k in s.files && forall o :: o in s.files[k].locs ==> !Held(s.table, s.writes, k, o)
    ensures TableOk(s.table, s.files, s.present - {k})
    ensures WritesOk(s.writes, s.files, s.present - {k})
    ensures ReplacedOk(s.writes, s.table, s.files, s.present - {k})
  {
    hide WriteOk;
    forall o | o in s.table ensures s.table[o].file != k {
      assert InTable(s.table, k, o) ==> Held(s.table, s.writes, k, o);
    }
    forall g, o | g in s.writes && o in s.writes[g].replaced ensures s.writes[g].replaced[o].file != k {
      assert LeftBehind(s.writes[g].replaced[o], g, o, s.table, s.files, s.present);
      assert Owes(s.writes[g], k, o) ==> Owed(s.writes, k, o);
    }
  }

  lemma RemovePass(s: State, t: ThreadId, k: Lsn)
    requires PassesOk(s.passes, s.files, s.present, s.live, s.pathed)
    requires ClaimsOk(s.claimed, s.present, s.writes, s.passes)
    requires StageOk(s.files, s.present, s.writes, s.claimed, s.pathed, s.described, s.live)
    requires Enabled(s, Remove(t, k))
    ensures var s' := Apply(s, Remove(t, k));
      && PassesOk(s'.passes, s'.files, s'.present, s'.live, s'.pathed)
      && StageOk(s'.files, s'.present, s'.writes, s'.claimed, s'.pathed, s'.described, s'.live)
    ensures k in s.present && k in s.live && s.live[k] == 0 && k !in s.writes
  {
    hide Copied;
    assert forall u :: u in s.passes ==> PassOk(s.passes[u], s.files, s.present, s.live, s.pathed);
    assert k in s.passes[t].claims;
  }

  lemma RemoveDisk(s: State, k: Lsn)
    requires DiskOk(s.disk, s.files, s.present, s.writes, s.table)
    ensures DiskOk(s.disk, s.files, s.present - {k}, s.writes, s.table)
  {
    hide IsPart, InTable, Owed;
  }

  lemma RemoveKeeps(s: State, t: ThreadId, k: Lsn)
    requires Inv(s) && Enabled(s, Remove(t, k))
    ensures Inv(Apply(s, Remove(t, k)))
  {
    hide FilesOk, TableOk, LiveOk, WritesOk, ReplacedOk, UnsettledOk, CopiesOk, KnownOk, StageOk, ClaimsOk, PassesOk;
    hide DebugOk, DiskOk;
    RemovePass(s, t, k);
    assert k in s.files by { InFiles(s, k); }
    ZeroHoldsNothing(s, k);
    RemoveMap(s, k);
    RemoveDisk(s, k);
    ClaimsAfter(s, Apply(s, Remove(t, k)), t, k);
  }

  lemma InFiles(s: State, k: Lsn)
    requires StageOk(s.files, s.present, s.writes, s.claimed, s.pathed, s.described, s.live) && k in s.present
    ensures k in s.files
  {
  }

  // ---------------------------------------------------------------- the end of a write

  /** Both sides have the same work left to do; only phases may differ. */
  ghost predicate SameWork(w: map<Lsn, Write>, w': map<Lsn, Write>) {
    && w.Keys == w'.Keys
    && forall g :: g in w ==> w'[g] == w[g].(phase := w'[g].phase)
  }

  lemma SameWorkMeans(w: map<Lsn, Write>, w': map<Lsn, Write>)
    requires SameWork(w, w')
    ensures forall k, o :: Owed(w, k, o) <==> Owed(w', k, o)
    ensures forall k, o :: Unsettled(w, k, o) <==> Unsettled(w', k, o)
  {
    forall k, o ensures Owed(w, k, o) <==> Owed(w', k, o) {
      assert forall g :: g in w ==> (Owes(w[g], k, o) <==> Owes(w'[g], k, o));
    }
  }

  /** Live counts follow the tokens: if every file keeps its tokens, the counts still fit. */
  lemma SameTokens(s: State, s': State)
    requires LiveOk(s.live, s.table, s.writes, s.files)
    requires s'.files == s.files && s'.live == s.live
    requires forall k, o :: k in s.files && o in s.files[k].locs ==>
      (Held(s.table, s.writes, k, o) <==> Held(s'.table, s'.writes, k, o))
    ensures LiveOk(s'.live, s'.table, s'.writes, s'.files)
  {
    hide Held;
    forall k | k in s.files ensures s'.live[k] == |Tokens(s'.table, s'.writes, s'.files[k], k)| {
      assert Tokens(s'.table, s'.writes, s'.files[k], k) == Tokens(s.table, s.writes, s.files[k], k);
    }
  }

  ghost predicate TokensOk(s: State) {
    && LiveOk(s.live, s.table, s.writes, s.files)
    && ReplacedOk(s.writes, s.table, s.files, s.present)
    && UnsettledOk(s.writes, s.table)
    && KnownOk(s.writes, s.table, s.files)
    && DebugOk(s.adds, s.removes, s.table, s.files, s.writes)
  }

  lemma SameWorkTokens(s: State, s': State)
    requires TokensOk(s) && SameWork(s.writes, s'.writes)
    requires s'.files == s.files && s'.live == s.live && s'.table == s.table && s'.present == s.present
    requires s'.adds == s.adds && s'.removes == s.removes
    ensures TokensOk(s')
  {
    hide LiveOk, ReplacedOk, UnsettledOk, KnownOk, DebugOk, Owed, Unsettled, SameWork;
    SameWorkMeans(s.writes, s'.writes);
    SameTokens(s, s');
    SameReplaced(s, s');
    SameUnsettled(s, s');
    SameKnown(s, s');
    SameDebug(s, s');
  }

  lemma SameReplaced(s: State, s': State)
    requires ReplacedOk(s.writes, s.table, s.files, s.present) && SameWork(s.writes, s'.writes)
    requires s'.files == s.files && s'.table == s.table && s'.present == s.present
    ensures ReplacedOk(s'.writes, s'.table, s'.files, s'.present)
  {
    hide LeftBehind;
  }

  lemma SameUnsettled(s: State, s': State)
    requires UnsettledOk(s.writes, s.table) && SameWork(s.writes, s'.writes) && s'.table == s.table
    ensures UnsettledOk(s'.writes, s'.table)
  {
    hide Owed, InTable, SameWork, Unsettled;
    SameWorkMeans(s.writes, s'.writes);
  }

  lemma SameKnown(s: State, s': State)
    requires KnownOk(s.writes, s.table, s.files) && SameWork(s.writes, s'.writes)
    requires s'.files == s.files && s'.table == s.table
    ensures KnownOk(s'.writes, s'.table, s'.files)
  {
  }

  lemma SameDebug(s: State, s': State)
    requires DebugOk(s.adds, s.removes, s.table, s.files, s.writes) && SameWork(s.writes, s'.writes)
    requires s'.files == s.files && s'.table == s.table && s'.adds == s.adds && s'.removes == s.removes
    ensures DebugOk(s'.adds, s'.removes, s'.table, s'.files, s'.writes)
  {
    hide Wrote, SameWork, Unsettled;
    SameWorkMeans(s.writes, s'.writes);
  }

  /** Moving one write to its next phase, its work unchanged; `pathed` may only grow. */
  ghost predicate Advances(s: State, s': State, k: Lsn) {
    && k in s.writes && k in s'.writes
    && s'.writes == s.writes[k := s.writes[k].(phase := s'.writes[k].phase)]
    && s'.files == s.files && s'.live == s.live && s'.table == s.table && s'.present == s.present
    && s'.adds == s.adds && s'.removes == s.removes && s'.passes == s.passes && s'.claimed == s.claimed
    && s.pathed <= s'.pathed
  }

  lemma AdvanceTokens(s: State, s': State, k: Lsn)
    requires TokensOk(s) && Advances(s, s', k)
    ensures TokensOk(s')
  {
    hide LiveOk, ReplacedOk, UnsettledOk, KnownOk, DebugOk, TokensOk;
    assert SameWork(s.writes, s'.writes);
    SameWorkTokens(s, s');
  }

  lemma AdvanceCopies(s: State, s': State, k: Lsn)
    requires CopiesOk(s.writes, s.files, s.pathed) && Advances(s, s', k)
    ensures CopiesOk(s'.writes, s'.files, s'.pathed)
  {
  }

  lemma AdvanceClaims(s: State, s': State, k: Lsn)
    requires ClaimsOk(s.claimed, s.present, s.writes, s.passes) && Advances(s, s', k)
    ensures ClaimsOk(s'.claimed, s'.present, s'.writes, s'.passes)
  {
  }

  lemma AdvancePasses(s: State, s': State, k: Lsn)
    requires PassesOk(s.passes, s.files, s.present, s.live, s.pathed) && Advances(s, s', k)
    ensures PassesOk(s'.passes, s'.files, s'.present, s'.live, s'.pathed)
  {
    forall t | t in s.passes ensures PassOk(s.passes[t], s.files, s.present, s.live, s'.pathed) {
      assert PassOk(s.passes[t], s.files, s.present, s.live, s.pathed);
    }
  }

  lemma AdvanceWrites(s: State, s': State, k: Lsn)
    requires WritesOk(s.writes, s.files, s.present) && Advances(s, s', k)
    requires WriteOk(s'.writes[k], s.files[k])
    ensures WritesOk(s'.writes, s'.files, s'.present)
  {
    hide WriteOk;
  }

  lemma AdvanceDisk(s: State, s': State, k: Lsn)
    requires DiskOk(s.disk, s.files, s.present, s.writes, s.table) && Advances(s, s', k)
    requires s.writes[k].phase != Installing && s'.writes[k].phase != Installing
    ensures DiskOk(s.disk, s'.files, s'.present, s'.writes, s'.table)
  {
    hide IsPart, InTable, Owed;
    assert SameWork(s.writes, s'.writes);
    SameWorkMeans(s.writes, s'.writes);
  }

  lemma SetPathStage(s: State, k: Lsn)
    requires Enabled(s, SetPath(k))
    requires WritesOk(s.writes, s.files, s.present)
    requires StageOk(s.files, s.present, s.writes, s.claimed, s.pathed, s.described, s.live)
    ensures var s' := Apply(s, SetPath(k));
      StageOk(s'.files, s'.present, s'.writes, s'.claimed, s'.pathed, s'.described, s'.live)
    ensures k in s.present && k !in s.pathed && k in s.files
    ensures WriteOk(s.writes[k].(phase := Pathed), s.files[k])
  {
  }

  lemma SetPathKeeps(s: State, k: Lsn)
    requires Inv(s) && Enabled(s, SetPath(k))
    ensures Inv(Apply(s, SetPath(k)))
  {
    hide FilesOk, TableOk, LiveOk, WritesOk, ReplacedOk, UnsettledOk, CopiesOk, KnownOk, StageOk, ClaimsOk, PassesOk;
    hide DebugOk, DiskOk;
    hide WriteOk;
    var s' := Apply(s, SetPath(k));
    SetPathStage(s, k);
    AdvanceTokens(s, s', k);
    AdvanceCopies(s, s', k);
    AdvanceClaims(s, s', k);
    AdvancePasses(s, s', k);
    AdvanceWrites(s, s', k);
    AdvanceDisk(s, s', k);
  }

  lemma SetMetadataStage(s: State, k: Lsn)
    requires Enabled(s, SetMetadata(k))
    requires WritesOk(s.writes, s.files, s.present)
    requires StageOk(s.files, s.present, s.writes, s.claimed, s.pathed, s.described, s.live)
    ensures var s' := Apply(s, SetMetadata(k));
      StageOk(s'.files, s'.present, s'.writes, s'.claimed, s'.pathed, s'.described, s'.live)
    ensures k !in s.described && k in s.files
    ensures WriteOk(s.writes[k].(phase := Described), s.files[k])
  {
  }

  lemma SetMetadataKeeps(s: State, k: Lsn)
    requires Inv(s) && Enabled(s, SetMetadata(k))
    ensures Inv(Apply(s, SetMetadata(k)))
  {
    hide FilesOk, TableOk, LiveOk, WritesOk, ReplacedOk, UnsettledOk, CopiesOk, KnownOk, StageOk, ClaimsOk, PassesOk;
    hide DebugOk, DiskOk;
    hide WriteOk;
    var s' := Apply(s, SetMetadata(k));
    SetMetadataStage(s, k);
    AdvanceTokens(s, s', k);
    AdvanceCopies(s, s', k);
    AdvanceClaims(s, s', k);
    AdvancePasses(s, s', k);
    AdvanceWrites(s, s', k);
    AdvanceDisk(s, s', k);
  }

  lemma RenameDisk(s: State, k: Lsn, d: File, w': map<Lsn, Write>)
    requires DiskOk(s.disk, s.files, s.present, s.writes, s.table)
    requires k in s.files && d.WellFormed() && IsPart(d, s.files[k])
    requires k in s.writes && w' == s.writes[k := s.writes[k].(phase := Renamed)]
    requires forall o :: o in s.files[k].locs && (InTable(s.table, k, o) || Owed(s.writes, k, o)) ==> o in d.locs
    ensures DiskOk(s.disk[k := d], s.files, s.present, w', s.table)
  {
    hide IsPart, InTable, Owed, File.WellFormed;
    var disk' := s.disk[k := d];
    assert forall j, o :: Owed(s.writes, j, o) <==> Owed(w', j, o) by {
      assert SameWork(s.writes, w');
      SameWorkMeans(s.writes, w');
    }
    assert disk'.Keys <= s.files.Keys;
    assert forall j :: j in disk' ==> disk'[j].WellFormed() && IsPart(disk'[j], s.files[j]);
    assert forall j :: j in disk' ==> !(j in w' && w'[j].phase == Installing);
    assert forall j :: j in s.present && !(j in w' && w'[j].phase == Installing) ==> j in disk';
    forall j, o | j in disk' && o in s.files[j].locs && (InTable(s.table, j, o) || Owed(w', j, o))
      ensures o in disk'[j].locs
    {
      assert InTable(s.table, j, o) || Owed(s.writes, j, o);
    }
  }

  /** The trailer of a file about to be renamed keeps every entry that was installed. */
  lemma TrailerKeeps(s: State, k: Lsn)
    requires k in s.files && k in s.writes && s.files[k].WellFormed() && Trailer(s, k).locs != map[]
    requires UnsettledOk(s.writes, s.table)
    ensures var d := Trailer(s, k);
      && d.WellFormed() && IsPart(d, s.files[k])
      && forall o :: o in s.files[k].locs && (InTable(s.table, k, o) || Owed(s.writes, k, o)) ==> o in d.locs
  {
    var d := Trailer(s, k);
    assert d.WellFormed() && IsPart(d, s.files[k]) by {
      if d != s.files[k] { TrailerIsPart(s.files[k], s.writes[k].failed); }
    }
    hide IsPart, InTable, Owed, File.WellFormed;
    forall o | o in s.files[k].locs && (InTable(s.table, k, o) || Owed(s.writes, k, o)) ensures o in d.locs {
      assert !Unsettled(s.writes, k, o);
    }
  }

  /** Each entry left out takes its 16 bytes with it. */
  lemma TrailerSize(f: File, failed: set<ObjectId>)
    requires f.len + 20 + 16 * |f.locs| <= f.size
    ensures var d := f.Without(failed); f.len + 20 + 16 * |d.locs| <= d.size && |d.locs| <= |f.locs|
    ensures var d := f.Without(failed); d.size == f.size - 16 * (|f.locs| - |d.locs|)
  {
    var gone, left := f.locs.Keys * failed, (f.locs - failed).Keys;
    assert f.locs.Keys == left + gone && left !! gone;
    assert |f.locs.Keys| == |left| + |gone|;
    assert |f.locs - failed| == |left| && |f.locs| == |f.locs.Keys|;
  }

  lemma TrailerIsPart(f: File, failed: set<ObjectId>)
    requires f.WellFormed() && f.IsGc() && f.Without(failed).locs != map[]
    ensures f.Without(failed).WellFormed() && IsPart(f.Without(failed), f)
  {
    TrailerSize(f, failed);
    assert f.Without(failed).locs.Keys == f.locs.Keys - failed;
  }

  lemma RenameStage(s: State, k: Lsn)
    requires Enabled(s, Rename(k))
    requires WritesOk(s.writes, s.files, s.present)
    requires StageOk(s.files, s.present, s.writes, s.claimed, s.pathed, s.described, s.live)
    ensures var s' := DoRename(s, k);
      StageOk(s'.files, s'.present, s'.writes, s'.claimed, s'.pathed, s'.described, s'.live)
    ensures WriteOk(s.writes[k].(phase := Renamed), s.files[k])
  {
  }

  lemma FileWellFormed(s: State, k: Lsn)
    requires FilesOk(s.files, s.nextLsn) && k in s.files
    ensures s.files[k].WellFormed()
  {
  }

  lemma RenameKeeps(s: State, k: Lsn)
    requires Inv(s) && Enabled(s, Rename(k))
    ensures Inv(Apply(s, Rename(k)))
  {
    hide FilesOk, TableOk, LiveOk, WritesOk, ReplacedOk, UnsettledOk, CopiesOk, KnownOk, StageOk, ClaimsOk, PassesOk;
    hide DebugOk, DiskOk;
    hide WriteOk, Trailer, File.WellFormed;
    var s' := Apply(s, Rename(k));
    hide Owed, InTable;
    assert s.files[k].WellFormed() by { FileWellFormed(s, k); }
    RenameStage(s, k);
    TrailerKeeps(s, k);
    RenameDisk(s, k, Trailer(s, k), s'.writes);
    AdvanceTokens(s, s', k);
    AdvanceCopies(s, s', k);
    AdvanceClaims(s, s', k);
    AdvancePasses(s, s', k);
    AdvanceWrites(s, s', k);
  }

  // ---------------------------------------------------------------- Finish

  /** A write with no work left can leave without anyone noticing. */
  ghost predicate Idle(w: Write) { w.todo == {} && w.failed == {} && w.replaced == map[] }

  lemma IdleLeaves(s: State, k: Lsn)
    requires k in s.writes && Idle(s.writes[k])
    ensures var w' := s.writes - {k};
      && (forall j, o :: Owed(s.writes, j, o) <==> Owed(w', j, o))
      && (forall j, o :: Unsettled(s.writes, j, o) <==> Unsettled(w', j, o))
  {
    var w' := s.writes - {k};
    forall j, o ensures Owed(s.writes, j, o) <==> Owed(w', j, o) {
      assert forall g :: g in s.writes && Owes(s.writes[g], j, o) ==> g in w' && Owes(w'[g], j, o);
    }
  }

  lemma FinishTokens(s: State, k: Lsn)
    requires TokensOk(s) && k in s.writes && Idle(s.writes[k])
    ensures TokensOk(s.(writes := s.writes - {k}))
  {
    var s' := s.(writes := s.writes - {k});
    hide LiveOk, ReplacedOk, UnsettledOk, KnownOk, DebugOk, Owed, Unsettled;
    IdleLeaves(s, k);
    SameTokens(s, s');
    FinishReplaced(s, k);
    FinishUnsettled(s, k);
  }

  lemma FinishReplaced(s: State, k: Lsn)
    requires k in s.writes && Idle(s.writes[k])
    requires ReplacedOk(s.writes, s.table, s.files, s.present) && KnownOk(s.writes, s.table, s.files)
    ensures ReplacedOk(s.writes - {k}, s.table, s.files, s.present) && KnownOk(s.writes - {k}, s.table, s.files)
  {
    hide LeftBehind;
  }

  lemma FinishUnsettled(s: State, k: Lsn)
    requires k in s.writes && Idle(s.writes[k])
    requires UnsettledOk(s.writes, s.table) && DebugOk(s.adds, s.removes, s.table, s.files, s.writes)
    ensures UnsettledOk(s.writes - {k}, s.table) && DebugOk(s.adds, s.removes, s.table, s.files, s.writes - {k})
  {
    IdleLeaves(s, k);
    hide Owed, Unsettled, Wrote, InTable;
  }

  lemma FinishFrame(s: State, k: Lsn)
    requires WritesOk(s.writes, s.files, s.present) && CopiesOk(s.writes, s.files, s.pathed)
    requires Enabled(s, Finish(k))
    ensures WritesOk(s.writes - {k}, s.files, s.present) && CopiesOk(s.writes - {k}, s.files, s.pathed)
    ensures Idle(s.writes[k])
    ensures k in s.present
  {
    assert WriteOk(s.writes[k], s.files[k]);
    hide WriteOk, Copied;
  }

  lemma FinishStage(s: State, k: Lsn)
    requires Enabled(s, Finish(k)) && k in s.present
    requires StageOk(s.files, s.present, s.writes, s.claimed, s.pathed, s.described, s.live)
    requires ClaimsOk(s.claimed, s.present, s.writes, s.passes)
    ensures k in s.claimed
    ensures StageOk(s.files, s.present, s.writes - {k}, s.claimed - {k}, s.pathed, s.described, s.live)
    ensures ClaimsOk(s.claimed - {k}, s.present, s.writes - {k}, s.passes)
  {
  }

  lemma FinishDisk(s: State, k: Lsn)
    requires Enabled(s, Finish(k)) && Idle(s.writes[k])
    requires DiskOk(s.disk, s.files, s.present, s.writes, s.table)
    ensures DiskOk(s.disk, s.files, s.present, s.writes - {k}, s.table)
  {
    IdleLeaves(s, k);
    hide IsPart, InTable, Owed, Idle;
  }

  lemma FinishKeeps(s: State, k: Lsn)
    requires Inv(s) && Enabled(s, Finish(k))
    ensures Inv(Apply(s, Finish(k)))
  {
    hide FilesOk, TableOk, LiveOk, WritesOk, ReplacedOk, UnsettledOk, CopiesOk, KnownOk, StageOk, ClaimsOk, PassesOk;
    hide DebugOk, DiskOk;
    FinishFrame(s, k);
    FinishStage(s, k);
    FinishTokens(s, k);
    FinishDisk(s, k);
  }

  // ---------------------------------------------------------------- Subtract and Decrement

  /** Counts that were zero stay zero. */
  ghost predicate ZeroStays(live: map<Lsn, int>, live': map<Lsn, int>) {
    live'.Keys == live.Keys && forall k :: k in live && live[k] == 0 ==> live'[k] == 0
  }

  lemma ZeroStaysPasses(s: State, live': map<Lsn, int>)
    requires PassesOk(s.passes, s.files, s.present, s.live, s.pathed) && ZeroStays(s.live, live')
    ensures PassesOk(s.passes, s.files, s.present, live', s.pathed)
  {
    hide Copied;
    forall t | t in s.passes ensures PassOk(s.passes[t], s.files, s.present, live', s.pathed) {
      assert PassOk(s.passes[t], s.files, s.present, s.live, s.pathed);
    }
  }

  /** The entries of one file lose the tokens `paid`, and its count drops by as many. */
  lemma TokensPaid(s: State, s': State, j: Lsn, paid: set<ObjectId>)
    requires LiveOk(s.live, s.table, s.writes, s.files)
    requires s'.files == s.files && j in s.files && s'.live == s.live[j := s.live[j] - |paid|]
    requires forall o :: o in paid ==> o in s.files[j].locs && Held(s.table, s.writes, j, o)
    requires forall k, o :: k in s.files && o in s.files[k].locs ==>
      (Held(s'.table, s'.writes, k, o) <==> Held(s.table, s.writes, k, o) && !(k == j && o in paid))
    ensures LiveOk(s'.live, s'.table, s'.writes, s'.files)
    ensures |paid| <= s.live[j] && ZeroStays(s.live, s'.live)
  {
    hide Held, Tokens;
    var before := Tokens(s.table, s.writes, s.files[j], j);
    assert paid <= before && Tokens(s'.table, s'.writes, s.files[j], j) == before - paid by {
      PaidTokens(s, s', j, paid);
    }
    Within(paid, before);
    forall k | k in s.files && k != j
      ensures Tokens(s'.table, s'.writes, s.files[k], k) == Tokens(s.table, s.writes, s.files[k], k)
    {
      KeptTokens(s, s', k);
    }
  }

  lemma PaidTokens(s: State, s': State, j: Lsn, paid: set<ObjectId>)
    requires j in s.files && forall o :: o in paid ==> o in s.files[j].locs && Held(s.table, s.writes, j, o)
    requires forall o :: o in s.files[j].locs ==>
      (Held(s'.table, s'.writes, j, o) <==> Held(s.table, s.writes, j, o) && o !in paid)
    ensures paid <= Tokens(s.table, s.writes, s.files[j], j)
    ensures Tokens(s'.table, s'.writes, s.files[j], j) == Tokens(s.table, s.writes, s.files[j], j) - paid
  {
    hide Held;
  }

  lemma KeptTokens(s: State, s': State, k: Lsn)
    requires k in s.files
    requires forall o :: o in s.files[k].locs ==> (Held(s'.table, s'.writes, k, o) <==> Held(s.table, s.writes, k, o))
    ensures Tokens(s'.table, s'.writes, s.files[k], k) == Tokens(s.table, s.writes, s.files[k], k)
  {
    hide Held;
  }

  lemma Within<T>(a: set<T>, b: set<T>)
    requires a <= b
    ensures |a| <= |b| && |b - a| == |b| - |a|
  {
    assert b == a + (b - a) && a !! (b - a);
  }

  lemma SubtractHeld(s: State, k: Lsn)
    requires k in s.writes && UnsettledOk(s.writes, s.table)
    requires s.writes[k].todo == {}
    ensures var w' := s.writes[k := s.writes[k].(failed := {}, phase := Settled)];
      && (forall j, o :: Owed(s.writes, j, o) <==> Owed(w', j, o))
      && (forall j, o :: Unsettled(w', j, o) <==> Unsettled(s.writes, j, o) && j != k)
      && (forall j, o :: Held(s.table, w', j, o) <==>
            Held(s.table, s.writes, j, o) && !(j == k && o in s.writes[k].failed))
  {
    var w' := s.writes[k := s.writes[k].(failed := {}, phase := Settled)];
    assert forall g, j, o :: g in s.writes ==> (Owes(s.writes[g], j, o) <==> Owes(w'[g], j, o));
    forall j, o ensures Owed(s.writes, j, o) <==> Owed(w', j, o) {
    }
    assert forall j, o :: Unsettled(w', j, o) <==> Unsettled(s.writes, j, o) && j != k;
    forall o | o in s.writes[k].failed ensures !InTable(s.table, k, o) && !Owed(s.writes, k, o) {
      assert Unsettled(s.writes, k, o);
    }
    hide Owed, Owes, InTable;
  }

  lemma SubtractLive(s: State, k: Lsn)
    requires LiveOk(s.live, s.table, s.writes, s.files) && UnsettledOk(s.writes, s.table)
    requires k in s.writes && s.writes[k].todo == {} && k in s.files && s.writes[k].failed <= s.files[k].locs.Keys
    ensures k in s.live && |s.writes[k].failed| <= s.live[k]
    ensures var s' := DoSubtract(s, k); LiveOk(s'.live, s'.table, s'.writes, s'.files) && ZeroStays(s.live, s'.live)
  {
    var paid := s.writes[k].failed;
    SubtractHeld(s, k);
    assert forall o :: o in paid ==> o in s.files[k].locs && Unsettled(s.writes, k, o);
    hide UnsettledOk, Owed, Unsettled, InTable;
    TokensPaid(s, DoSubtract(s, k), k, paid);
  }

  lemma SubtractTokens(s: State, k: Lsn)
    requires TokensOk(s) && k in s.files && k in s.writes && s.writes[k].phase == Described
    requires WriteOk(s.writes[k], s.files[k])
    ensures k in s.live && |s.writes[k].failed| <= s.live[k]
    ensures TokensOk(DoSubtract(s, k)) && ZeroStays(s.live, DoSubtract(s, k).live)
  {
    hide ReplacedOk, UnsettledOk, KnownOk, DebugOk, LiveOk, ZeroStays;
    SubtractLive(s, k);
    SubtractRest(s, k);
  }

  lemma SubtractRest(s: State, k: Lsn)
    requires TokensOk(s) && k in s.writes && s.writes[k].todo == {}
    ensures var w' := s.writes[k := s.writes[k].(failed := {}, phase := Settled)];
      && ReplacedOk(w', s.table, s.files, s.present) && UnsettledOk(w', s.table)
      && KnownOk(w', s.table, s.files) && DebugOk(s.adds, s.removes, s.table, s.files, w')
  {
    hide LiveOk;
    var w' := s.writes[k := s.writes[k].(failed := {}, phase := Settled)];
    assert ReplacedOk(w', s.table, s.files, s.present) && KnownOk(w', s.table, s.files) by {
      hide LeftBehind, UnsettledOk, DebugOk;
    }
    hide LeftBehind, ReplacedOk, KnownOk;
    SubtractHeld(s, k);
    hide Owed, Unsettled, InTable, Wrote;
  }

  /** The frame of a payment: counts drop but zero stays zero, and one write goes on with less to
      do, its phase at or past `Renamed`. */
  ghost predicate Pays(s: State, s': State, k: Lsn) {
    && k in s.writes && k in s'.writes && s'.writes == s.writes[k := s'.writes[k]]
    && s.writes[k].phase in {Renamed, Described} && s'.writes[k].phase in {Renamed, Settled}
    && (s'.writes[k].phase == Settled <==> s.writes[k].phase == Described)
    && s'.writes[k].scanned == s.writes[k].scanned
    && s'.writes[k].replaced.Items <= s.writes[k].replaced.Items
    && s'.files == s.files && s'.table == s.table && s'.present == s.present && s'.passes == s.passes
    && s'.pathed == s.pathed && s'.claimed == s.claimed && s'.described == s.described
    && s'.disk == s.disk && ZeroStays(s.live, s'.live)
  }

  lemma PaysFrame(s: State, s': State, k: Lsn)
    requires Pays(s, s', k)
    requires WritesOk(s.writes, s.files, s.present) && CopiesOk(s.writes, s.files, s.pathed)
    requires WriteOk(s'.writes[k], s.files[k])
    ensures WritesOk(s'.writes, s'.files, s'.present) && CopiesOk(s'.writes, s'.files, s'.pathed)
  {
    hide WriteOk, Copied, ZeroStays;
  }

  lemma PaysStage(s: State, s': State, k: Lsn)
    requires Pays(s, s', k)
    requires StageOk(s.files, s.present, s.writes, s.claimed, s.pathed, s.described, s.live)
    requires ClaimsOk(s.claimed, s.present, s.writes, s.passes)
    ensures StageOk(s'.files, s'.present, s'.writes, s'.claimed, s'.pathed, s'.described, s'.live)
    ensures ClaimsOk(s'.claimed, s'.present, s'.writes, s'.passes)
  {
  }

  lemma PaysDisk(s: State, s': State, k: Lsn)
    requires Pays(s, s', k)
    requires DiskOk(s.disk, s.files, s.present, s.writes, s.table)
    ensures DiskOk(s'.disk, s'.files, s'.present, s'.writes, s'.table)
  {
    hide IsPart, InTable, ZeroStays;
    forall j, o | Owed(s'.writes, j, o) ensures Owed(s.writes, j, o) {
      hide DiskOk;
      var g :| g in s'.writes && Owes(s'.writes[g], j, o);
      if g == k {
        assert (o, s'.writes[k].replaced[o]) in s'.writes[k].replaced.Items;
      }
      assert Owes(s.writes[g], j, o);
    }
    hide Owed;
  }

  lemma SubtractKeeps(s: State, k: Lsn)
    requires Inv(s) && Enabled(s, Subtract(k))
    ensures Inv(Apply(s, Subtract(k)))
  {
    hide FilesOk, TableOk, LiveOk, WritesOk, ReplacedOk, UnsettledOk, CopiesOk, KnownOk, StageOk, ClaimsOk, PassesOk;
    hide DebugOk, DiskOk, ZeroStays;
    var s' := Apply(s, Subtract(k));
    assert k in s.files && WriteOk(s.writes[k], s.files[k]) by { WriteIsOk(s, k); }
    SubtractTokens(s, k);
    ZeroStaysPasses(s, s'.live);
    assert Pays(s, s', k);
    assert WriteOk(s'.writes[k], s.files[k]);
    hide Pays, WriteOk;
    PaysFrame(s, s', k);
    PaysStage(s, s', k);
    PaysDisk(s, s', k);
  }

  lemma WriteIsOk(s: State, k: Lsn)
    requires WritesOk(s.writes, s.files, s.present) && k in s.writes
    ensures k in s.files && k in s.present && WriteOk(s.writes[k], s.files[k])
  {
  }

  lemma DecrementHeld(s: State, k: Lsn, o: ObjectId, w': map<Lsn, Write>)
    requires k in s.writes && o in s.writes[k].replaced
    requires ReplacedOk(s.writes, s.table, s.files, s.present) && UnsettledOk(s.writes, s.table)
    requires w' == s.writes[k := s.writes[k].(replaced := s.writes[k].replaced - {o})]
    ensures var j := s.writes[k].replaced[o].file;
      && !Held(s.table, w', j, o)
      && (forall i, x :: !(i == j && x == o) ==> (Owed(s.writes, i, x) <==> Owed(w', i, x)))
      && (forall i, x :: Unsettled(s.writes, i, x) <==> Unsettled(w', i, x))
  {
    var j := s.writes[k].replaced[o].file;
    assert Owes(s.writes[k], j, o);
    assert LeftBehind(s.writes[k].replaced[o], k, o, s.table, s.files, s.present);
    assert !Unsettled(s.writes, j, o);
    assert forall g :: g in w' ==> !Owes(w'[g], j, o);
    forall i, x | !(i == j && x == o) ensures Owed(s.writes, i, x) <==> Owed(w', i, x) {
      assert forall g :: g in s.writes ==> (Owes(s.writes[g], i, x) <==> Owes(w'[g], i, x));
    }
  }

  lemma DecrementLive(s: State, s': State, k: Lsn, o: ObjectId)
    requires LiveOk(s.live, s.table, s.writes, s.files)
    requires ReplacedOk(s.writes, s.table, s.files, s.present) && UnsettledOk(s.writes, s.table)
    requires k in s.writes && o in s.writes[k].replaced && s.writes[k].replaced[o].file in s.files
    requires var j := s.writes[k].replaced[o].file;
      s' == s.(live := s.live[j := s.live[j] - 1],
               writes := s.writes[k := s.writes[k].(replaced := s.writes[k].replaced - {o})])
    ensures s.writes[k].replaced[o].file in s.live && s.live[s.writes[k].replaced[o].file] >= 1
    ensures LiveOk(s'.live, s'.table, s'.writes, s'.files) && ZeroStays(s.live, s'.live)
  {
    hide Owed, Unsettled, InTable, ReplacedOk, UnsettledOk, LeftBehind, LiveOk, ZeroStays;
    var j := s.writes[k].replaced[o].file;
    OwedEntry(s, k, o);
    DecrementHeld(s, k, o, s'.writes);
    LiveHas(s, j);
    TokensPaid(s, s', j, {o});
  }

  lemma LiveHas(s: State, k: Lsn)
    requires LiveOk(s.live, s.table, s.writes, s.files) && k in s.files
    ensures k in s.live
  {
    hide Tokens;
  }

  lemma OwedEntry(s: State, k: Lsn, o: ObjectId)
    requires ReplacedOk(s.writes, s.table, s.files, s.present) && k in s.writes && o in s.writes[k].replaced
    ensures var j := s.writes[k].replaced[o].file; Owed(s.writes, j, o) && j in s.files && o in s.files[j].locs
  {
    assert Owes(s.writes[k], s.writes[k].replaced[o].file, o);
    assert LeftBehind(s.writes[k].replaced[o], k, o, s.table, s.files, s.present);
  }

  lemma DecrementRest(s: State, k: Lsn, o: ObjectId, w': map<Lsn, Write>)
    requires TokensOk(s) && k in s.writes && o in s.writes[k].replaced
    requires w' == s.writes[k := s.writes[k].(replaced := s.writes[k].replaced - {o})]
    ensures ReplacedOk(w', s.table, s.files, s.present) && UnsettledOk(w', s.table)
    ensures KnownOk(w', s.table, s.files) && DebugOk(s.adds, s.removes, s.table, s.files, w')
  {
    hide LiveOk, ReplacedOk, KnownOk, UnsettledOk, DebugOk;
    DecrementReplaced(s, k, o, w');
    DecrementHeld(s, k, o, w');
    DecrementSettled(s, k, o, w');
  }

  lemma DecrementReplaced(s: State, k: Lsn, o: ObjectId, w': map<Lsn, Write>)
    requires ReplacedOk(s.writes, s.table, s.files, s.present) && KnownOk(s.writes, s.table, s.files)
    requires k in s.writes && o in s.writes[k].replaced
    requires w' == s.writes[k := s.writes[k].(replaced := s.writes[k].replaced - {o})]
    ensures ReplacedOk(w', s.table, s.files, s.present) && KnownOk(w', s.table, s.files)
  {
    hide LeftBehind;
  }

  lemma DecrementSettled(s: State, k: Lsn, o: ObjectId, w': map<Lsn, Write>)
    requires UnsettledOk(s.writes, s.table) && DebugOk(s.adds, s.removes, s.table, s.files, s.writes)
    requires forall i, x :: Unsettled(w', i, x) <==> Unsettled(s.writes, i, x)
    requires forall i, x :: Owed(w', i, x) ==> Owed(s.writes, i, x)
    ensures UnsettledOk(w', s.table) && DebugOk(s.adds, s.removes, s.table, s.files, w')
  {
    hide Owed, Unsettled, InTable, Wrote;
  }

  /** The decrement goes to the file that wrote the replaced location, and that file has a token
      to give: neither the search nor the assertions on the count can fail. */
  lemma DecrementTarget(s: State, k: Lsn, o: ObjectId)
    requires FilesOk(s.files, s.nextLsn) && s.present <= s.files.Keys
    requires ReplacedOk(s.writes, s.table, s.files, s.present)
    requires k in s.writes && o in s.writes[k].replaced
    ensures var l := s.writes[k].replaced[o];
      l.file in s.present && l.file in s.files && l.file != k
      && forall j :: IsPredecessor(s.present, Raw(l), j) <==> j == l.file
  {
    var l := s.writes[k].replaced[o];
    assert LeftBehind(l, k, o, s.table, s.files, s.present);
    LookupFindsWriter(s, l, o);
  }

  lemma DecrementKeeps(s: State, k: Lsn, o: ObjectId)
    requires Inv(s) && Enabled(s, Decrement(k, o))
    ensures Inv(Apply(s, Decrement(k, o)))
  {
    hide FilesOk, TableOk, LiveOk, WritesOk, ReplacedOk, UnsettledOk, CopiesOk, KnownOk, StageOk, ClaimsOk, PassesOk;
    hide DebugOk, DiskOk, ZeroStays;
    hide IsPredecessor, Raw;
    var j := s.writes[k].replaced[o].file;
    FilesPresent(s);
    DecrementTarget(s, k, o);
    var s1 := s.(live := s.live[j := s.live[j] - 1],
                 writes := s.writes[k := s.writes[k].(replaced := s.writes[k].replaced - {o})]);
    DecrementLive(s, s1, k, o);
    var s' := Apply(s, Decrement(k, o));
    assert s' == s1;
    assert k in s.files && WriteOk(s.writes[k], s.files[k]) by { WriteIsOk(s, k); }
    DecrementRest(s, k, o, s'.writes);
    ZeroStaysPasses(s, s'.live);
    assert Pays(s, s', k);
    assert WriteOk(s'.writes[k], s.files[k]);
    hide Pays, WriteOk, Apply;
    PaysFrame(s, s', k);
    PaysStage(s, s', k);
    PaysDisk(s, s', k);
  }

  lemma FilesPresent(s: State)
    requires StageOk(s.files, s.present, s.writes, s.claimed, s.pathed, s.described, s.live)
    requires LiveOk(s.live, s.table, s.writes, s.files)
    ensures s.present <= s.files.Keys == s.live.Keys
  {
    hide Tokens;
  }

  // ---------------------------------------------------------------- Install

  /** One write goes on in its phase; nothing but its work list, the table and the debug history
      has changed. */
  ghost predicate Continues(s: State, s': State, k: Lsn) {
    && k in s.writes && k in s'.writes && s'.writes == s.writes[k := s'.writes[k]]
    && s'.writes[k].phase == s.writes[k].phase && s'.writes[k].scanned == s.writes[k].scanned
    && s' == s.(table := s'.table, writes := s'.writes, adds := s'.adds, removes := s'.removes, panicked := s'.panicked)
  }

  lemma ContinuesFrame(s: State, s': State, k: Lsn)
    requires Continues(s, s', k)
    requires WritesOk(s.writes, s.files, s.present) && CopiesOk(s.writes, s.files, s.pathed)
    requires k in s.files && WriteOk(s'.writes[k], s.files[k])
    ensures WritesOk(s'.writes, s'.files, s'.present) && CopiesOk(s'.writes, s'.files, s'.pathed)
  {
    hide WriteOk, Copied;
  }

  lemma ContinuesStage(s: State, s': State, k: Lsn)
    requires Continues(s, s', k)
    requires StageOk(s.files, s.present, s.writes, s.claimed, s.pathed, s.described, s.live)
    requires ClaimsOk(s.claimed, s.present, s.writes, s.passes)
    ensures StageOk(s'.files, s'.present, s'.writes, s'.claimed, s'.pathed, s'.described, s'.live)
    ensures ClaimsOk(s'.claimed, s'.present, s'.writes, s'.passes)
  {
  }

  /** The state after entry `o` of file `k` took the table cell from `was`. */
  ghost predicate Installs(s: State, s': State, k: Lsn, o: ObjectId) {
    && k in s.writes && k in s.files && o in s.files[k].locs && o in s.writes[k].todo && o !in s.writes[k].failed
    && var w := s.writes[k].(todo := s.writes[k].todo - {o});
    && s'.table == s.table[o := Loc(k, s.files[k].locs[o])]
    && s'.writes == s.writes[k := if o in s.table then w.(replaced := w.replaced[o := s.table[o]]) else w]
    && s'.files == s.files && s'.live == s.live && s'.present == s.present && s'.disk == s.disk
    && s'.adds == s.adds + {(o, Loc(k, s.files[k].locs[o]))}
    && s'.removes == s.removes + if o in s.table then {(o, s.table[o])} else {}
  }

  lemma InstallsWho(s: State, s': State, k: Lsn, o: ObjectId)
    requires Installs(s, s', k, o)
    requires ReplacedOk(s.writes, s.table, s.files, s.present) && UnsettledOk(s.writes, s.table)
    ensures !InTable(s.table, k, o) && !Owed(s.writes, k, o) && o !in s.writes[k].replaced
    ensures forall i, x :: Owed(s'.writes, i, x) <==> Owed(s.writes, i, x) || (x == o && InTable(s.table, i, o))
    ensures forall i, x :: Unsettled(s'.writes, i, x) <==> Unsettled(s.writes, i, x) && !(i == k && x == o)
    ensures forall i, x :: InTable(s'.table, i, x) <==> if x == o then i == k else InTable(s.table, i, x)
  {
    assert Unsettled(s.writes, k, o);
    hide ReplacedOk, UnsettledOk;
    forall i, x ensures Owed(s'.writes, i, x) <==> Owed(s.writes, i, x) || (x == o && InTable(s.table, i, o)) {
      assert forall g :: g in s.writes && g != k ==> (Owes(s.writes[g], i, x) <==> Owes(s'.writes[g], i, x));
      assert Owes(s'.writes[k], i, x) <==> Owes(s.writes[k], i, x) || (x == o && InTable(s.table, i, o));
      if x == o && InTable(s.table, i, o) {
        assert Owes(s'.writes[k], i, x);
      }
    }
  }

  lemma InstallsLive(s: State, s': State, k: Lsn, o: ObjectId)
    requires Installs(s, s', k, o)
    requires ReplacedOk(s.writes, s.table, s.files, s.present) && UnsettledOk(s.writes, s.table)
    requires LiveOk(s.live, s.table, s.writes, s.files)
    ensures LiveOk(s'.live, s'.table, s'.writes, s'.files)
  {
    InstallsWho(s, s', k, o);
    assert Unsettled(s.writes, k, o);
    hide LiveOk, ReplacedOk, UnsettledOk, Owed, Unsettled, InTable;
    SameTokens(s, s');
  }

  lemma InstallsReplaced(s: State, s': State, k: Lsn, o: ObjectId)
    requires Installs(s, s', k, o)
    requires TableOk(s.table, s.files, s.present)
    requires ReplacedOk(s.writes, s.table, s.files, s.present) && UnsettledOk(s.writes, s.table)
    ensures ReplacedOk(s'.writes, s'.table, s'.files, s'.present)
  {
    InstallsWho(s, s', k, o);
    hide UnsettledOk;
    forall g, x | g in s'.writes && x in s'.writes[g].replaced
      ensures LeftBehind(s'.writes[g].replaced[x], g, x, s'.table, s'.files, s'.present) && !Unsettled(s'.writes, g, x)
    {
      if g == k && x == o {
        assert InTable(s.table, s.table[o].file, o);
      } else {
        assert x in s.writes[g].replaced && s'.writes[g].replaced[x] == s.writes[g].replaced[x];
        assert LeftBehind(s.writes[g].replaced[x], g, x, s.table, s.files, s.present) && !Unsettled(s.writes, g, x);
        assert Owes(s.writes[g], s.writes[g].replaced[x].file, x);
      }
    }
    hide Owed, Unsettled;
    forall g, h, x | g in s'.writes && h in s'.writes && g != h && x in s'.writes[g].replaced
      && x in s'.writes[h].replaced
      ensures s'.writes[g].replaced[x].file != s'.writes[h].replaced[x].file
    {
      assert g != k ==> LeftBehind(s.writes[g].replaced[x], g, x, s.table, s.files, s.present);
      assert h != k ==> LeftBehind(s.writes[h].replaced[x], h, x, s.table, s.files, s.present);
    }
  }

  lemma InstallsUnsettled(s: State, s': State, k: Lsn, o: ObjectId)
    requires Installs(s, s', k, o)
    requires ReplacedOk(s.writes, s.table, s.files, s.present) && UnsettledOk(s.writes, s.table)
    requires KnownOk(s.writes, s.table, s.files)
    ensures UnsettledOk(s'.writes, s'.table) && KnownOk(s'.writes, s'.table, s'.files)
  {
    assert KnownOk(s'.writes, s'.table, s'.files) by { hide UnsettledOk, ReplacedOk; }
    hide KnownOk;
    InstallsWho(s, s', k, o);
    hide ReplacedOk, Owed, Unsettled, InTable;
  }

  lemma InstallsDebug(s: State, s': State, k: Lsn, o: ObjectId)
    requires Installs(s, s', k, o)
    requires ReplacedOk(s.writes, s.table, s.files, s.present) && UnsettledOk(s.writes, s.table)
    requires DebugOk(s.adds, s.removes, s.table, s.files, s.writes)
    ensures DebugOk(s'.adds, s'.removes, s'.table, s'.files, s'.writes)
    ensures (o, Loc(k, s.files[k].locs[o])) !in s.adds
    ensures o in s.table ==> (o, s.table[o]) in s.adds && (o, s.table[o]) !in s.removes
  {
    InstallsWho(s, s', k, o);
    assert Unsettled(s.writes, k, o);
    hide ReplacedOk, UnsettledOk, Owed, Unsettled, InTable;
  }

  lemma InstallsDisk(s: State, s': State, k: Lsn, o: ObjectId)
    requires Installs(s, s', k, o) && s.writes[k].phase == Installing
    requires ReplacedOk(s.writes, s.table, s.files, s.present) && UnsettledOk(s.writes, s.table)
    requires DiskOk(s.disk, s.files, s.present, s.writes, s.table)
    ensures DiskOk(s'.disk, s'.files, s'.present, s'.writes, s'.table)
  {
    hide ReplacedOk, UnsettledOk, Owed, InTable, IsPart, File.WellFormed;
    InstallsWho(s, s', k, o);
    assert k !in s.disk;
  }

  lemma InstallsTable(s: State, s': State, k: Lsn, o: ObjectId)
    requires Installs(s, s', k, o) && k in s.present
    requires TableOk(s.table, s.files, s.present)
    ensures TableOk(s'.table, s'.files, s'.present)
  {
  }

  lemma InstallsWrite(s: State, s': State, k: Lsn, o: ObjectId)
    requires Installs(s, s', k, o) && s.writes[k].phase == Installing
    requires k in s.files && WriteOk(s.writes[k], s.files[k])
    ensures WriteOk(s'.writes[k], s.files[k])
  {
  }

  /** A successful installation keeps the invariant, and the debug history accepts it. */
  lemma InstallsKeeps(s: State, s': State, k: Lsn, o: ObjectId)
    requires Inv(s) && k in s.writes && s.writes[k].phase == Installing
    requires Installs(s, s', k, o) && Continues(s, s', k)
    requires s'.panicked ==>
      || (o, Loc(k, s.files[k].locs[o])) in s.removes || (o, Loc(k, s.files[k].locs[o])) in s.adds
      || (o in s.table && ((o, s.table[o]) !in s.adds || (o, s.table[o]) in s.removes))
    ensures Inv(s')
  {
    hide FilesOk, TableOk, LiveOk, WritesOk, ReplacedOk, UnsettledOk, CopiesOk, KnownOk, StageOk, ClaimsOk, PassesOk;
    hide DebugOk, DiskOk;
    hide Installs, Continues, WriteOk;
    WriteIsOk(s, k);
    InstallsTable(s, s', k, o);
    InstallsLive(s, s', k, o);
    InstallsReplaced(s, s', k, o);
    InstallsUnsettled(s, s', k, o);
    InstallsDebug(s, s', k, o);
    InstallsDisk(s, s', k, o);
    InstallsWrite(s, s', k, o);
    ContinuesFrame(s, s', k);
    ContinuesStage(s, s', k);
    RemovesAreAdds(s);
    UsedFields(s, s', k);
  }

  lemma RemovesAreAdds(s: State)
    requires DebugOk(s.adds, s.removes, s.table, s.files, s.writes)
    ensures s.removes <= s.adds
  {
  }

  lemma UsedFields(s: State, s': State, k: Lsn)
    requires Continues(s, s', k)
    ensures s'.files == s.files && s'.nextLsn == s.nextLsn && s'.passes == s.passes && s'.present == s.present
    ensures s'.live == s.live && s'.pathed == s.pathed
  {
  }

  /** The state after entry `o` of file `k` lost its cell to someone else. */
  ghost predicate Fails(s: State, s': State, k: Lsn, o: ObjectId) {
    && k in s.writes && o in s.writes[k].todo && o in s.table
    && s' == s.(writes := s.writes[k := s.writes[k].(todo := s.writes[k].todo - {o},
      failed := s.writes[k].failed + {o})])
  }

  lemma FailsWho(s: State, s': State, k: Lsn, o: ObjectId)
    requires Fails(s, s', k, o)
    ensures forall i, x :: Owed(s'.writes, i, x) <==> Owed(s.writes, i, x)
    ensures forall i, x :: Unsettled(s'.writes, i, x) <==> Unsettled(s.writes, i, x)
  {
    assert forall g, i, x :: g in s.writes ==> (Owes(s.writes[g], i, x) <==> Owes(s'.writes[g], i, x));
    forall i, x ensures Owed(s'.writes, i, x) <==> Owed(s.writes, i, x) {
    }
  }

  lemma FailsReplaced(s: State, s': State, k: Lsn, o: ObjectId)
    requires Fails(s, s', k, o)
    requires ReplacedOk(s.writes, s.table, s.files, s.present) && KnownOk(s.writes, s.table, s.files)
    ensures ReplacedOk(s'.writes, s'.table, s'.files, s'.present) && KnownOk(s'.writes, s'.table, s'.files)
  {
    hide LeftBehind;
  }

  lemma FailsTokens(s: State, s': State, k: Lsn, o: ObjectId)
    requires Fails(s, s', k, o) && TokensOk(s)
    ensures TokensOk(s')
  {
    hide LiveOk, UnsettledOk, DebugOk, ReplacedOk, KnownOk, Owed, Unsettled;
    FailsReplaced(s, s', k, o);
    FailsWho(s, s', k, o);
    FailsFields(s, s', k, o);
    hide Fails;
    SameTokens(s, s');
    FailsUnsettled(s, s');
  }

  lemma FailsUnsettled(s: State, s': State)
    requires UnsettledOk(s.writes, s.table) && DebugOk(s.adds, s.removes, s.table, s.files, s.writes)
    requires s'.table == s.table && s'.adds == s.adds && s'.removes == s.removes && s'.files == s.files
    requires forall i, x :: Owed(s'.writes, i, x) <==> Owed(s.writes, i, x)
    requires forall i, x :: Unsettled(s'.writes, i, x) <==> Unsettled(s.writes, i, x)
    ensures UnsettledOk(s'.writes, s'.table) && DebugOk(s'.adds, s'.removes, s'.table, s'.files, s'.writes)
  {
    hide Owed, Unsettled, InTable, Wrote;
  }

  lemma FailsFields(s: State, s': State, k: Lsn, o: ObjectId)
    requires Fails(s, s', k, o)
    ensures s'.files == s.files && s'.live == s.live && s'.table == s.table && s'.present == s.present
    ensures s'.adds == s.adds && s'.removes == s.removes && s'.disk == s.disk && s'.panicked == s.panicked
    ensures s'.nextLsn == s.nextLsn && s'.passes == s.passes && s'.pathed == s.pathed
    ensures Continues(s, s', k)
  {
  }

  lemma FailsDisk(s: State, s': State, k: Lsn, o: ObjectId)
    requires Fails(s, s', k, o) && DiskOk(s.disk, s.files, s.present, s.writes, s.table)
    ensures DiskOk(s'.disk, s'.files, s'.present, s'.writes, s'.table)
  {
    FailsWho(s, s', k, o);
    hide IsPart, InTable, Owed, File.WellFormed;
  }

  lemma FailsKeeps(s: State, s': State, k: Lsn, o: ObjectId)
    requires Inv(s) && Fails(s, s', k, o) && s.writes[k].phase == Installing
    ensures Inv(s')
  {
    hide FilesOk, TableOk, LiveOk, WritesOk, ReplacedOk, UnsettledOk, CopiesOk, KnownOk, StageOk, ClaimsOk, PassesOk;
    hide DebugOk, DiskOk;
    hide Continues;
    WriteIsOk(s, k);
    assert WriteOk(s'.writes[k], s.files[k]);
    hide WriteOk;
    FailsTokens(s, s', k, o);
    FailsDisk(s, s', k, o);
    FailsFields(s, s', k, o);
    hide Fails;
    ContinuesFrame(s, s', k);
    ContinuesStage(s, s', k);
  }

  /** Every scanned location is a real entry of a finished file, so its object is in the table, and
      comparing words is comparing entries. */
  lemma ScannedIsKnown(s: State, k: Lsn, o: ObjectId)
    requires FilesOk(s.files, s.nextLsn) && TableOk(s.table, s.files, s.present)
    requires WritesOk(s.writes, s.files, s.present) && CopiesOk(s.writes, s.files, s.pathed)
    requires KnownOk(s.writes, s.table, s.files)
    requires StageOk(s.files, s.present, s.writes, s.claimed, s.pathed, s.described, s.live)
    requires k in s.writes && k in s.files && o in s.files[k].locs && o in s.writes[k].scanned
    ensures s.files[k].IsGc() && o in s.table
    ensures Raw(s.table[o]) == Raw(s.writes[k].scanned[o]) <==> s.table[o] == s.writes[k].scanned[o]
  {
    var l := s.writes[k].scanned[o];
    assert WriteOk(s.writes[k], s.files[k]) && s.files[k].WellFormed();
    assert Copied(s.files, s.pathed, l, o, s.files[k].vals[o]);
    hide FilesOk, WritesOk, CopiesOk, KnownOk, StageOk, WriteOk, Raw;
    DescribedIsKnown(s, l.file, o);
    RawIdentifies(s, s.table[o], l, o);
  }

  /** Fresh entries never compare equal to the table. */
  lemma FreshDiffers(s: State, k: Lsn, o: ObjectId)
    requires FilesOk(s.files, s.nextLsn) && TableOk(s.table, s.files, s.present) && UnsettledOk(s.writes, s.table)
    requires k in s.writes && k in s.files && o in s.files[k].locs && o in s.writes[k].todo && o in s.table
    ensures s.table[o].file != k && Raw(s.table[o]) != Raw(Loc(k, s.files[k].locs[o]))
  {
    assert Unsettled(s.writes, k, o) && Wrote(s.files, s.table[o], o);
    assert Wrote(s.files, Loc(k, s.files[k].locs[o]), o);
    hide FilesOk, Raw;
    RawIdentifies(s, s.table[o], Loc(k, s.files[k].locs[o]), o);
  }

  /** The two ways an installation can end. */
  lemma InstallOutcome(s: State, k: Lsn, o: ObjectId)
    requires Inv(s) && Enabled(s, Install(k, o))
    ensures k in s.files && o in s.files[k].locs && o !in s.writes[k].failed
    ensures o in s.table ==> s.table[o].file != k
    ensures var s' := DoInstall(s, k, o);
      if s.files[k].IsGc() then
        o in s.table && o in s.writes[k].scanned
        && if s.table[o] == s.writes[k].scanned[o]
           then s' == Replace(s, k, o, s.writes[k].(todo := s.writes[k].todo - {o}), Loc(k, s.files[k].locs[o]),
             Some(s.table[o]))
           else Fails(s, s', k, o)
      else if o in s.table && Raw(Loc(k, s.files[k].locs[o])) < Raw(s.table[o])
        then Fails(s, s', k, o)
        else s' == Replace(s, k, o, s.writes[k].(todo := s.writes[k].todo - {o}), Loc(k, s.files[k].locs[o]),
                           if o in s.table then Some(s.table[o]) else None)
  {
    hide FilesOk, TableOk, LiveOk, WritesOk, ReplacedOk, UnsettledOk, CopiesOk, KnownOk, StageOk, ClaimsOk, PassesOk;
    hide DebugOk, DiskOk;
    hide Replace, Raw;
    WriteIsOk(s, k);
    if o in s.writes[k].scanned {
      ScannedIsKnown(s, k, o);
    }
    if o in s.table {
      FreshDiffers(s, k, o);
    }
  }

  lemma InstallKeeps(s: State, k: Lsn, o: ObjectId)
    requires Inv(s) && Enabled(s, Install(k, o))
    ensures Inv(Apply(s, Install(k, o)))
  {
    hide Inv, DoInstall;
    var s' := DoInstall(s, k, o);
    InstallOutcome(s, k, o);
    if Fails(s, s', k, o) {
      FailsKeeps(s, s', k, o);
    } else {
      hide Fails, Raw;
      NotPanicked(s);
      assert Installs(s, s', k, o);
      assert Continues(s, s', k);
      InstallsKeeps(s, s', k, o);
    }
  }

  lemma NotPanicked(s: State)
    requires Inv(s)
    ensures !s.panicked
  {
    hide FilesOk, TableOk, LiveOk, WritesOk, ReplacedOk, UnsettledOk, CopiesOk, KnownOk, StageOk, ClaimsOk, PassesOk;
    hide DebugOk, DiskOk;
  }

  // ---------------------------------------------------------------- AbortGc

  lemma AbortedEntries(s: State, k: Lsn)
    requires Enabled(s, AbortGc(k))
    requires WriteOk(s.writes[k], s.files[k]) && s.files[k].WellFormed()
    requires ReplacedOk(s.writes, s.table, s.files, s.present) && UnsettledOk(s.writes, s.table)
    ensures s.writes[k].todo == {} && s.writes[k].replaced == map[] && s.writes[k].phase == Installing
    ensures forall o :: o in s.files[k].locs ==> !InTable(s.table, k, o) && !Owed(s.writes, k, o)
  {
    assert s.files[k].IsGc() && Trailer(s, k).locs == s.files[k].locs - s.writes[k].failed;
    forall o | o in s.files[k].locs ensures o in s.writes[k].failed {
      assert o !in Trailer(s, k).locs;
    }
    assert forall o :: o in s.files[k].locs ==> Unsettled(s.writes, k, o);
    assert forall o :: o in s.writes[k].replaced ==> !Unsettled(s.writes, k, o);
    assert s.writes[k].replaced.Keys == {};
  }

  /** Dropping a write that owes nothing and whose entries nobody holds. */
  ghost predicate Drops(s: State, s': State, k: Lsn) {
    && k in s.writes && k in s.files && k in s.live && s.writes[k].replaced == map[] && s.writes[k].todo == {}
    && s'.writes == s.writes - {k} && s'.files == s.files && s'.table == s.table
    && s'.present == s.present - {k} && s'.live == s.live[k := 0]
    && s'.adds == s.adds && s'.removes == s.removes && s'.disk == s.disk
    && s'.claimed == s.claimed && s'.described == s.described && s'.pathed == s.pathed + {k} && s'.passes == s.passes
    && forall o :: o in s.files[k].locs ==> !InTable(s.table, k, o) && !Owed(s.writes, k, o)
  }

  lemma DropsWho(s: State, s': State, k: Lsn)
    requires Drops(s, s', k)
    ensures forall i, x :: Owed(s'.writes, i, x) <==> Owed(s.writes, i, x)
    ensures forall i, x :: Unsettled(s'.writes, i, x) <==> Unsettled(s.writes, i, x) && i != k
  {
    forall i, x ensures Owed(s'.writes, i, x) <==> Owed(s.writes, i, x) {
      assert forall g :: g in s.writes && Owes(s.writes[g], i, x) ==> g in s'.writes && Owes(s'.writes[g], i, x);
    }
  }

  lemma DropsLive(s: State, s': State, k: Lsn)
    requires Drops(s, s', k) && LiveOk(s.live, s.table, s.writes, s.files)
    ensures LiveOk(s'.live, s'.table, s'.writes, s'.files) && ZeroStays(s.live, s'.live)
  {
    DropsWho(s, s', k);
    hide Owed, Unsettled, InTable;
    forall j | j in s.files ensures s'.live[j] == |Tokens(s'.table, s'.writes, s'.files[j], j)| {
      if j == k {
        assert Tokens(s'.table, s'.writes, s'.files[k], k) == {};
      } else {
        assert Tokens(s'.table, s'.writes, s'.files[j], j) == Tokens(s.table, s.writes, s.files[j], j);
      }
    }
  }

  lemma DropsTable(s: State, s': State, k: Lsn)
    requires Drops(s, s', k) && TableOk(s.table, s.files, s.present)
    requires WritesOk(s.writes, s.files, s.present) && KnownOk(s.writes, s.table, s.files)
    ensures TableOk(s'.table, s'.files, s'.present)
    ensures WritesOk(s'.writes, s'.files, s'.present) && KnownOk(s'.writes, s'.table, s'.files)
  {
    hide WriteOk, Owed;
    forall o | o in s.table ensures s.table[o].file != k {
      assert Wrote(s.files, s.table[o], o);
      assert o in s.files[k].locs ==> !InTable(s.table, k, o);
    }
  }

  lemma DropsReplaced(s: State, s': State, k: Lsn)
    requires Drops(s, s', k) && ReplacedOk(s.writes, s.table, s.files, s.present)
    ensures ReplacedOk(s'.writes, s'.table, s'.files, s'.present)
  {
    hide InTable;
    forall g, o | g in s.writes && o in s.writes[g].replaced
      ensures LeftBehind(s.writes[g].replaced[o], g, o, s.table, s.files, s'.present)
    {
      assert LeftBehind(s.writes[g].replaced[o], g, o, s.table, s.files, s.present);
      assert Owes(s.writes[g], k, o) ==> Owed(s.writes, k, o);
    }
    hide Owed, LeftBehind;
  }

  lemma DropsUnsettled(s: State, s': State, k: Lsn)
    requires Drops(s, s', k) && UnsettledOk(s.writes, s.table)
    requires DebugOk(s.adds, s.removes, s.table, s.files, s.writes)
    ensures UnsettledOk(s'.writes, s'.table)
    ensures DebugOk(s'.adds, s'.removes, s'.table, s'.files, s'.writes)
  {
    DropsWho(s, s', k);
    hide Owed, Unsettled, InTable, Wrote, Drops;
    DropsFields(s, s', k);
  }

  lemma DropsFields(s: State, s': State, k: Lsn)
    requires Drops(s, s', k)
    ensures s'.table == s.table && s'.files == s.files && s'.adds == s.adds && s'.removes == s.removes
  {
  }

  lemma DropsStage(s: State, s': State, k: Lsn)
    requires Drops(s, s', k) && s.writes[k].phase == Installing && k in s.present
    requires StageOk(s.files, s.present, s.writes, s.claimed, s.pathed, s.described, s.live)
    requires ClaimsOk(s.claimed, s.present, s.writes, s.passes)
    ensures StageOk(s'.files, s'.present, s'.writes, s'.claimed, s'.pathed, s'.described, s'.live)
    ensures ClaimsOk(s'.claimed, s'.present, s'.writes, s'.passes)
    ensures k !in s.pathed
  {
    hide Owed, InTable;
  }

  lemma DropsCopies(s: State, s': State, k: Lsn)
    requires Drops(s, s', k) && CopiesOk(s.writes, s.files, s.pathed)
    ensures CopiesOk(s'.writes, s'.files, s'.pathed)
  {
    hide Owed, InTable;
  }

  lemma DropsPasses(s: State, s': State, k: Lsn)
    requires Drops(s, s', k) && ClaimsOk(s.claimed, s.present, s.writes, s.passes)
    requires PassesOk(s.passes, s.files, s.present, s.live, s.pathed)
    ensures PassesOk(s'.passes, s'.files, s'.present, s'.live, s'.pathed)
  {
    hide Owed, InTable;
    forall t | t in s.passes ensures PassOk(s.passes[t], s'.files, s'.present, s'.live, s'.pathed) {
      assert PassOk(s.passes[t], s.files, s.present, s.live, s.pathed);
      assert k !in s.passes[t].claims;
    }
  }

  lemma DropsDisk(s: State, s': State, k: Lsn)
    requires Drops(s, s', k) && s.writes[k].phase == Installing
    requires DiskOk(s.disk, s.files, s.present, s.writes, s.table)
    ensures DiskOk(s'.disk, s'.files, s'.present, s'.writes, s'.table)
  {
    DropsWho(s, s', k);
    assert k !in s.disk;
    hide IsPart, InTable, Owed, File.WellFormed;
  }

  lemma AbortGcKeeps(s: State, k: Lsn)
    requires Inv(s) && Enabled(s, AbortGc(k))
    ensures Inv(Apply(s, AbortGc(k)))
  {
    hide FilesOk, TableOk, LiveOk, WritesOk, ReplacedOk, UnsettledOk, CopiesOk, KnownOk, StageOk, ClaimsOk, PassesOk;
    hide DebugOk, DiskOk;
    hide WriteOk, InTable, Owed, ZeroStays, File.WellFormed;
    var s' := Apply(s, AbortGc(k));
    WriteIsOk(s, k);
    FileWellFormed(s, k);
    FilesPresent(s);
    AbortedEntries(s, k);
    assert Drops(s, s', k);
    hide Drops;
    DropsLive(s, s', k);
    DropsTable(s, s', k);
    DropsReplaced(s, s', k);
    DropsUnsettled(s, s', k);
    DropsStage(s, s', k);
    DropsCopies(s, s', k);
    DropsPasses(s, s', k);
    DropsDisk(s, s', k);
  }

  // ---------------------------------------------------------------- starting a write

  /** A file about to be entered in the map at the next sequence number. */
  ghost predicate Fresh(s: State, f: File, scanned: map<ObjectId, Loc>) {
    && f.WellFormed() && f.base == s.nextLsn && f.base + f.len + 1 <= NEW_WRITE_BATCH_BIT
    && (if f.IsGc() then f.locs.Keys <= scanned.Keys else scanned == map[])
    && (f.IsGc() ==> forall o :: o in f.vals ==> o in scanned && Copied(s.files, s.pathed, scanned[o], o, f.vals[o]))
  }

  lemma StartFiles(s: State, f: File, scanned: map<ObjectId, Loc>)
    requires Fresh(s, f, scanned) && FilesOk(s.files, s.nextLsn)
    ensures f.Key() !in s.files && f.Key() != 0
    ensures var s' := DoStart(s, f, scanned); FilesOk(s'.files, s'.nextLsn)
  {
    assert f.Key() !in s.files && f.Key() != 0 by { hide Copied; }
    assert f.WellFormed() && f.base == s.nextLsn && s.nextLsn + f.len + 1 <= NEW_WRITE_BATCH_BIT;
    hide Fresh;
    FilesMore(s.files, s.nextLsn, f);
  }

  lemma FilesMore(files: map<Lsn, File>, nextLsn: nat, f: File)
    requires FilesOk(files, nextLsn) && f.WellFormed() && f.base == nextLsn
    requires nextLsn + f.len + 1 <= NEW_WRITE_BATCH_BIT
    ensures FilesOk(files[f.Key() := f], nextLsn + f.len + 1)
  {
    hide File.WellFormed, File.Key;
  }

  lemma StartWho(s: State, f: File, scanned: map<ObjectId, Loc>)
    requires f.Key() !in s.writes
    ensures var s' := DoStart(s, f, scanned);
      && (forall i, x :: Owed(s'.writes, i, x) <==> Owed(s.writes, i, x))
      && (forall i, x :: Unsettled(s'.writes, i, x) <==>
           if i == f.Key() then x in f.locs else Unsettled(s.writes, i, x))
  {
    var s' := DoStart(s, f, scanned);
    forall i, x ensures Owed(s'.writes, i, x) <==> Owed(s.writes, i, x) {
      assert forall g :: g in s.writes ==> (Owes(s.writes[g], i, x) <==> g in s'.writes && Owes(s'.writes[g], i, x));
    }
  }

  lemma StartLive(s: State, f: File, scanned: map<ObjectId, Loc>)
    requires f.Key() !in s.writes && f.Key() !in s.files
    requires LiveOk(s.live, s.table, s.writes, s.files)
    ensures var s' := DoStart(s, f, scanned); LiveOk(s'.live, s'.table, s'.writes, s'.files)
  {
    hide Owed, Unsettled, InTable, File.Key;
    var s' := DoStart(s, f, scanned);
    StartWho(s, f, scanned);
    forall j | j in s'.files ensures s'.live[j] == |Tokens(s'.table, s'.writes, s'.files[j], j)| {
      if j == f.Key() {
        assert Tokens(s'.table, s'.writes, f, j) == f.locs.Keys;
      } else {
        assert Tokens(s'.table, s'.writes, s'.files[j], j) == Tokens(s.table, s.writes, s.files[j], j);
      }
    }
  }

  lemma StartTable(s: State, f: File, scanned: map<ObjectId, Loc>)
    requires f.Key() !in s.writes && f.Key() !in s.files
    requires TableOk(s.table, s.files, s.present) && KnownOk(s.writes, s.table, s.files)
    requires ReplacedOk(s.writes, s.table, s.files, s.present)
    ensures var s' := DoStart(s, f, scanned);
      && TableOk(s'.table, s'.files, s'.present) && KnownOk(s'.writes, s'.table, s'.files)
      && ReplacedOk(s'.writes, s'.table, s'.files, s'.present)
  {
    hide ReplacedOk;
    StartReplaced(s, f, scanned);
  }

  lemma StartReplaced(s: State, f: File, scanned: map<ObjectId, Loc>)
    requires f.Key() !in s.writes && f.Key() !in s.files
    requires ReplacedOk(s.writes, s.table, s.files, s.present)
    ensures var s' := DoStart(s, f, scanned); ReplacedOk(s'.writes, s'.table, s'.files, s'.present)
  {
    var s' := DoStart(s, f, scanned);
    forall g, o | g in s'.writes && o in s'.writes[g].replaced
      ensures LeftBehind(s'.writes[g].replaced[o], g, o, s'.table, s'.files, s'.present) && !Unsettled(s'.writes, g, o)
    {
      assert LeftBehind(s.writes[g].replaced[o], g, o, s.table, s.files, s.present);
    }
    hide LeftBehind;
  }

  lemma StartWrites(s: State, f: File, scanned: map<ObjectId, Loc>)
    requires Fresh(s, f, scanned) && f.Key() !in s.writes && f.Key() !in s.files
    requires WritesOk(s.writes, s.files, s.present)
    ensures var s' := DoStart(s, f, scanned); WritesOk(s'.writes, s'.files, s'.present)
  {
    var w := Write(scanned, f.locs.Keys, map[], {}, Installing);
    assert WriteOk(w, f) by { hide Copied; }
    hide WriteOk, Fresh;
  }

  lemma StillCopied(files: map<Lsn, File>, pathed: set<Lsn>, k: Lsn, f: File, l: Loc, o: ObjectId, v: Option<Bytes>)
    requires Copied(files, pathed, l, o, v) && k !in files
    ensures Copied(files[k := f], pathed, l, o, v) && files[k := f][l.file] == files[l.file]
  {
  }

  lemma BelowNext(s: State, k: Lsn)
    requires FilesOk(s.files, s.nextLsn) && k in s.files
    ensures s.files[k].base < s.nextLsn
  {
  }

  lemma StartCopies(s: State, f: File, scanned: map<ObjectId, Loc>)
    requires Fresh(s, f, scanned) && f.Key() !in s.writes && f.Key() !in s.files
    requires FilesOk(s.files, s.nextLsn) && CopiesOk(s.writes, s.files, s.pathed)
    ensures var s' := DoStart(s, f, scanned); CopiesOk(s'.writes, s'.files, s'.pathed)
  {
    hide FilesOk, File.WellFormed;
    var s' := DoStart(s, f, scanned);
    var k := f.Key();
    forall j, o | j in s'.writes && j in s'.files && s'.files[j].IsGc() && o in s'.files[j].vals
      && o in s'.writes[j].scanned
      ensures Copied(s'.files, s'.pathed, s'.writes[j].scanned[o], o, s'.files[j].vals[o])
           && s'.files[s'.writes[j].scanned[o].file].base < s'.files[j].base
    {
      if j == k {
        assert Copied(s.files, s.pathed, scanned[o], o, f.vals[o]);
        BelowNext(s, scanned[o].file);
      }
      StillCopied(s.files, s.pathed, k, f, s'.writes[j].scanned[o], o, s'.files[j].vals[o]);
    }
  }

  lemma StartUnsettled(s: State, f: File, scanned: map<ObjectId, Loc>)
    requires f.Key() !in s.writes && f.Key() !in s.files
    requires TableOk(s.table, s.files, s.present) && ReplacedOk(s.writes, s.table, s.files, s.present)
    requires UnsettledOk(s.writes, s.table)
    requires DebugOk(s.adds, s.removes, s.table, s.files, s.writes)
    ensures var s' := DoStart(s, f, scanned);
      UnsettledOk(s'.writes, s'.table) && DebugOk(s'.adds, s'.removes, s'.table, s'.files, s'.writes)
  {
    var s' := DoStart(s, f, scanned);
    StartWho(s, f, scanned);
    forall o ensures !InTable(s.table, f.Key(), o) && !Owed(s.writes, f.Key(), o) {
      assert o in s.table ==> Wrote(s.files, s.table[o], o);
      assert forall g :: g in s.writes && o in s.writes[g].replaced ==>
        LeftBehind(s.writes[g].replaced[o], g, o, s.table, s.files, s.present);
    }
    hide TableOk, ReplacedOk, Owed, Unsettled, InTable;
  }

  lemma StartStage(s: State, f: File, scanned: map<ObjectId, Loc>)
    requires f.Key() !in s.writes && f.Key() !in s.files
    requires StageOk(s.files, s.present, s.writes, s.claimed, s.pathed, s.described, s.live)
    ensures var s' := DoStart(s, f, scanned);
      StageOk(s'.files, s'.present, s'.writes, s'.claimed, s'.pathed, s'.described, s'.live)
    ensures f.Key() !in s.present && f.Key() !in s.pathed
  {
  }

  lemma StartClaims(s: State, f: File, scanned: map<ObjectId, Loc>)
    requires f.Key() !in s.writes && f.Key() !in s.pathed && f.Key() !in s.files
    requires ClaimsOk(s.claimed, s.present, s.writes, s.passes)
    requires PassesOk(s.passes, s.files, s.present, s.live, s.pathed)
    ensures var s' := DoStart(s, f, scanned); ClaimsOk(s'.claimed, s'.present, s'.writes, s'.passes)
  {
    hide Copied;
    assert forall t :: t in s.passes ==> PassOk(s.passes[t], s.files, s.present, s.live, s.pathed);
  }

  lemma StartPasses(s: State, f: File, scanned: map<ObjectId, Loc>)
    requires f.Key() !in s.pathed && f.Key() !in s.files
    requires PassesOk(s.passes, s.files, s.present, s.live, s.pathed)
    ensures var s' := DoStart(s, f, scanned); PassesOk(s'.passes, s'.files, s'.present, s'.live, s'.pathed)
  {
    var s' := DoStart(s, f, scanned);
    forall t | t in s.passes ensures PassOk(s.passes[t], s'.files, s'.present, s'.live, s'.pathed) {
      assert PassOk(s.passes[t], s.files, s.present, s.live, s.pathed);
    }
  }

  lemma StartDisk(s: State, f: File, scanned: map<ObjectId, Loc>)
    requires f.Key() !in s.writes && f.Key() !in s.files
    requires DiskOk(s.disk, s.files, s.present, s.writes, s.table)
    ensures var s' := DoStart(s, f, scanned); DiskOk(s'.disk, s'.files, s'.present, s'.writes, s'.table)
  {
    hide IsPart, InTable, Owed, File.WellFormed, File.Key;
    StartWho(s, f, scanned);
    assert f.Key() !in s.disk;
  }

  lemma StartKeeps(s: State, f: File, scanned: map<ObjectId, Loc>)
    requires Inv(s) && Fresh(s, f, scanned)
    ensures Inv(DoStart(s, f, scanned))
  {
    hide FilesOk, TableOk, LiveOk, WritesOk, ReplacedOk, UnsettledOk, CopiesOk, KnownOk, StageOk, ClaimsOk, PassesOk;
    hide DebugOk, DiskOk;
    hide Fresh, File.Key;
    StartFiles(s, f, scanned);
    assert f.Key() !in s.writes by {
      if f.Key() in s.writes { WriteIsOk(s, f.Key()); }
    }
    StartLive(s, f, scanned);
    StartTable(s, f, scanned);
    StartWrites(s, f, scanned);
    StartCopies(s, f, scanned);
    StartUnsettled(s, f, scanned);
    StartStage(s, f, scanned);
    StartClaims(s, f, scanned);
    StartPasses(s, f, scanned);
    StartDisk(s, f, scanned);
  }

  lemma StartWriteKeeps(s: State, f: File)
    requires Inv(s) && Enabled(s, StartWrite(f))
    ensures Inv(Apply(s, StartWrite(f)))
  {
    hide Inv, DoStart;
    StartKeeps(s, f, map[]);
  }

  lemma StartGcFresh(s: State, t: ThreadId, f: File)
    requires Enabled(s, StartGc(t, f))
    requires PassesOk(s.passes, s.files, s.present, s.live, s.pathed)
    ensures Fresh(s, f, s.passes[t].scanned)
  {
    var m := s.passes[t];
    assert PassOk(m, s.files, s.present, s.live, s.pathed);
    forall o | o in f.vals ensures o in m.scanned && Copied(s.files, s.pathed, m.scanned[o], o, f.vals[o]) {
      assert (o, f.vals[o]) in f.vals.Items;
      assert o in m.batch && m.batch[o] == f.vals[o];
    }
  }

  lemma StartGcKeeps(s: State, t: ThreadId, f: File)
    requires Inv(s) && Enabled(s, StartGc(t, f))
    ensures Inv(Apply(s, StartGc(t, f)))
  {
    hide FilesOk, TableOk, LiveOk, WritesOk, ReplacedOk, UnsettledOk, CopiesOk, KnownOk, StageOk, ClaimsOk, PassesOk;
    hide DebugOk, DiskOk;
    hide DoStart, Fresh, File.WellFormed;
    StartGcFresh(s, t, f);
    hide Inv;
    StartKeeps(s, f, s.passes[t].scanned);
  }
}
