/** What each step does in a reachable state, once the branches that cannot be taken there are gone. */
module Effects {
  import opened Basics
  import opened DiskLocations
  import opened Protocol
  import opened Invariant
  import P = Preservation
  import C = Concurrency

  /** Whether entry `o` of write `k` loses: somebody moved the object since maintenance scanned it,
      or a later write got there first. */
  predicate Loses(s: State, k: Lsn, o: ObjectId)
    requires k in s.writes && k in s.files && o in s.files[k].locs
  {
    if o in s.writes[k].scanned then o !in s.table || s.table[o] != s.writes[k].scanned[o]
    else o in s.table && Raw(Loc(k, s.files[k].locs[o])) < Raw(s.table[o])
  }

  lemma InstallEffect(s: State, k: Lsn, o: ObjectId)
    requires Enabled(s, Install(k, o)) && Inv(s)
    ensures k in s.files && o in s.files[k].locs && Inv(Apply(s, Install(k, o)))
    ensures var w := s.writes[k].(todo := s.writes[k].todo - {o});
      var s' := Apply(s, Install(k, o));
      && s' == s.(table := s'.table, writes := s'.writes, adds := s'.adds, removes := s'.removes)
      && s'.table == (if Loses(s, k, o) then s.table else s.table[o := Loc(k, s.files[k].locs[o])])
      && s'.writes == s.writes[k := if Loses(s, k, o) then w.(failed := w.failed + {o})
                                    else if o in s.table then w.(replaced := w.replaced[o := s.table[o]]) else w]
    ensures o in s.writes[k].scanned ==> o in s.table
  {
    hide Inv, DoInstall, Raw;
    P.InstallOutcome(s, k, o);
    ScannedIfGc(s, k, o);
    P.InstallKeeps(s, k, o);
    P.NotPanicked(s);
    P.NotPanicked(Apply(s, Install(k, o)));
  }

  lemma ScannedIfGc(s: State, k: Lsn, o: ObjectId)
    requires Inv(s) && k in s.writes && k in s.files && o in s.files[k].locs
    ensures o in s.writes[k].scanned <==> s.files[k].IsGc()
  {
    hide FilesOk, TableOk, LiveOk, ReplacedOk, UnsettledOk, CopiesOk, KnownOk, StageOk, ClaimsOk, PassesOk, DebugOk;
    hide DiskOk;
    P.WriteIsOk(s, k);
  }

  /** Words tell entries of one object apart, so comparing words decides who loses. */
  lemma WordsDecide(s: State, k: Lsn, o: ObjectId)
    requires Inv(s) && Enabled(s, Install(k, o)) && k in s.files && o in s.files[k].locs
    ensures o in s.writes[k].scanned && o in s.table ==>
      (Raw(s.table[o]) == Raw(s.writes[k].scanned[o]) <==> s.table[o] == s.writes[k].scanned[o])
    ensures o in s.table ==> Raw(s.table[o]) != Raw(Loc(k, s.files[k].locs[o]))
  {
    hide FilesOk, TableOk, LiveOk, WritesOk, ReplacedOk, UnsettledOk, CopiesOk, KnownOk, StageOk, ClaimsOk, PassesOk;
    hide DebugOk, DiskOk;
    hide Raw;
    if o in s.writes[k].scanned { P.ScannedIsKnown(s, k, o); }
    if o in s.table { P.FreshDiffers(s, k, o); }
  }

  /** The word the program computes for an entry is the entry's. */
  lemma WordIsRaw(s: State, k: Lsn, o: ObjectId)
    requires Inv(s) && k in s.files && o in s.files[k].locs
    ensures var rel := s.files[k].locs[o];
      && k + rel.offset < U63 && ToAbsolute(rel, k) == Raw(Loc(k, rel))
      && 0 < k && 0 < Raw(Loc(k, rel))
  {
    hide Inv, FilesOk, File.WellFormed, File.Key, Raw, ToAbsolute, Masked, Unshift;
    FileInRange(s, k);
    EntryWord(s.files[k], o);
    RawAbove(Loc(k, s.files[k].locs[o]));
  }

  /** So is the word it computes for a record without a trailer entry. */
  lemma LostWord(s: State, k: Lsn, o: ObjectId)
    requires Inv(s) && k in s.files && o in s.files[k].lost
    ensures var rel := s.files[k].lost[o].rel; k + rel.offset < U63 && ToAbsolute(rel, k) == Raw(Loc(k, rel))
  {
    hide Inv, FilesOk, File.Key, Raw, ToAbsolute, Masked, Unshift;
    FileInRange(s, k);
    KeyMasked(s.files[k], s.files[k].lost[o].rel.offset);
    RawUnshift(Loc(k, s.files[k].lost[o].rel));
  }

  lemma FileInRange(s: State, k: Lsn)
    requires Inv(s) && k in s.files
    ensures s.files[k].WellFormed() && s.files[k].Key() == k && s.files[k].base + s.files[k].len < NEW_WRITE_BATCH_BIT
    ensures 0 < k
  {
    hide Inv;
    C.FilesAreOk(s);
  }

  lemma RawAbove(l: Loc)
    ensures 2 * l.file <= Raw(l)
  {
  }

  lemma DecrementEffect(s: State, k: Lsn, o: ObjectId)
    requires Inv(s) && k in s.writes && o in s.writes[k].replaced
    ensures var j := s.writes[k].replaced[o].file; j in s.live && j in s.present
    ensures forall i :: IsPredecessor(s.present, Raw(s.writes[k].replaced[o]), i) <==> i == s.writes[k].replaced[o].file
    ensures DoDecrement(s, k, o) == Decremented(s, k, o)
  {
    hide Inv, IsPredecessor, Raw;
    DecrementParts(s, k, o);
  }

  /** The state after `k` has paid for the entry of `o` it replaced. */
  ghost function Decremented(s: State, k: Lsn, o: ObjectId): State
    requires k in s.writes && o in s.writes[k].replaced && s.writes[k].replaced[o].file in s.live
  {
    var j := s.writes[k].replaced[o].file;
    s.(writes := s.writes[k := s.writes[k].(replaced := s.writes[k].replaced - {o})],
       live := s.live[j := s.live[j] - 1], panicked := s.panicked || j == k || s.live[j] < 1)
  }

  lemma DecrementParts(s: State, k: Lsn, o: ObjectId)
    requires Inv(s) && k in s.writes && o in s.writes[k].replaced
    ensures var l := s.writes[k].replaced[o];
      && l.file in s.live && l.file in s.present
      && forall i :: IsPredecessor(s.present, Raw(l), i) <==> i == l.file
  {
    hide FilesOk, TableOk, LiveOk, WritesOk, ReplacedOk, UnsettledOk, CopiesOk, KnownOk, StageOk, ClaimsOk, PassesOk;
    hide DebugOk, DiskOk;
    hide IsPredecessor, Raw;
    P.FilesPresent(s);
    P.DecrementTarget(s, k, o);
    LiveKeys(s);
  }

  lemma LiveKeys(s: State)
    requires LiveOk(s.live, s.table, s.writes, s.files)
    ensures s.live.Keys == s.files.Keys
  {
  }

  // ---------------------------------------------------------------- the other steps

  lemma StartEffect(s: State, a: Action, f: File)
    requires Inv(s) && Enabled(s, a) && ((a.StartWrite? || a.StartGc?) && a.file == f)
    ensures var scanned := if a.StartWrite? then map[] else s.passes[a.thread].scanned;
      Apply(s, a) == DoStart(s, f, scanned)
    ensures f.Key() !in s.present && f.Key() > 0 && f.base == s.nextLsn && f.base + f.len < NEW_WRITE_BATCH_BIT
  {
    hide Inv, DoStart, File.WellFormed;
    C.StepKeepsInv(s, a);
    P.NotPanicked(Apply(s, a));
    NextIsFree(s, f);
  }

  lemma NextIsFree(s: State, f: File)
    requires Inv(s) && f.base == s.nextLsn
    ensures f.Key() !in s.files && f.Key() !in s.present && f.Key() > 0
  {
    C.FilesAreOk(s);
    PresentAreFiles(s);
    hide Inv;
  }

  lemma PresentAreFiles(s: State)
    requires Inv(s)
    ensures s.present <= s.files.Keys == s.live.Keys
  {
    hide FilesOk, TableOk, LiveOk, WritesOk, ReplacedOk, UnsettledOk, CopiesOk, KnownOk, StageOk, ClaimsOk, PassesOk;
    hide DebugOk, DiskOk;
    P.FilesPresent(s);
  }

  ghost function Pathed(s: State, k: Lsn): State
    requires k in s.writes
  {
    s.(pathed := s.pathed + {k}, writes := s.writes[k := s.writes[k].(phase := Phase.Pathed)])
  }

  ghost function Described(s: State, k: Lsn): State
    requires k in s.writes
  {
    s.(described := s.described + {k}, writes := s.writes[k := s.writes[k].(phase := Phase.Described)])
  }

  ghost function Subtracted(s: State, k: Lsn): State
    requires k in s.writes && k in s.live
  {
    s.(live := s.live[k := s.live[k] - |s.writes[k].failed|],
       writes := s.writes[k := s.writes[k].(failed := {}, phase := Settled)])
  }

  ghost function Finished(s: State, k: Lsn): State {
    s.(claimed := s.claimed - {k}, writes := s.writes - {k})
  }

  ghost function Released(s: State, t: ThreadId, k: Lsn): State
    requires t in s.passes
  {
    s.(claimed := if k in s.present then s.claimed - {k} else s.claimed,
       passes := s.passes[t := s.passes[t].(claims := s.passes[t].claims - {k})])
  }

  ghost function Removed(s: State, t: ThreadId, k: Lsn): State
    requires t in s.passes
  {
    s.(present := s.present - {k}, passes := s.passes[t := s.passes[t].(empties := s.passes[t].empties - {k})])
  }

  /** No step from a reachable state trips an assertion. */
  lemma Safe(s: State, a: Action)
    requires Inv(s) && Enabled(s, a) && C.StillKnown(s, a)
    ensures Inv(Apply(s, a)) && !Apply(s, a).panicked
  {
    hide Inv, Enabled, Apply;
    C.StepKeepsInv(s, a);
    P.NotPanicked(Apply(s, a));
  }

  lemma SetPathEffect(s: State, k: Lsn)
    requires Enabled(s, SetPath(k)) && !Apply(s, SetPath(k)).panicked
    ensures k in s.present && k !in s.pathed && Apply(s, SetPath(k)) == Pathed(s, k)
  {
  }

  lemma SetMetadataEffect(s: State, k: Lsn)
    requires Enabled(s, SetMetadata(k)) && !Apply(s, SetMetadata(k)).panicked
    ensures k !in s.described && Apply(s, SetMetadata(k)) == Described(s, k)
  {
  }

  lemma SubtractEffect(s: State, k: Lsn)
    requires Enabled(s, Subtract(k)) && !Apply(s, Subtract(k)).panicked
    ensures k in s.live && |s.writes[k].failed| <= s.live[k] && Apply(s, Subtract(k)) == Subtracted(s, k)
  {
  }

  lemma FinishEffect(s: State, k: Lsn)
    requires Enabled(s, Finish(k)) && !Apply(s, Finish(k)).panicked && k in s.present
    ensures k in s.claimed && Apply(s, Finish(k)) == Finished(s, k)
  {
  }

  lemma ReleaseEffect(s: State, t: ThreadId, k: Lsn)
    requires Enabled(s, Release(t, k)) && !Apply(s, Release(t, k)).panicked
    ensures k in s.present ==> k in s.claimed
    ensures Apply(s, Release(t, k)) == Released(s, t, k)
  {
  }

  lemma RemoveEffect(s: State, t: ThreadId, k: Lsn)
    requires Enabled(s, Remove(t, k)) && !Apply(s, Remove(t, k)).panicked
    ensures k in s.present && Apply(s, Remove(t, k)) == Removed(s, t, k)
  {
  }

  /** A file not yet made has neither path nor metadata. */
  lemma NoStage(s: State, k: Lsn)
    requires Inv(s) && k !in s.files
    ensures k !in s.pathed && k !in s.described && k !in s.claimed && k !in s.live && k !in s.present
  {
    hide FilesOk, TableOk, WritesOk, ReplacedOk, UnsettledOk, CopiesOk, KnownOk, ClaimsOk, PassesOk, DebugOk, DiskOk;
    P.FilesPresent(s);
  }

  /** A write's file stays in the map until the write ends. */
  lemma WriterPresent(s: State, k: Lsn)
    requires Inv(s) && k in s.writes
    ensures k in s.present && k in s.files
  {
    hide FilesOk, TableOk, LiveOk, ReplacedOk, UnsettledOk, CopiesOk, KnownOk, StageOk, ClaimsOk, PassesOk, DebugOk;
    hide DiskOk;
    P.WriteIsOk(s, k);
  }

  lemma DecrementIs(s: State, k: Lsn, o: ObjectId)
    requires Enabled(s, Decrement(k, o))
    ensures Apply(s, Decrement(k, o)) == DoDecrement(s, k, o)
  {
    hide DoDecrement;
  }

  // ---------------------------------------------------------------- steps of a maintenance pass

  /** Steps that change nothing but what the pass itself remembers. */
  predicate IsNote(a: Action) {
    a.Begin? || a.LookFragmented? || a.LookEmpty? || a.Scan? || a.Forget? || a.End?
  }

  lemma NoteEffect(s: State, a: Action)
    requires Enabled(s, a) && IsNote(a) && !Apply(s, a).panicked
    ensures Apply(s, a) == s.(passes := Apply(s, a).passes)
  {
    hide Raw, NextLsn, Surviving, Recovered, ApplyWrite, DoStart, DoInstall, DoClaim, DoScanLost;
    hide File.WellFormed, Trailer;
    assert OfPass(a);
  }

  lemma BeginEffect(s: State, t: ThreadId)
    requires Enabled(s, Begin(t))
    ensures Apply(s, Begin(t)).passes == s.passes[t := Maintenance(Nothing, {}, {}, map[], map[])]
  {
  }

  lemma LookEffect(s: State, t: ThreadId, k: Lsn)
    requires t in s.passes
    ensures Enabled(s, LookFragmented(t, k)) ==>
      Apply(s, LookFragmented(t, k)).passes == s.passes[t := s.passes[t].(look := Fragmented(k))]
    ensures Enabled(s, LookEmpty(t, k)) ==>
      Apply(s, LookEmpty(t, k)).passes == s.passes[t := s.passes[t].(look := Empty(k))]
  {
  }

  ghost function Claimed(s: State, t: ThreadId, k: Lsn, empty: bool): State
    requires t in s.passes
  {
    var m := s.passes[t];
    s.(claimed := s.claimed + {k},
       passes := s.passes[t := m.(claims := m.claims + {k}, empties := if empty then m.empties + {k} else m.empties,
         look := Nothing)])
  }

  lemma ClaimEffect(s: State, t: ThreadId)
    requires t in s.passes && s.passes[t].look != Nothing && s.passes[t].look.file !in s.claimed
    ensures Enabled(s, Claim(t)) && Apply(s, Claim(t)) == Claimed(s, t, s.passes[t].look.file, s.passes[t].look.Empty?)
  {
  }

  lemma ScanEffect(s: State, t: ThreadId, k: Lsn, o: ObjectId)
    requires Enabled(s, Scan(t, k, o)) && !Apply(s, Scan(t, k, o)).panicked
    ensures o in s.table
    ensures Apply(s, Scan(t, k, o)).passes == Scanned(s, t, k, o)
  {
    hide Raw;
  }

  /** The passes once pass `t` has scanned entry `o` of file `k`: it is taken over if the table still
      points at it. */
  ghost function Scanned(s: State, t: ThreadId, k: Lsn, o: ObjectId): map<ThreadId, Maintenance>
    requires t in s.passes && k in s.files && o in s.files[k].locs && o in s.table
  {
    var m, here := s.passes[t], Loc(k, s.files[k].locs[o]);
    if Raw(s.table[o]) != Raw(here) || o !in s.files[k].vals then s.passes
    else s.passes[t := m.(scanned := m.scanned[o := here], batch := m.batch[o := s.files[k].vals[o]])]
  }

  lemma ForgetEffect(s: State, t: ThreadId)
    requires Enabled(s, Forget(t))
    ensures Apply(s, Forget(t)).passes == s.passes[t := s.passes[t].(scanned := map[], batch := map[])]
  {
  }

  lemma DeleteEffect(s: State, k: Lsn)
    requires Enabled(s, Delete(k)) && s.live[k] == 0 && !Apply(s, Delete(k)).panicked
    ensures Apply(s, Delete(k)) == s.(disk := s.disk - {k})
  {
  }

  lemma Unpanicked(s: State)
    requires Inv(s)
    ensures !s.panicked
  {
    hide Inv;
    P.NotPanicked(s);
  }

  lemma EntryWord(f: File, o: ObjectId)
    requires f.WellFormed() && f.base + f.len < NEW_WRITE_BATCH_BIT && o in f.locs
    ensures var rel := f.locs[o];
      && f.Key() + rel.offset < U63 && ToAbsolute(rel, f.Key()) == Raw(Loc(f.Key(), rel))
      && Masked(Unshift(Raw(Loc(f.Key(), rel))).0) == f.base + rel.offset <= f.base + f.len
  {
    KeyMasked(f, f.locs[o].offset);
    hide File.Key, Masked;
    assert f.locs[o].offset <= f.len;
    var l := Loc(f.Key(), f.locs[o]);
    RawUnshift(l);
  }

  lemma RawUnshift(l: Loc)
    ensures Unshift(Raw(l)) == (l.file + l.rel.offset, l.rel.isDelete)
    ensures l.file + l.rel.offset < U63 ==> ToAbsolute(l.rel, l.file) == Raw(l)
  {
  }

  lemma KeyMasked(f: File, offset: nat)
    requires f.base + offset < NEW_WRITE_BATCH_BIT
    ensures Masked(f.Key() + offset) == f.base + offset && f.Key() + offset < U63
  {
    MarkAndMask(f.base, offset);
  }

  /** Whether the table still has object `o` in file `k` shows in the word. */
  lemma WordShowsFile(s: State, k: Lsn, o: ObjectId)
    requires Inv(s) && k in s.files && o in s.files[k].locs && o in s.table
    ensures Raw(s.table[o]) == Raw(Loc(k, s.files[k].locs[o])) <==> s.table[o].file == k
    ensures s.table[o].file == k ==> s.table[o] == Loc(k, s.files[k].locs[o])
    ensures o in s.files[k].vals
  {
    C.FilesAreOk(s);
    C.TableIsOk(s);
    hide Inv, Raw;
    assert Wrote(s.files, s.table[o], o) && s.files[k].WellFormed();
    RawIdentifies(s, s.table[o], Loc(k, s.files[k].locs[o]), o);
  }

  /** A file with metadata is past its rename. */
  lemma DescribedFinished(s: State, k: Lsn)
    requires Inv(s) && k in s.described && k in s.present
    ensures !(k in s.writes && s.writes[k].phase == Installing)
  {
    hide FilesOk, TableOk, LiveOk, WritesOk, ReplacedOk, UnsettledOk, CopiesOk, KnownOk, ClaimsOk, PassesOk, DebugOk;
    hide DiskOk;
  }

  lemma NoWriteYet(s: State, k: Lsn)
    requires Inv(s) && k !in s.files
    ensures k !in s.writes
  {
    hide FilesOk, TableOk, LiveOk, ReplacedOk, UnsettledOk, CopiesOk, KnownOk, StageOk, ClaimsOk, PassesOk, DebugOk;
    hide DiskOk, WriteOk;
  }

  /** A finished file of the map is on disk, but for trailer entries lost. */
  lemma FinishedOnDisk(s: State, k: Lsn)
    requires Inv(s) && k in s.present && !(k in s.writes && s.writes[k].phase == Installing)
    ensures k in s.disk && k in s.files && s.disk[k].objects == s.files[k].objects
  {
    hide FilesOk, TableOk, LiveOk, WritesOk, ReplacedOk, UnsettledOk, CopiesOk, KnownOk, StageOk, ClaimsOk, PassesOk;
    hide DebugOk, File.WellFormed;
    assert IsPart(s.disk[k], s.files[k]);
  }
}
