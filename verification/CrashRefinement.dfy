/** Crash atomicity: as long as no rewrite begins and no file is pruned between the reservation and the
    rename of a batch, recovery at any moment yields the batches whose rename has happened, applied in
    the order of their sequence numbers. Maintenance kept apart from `write_batch`, as the
    documentation says it is, is a special case. */
module CrashRefinement {
  import opened Basics
  import opened DiskLocations
  import opened Protocol
  import opened Invariant
  import P = Preservation
  import R = Reopening
  import C = Concurrency
  import L = Lost
  import U = Runs

  // ---------------------------------------------------------------- the abstract store

  /** Batch `h` is the last committed batch, in sequence order, that says anything about `o`. */
  ghost predicate IsLast(history: map<nat, Batch>, o: ObjectId, h: nat) {
    h in history && o in history[h] && forall i :: i in history && o in history[i] ==> i <= h
  }

  /** The committed batches, replayed in sequence order, leave object `o` at `v`. */
  ghost predicate Current(history: map<nat, Batch>, o: ObjectId, v: Option<Bytes>) {
    exists h :: IsLast(history, o, h) && history[h][o] == v
  }

  // ---------------------------------------------------------------- exclusion

  predicate NoWriters(s: State) {
    forall k :: k in s.writes ==> k in s.files && s.files[k].IsGc()
  }

  predicate NoMaintenance(s: State) {
    s.passes == map[] && forall k :: k in s.writes ==> k in s.files && !s.files[k].IsGc()
  }

  /** Writers may overlap each other, and maintenance passes each other, but not one another. */
  predicate Exclusive(s: State) { NoWriters(s) || NoMaintenance(s) }

  /** No batch is between its reservation and its rename. */
  ghost predicate NoneInstalling(s: State) {
    forall k :: Open(s.writes, k) ==> k in s.files && s.files[k].IsGc()
  }

  /** The two steps of maintenance that must not fall between a batch's reservation and its rename.
      Everything else may overlap: looking, claiming, scanning, a rewrite's installations and rename,
      deleting files, and any number of writers and passes. */
  ghost predicate Careful(s: State, a: Action) {
    a.StartGc? || a.Remove? ==> NoneInstalling(s)
  }

  lemma ExclusiveIsCareful(s: State, a: Action)
    requires Inv(s) && Enabled(s, a) && Exclusive(s) && Exclusive(Apply(s, a))
    ensures Careful(s, a)
  {
    hide FilesOk, TableOk, LiveOk, WritesOk, ReplacedOk, UnsettledOk, CopiesOk, KnownOk, StageOk, ClaimsOk, PassesOk;
    hide DebugOk, DiskOk, File.WellFormed, NextLsn, Surviving;
  }

  // ---------------------------------------------------------------- the invariant under exclusion

  /** The table has `o` in a file based at `b` or above. */
  predicate AtOrAbove(table: map<ObjectId, Loc>, files: map<Lsn, File>, o: ObjectId, b: nat) {
    o in table && table[o].file in files && b <= files[table[o].file].base
  }

  predicate Open(writes: map<Lsn, Write>, k: Lsn) { k in writes && writes[k].phase == Installing }

  /** Batches on disk are committed batches. */
  ghost predicate HistoryOk(history: map<nat, Batch>, nextLsn: nat, disk: map<Lsn, File>) {
    && (forall h :: h in history ==> h < nextLsn && history[h] != map[])
    && (forall k :: k in disk && !disk[k].IsGc() ==> disk[k].base in history && history[disk[k].base] == disk[k].vals)
  }

  /** The table is at or above everything on disk, committed, or installed. */
  ghost predicate DiskBelow(disk: map<Lsn, File>, table: map<ObjectId, Loc>, files: map<Lsn, File>) {
    forall k, o :: k in disk && o in disk[k].locs ==> AtOrAbove(table, files, o, disk[k].base)
  }

  ghost predicate HistoryBelow(history: map<nat, Batch>, table: map<ObjectId, Loc>, files: map<Lsn, File>) {
    forall h, o :: h in history && o in history[h] ==> AtOrAbove(table, files, o, h)
  }

  /** Entry `o` of the open write `k` has been tried, and will be in the trailer. */
  predicate Tried(writes: map<Lsn, Write>, files: map<Lsn, File>, k: Lsn, o: ObjectId) {
    && Open(writes, k) && k in files && o in files[k].locs && o !in writes[k].todo
    && !(files[k].IsGc() && o in writes[k].failed)
  }

  ghost predicate TriedBelow(writes: map<Lsn, Write>, table: map<ObjectId, Loc>, files: map<Lsn, File>) {
    forall k, o :: Tried(writes, files, k, o) ==> AtOrAbove(table, files, o, files[k].base)
  }

  /** What maintenance has put in the table is current. */
  ghost predicate CopiesCurrent(table: map<ObjectId, Loc>, files: map<Lsn, File>, history: map<nat, Batch>) {
    forall o :: o in table && table[o].file in files && files[table[o].file].IsGc() && o in files[table[o].file].vals
      ==> Current(history, o, files[table[o].file].vals[o])
  }

  /** What an open rewrite has installed is current, or a later batch is on disk. */
  ghost predicate RewritesCurrent(writes: map<Lsn, Write>, files: map<Lsn, File>, history: map<nat, Batch>,
                                  disk: map<Lsn, File>) {
    forall g, o :: Tried(writes, files, g, o) && files[g].IsGc() && o in files[g].vals ==>
      Current(history, o, files[g].vals[o]) || Superseded(disk, disk.Keys, o, files[g].base + 1)
  }

  /** What an open rewrite has installed and still has in the table replaced the latest on disk, and
      no other write will rename anything later. */
  ghost predicate RewritesOk(writes: map<Lsn, Write>, files: map<Lsn, File>, table: map<ObjectId, Loc>,
                             disk: map<Lsn, File>, pathed: set<Lsn>)
  {
    forall g, o :: Tried(writes, files, g, o) && files[g].IsGc() && InTable(table, g, o) ==>
      && o in writes[g].replaced && writes[g].replaced[o].file in pathed
      && LatestAt(disk, files, o, writes[g].replaced[o].file)
      && TriedAt(writes, files, o, writes[g].replaced[o].file, g)
  }

  /** No write but `g` has entry `o` to rename above file `j`. */
  ghost predicate TriedAt(writes: map<Lsn, Write>, files: map<Lsn, File>, o: ObjectId, j: Lsn, g: Lsn) {
    j in files && forall k :: k != g && Tried(writes, files, k, o) ==> files[k].base <= files[j].base
  }

  ghost predicate LatestAt(disk: map<Lsn, File>, files: map<Lsn, File>, o: ObjectId, j: Lsn) {
    j in files && forall k :: k in disk && o in disk[k].locs ==> disk[k].base <= files[j].base
  }

  /** Whatever a file on disk says about an object, a file of the map says it or something later. */
  ghost predicate Backed(disk: map<Lsn, File>, present: set<Lsn>) {
    forall k, o :: k in disk && o in disk[k].locs ==> Superseded(disk, present, o, disk[k].base)
  }

  ghost predicate Superseded(disk: map<Lsn, File>, keep: set<Lsn>, o: ObjectId, b: nat) {
    exists r :: r in disk && r in keep && o in disk[r].locs && b <= disk[r].base
  }

  /** Seen from an open fresh write: later batches are still there, and maintenance lies below. */
  ghost predicate WritersOk(writes: map<Lsn, Write>, files: map<Lsn, File>, history: map<nat, Batch>,
                            disk: map<Lsn, File>, present: set<Lsn>)
  {
    forall w :: Open(writes, w) && w in files && !files[w].IsGc() ==>
      WriterOk(files, history, disk, present, files[w].base)
  }

  ghost predicate WriterOk(files: map<Lsn, File>, history: map<nat, Batch>, disk: map<Lsn, File>, present: set<Lsn>,
                           base: nat) {
    && base !in history
    && (forall h :: h in history && base < h ==> h + NEW_WRITE_BATCH_BIT in disk && h + NEW_WRITE_BATCH_BIT in present)
    && (forall k :: k in files && files[k].IsGc() ==> files[k].base < base)
  }

  /** The latest word on disk about an object is what the committed batches say of it. */
  ghost predicate Refines(disk: map<Lsn, File>, history: map<nat, Batch>) {
    && (forall k, o :: IsLatest(disk, o, k) && o in disk[k].vals ==> Current(history, o, disk[k].vals[o]))
    && (forall h, o :: h in history && o in history[h] ==> Superseded(disk, disk.Keys, o, h))
  }

  ghost predicate Durable(s: State) {
    && HistoryOk(s.history, s.nextLsn, s.disk)
    && DiskBelow(s.disk, s.table, s.files)
    && HistoryBelow(s.history, s.table, s.files)
    && TriedBelow(s.writes, s.table, s.files)
    && CopiesCurrent(s.table, s.files, s.history)
    && RewritesOk(s.writes, s.files, s.table, s.disk, s.pathed)
    && RewritesCurrent(s.writes, s.files, s.history, s.disk)
    && Backed(s.disk, s.present)
    && WritersOk(s.writes, s.files, s.history, s.disk, s.present)
    && Refines(s.disk, s.history)
  }

  /** What holds in a careful run: this, and what scans of lost records rely on. */
  ghost predicate CrashInv(s: State) { Durable(s) && L.LostOk(s) }

  // ---------------------------------------------------------------- steps that leave disk and table alone

  /** The open writes of the new state were there before, unchanged. */
  ghost predicate FewerOpen(w: map<Lsn, Write>, w': map<Lsn, Write>) {
    forall k :: Open(w', k) ==> Open(w, k) && w'[k] == w[k]
  }

  lemma FewerOpenKeeps(s: State, s': State)
    requires Durable(s) && FewerOpen(s.writes, s'.writes)
    requires s'.table == s.table && s'.files == s.files && s'.disk == s.disk && s'.history == s.history
    requires s'.nextLsn == s.nextLsn
    requires s.pathed <= s'.pathed && forall k :: k in s.present && k in s.disk ==> k in s'.present
    ensures Durable(s')
  {
    hide HistoryOk, DiskBelow, HistoryBelow, CopiesCurrent, Refines;
    assert WritersOk(s'.writes, s'.files, s'.history, s'.disk, s'.present) by {
      hide TriedBelow, Backed, RewritesOk, RewritesCurrent;
    }
    hide WritersOk;
    forall k, o | Tried(s'.writes, s'.files, k, o)
      ensures Tried(s.writes, s.files, k, o) && s'.writes[k] == s.writes[k]
    {
      hide TriedBelow, RewritesOk, RewritesCurrent, Backed;
    }
    hide FewerOpen, Tried;
    assert TriedBelow(s'.writes, s'.table, s'.files) by { hide RewritesOk, RewritesCurrent, Backed, AtOrAbove; }
    assert RewritesCurrent(s'.writes, s'.files, s'.history, s'.disk) by {
      hide RewritesOk, TriedBelow, Backed, Superseded, Current;
    }
    assert RewritesOk(s'.writes, s'.files, s'.table, s'.disk, s'.pathed) by {
      hide RewritesCurrent, TriedBelow, Backed, LatestAt, InTable;
    }
    hide TriedBelow, RewritesOk, RewritesCurrent;
    forall k, o | k in s.disk && o in s.disk[k].locs ensures Superseded(s'.disk, s'.present, o, s.disk[k].base) {
      assert Superseded(s.disk, s.present, o, s.disk[k].base);
    }
  }

  /** `part` is part of `whole` and still has the last word of `whole` on every object. */
  ghost predicate KeepsLast(whole: map<Lsn, File>, part: map<Lsn, File>) {
    && (forall k :: k in part ==> k in whole && part[k] == whole[k])
    && (forall k, o :: k in whole && o in whole[k].locs ==> Superseded(part, part.Keys, o, whole[k].base))
  }

  lemma LatestInPart(whole: map<Lsn, File>, part: map<Lsn, File>, o: ObjectId, j: Lsn)
    requires KeepsLast(whole, part) && IsLatest(part, o, j)
    ensures IsLatest(whole, o, j)
  {
    forall i | i in whole && o in whole[i].locs ensures whole[i].base <= whole[j].base {
      assert Superseded(part, part.Keys, o, whole[i].base);
    }
  }

  lemma SupersededInPart(whole: map<Lsn, File>, part: map<Lsn, File>, o: ObjectId, b: nat)
    requires KeepsLast(whole, part) && Superseded(whole, whole.Keys, o, b)
    ensures Superseded(part, part.Keys, o, b)
  {
    var i :| i in whole && o in whole[i].locs && b <= whole[i].base;
    assert Superseded(part, part.Keys, o, whole[i].base);
  }

  lemma PartRefines(whole: map<Lsn, File>, part: map<Lsn, File>, history: map<nat, Batch>)
    requires KeepsLast(whole, part) && Refines(whole, history)
    ensures Refines(part, history)
  {
    hide Current;
    forall j, o | IsLatest(part, o, j) && o in part[j].vals ensures Current(history, o, part[j].vals[o]) {
      hide Superseded;
      LatestInPart(whole, part, o, j);
    }
    forall h, o | h in history && o in history[h] ensures Superseded(part, part.Keys, o, h) {
      hide IsLatest;
      SupersededInPart(whole, part, o, h);
    }
  }

  lemma SupersededWithout(disk: map<Lsn, File>, present: set<Lsn>, o: ObjectId, b: nat, k: Lsn)
    requires Superseded(disk, present, o, b) && k !in present
    ensures Superseded(disk - {k}, present, o, b) && Superseded(disk - {k}, (disk - {k}).Keys, o, b)
  {
    var r :| r in disk && r in present && o in disk[r].locs && b <= disk[r].base;
    assert r in disk - {k} && (disk - {k})[r] == disk[r];
  }

  lemma DeletedIsBacked(disk: map<Lsn, File>, present: set<Lsn>, k: Lsn)
    requires Backed(disk, present) && k !in present
    ensures Backed(disk - {k}, present) && KeepsLast(disk, disk - {k})
    ensures forall o, b :: Superseded(disk, disk.Keys, o, b) ==> Superseded(disk - {k}, (disk - {k}).Keys, o, b)
  {
    hide Superseded;
    var disk' := disk - {k};
    forall j, o | j in disk && o in disk[j].locs
      ensures Superseded(disk', present, o, disk[j].base) && Superseded(disk', disk'.Keys, o, disk[j].base)
    {
      SupersededWithout(disk, present, o, disk[j].base, k);
    }
    hide Backed;
    forall o, b | Superseded(disk, disk.Keys, o, b) ensures Superseded(disk', disk'.Keys, o, b) {
      SupersededInPart(disk, disk', o, b);
    }
  }

  lemma DeleteOthers(s: State, disk': map<Lsn, File>, k: Lsn)
    requires HistoryOk(s.history, s.nextLsn, s.disk) && DiskBelow(s.disk, s.table, s.files)
    requires RewritesOk(s.writes, s.files, s.table, s.disk, s.pathed)
    requires disk' == s.disk - {k}
    ensures HistoryOk(s.history, s.nextLsn, disk') && DiskBelow(disk', s.table, s.files)
    ensures RewritesOk(s.writes, s.files, s.table, disk', s.pathed)
  {
    assert RewritesOk(s.writes, s.files, s.table, disk', s.pathed) by {
      hide HistoryOk, DiskBelow, InTable, Tried;
      forall o, j | LatestAt(s.disk, s.files, o, j) ensures LatestAt(disk', s.files, o, j) {
      }
      hide LatestAt;
    }
    hide RewritesOk, AtOrAbove;
  }

  lemma DeleteWriters(s: State, disk': map<Lsn, File>, k: Lsn)
    requires WritersOk(s.writes, s.files, s.history, s.disk, s.present) && k !in s.present
    requires disk' == s.disk - {k}
    ensures WritersOk(s.writes, s.files, s.history, disk', s.present)
  {
  }

  lemma DeleteCurrent(s: State, disk': map<Lsn, File>)
    requires RewritesCurrent(s.writes, s.files, s.history, s.disk)
    requires forall o, b :: Superseded(s.disk, s.disk.Keys, o, b) ==> Superseded(disk', disk'.Keys, o, b)
    ensures RewritesCurrent(s.writes, s.files, s.history, disk')
  {
    hide Superseded, Current;
    forall g, o | Tried(s.writes, s.files, g, o) && s.files[g].IsGc() && o in s.files[g].vals
      ensures Current(s.history, o, s.files[g].vals[o]) || Superseded(disk', disk'.Keys, o, s.files[g].base + 1)
    {
      var b := s.files[g].base + 1;
      assert Superseded(s.disk, s.disk.Keys, o, b) ==> Superseded(disk', disk'.Keys, o, b);
    }
  }

  lemma DeleteKeeps(s: State, k: Lsn)
    requires Durable(s) && k !in s.present
    ensures Durable(s.(disk := s.disk - {k}))
  {
    hide HistoryOk, DiskBelow, HistoryBelow, TriedBelow, CopiesCurrent, RewritesOk, RewritesCurrent, Backed, WritersOk;
    hide Refines, KeepsLast;
    DeletedIsBacked(s.disk, s.present, k);
    DeleteCurrent(s, s.disk - {k});
    PartRefines(s.disk, s.disk - {k}, s.history);
    DeleteOthers(s, s.disk - {k}, k);
    DeleteWriters(s, s.disk - {k}, k);
  }

  // ---------------------------------------------------------------- pruning

  lemma PresentOnDisk(s: State, k: Lsn, o: ObjectId)
    requires DiskOk(s.disk, s.files, s.present, s.writes, s.table)
    requires k in s.present && k in s.files && !Open(s.writes, k) && o in s.files[k].locs
    requires InTable(s.table, k, o) || Owed(s.writes, k, o)
    ensures k in s.disk && o in s.disk[k].locs && s.disk[k].base == s.files[k].base
  {
    hide InTable, Owed;
    assert IsPart(s.disk[k], s.files[k]);
  }

  lemma PathedIsClosed(s: State, k: Lsn)
    requires StageOk(s.files, s.present, s.writes, s.claimed, s.pathed, s.described, s.live)
    requires k in s.present && k in s.pathed
    ensures !Open(s.writes, k)
  {
  }

  /** With no batch between reservation and rename, the last word on disk about an object belongs to an entry
      that still holds a token of its file. */
  lemma HeldSupersedes(s: State, j: Lsn, o: ObjectId) returns (r: Lsn)
    requires Inv(s) && Durable(s) && NoneInstalling(s) && j in s.disk && o in s.disk[j].locs
    ensures r in s.disk && r in s.present && r in s.files && o in s.files[r].locs && o in s.disk[r].locs
    ensures s.disk[j].base <= s.disk[r].base
    ensures Held(s.table, s.writes, r, o)
  {
    hide FilesOk, TableOk, LiveOk, WritesOk, ReplacedOk, UnsettledOk, CopiesOk, KnownOk, StageOk, ClaimsOk, PassesOk;
    hide DebugOk, DiskOk;
    hide HistoryOk, HistoryBelow, TriedBelow, CopiesCurrent, RewritesCurrent, Backed, WritersOk, Refines, Owed, TriedAt;
    assert AtOrAbove(s.table, s.files, o, s.disk[j].base) by { hide RewritesOk; }
    hide DiskBelow;
    C.EntryWritten(s, o);
    r := s.table[o].file;
    if Open(s.writes, r) {
      assert !Unsettled(s.writes, r, o) by { InTableIsSettled(s, r, o); }
      assert Tried(s.writes, s.files, r, o);
      assert LatestAt(s.disk, s.files, o, s.writes[r].replaced[o].file);
      hide RewritesOk;
      var g := r;
      r := s.writes[g].replaced[o].file;
      ReplacedIsLeft(s, g, o);
      PathedIsClosed(s, r);
    }
    PresentOnDisk(s, r, o);
  }

  lemma InTableIsSettled(s: State, k: Lsn, o: ObjectId)
    requires UnsettledOk(s.writes, s.table) && InTable(s.table, k, o)
    ensures !Unsettled(s.writes, k, o)
  {
  }

  lemma ReplacedIsLeft(s: State, g: Lsn, o: ObjectId)
    requires ReplacedOk(s.writes, s.table, s.files, s.present) && g in s.writes && o in s.writes[g].replaced
    ensures LeftBehind(s.writes[g].replaced[o], g, o, s.table, s.files, s.present)
    ensures Owed(s.writes, s.writes[g].replaced[o].file, o)
  {
    assert Owes(s.writes[g], s.writes[g].replaced[o].file, o);
  }

  lemma RemoveBacked(s: State, k: Lsn)
    requires Inv(s) && Durable(s) && NoneInstalling(s) && C.EmptyFile(s, k)
    ensures Backed(s.disk, s.present - {k})
  {
    hide Inv, Durable, NoneInstalling, InTable, Owed, Unsettled;
    C.EmptyIsUnreachable(s, k);
    forall j, o | j in s.disk && o in s.disk[j].locs ensures Superseded(s.disk, s.present - {k}, o, s.disk[j].base) {
      var r := HeldSupersedes(s, j, o);
      assert !InTable(s.table, k, o) && !Owed(s.writes, k, o) && !Unsettled(s.writes, k, o);
      assert r in s.disk && r in s.present - {k} && o in s.disk[r].locs && s.disk[j].base <= s.disk[r].base;
    }
  }

  lemma RemoveKeeps(s: State, k: Lsn, s': State)
    requires Inv(s) && Durable(s) && NoneInstalling(s) && C.EmptyFile(s, k)
    requires s' == s.(present := s.present - {k}, passes := s'.passes, panicked := s'.panicked)
    ensures Durable(s')
  {
    hide Inv;
    RemoveBacked(s, k);
    hide HistoryOk, DiskBelow, HistoryBelow, TriedBelow, CopiesCurrent, RewritesOk, RewritesCurrent, Backed, Refines;
  }

  // ---------------------------------------------------------------- starting a write

  lemma StartBelow(s: State, f: File, scanned: map<ObjectId, Loc>)
    requires f.Key() !in s.files
    requires DiskBelow(s.disk, s.table, s.files) && HistoryBelow(s.history, s.table, s.files)
    requires TriedBelow(s.writes, s.table, s.files) && f.Key() !in s.writes
    ensures var s' := DoStart(s, f, scanned);
      DiskBelow(s'.disk, s'.table, s'.files) && HistoryBelow(s'.history, s'.table, s'.files)
      && TriedBelow(s'.writes, s'.table, s'.files)
  {
    var s' := DoStart(s, f, scanned);
    forall o, b | AtOrAbove(s.table, s.files, o, b) ensures AtOrAbove(s'.table, s'.files, o, b) {
    }
    forall k, o | Tried(s'.writes, s'.files, k, o) ensures Tried(s.writes, s.files, k, o) && s'.files[k] == s.files[k] {
    }
    hide AtOrAbove, Tried;
  }

  lemma StartCopies(s: State, f: File, scanned: map<ObjectId, Loc>)
    requires f.Key() !in s.files && TableOk(s.table, s.files, s.present)
    requires CopiesCurrent(s.table, s.files, s.history)
    ensures var s' := DoStart(s, f, scanned); CopiesCurrent(s'.table, s'.files, s'.history)
  {
    hide Current;
    var s' := DoStart(s, f, scanned);
    forall o | o in s.table
      ensures s'.files[s.table[o].file] == s.files[s.table[o].file] && s.table[o].file in s.files
    {
      C.EntryWritten(s, o);
    }
  }

  /** A write that has just started has tried nothing yet. */
  lemma StartTried(s: State, f: File, scanned: map<ObjectId, Loc>, k: Lsn, o: ObjectId)
    requires f.Key() !in s.files && f.Key() !in s.writes
    ensures var s' := DoStart(s, f, scanned);
      Tried(s'.writes, s'.files, k, o) ==>
        Tried(s.writes, s.files, k, o) && s'.files[k] == s.files[k] && s'.writes[k] == s.writes[k]
  {
  }

  lemma StartRecent(s: State, f: File, scanned: map<ObjectId, Loc>)
    requires f.Key() !in s.files && f.Key() !in s.writes && RewritesCurrent(s.writes, s.files, s.history, s.disk)
    ensures var s' := DoStart(s, f, scanned); RewritesCurrent(s'.writes, s'.files, s'.history, s'.disk)
  {
    var s' := DoStart(s, f, scanned);
    hide Current, Superseded;
    forall k, o | Tried(s'.writes, s'.files, k, o) && s'.files[k].IsGc() && o in s'.files[k].vals
      ensures Current(s'.history, o, s'.files[k].vals[o]) || Superseded(s'.disk, s'.disk.Keys, o, s'.files[k].base + 1)
    {
      StartTried(s, f, scanned, k, o);
      hide DoStart;
    }
  }

  lemma StartAt(s: State, f: File, scanned: map<ObjectId, Loc>, o: ObjectId, j: Lsn, g: Lsn)
    requires f.Key() !in s.files && f.Key() !in s.writes
    requires LatestAt(s.disk, s.files, o, j) && TriedAt(s.writes, s.files, o, j, g)
    ensures var s' := DoStart(s, f, scanned); LatestAt(s'.disk, s'.files, o, j) && TriedAt(s'.writes, s'.files, o, j, g)
  {
    var s' := DoStart(s, f, scanned);
    forall k | k != g && Tried(s'.writes, s'.files, k, o) ensures s'.files[k].base <= s'.files[j].base {
      StartTried(s, f, scanned, k, o);
    }
  }

  lemma StartRewrites(s: State, f: File, scanned: map<ObjectId, Loc>)
    requires f.Key() !in s.files && f.Key() !in s.writes
    requires RewritesOk(s.writes, s.files, s.table, s.disk, s.pathed)
    ensures var s' := DoStart(s, f, scanned); RewritesOk(s'.writes, s'.files, s'.table, s'.disk, s'.pathed)
  {
    var s' := DoStart(s, f, scanned);
    hide LatestAt, TriedAt;
    forall g, o | Tried(s'.writes, s'.files, g, o) && s'.files[g].IsGc() && InTable(s'.table, g, o)
      ensures o in s'.writes[g].replaced && s'.writes[g].replaced[o].file in s'.pathed
      ensures LatestAt(s'.disk, s'.files, o, s'.writes[g].replaced[o].file)
      ensures TriedAt(s'.writes, s'.files, o, s'.writes[g].replaced[o].file, g)
    {
      StartTried(s, f, scanned, g, o);
      hide Tried;
      StartAt(s, f, scanned, o, s.writes[g].replaced[o].file, g);
    }
  }

  lemma StartWriters(s: State, f: File, scanned: map<ObjectId, Loc>)
    requires FilesOk(s.files, s.nextLsn) && f.Key() !in s.files && f.Key() !in s.writes && f.base == s.nextLsn
    requires HistoryOk(s.history, s.nextLsn, s.disk)
    requires WritersOk(s.writes, s.files, s.history, s.disk, s.present)
    requires f.IsGc() ==> NoneInstalling(s)
    ensures var s' := DoStart(s, f, scanned); WritersOk(s'.writes, s'.files, s'.history, s'.disk, s'.present)
  {
    var s' := DoStart(s, f, scanned);
    hide File.WellFormed;
    forall w | Open(s'.writes, w) && w in s'.files && !s'.files[w].IsGc()
      ensures WriterOk(s'.files, s'.history, s'.disk, s'.present, s'.files[w].base)
    {
      if w != f.Key() { assert Open(s.writes, w); }
    }
  }

  lemma StartKeeps(s: State, f: File, scanned: map<ObjectId, Loc>)
    requires Inv(s) && Durable(s) && f.WellFormed() && f.base == s.nextLsn
    requires f.IsGc() ==> NoneInstalling(s)
    ensures Durable(DoStart(s, f, scanned))
  {
    hide FilesOk, TableOk, LiveOk, WritesOk, ReplacedOk, UnsettledOk, CopiesOk, KnownOk, StageOk, ClaimsOk, PassesOk;
    hide DebugOk, DiskOk;
    C.StartGrows(s, f, scanned);
    assert f.Key() !in s.writes by {
      if f.Key() in s.writes { P.WriteIsOk(s, f.Key()); }
    }
    hide HistoryOk, DiskBelow, HistoryBelow, TriedBelow, CopiesCurrent, RewritesOk, RewritesCurrent, Backed, WritersOk;
    hide Refines;
    hide NoneInstalling, File.WellFormed, C.Grows;
    StartBelow(s, f, scanned);
    StartCopies(s, f, scanned);
    StartRecent(s, f, scanned);
    StartRewrites(s, f, scanned);
    StartWriters(s, f, scanned);
    StartHistory(s, f, scanned);
  }

  lemma StartHistory(s: State, f: File, scanned: map<ObjectId, Loc>)
    requires HistoryOk(s.history, s.nextLsn, s.disk) && Backed(s.disk, s.present)
    ensures var s' := DoStart(s, f, scanned); HistoryOk(s'.history, s'.nextLsn, s'.disk) && Backed(s'.disk, s'.present)
  {
    var s' := DoStart(s, f, scanned);
    forall o, b | Superseded(s.disk, s.present, o, b) ensures Superseded(s'.disk, s'.present, o, b) {
    }
    hide Superseded;
  }

  // ---------------------------------------------------------------- installing

  /** Between two entries of one object, fresh writes compare as their files do, and every fresh
      write compares above every copy. */
  lemma RawFollowsBase(s: State, k: Lsn, o: ObjectId)
    requires FilesOk(s.files, s.nextLsn) && TableOk(s.table, s.files, s.present)
    requires k in s.files && !s.files[k].IsGc() && o in s.files[k].locs && o in s.table && s.table[o].file != k
    ensures var there := s.files[s.table[o].file];
      Raw(s.table[o]) < Raw(Loc(k, s.files[k].locs[o])) <==> there.IsGc() || there.base < s.files[k].base
  {
    C.EntryWritten(s, o);
    assert Disjoint(s.files[k], s.files[s.table[o].file]);
    assert s.files[k].WellFormed() && s.files[s.table[o].file].WellFormed();
  }

  /** What an installation does: it raises the object's masked sequence number. */
  ghost predicate Rises(s: State, s': State, k: Lsn, o: ObjectId) {
    && P.Installs(s, s', k, o) && s'.pathed == s.pathed && s'.nextLsn == s.nextLsn && s'.history == s.history
    && (o in s.table ==> s.table[o].file in s.files && s.files[s.table[o].file].base < s.files[k].base)
    && (s.files[k].IsGc() ==>
          && o in s.table && s.table[o].file in s.pathed && s.table[o].file in s.present
          && o in s.files[s.table[o].file].locs
          && o in s.files[k].vals && o in s.files[s.table[o].file].vals
          && s.files[k].vals[o] == s.files[s.table[o].file].vals[o])
  }

  ghost predicate Loses(s: State, s': State, k: Lsn, o: ObjectId) {
    && P.Fails(s, s', k, o) && k in s.files
    && (!s.files[k].IsGc() ==> AtOrAbove(s.table, s.files, o, s.files[k].base) && !s.files[s.table[o].file].IsGc())
  }

  lemma InstallCases(s: State, k: Lsn, o: ObjectId)
    requires Inv(s) && Enabled(s, Install(k, o))
    requires WritersOk(s.writes, s.files, s.history, s.disk, s.present)
    ensures var s' := DoInstall(s, k, o); Rises(s, s', k, o) || Loses(s, s', k, o)
  {
    hide FilesOk, TableOk, LiveOk, WritesOk, ReplacedOk, UnsettledOk, CopiesOk, KnownOk, StageOk, ClaimsOk, PassesOk;
    hide DebugOk, DiskOk;
    hide Raw, DoInstall;
    P.InstallOutcome(s, k, o);
    P.FileWellFormed(s, k);
    if o in s.table { C.EntryWritten(s, o); }
    if s.files[k].IsGc() {
      CopyIsBelow(s, k, o);
    } else if o in s.table {
      RawFollowsBase(s, k, o);
      P.FreshDiffers(s, k, o);
      DistinctBases(s, k, s.table[o].file);
    }
    hide Inv, Enabled, File.WellFormed;
  }

  lemma DistinctBases(s: State, j: Lsn, k: Lsn)
    requires FilesOk(s.files, s.nextLsn) && j in s.files && k in s.files && j != k
    ensures s.files[j].base != s.files[k].base
  {
    assert Disjoint(s.files[j], s.files[k]);
  }

  lemma CopyIsBelow(s: State, k: Lsn, o: ObjectId)
    requires CopiesOk(s.writes, s.files, s.pathed) && k in s.writes && k in s.files && s.files[k].IsGc()
    requires o in s.files[k].vals && o in s.writes[k].scanned
    ensures Copied(s.files, s.pathed, s.writes[k].scanned[o], o, s.files[k].vals[o])
    ensures s.files[s.writes[k].scanned[o].file].base < s.files[k].base
  {
  }

  lemma RisesBelow(s: State, s': State, k: Lsn, o: ObjectId)
    requires Rises(s, s', k, o)
    requires DiskBelow(s.disk, s.table, s.files) && HistoryBelow(s.history, s.table, s.files)
    requires TriedBelow(s.writes, s.table, s.files)
    ensures DiskBelow(s'.disk, s'.table, s'.files) && HistoryBelow(s'.history, s'.table, s'.files)
    ensures TriedBelow(s'.writes, s'.table, s'.files)
  {
    forall x, b | AtOrAbove(s.table, s.files, x, b) ensures AtOrAbove(s'.table, s'.files, x, b) {
    }
    assert AtOrAbove(s'.table, s'.files, o, s.files[k].base);
    forall j, x | Tried(s'.writes, s'.files, j, x) ensures Tried(s.writes, s.files, j, x) || (j == k && x == o) {
    }
    assert s'.files == s.files && s'.disk == s.disk && s'.history == s.history;
    hide AtOrAbove, Tried, Rises;
  }

  /** What the table has in a renamed file is current. */
  lemma ClosedIsCurrent(s: State, o: ObjectId)
    requires HistoryOk(s.history, s.nextLsn, s.disk) && HistoryBelow(s.history, s.table, s.files)
    requires CopiesCurrent(s.table, s.files, s.history)
    requires DiskOk(s.disk, s.files, s.present, s.writes, s.table)
    requires o in s.table && s.table[o].file in s.files && s.table[o].file in s.present
    requires !Open(s.writes, s.table[o].file)
    requires o in s.files[s.table[o].file].vals && o in s.files[s.table[o].file].locs
    ensures Current(s.history, o, s.files[s.table[o].file].vals[o])
  {
    var k := s.table[o].file;
    if !s.files[k].IsGc() {
      PresentOnDisk(s, k, o);
      assert IsPart(s.disk[k], s.files[k]);
      hide DiskOk, CopiesCurrent;
      var b := s.files[k].base;
      assert b in s.history && s.history[b] == s.files[k].vals;
      assert IsLast(s.history, o, b) by {
        forall h | h in s.history && o in s.history[h] ensures h <= b {
          assert AtOrAbove(s.table, s.files, o, h);
        }
      }
    }
  }

  lemma RisesCurrent(s: State, s': State, k: Lsn, o: ObjectId)
    requires Rises(s, s', k, o) && CopiesCurrent(s.table, s.files, s.history)
    requires s.files[k].IsGc() ==> Current(s.history, o, s.files[k].vals[o])
    ensures CopiesCurrent(s'.table, s'.files, s'.history)
  {
    hide Current;
  }

  lemma RisesRewrites(s: State, s': State, k: Lsn, o: ObjectId)
    requires Rises(s, s', k, o) && Open(s.writes, k) && TriedBelow(s.writes, s.table, s.files)
    requires RewritesOk(s.writes, s.files, s.table, s.disk, s.pathed) && DiskBelow(s.disk, s.table, s.files)
    ensures RewritesOk(s'.writes, s'.files, s'.table, s'.disk, s'.pathed)
  {
    forall j, x | Tried(s'.writes, s'.files, j, x) ensures Tried(s.writes, s.files, j, x) || (j == k && x == o) {
      hide RewritesOk, TriedBelow, DiskBelow;
    }
    forall g, x | Tried(s'.writes, s'.files, g, x) && s'.files[g].IsGc() && InTable(s'.table, g, x)
      ensures x in s'.writes[g].replaced && s'.writes[g].replaced[x].file in s'.pathed
      ensures LatestAt(s'.disk, s'.files, x, s'.writes[g].replaced[x].file)
      ensures TriedAt(s'.writes, s'.files, x, s'.writes[g].replaced[x].file, g)
    {
      hide Tried;
      if x == o {
        hide RewritesOk;
        RisesAt(s, k, o, s.table[o].file);
      } else {
        hide DiskBelow, TriedBelow, LatestAt;
        assert Tried(s.writes, s.files, g, x) && s'.writes[g].replaced[x] == s.writes[g].replaced[x];
        assert TriedAt(s.writes, s.files, x, s.writes[g].replaced[x].file, g);
      }
    }
  }

  lemma RisesAt(s: State, k: Lsn, o: ObjectId, j: Lsn)
    requires TriedBelow(s.writes, s.table, s.files) && DiskBelow(s.disk, s.table, s.files)
    requires o in s.table && j == s.table[o].file && j in s.files
    ensures LatestAt(s.disk, s.files, o, j) && TriedAt(s.writes, s.files, o, j, k)
  {
    forall i | i in s.disk && o in s.disk[i].locs ensures s.disk[i].base <= s.files[j].base {
      assert AtOrAbove(s.table, s.files, o, s.disk[i].base);
    }
    forall i | Tried(s.writes, s.files, i, o) ensures s.files[i].base <= s.files[j].base {
      assert AtOrAbove(s.table, s.files, o, s.files[i].base);
    }
  }

  lemma RisesRecent(s: State, s': State, k: Lsn, o: ObjectId)
    requires Rises(s, s', k, o) && RewritesCurrent(s.writes, s.files, s.history, s.disk)
    requires s.files[k].IsGc() ==> Current(s.history, o, s.files[k].vals[o])
    ensures RewritesCurrent(s'.writes, s'.files, s'.history, s'.disk)
  {
    forall j, x | Tried(s'.writes, s'.files, j, x) ensures Tried(s.writes, s.files, j, x) || (j == k && x == o) {
      hide RewritesCurrent;
    }
    hide Tried, Current, Superseded;
  }

  lemma RisesWriters(s: State, s': State, k: Lsn, o: ObjectId)
    requires Rises(s, s', k, o) && WritersOk(s.writes, s.files, s.history, s.disk, s.present)
    ensures WritersOk(s'.writes, s'.files, s'.history, s'.disk, s'.present)
  {
  }

  lemma RisesKeeps(s: State, s': State, k: Lsn, o: ObjectId)
    requires Inv(s) && Durable(s) && Rises(s, s', k, o) && Open(s.writes, k)
    ensures Durable(s')
  {
    hide FilesOk, TableOk, LiveOk, WritesOk, ReplacedOk, UnsettledOk, CopiesOk, KnownOk, StageOk, ClaimsOk, PassesOk;
    hide DebugOk, DiskOk;
    hide HistoryOk, DiskBelow, HistoryBelow, TriedBelow, CopiesCurrent, RewritesOk, RewritesCurrent, Backed, WritersOk;
    hide Refines, Open;
    if s.files[k].IsGc() {
      PathedIsClosed(s, s.table[o].file);
      ClosedIsCurrent(s, o);
    }
    RisesFields(s, s', k, o);
    hide Rises;
    RisesBelow(s, s', k, o);
    RisesCurrent(s, s', k, o);
    RisesRewrites(s, s', k, o);
    RisesRecent(s, s', k, o);
    RisesWriters(s, s', k, o);
  }

  lemma RisesFields(s: State, s': State, k: Lsn, o: ObjectId)
    requires Rises(s, s', k, o)
    ensures s'.history == s.history && s'.nextLsn == s.nextLsn && s'.disk == s.disk && s'.present == s.present
    ensures k in s.files && (s.files[k].IsGc() ==> o in s.files[k].vals)
  {
  }

  lemma LosesTried(s: State, s': State, k: Lsn, o: ObjectId, j: Lsn, x: ObjectId)
    requires Loses(s, s', k, o) && Tried(s'.writes, s'.files, j, x)
    ensures s'.files == s.files && j in s.writes && s'.writes[j].replaced == s.writes[j].replaced
    ensures Tried(s.writes, s.files, j, x) || (j == k && x == o && !s.files[k].IsGc())
  {
    hide AtOrAbove;
  }

  lemma LosesRewrites(s: State, s': State, k: Lsn, o: ObjectId)
    requires Loses(s, s', k, o) && RewritesOk(s.writes, s.files, s.table, s.disk, s.pathed)
    requires RewritesCurrent(s.writes, s.files, s.history, s.disk)
    ensures RewritesOk(s'.writes, s'.files, s'.table, s'.disk, s'.pathed)
    ensures RewritesCurrent(s'.writes, s'.files, s'.history, s'.disk)
  {
    forall j, x | Tried(s'.writes, s'.files, j, x)
      ensures s'.files == s.files && j in s.writes && s'.writes[j].replaced == s.writes[j].replaced
      ensures Tried(s.writes, s.files, j, x) || (j == k && x == o && !s.files[k].IsGc())
    {
      hide RewritesOk, RewritesCurrent;
      LosesTried(s, s', k, o, j, x);
    }
    hide Tried, AtOrAbove, Superseded, Current;
    assert RewritesCurrent(s'.writes, s'.files, s'.history, s'.disk) by { hide RewritesOk; }
    hide RewritesCurrent, LatestAt;
    forall g, x | Tried(s'.writes, s'.files, g, x) && s'.files[g].IsGc() && InTable(s'.table, g, x)
      ensures TriedAt(s'.writes, s'.files, x, s.writes[g].replaced[x].file, g)
    {
      assert TriedAt(s.writes, s.files, x, s.writes[g].replaced[x].file, g);
    }
    hide TriedAt;
  }

  lemma LosesKeeps(s: State, s': State, k: Lsn, o: ObjectId)
    requires Durable(s) && Loses(s, s', k, o)
    ensures Durable(s')
  {
    hide HistoryOk, DiskBelow, HistoryBelow, CopiesCurrent, Backed, Refines, RewritesOk, RewritesCurrent;
    assert WritersOk(s'.writes, s'.files, s'.history, s'.disk, s'.present) by { hide TriedBelow, AtOrAbove; }
    hide WritersOk;
    LosesRewrites(s, s', k, o);
    forall j, x | Tried(s'.writes, s'.files, j, x)
      ensures Tried(s.writes, s.files, j, x) || (j == k && x == o && !s.files[k].IsGc())
    {
      LosesTried(s, s', k, o, j, x);
    }
    assert TriedBelow(s'.writes, s'.table, s'.files) by { hide AtOrAbove, Tried; }
  }

  lemma InstallKeeps(s: State, k: Lsn, o: ObjectId)
    requires Inv(s) && Durable(s) && Enabled(s, Install(k, o))
    ensures Durable(Apply(s, Install(k, o)))
  {
    hide DoInstall, Inv, Durable;
    WritersFrom(s);
    InstallCases(s, k, o);
    var s' := DoInstall(s, k, o);
    if Rises(s, s', k, o) {
      hide Rises;
      RisesKeeps(s, s', k, o);
    } else {
      hide Rises, Loses;
      LosesKeeps(s, s', k, o);
    }
  }

  lemma WritersFrom(s: State)
    requires Durable(s)
    ensures WritersOk(s.writes, s.files, s.history, s.disk, s.present)
  {
    hide HistoryOk, DiskBelow, HistoryBelow, TriedBelow, CopiesCurrent, RewritesOk, RewritesCurrent, Backed, WritersOk;
    hide Refines;
  }

  // ---------------------------------------------------------------- renaming

  /** The new state after file `k` got its final name with trailer `d`. */
  ghost predicate Commits(s: State, s': State, k: Lsn, d: File) {
    && Open(s.writes, k) && k in s.files && k in s.present && k !in s.disk && s.writes[k].todo == {}
    && IsPart(d, s.files[k]) && d.locs.Keys == d.vals.Keys && s.files[k].locs.Keys == s.files[k].vals.Keys
    && d.locs.Keys == (if s.files[k].IsGc() then s.files[k].locs.Keys - s.writes[k].failed else s.files[k].locs.Keys)
    && s'.disk == s.disk[k := d] && s'.writes == s.writes[k := s.writes[k].(phase := Renamed)]
    && s'.history == (if s.files[k].IsGc() then s.history else s.history[s.files[k].base := s.files[k].vals])
    && s'.table == s.table && s'.files == s.files && s'.present == s.present && s'.pathed == s.pathed
    && s'.nextLsn == s.nextLsn
  }

  lemma CommitTried(s: State, s': State, k: Lsn, d: File)
    requires Commits(s, s', k, d)
    ensures forall o :: o in d.locs <==> Tried(s.writes, s.files, k, o)
    ensures forall o :: o in d.vals ==> o in s.files[k].vals && d.vals[o] == s.files[k].vals[o]
    ensures d.base == s.files[k].base && d.generation == s.files[k].generation
    ensures (!s.files[k].IsGc() ==> d == s.files[k])
    ensures forall j, o :: Tried(s'.writes, s'.files, j, o) ==>
      Tried(s.writes, s.files, j, o) && j != k && s'.writes[j] == s.writes[j]
  {
    forall o | o in d.vals ensures o in s.files[k].vals && d.vals[o] == s.files[k].vals[o] {
      assert (o, d.vals[o]) in d.vals.Items;
    }
  }

  lemma CommitBelow(s: State, s': State, k: Lsn, d: File)
    requires Commits(s, s', k, d)
    requires DiskBelow(s.disk, s.table, s.files) && HistoryBelow(s.history, s.table, s.files)
    requires TriedBelow(s.writes, s.table, s.files)
    ensures DiskBelow(s'.disk, s'.table, s'.files) && HistoryBelow(s'.history, s'.table, s'.files)
    ensures TriedBelow(s'.writes, s'.table, s'.files)
  {
    CommitTried(s, s', k, d);
    hide AtOrAbove, IsPart;
    forall o | o in d.locs ensures AtOrAbove(s.table, s.files, o, s.files[k].base) {
      hide DiskBelow, HistoryBelow;
      assert Tried(s.writes, s.files, k, o);
    }
    hide Tried;
    assert TriedBelow(s'.writes, s'.table, s'.files) by { hide DiskBelow, HistoryBelow; }
    hide TriedBelow;
    assert DiskBelow(s'.disk, s'.table, s'.files) by { hide HistoryBelow; }
    hide DiskBelow;
  }

  lemma CommitRewrites(s: State, s': State, k: Lsn, d: File)
    requires Commits(s, s', k, d)
    requires RewritesOk(s.writes, s.files, s.table, s.disk, s.pathed)
    ensures RewritesOk(s'.writes, s'.files, s'.table, s'.disk, s'.pathed)
  {
    CommitTried(s, s', k, d);
    forall g, o | Tried(s'.writes, s'.files, g, o) && s'.files[g].IsGc() && InTable(s'.table, g, o)
      ensures o in s'.writes[g].replaced && s'.writes[g].replaced[o].file in s'.pathed
      ensures LatestAt(s'.disk, s'.files, o, s'.writes[g].replaced[o].file)
      ensures TriedAt(s'.writes, s'.files, o, s'.writes[g].replaced[o].file, g)
    {
      hide Tried;
      assert Tried(s.writes, s.files, g, o);
      assert LatestAt(s.disk, s.files, o, s.writes[g].replaced[o].file);
      assert TriedAt(s.writes, s.files, o, s.writes[g].replaced[o].file, g);
    }
  }

  /** A rewrite in progress when a batch is renamed: the batch lies above it. */
  lemma CommitRecent(s: State, s': State, k: Lsn, d: File)
    requires Commits(s, s', k, d) && RewritesCurrent(s.writes, s.files, s.history, s.disk)
    requires WritersOk(s.writes, s.files, s.history, s.disk, s.present)
    ensures RewritesCurrent(s'.writes, s'.files, s'.history, s'.disk)
  {
    CommitTried(s, s', k, d);
    hide Current, Superseded, IsPart;
    forall g, o | Tried(s'.writes, s'.files, g, o) && s'.files[g].IsGc() && o in s'.files[g].vals
      ensures Current(s'.history, o, s'.files[g].vals[o]) || Superseded(s'.disk, s'.disk.Keys, o, s'.files[g].base + 1)
    {
      var b := s.files[g].base + 1;
      if Superseded(s.disk, s.disk.Keys, o, b) {
        hide WritersOk, Tried;
        SupersededAlso(s.disk, s'.disk, s.disk.Keys, s'.disk.Keys, o, b);
      } else if !s.files[k].IsGc() {
        assert Current(s.history, o, s.files[g].vals[o]);
        assert WriterOk(s.files, s.history, s.disk, s.present, s.files[k].base);
        if o in s.files[k].locs {
          SupersededBy(s'.disk, s'.disk.Keys, o, b, k);
        } else {
          CurrentElsewhere(s.history, s.files[k].base, s.files[k].vals, o, s.files[g].vals[o]);
        }
      }
    }
  }

  lemma CommitBacked(s: State, s': State, k: Lsn, d: File)
    requires Commits(s, s', k, d) && Backed(s.disk, s.present)
    ensures Backed(s'.disk, s'.present)
  {
    hide IsPart, Superseded;
    forall o, b | Superseded(s.disk, s.present, o, b) ensures Superseded(s'.disk, s'.present, o, b) {
      SupersededAlso(s.disk, s'.disk, s.present, s'.present, o, b);
    }
    forall o | o in d.locs ensures Superseded(s'.disk, s'.present, o, d.base) {
      SupersededBy(s'.disk, s'.present, o, d.base, k);
    }
  }

  lemma SupersededBy(disk: map<Lsn, File>, keep: set<Lsn>, o: ObjectId, b: nat, r: Lsn)
    requires r in disk && r in keep && o in disk[r].locs && b <= disk[r].base
    ensures Superseded(disk, keep, o, b)
  {
  }

  /** A file on disk and its record in memory. */
  lemma DiskFile(s: State, k: Lsn)
    requires FilesOk(s.files, s.nextLsn) && DiskOk(s.disk, s.files, s.present, s.writes, s.table) && k in s.disk
    ensures k in s.files && s.disk[k].base == s.files[k].base && s.disk[k].generation == s.files[k].generation
    ensures s.disk[k].WellFormed() && s.files[k].WellFormed() && s.files[k].Key() == k
    ensures !s.files[k].IsGc() ==> s.disk[k] == s.files[k]
  {
    assert IsPart(s.disk[k], s.files[k]);
  }

  lemma SupersededAlso(disk: map<Lsn, File>, disk': map<Lsn, File>, keep: set<Lsn>, keep': set<Lsn>, o: ObjectId,
                       b: nat)
    requires Superseded(disk, keep, o, b) && keep <= keep'
    requires forall k :: k in disk ==> k in disk' && disk'[k] == disk[k]
    ensures Superseded(disk', keep', o, b)
  {
    var r :| r in disk && r in keep && o in disk[r].locs && b <= disk[r].base;
    assert r in disk' && r in keep' && o in disk'[r].locs && b <= disk'[r].base;
  }

  /** The batch of an open write is new to the history, so other batches keep their place. */
  lemma CurrentElsewhere(history: map<nat, Batch>, b: nat, batch: Batch, o: ObjectId, v: Option<Bytes>)
    requires Current(history, o, v) && b !in history
    requires o !in batch || exists h :: h in history && o in history[h] && b <= h
    ensures Current(history[b := batch], o, v)
  {
    var h :| IsLast(history, o, h) && history[h][o] == v;
    assert IsLast(history[b := batch], o, h);
  }

  lemma CommitCurrent(s: State, s': State, k: Lsn, d: File)
    requires Commits(s, s', k, d) && CopiesCurrent(s.table, s.files, s.history)
    requires TriedBelow(s.writes, s.table, s.files)
    requires WritersOk(s.writes, s.files, s.history, s.disk, s.present)
    ensures CopiesCurrent(s'.table, s'.files, s'.history)
  {
    if !s.files[k].IsGc() {
      CommitTried(s, s', k, d);
      var b := s.files[k].base;
      forall o | o in s.table && s.table[o].file in s.files && s.files[s.table[o].file].IsGc()
        && o in s.files[s.table[o].file].vals
        ensures Current(s'.history, o, s.files[s.table[o].file].vals[o])
      {
        assert Current(s.history, o, s.files[s.table[o].file].vals[o]);
        hide Current;
        assert !Tried(s.writes, s.files, k, o) && o !in s.files[k].locs;
        CurrentElsewhere(s.history, b, s.files[k].vals, o, s.files[s.table[o].file].vals[o]);
      }
    }
  }

  lemma CommitWriters(s: State, s': State, k: Lsn, d: File)
    requires Commits(s, s', k, d) && FilesOk(s.files, s.nextLsn)
    requires WritersOk(s.writes, s.files, s.history, s.disk, s.present)
    ensures WritersOk(s'.writes, s'.files, s'.history, s'.disk, s'.present)
  {
    hide WriterOk;
    forall w | Open(s'.writes, w) && w in s'.files && !s'.files[w].IsGc()
      ensures WriterOk(s'.files, s'.history, s'.disk, s'.present, s'.files[w].base)
    {
      hide FilesOk, WritersOk;
      CommitWriter(s, s', k, d, w);
    }
  }

  lemma CommitWriter(s: State, s': State, k: Lsn, d: File, w: Lsn)
    requires Commits(s, s', k, d) && FilesOk(s.files, s.nextLsn)
    requires WritersOk(s.writes, s.files, s.history, s.disk, s.present)
    requires Open(s'.writes, w) && w in s'.files && !s'.files[w].IsGc()
    ensures WriterOk(s'.files, s'.history, s'.disk, s'.present, s'.files[w].base)
  {
    hide FilesOk, Commits, WritersOk;
    CommitOpen(s, s', k, d, w);
    InRange(s, k);
    DistinctBases(s, w, k);
    assert WriterOk(s.files, s.history, s.disk, s.present, s.files[w].base) by { WriterWas(s, w); }
    CommitDisk(s, s', k, d);
    forall h | h in s'.history ensures h != s'.files[w].base
      ensures s'.files[w].base < h ==> h + NEW_WRITE_BATCH_BIT in s'.disk && h + NEW_WRITE_BATCH_BIT in s'.present
    {
      CommitsOnly(s, s', k, d, h);
    }
  }

  lemma CommitOpen(s: State, s': State, k: Lsn, d: File, w: Lsn)
    requires Commits(s, s', k, d) && Open(s'.writes, w)
    ensures Open(s.writes, w) && w != k && s'.files == s.files && k in s.files
  {
    hide IsPart;
  }

  lemma WriterWas(s: State, w: Lsn)
    requires WritersOk(s.writes, s.files, s.history, s.disk, s.present) && Open(s.writes, w) && w in s.files
    requires !s.files[w].IsGc()
    ensures WriterOk(s.files, s.history, s.disk, s.present, s.files[w].base)
  {
    hide WriterOk;
  }

  lemma CommitsOnly(s: State, s': State, k: Lsn, d: File, h: nat)
    requires Commits(s, s', k, d) && h in s'.history
    ensures h in s.history || (h == s.files[k].base && !s.files[k].IsGc())
  {
    hide IsPart;
  }

  lemma CommitDisk(s: State, s': State, k: Lsn, d: File)
    requires Commits(s, s', k, d)
    ensures s'.disk.Keys == s.disk.Keys + {k} && s'.present == s.present && k in s.present && s'.files == s.files
  {
    hide IsPart;
  }

  lemma CommitShape(s: State, s': State, k: Lsn, d: File)
    requires Commits(s, s', k, d)
    ensures d.base == s.files[k].base && d.generation == s.files[k].generation
    ensures (!s.files[k].IsGc() ==> d == s.files[k])
  {
  }

  lemma LatestBefore(disk: map<Lsn, File>, k: Lsn, d: File, o: ObjectId, j: Lsn)
    requires k !in disk && IsLatest(disk[k := d], o, j)
    ensures j != k ==> IsLatest(disk, o, j)
    ensures forall i :: i in disk && o in disk[i].locs ==> disk[i].base <= disk[k := d][j].base
    ensures o in d.locs ==> d.base <= disk[k := d][j].base
  {
    forall i | i in disk && o in disk[i].locs ensures disk[i].base <= disk[k := d][j].base {
      assert i in disk[k := d] && disk[k := d][i] == disk[i];
    }
    assert k in disk[k := d];
  }

  lemma CommitHistory(s: State, s': State, k: Lsn, d: File)
    requires Commits(s, s', k, d) && FilesOk(s.files, s.nextLsn)
    requires DiskOk(s.disk, s.files, s.present, s.writes, s.table)
    requires HistoryOk(s.history, s.nextLsn, s.disk)
    ensures HistoryOk(s'.history, s'.nextLsn, s'.disk)
  {
    hide FilesOk, DiskOk, IsPart, HistoryOk, File.WellFormed;
    CommitShape(s, s', k, d);
    InRange(s, k);
    if s.files[k].IsGc() {
      HistoryWithCopy(s.history, s.nextLsn, s.disk, k, d);
    } else {
      forall j | j in s.disk ensures s.disk[j].base != d.base {
        DiskFile(s, j);
        DistinctBases(s, j, k);
      }
      HasObjects(s, k);
      HistoryWithBatch(s.history, s.nextLsn, s.disk, k, d);
    }
  }

  lemma HasObjects(s: State, k: Lsn)
    requires FilesOk(s.files, s.nextLsn) && k in s.files
    ensures s.files[k].vals != map[]
  {
    P.FileWellFormed(s, k);
    hide FilesOk;
    var o :| o in s.files[k].locs;
    assert o in s.files[k].vals;
  }

  lemma HistoryWithBatch(history: map<nat, Batch>, nextLsn: nat, disk: map<Lsn, File>, k: Lsn, d: File)
    requires HistoryOk(history, nextLsn, disk) && !d.IsGc() && d.base < nextLsn && d.vals != map[]
    requires forall j :: j in disk ==> disk[j].base != d.base
    ensures HistoryOk(history[d.base := d.vals], nextLsn, disk[k := d])
  {
  }

  lemma HistoryWithCopy(history: map<nat, Batch>, nextLsn: nat, disk: map<Lsn, File>, k: Lsn, d: File)
    requires HistoryOk(history, nextLsn, disk) && d.IsGc()
    ensures HistoryOk(history, nextLsn, disk[k := d])
  {
  }

  lemma InRange(s: State, k: Lsn)
    requires FilesOk(s.files, s.nextLsn) && k in s.files
    ensures s.files[k].base < s.nextLsn <= NEW_WRITE_BATCH_BIT && s.files[k].Key() == k
  {
  }

  /** A fresh batch: on disk it takes the last word exactly where it does in the history. */
  lemma FreshCommitRefines(s: State, s': State, k: Lsn, d: File, j: Lsn, o: ObjectId)
    requires Commits(s, s', k, d) && !s.files[k].IsGc() && FilesOk(s.files, s.nextLsn)
    requires DiskOk(s.disk, s.files, s.present, s.writes, s.table)
    requires HistoryOk(s.history, s.nextLsn, s.disk)
    requires WritersOk(s.writes, s.files, s.history, s.disk, s.present)
    requires Refines(s.disk, s.history)
    requires IsLatest(s'.disk, o, j) && o in s'.disk[j].vals
    ensures Current(s'.history, o, s'.disk[j].vals[o])
  {
    hide FilesOk, DiskOk, IsPart, Current, Refines;
    var b := s.files[k].base;
    CommitShape(s, s', k, d);
    LatestBefore(s.disk, k, d, o, j);
    assert b !in s.history;
    if j == k {
      forall h | h in s.history && o in s.history[h] ensures h <= b {
        if b < h { LaterBatchOnDisk(s, k, h); }
      }
      LastIsCurrent(s.history, b, s.files[k].vals, o);
    } else {
      DiskFile(s, j);
      DistinctBases(s, j, k);
      RefinesAt(s, j, o);
      assert o in s.files[k].vals ==> !s.disk[j].IsGc();
      hide WritersOk;
      CurrentElsewhere(s.history, b, s.files[k].vals, o, s.disk[j].vals[o]);
    }
  }

  lemma LastIsCurrent(history: map<nat, Batch>, b: nat, batch: Batch, o: ObjectId)
    requires o in batch && forall h :: h in history && o in history[h] ==> h <= b
    ensures Current(history[b := batch], o, batch[o])
  {
    assert IsLast(history[b := batch], o, b);
  }

  lemma RefinesAt(s: State, j: Lsn, o: ObjectId)
    requires Refines(s.disk, s.history) && IsLatest(s.disk, o, j) && o in s.disk[j].vals
    ensures Current(s.history, o, s.disk[j].vals[o])
  {
    hide Current;
  }

  /** A batch committed above an open fresh write is on disk, whole. */
  lemma LaterBatchOnDisk(s: State, k: Lsn, h: nat)
    requires FilesOk(s.files, s.nextLsn) && DiskOk(s.disk, s.files, s.present, s.writes, s.table)
    requires HistoryOk(s.history, s.nextLsn, s.disk) && WritersOk(s.writes, s.files, s.history, s.disk, s.present)
    requires Open(s.writes, k) && k in s.files && !s.files[k].IsGc() && h in s.history && s.files[k].base < h
    ensures var w := h + NEW_WRITE_BATCH_BIT;
      w in s.disk && s.disk[w].base == h && s.disk[w].locs.Keys == s.history[h].Keys
  {
    var w := h + NEW_WRITE_BATCH_BIT;
    hide FilesOk, DiskOk;
    DiskFile(s, w);
    InRange(s, w);
  }

  lemma CopyCommitRefines(s: State, s': State, k: Lsn, d: File, j: Lsn, o: ObjectId)
    requires Commits(s, s', k, d) && s.files[k].IsGc()
    requires RewritesCurrent(s.writes, s.files, s.history, s.disk)
    requires Refines(s.disk, s.history)
    requires IsLatest(s'.disk, o, j) && o in s'.disk[j].vals
    ensures Current(s'.history, o, s'.disk[j].vals[o])
  {
    hide Current, Refines;
    LatestBefore(s.disk, k, d, o, j);
    if j == k {
      CommitTried(s, s', k, d);
      assert Tried(s.writes, s.files, k, o);
    } else {
      hide RewritesCurrent;
      RefinesAt(s, j, o);
    }
  }

  lemma CommitRefines(s: State, s': State, k: Lsn, d: File)
    requires Commits(s, s', k, d) && FilesOk(s.files, s.nextLsn)
    requires DiskOk(s.disk, s.files, s.present, s.writes, s.table)
    requires HistoryOk(s.history, s.nextLsn, s.disk)
    requires RewritesCurrent(s.writes, s.files, s.history, s.disk)
    requires WritersOk(s.writes, s.files, s.history, s.disk, s.present)
    requires Refines(s.disk, s.history)
    ensures Refines(s'.disk, s'.history)
  {
    hide FilesOk, DiskOk, HistoryOk, RewritesCurrent, WritersOk, Current, Superseded, IsPart;
    forall j, o | IsLatest(s'.disk, o, j) && o in s'.disk[j].vals ensures Current(s'.history, o, s'.disk[j].vals[o]) {
      hide Refines, IsLatest, Commits;
      CommitShapeKeys(s, s', k, d);
      if s.files[k].IsGc() {
        CopyCommitRefines(s, s', k, d, j, o);
      } else {
        FreshCommitRefines(s, s', k, d, j, o);
      }
    }
    hide IsLatest;
    CommitShape(s, s', k, d);
    forall h, o | h in s'.history && o in s'.history[h] ensures Superseded(s'.disk, s'.disk.Keys, o, h) {
      if h in s.history && s'.history[h] == s.history[h] {
        SupersededAlso(s.disk, s'.disk, s.disk.Keys, s'.disk.Keys, o, h);
      } else {
        SupersededBy(s'.disk, s'.disk.Keys, o, h, k);
      }
    }
  }

  lemma CommitShapeKeys(s: State, s': State, k: Lsn, d: File)
    requires Commits(s, s', k, d)
    ensures k in s.files
  {
  }

  lemma CommitKeeps(s: State, s': State, k: Lsn, d: File)
    requires Inv(s) && Durable(s) && Commits(s, s', k, d)
    ensures Durable(s')
  {
    hide FilesOk, TableOk, LiveOk, WritesOk, ReplacedOk, UnsettledOk, CopiesOk, KnownOk, StageOk, ClaimsOk, PassesOk;
    hide DebugOk, DiskOk;
    hide HistoryOk, DiskBelow, HistoryBelow, TriedBelow, CopiesCurrent, RewritesOk, RewritesCurrent, Backed, WritersOk;
    hide Refines, Commits;
    CommitHistory(s, s', k, d);
    CommitBelow(s, s', k, d);
    CommitCurrent(s, s', k, d);
    CommitRewrites(s, s', k, d);
    CommitRecent(s, s', k, d);
    CommitBacked(s, s', k, d);
    CommitWriters(s, s', k, d);
    CommitRefines(s, s', k, d);
  }

  lemma RenameCommits(s: State, k: Lsn)
    requires Inv(s) && Enabled(s, Rename(k))
    ensures Commits(s, DoRename(s, k), k, Trailer(s, k))
  {
    hide FilesOk, TableOk, LiveOk, WritesOk, ReplacedOk, UnsettledOk, CopiesOk, KnownOk, StageOk, ClaimsOk, PassesOk;
    hide DebugOk, DiskOk;
    hide IsPart, InTable, Owed;
    P.WriteIsOk(s, k);
    P.FileWellFormed(s, k);
    P.TrailerKeeps(s, k);
    OpenNotOnDisk(s, k);
    hide Inv, WriteOk;
    assert s.files[k].IsGc() ==> Trailer(s, k).locs.Keys == s.files[k].locs.Keys - s.writes[k].failed;
  }

  lemma OpenNotOnDisk(s: State, k: Lsn)
    requires DiskOk(s.disk, s.files, s.present, s.writes, s.table) && Open(s.writes, k)
    ensures k !in s.disk
  {
    hide IsPart, InTable, Owed;
  }

  lemma RenameKeeps(s: State, k: Lsn)
    requires Inv(s) && Durable(s) && Enabled(s, Rename(k))
    ensures Durable(Apply(s, Rename(k)))
  {
    hide Inv, Durable, Commits;
    RenameCommits(s, k);
    CommitKeeps(s, DoRename(s, k), k, Trailer(s, k));
  }

  // ---------------------------------------------------------------- the other steps

  lemma WritesAfter(s: State, a: Action)
    requires Enabled(s, a) && OfWrite(a)
    ensures var w' := Apply(s, a).writes;
      || w' == s.writes - {a.key}
      || (a.key in w' && w' == s.writes[a.key := w'[a.key]] && w'[a.key].phase != Installing)
  {
    hide Enabled, ApplyPass, ApplyWrite;
  }

  lemma LateFrame(s: State, a: Action)
    requires Enabled(s, a) && OfWrite(a) && !a.Rename?
    ensures FewerOpen(s.writes, Apply(s, a).writes)
    ensures a.AbortGc? ==> Open(s.writes, a.key)
  {
    WritesAfter(s, a);
    hide Apply;
  }

  lemma LateKeeps(s: State, a: Action)
    requires Inv(s) && Durable(s) && Enabled(s, a) && OfWrite(a) && !a.Rename?
    ensures Durable(Apply(s, a))
  {
    hide Durable, Enabled, Apply, FewerOpen, Open;
    hide FilesOk, TableOk, LiveOk, WritesOk, ReplacedOk, UnsettledOk, CopiesOk, KnownOk, StageOk, ClaimsOk, PassesOk;
    hide DebugOk, DiskOk;
    LateFrame(s, a);
    C.WriteFrame(s, a);
    if a.AbortGc? && Apply(s, a).present != s.present {
      OpenNotOnDisk(s, a.key);
    }
    hide Inv;
    FewerOpenKeeps(s, Apply(s, a));
  }

  lemma PassKeeps(s: State, a: Action)
    requires Inv(s) && Durable(s) && Careful(s, a) && Enabled(s, a) && OfPass(a)
    ensures Durable(Apply(s, a))
  {
    hide Inv, Durable;
    if a.Remove? {
      var t, k := a.thread, a.key;
      C.RemovablePresent(s, t, k);
      hide NoneInstalling, Enabled, C.EmptyFile;
      RemoveKeeps(s, k, Apply(s, a));
    } else {
      hide Enabled, Apply, NoneInstalling;
      C.PassFrame(s, a);
      assert FewerOpen(s.writes, s.writes);
      FewerOpenKeeps(s, Apply(s, a));
    }
  }

  // ---------------------------------------------------------------- reopening

  lemma ReopenedBelow(s: State, disk: map<Lsn, File>)
    requires KeepsLast(s.disk, disk) && Refines(s.disk, s.history)
    ensures DiskBelow(disk, RecoveredTable(disk), disk)
    ensures HistoryBelow(s.history, RecoveredTable(disk), disk)
  {
    PartRefines(s.disk, disk, s.history);
    hide KeepsLast, RecoveredTable, Current;
    forall k, o | k in disk && o in disk[k].locs ensures AtOrAbove(RecoveredTable(disk), disk, o, disk[k].base) {
      hide Refines;
      assert o in Objects(disk);
      R.RecoveredEntry(disk, o);
    }
    forall h, o | h in s.history && o in s.history[h] ensures AtOrAbove(RecoveredTable(disk), disk, o, h) {
      assert Superseded(disk, disk.Keys, o, h);
      var r :| r in disk && o in disk[r].locs && h <= disk[r].base;
      assert AtOrAbove(RecoveredTable(disk), disk, o, disk[r].base);
    }
  }

  lemma ReopenedHistory(s: State, disk: map<Lsn, File>)
    requires KeepsLast(s.disk, disk) && Refines(disk, s.history) && HistoryOk(s.history, s.nextLsn, s.disk)
    requires R.DirectoryOk(disk)
    ensures HistoryOk(s.history, NextLsn(disk), disk)
  {
    hide Current, IsLatest, NextLsn;
    forall h | h in s.history ensures h < NextLsn(disk) {
      var o :| o in s.history[h];
      assert Superseded(disk, disk.Keys, o, h);
      var r :| r in disk && o in disk[r].locs && h <= disk[r].base;
      R.NextLsnAbove(disk, r);
    }
    hide Superseded;
  }

  lemma ReopenedCurrent(disk: map<Lsn, File>, history: map<nat, Batch>)
    requires Refines(disk, history)
    ensures CopiesCurrent(RecoveredTable(disk), disk, history)
  {
    hide RecoveredTable, Current, Superseded;
    forall o | o in RecoveredTable(disk) ensures IsLatest(disk, o, RecoveredTable(disk)[o].file) {
      hide IsLatest, Refines;
      R.RecoveredEntry(disk, o);
    }
    hide IsLatest;
  }

  lemma ReopenedBacked(disk: map<Lsn, File>)
    ensures Backed(disk, disk.Keys)
  {
    hide Superseded;
    forall k, o | k in disk && o in disk[k].locs ensures Superseded(disk, disk.Keys, o, disk[k].base) {
      SupersededBy(disk, disk.Keys, o, disk[k].base, k);
    }
  }

  lemma ReopenKeeps(s: State, disk: map<Lsn, File>)
    requires Durable(s) && KeepsLast(s.disk, disk) && R.DirectoryOk(disk)
    ensures Durable(Recovered(s, disk))
  {
    hide HistoryOk, DiskBelow, HistoryBelow, CopiesCurrent, Backed, Refines, KeepsLast, R.DirectoryOk;
    hide RecoveredTable, Attributed, MonotonicOrder, NextLsn, IsPredecessor, Raw;
    ReopenedBelow(s, disk);
    PartRefines(s.disk, disk, s.history);
    ReopenedHistory(s, disk);
    ReopenedCurrent(disk, s.history);
    ReopenedBacked(disk);
    var s' := Recovered(s, disk);
    assert TriedBelow(s'.writes, s'.table, s'.files) && RewritesOk(s'.writes, s'.files, s'.table, s'.disk, s'.pathed)
      && WritersOk(s'.writes, s'.files, s'.history, s'.disk, s'.present)
      && RewritesCurrent(s'.writes, s'.files, s'.history, s'.disk);
  }

  lemma DirectoryIsOk(s: State, disk: map<Lsn, File>)
    requires Inv(s) && disk.Keys <= s.disk.Keys && forall k :: k in disk ==> disk[k] == s.disk[k]
    ensures R.DirectoryOk(disk)
  {
    hide FilesOk, TableOk, LiveOk, WritesOk, ReplacedOk, UnsettledOk, CopiesOk, KnownOk, StageOk, ClaimsOk, PassesOk;
    hide DebugOk, DiskOk;
    R.DirectoryAlways(s, disk);
  }

  lemma WholeKeepsLast(disk: map<Lsn, File>)
    ensures KeepsLast(disk, disk)
  {
    ReopenedBacked(disk);
    hide Superseded;
  }

  /** Closing the store in a quiet moment deletes only files that have nothing left to say. */
  lemma SurvivorsKeepLast(s: State)
    requires Inv(s) && Durable(s) && s.writes == map[]
    ensures KeepsLast(s.disk, Surviving(s))
  {
    hide Inv, Durable, Superseded;
    assert NoneInstalling(s);
    hide NoneInstalling, Held;
    var part := Surviving(s);
    forall k, o | k in s.disk && o in s.disk[k].locs ensures Superseded(part, part.Keys, o, s.disk[k].base) {
      var r := HeldSupersedes(s, k, o);
      C.HeldIsLive(s, r, o);
      SupersededBy(part, part.Keys, o, s.disk[k].base, r);
    }
  }

  // ---------------------------------------------------------------- all steps, all runs

  lemma StepKeepsDurable(s: State, a: Action)
    requires Inv(s) && Durable(s) && Enabled(s, a) && Careful(s, a)
    ensures Durable(Apply(s, a))
  {
    hide Inv, Durable, NoneInstalling;
    if a.StartWrite? {
      StartKeeps(s, a.file, map[]);
    } else if a.StartGc? {
      StartKeeps(s, a.file, s.passes[a.thread].scanned);
    } else if a.Delete? {
      DeleteStep(s, a.key);
    } else if a.Crash? {
      WholeKeepsLast(s.disk);
      DirectoryIsOk(s, s.disk);
      ReopenKeeps(s, s.disk);
    } else if a.Restart? {
      SurvivorsKeepLast(s);
      DirectoryIsOk(s, Surviving(s));
      ReopenKeeps(s, Surviving(s));
    } else {
      hide Enabled, Apply;
      if a.Install? {
        InstallKeeps(s, a.key, a.id);
      } else if a.Rename? {
        RenameKeeps(s, a.key);
      } else if OfPass(a) {
        PassKeeps(s, a);
      } else {
        LateKeeps(s, a);
      }
    }
  }

  lemma DeleteStep(s: State, k: Lsn)
    requires Durable(s) && Enabled(s, Delete(k))
    ensures Durable(Apply(s, Delete(k)))
  {
    var s' := Apply(s, Delete(k));
    hide Durable;
    if s.live[k] == 0 {
      DeleteKeeps(s, k);
      SameDurable(s.(disk := s.disk - {k}), s');
    }
  }

  lemma SameDurable(s: State, s': State)
    requires Durable(s) && s' == s.(panicked := s'.panicked)
    ensures Durable(s')
  {
    hide HistoryOk, DiskBelow, HistoryBelow, TriedBelow, CopiesCurrent, RewritesOk, RewritesCurrent, Backed, WritersOk;
    hide Refines;
  }

  lemma StepKeepsCrashInv(s: State, a: Action)
    requires Inv(s) && CrashInv(s) && Enabled(s, a) && Careful(s, a)
    ensures CrashInv(Apply(s, a))
  {
    hide Inv, Durable, L.LostOk, Enabled, Apply, Careful;
    StepKeepsDurable(s, a);
    L.StepKeepsLost(s, a);
  }

  lemma InitialCrashInv()
    ensures CrashInv(Initial())
  {
    L.InitialLost();
    hide L.LostOk;
  }

  /** A run whose every step is careful. */
  ghost predicate IsCarefulRun(states: seq<State>, actions: seq<Action>) {
    IsRun(states, actions) && forall i :: 0 <= i < |actions| ==> Careful(states[i], actions[i])
  }

  lemma {:induction false} RunCrashInv(states: seq<State>, actions: seq<Action>, i: nat)
    requires IsCarefulRun(states, actions) && i < |states|
    ensures Inv(states[i]) && CrashInv(states[i]) && Durable(states[i])
  {
    hide Inv, Durable, Enabled, Apply, Careful, L.LostOk;
    U.RunInv(states, actions, i);
    if i == 0 {
      InitialCrashInv();
    } else {
      RunCrashInv(states, actions, i - 1);
      StepKeepsDurable(states[i - 1], actions[i - 1]);
    }
  }

  /** A run in which maintenance never overlaps `write_batch`. */
  ghost predicate IsExclusiveRun(states: seq<State>, actions: seq<Action>) {
    IsRun(states, actions) && forall i :: 0 <= i < |states| ==> Exclusive(states[i])
  }

  lemma ExclusiveRunIsCareful(states: seq<State>, actions: seq<Action>)
    requires IsExclusiveRun(states, actions)
    ensures IsCarefulRun(states, actions)
  {
    hide Inv, Enabled, Apply, Exclusive, Careful, L.LostOk;
    forall i | 0 <= i < |actions| ensures Careful(states[i], actions[i]) {
      U.RunInv(states, actions, i);
      assert states[i + 1] == Apply(states[i], actions[i]) && Exclusive(states[i + 1]);
      ExclusiveIsCareful(states[i], actions[i]);
    }
  }
}
