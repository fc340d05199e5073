/** The invariant of the running store under full concurrency. */
module Invariant {
  import opened Basics
  import opened DiskLocations
  import opened Protocol

  /** `l` is where the file it names put object `o`. */
  predicate Wrote(files: map<Lsn, File>, l: Loc, o: ObjectId) {
    l.file in files && o in files[l.file].locs && files[l.file].locs[o] == l.rel
  }

  predicate Disjoint(f: File, g: File) {
    f.base + f.len < g.base || g.base + g.len < f.base
  }

  /** Files occupy disjoint ranges of sequence numbers, all of them reserved and below the bit. */
  ghost predicate FilesOk(files: map<Lsn, File>, nextLsn: nat) {
    && 1 <= nextLsn <= NEW_WRITE_BATCH_BIT
    && (forall k :: k in files ==>
         files[k].WellFormed() && files[k].Key() == k && files[k].base + files[k].len < nextLsn)
    && (forall j, k :: j in files && k in files && j != k ==> Disjoint(files[j], files[k]))
  }

  ghost predicate TableOk(table: map<ObjectId, Loc>, files: map<Lsn, File>, present: set<Lsn>) {
    forall o :: o in table ==> Wrote(files, table[o], o) && table[o].file in present
  }

  // ---------------------------------------------------------------- tokens

  /** Some write in progress has replaced entry `o` of file `k` and not yet paid for it. */
  ghost predicate Owed(writes: map<Lsn, Write>, k: Lsn, o: ObjectId) {
    exists g :: g in writes && Owes(writes[g], k, o)
  }

  predicate Owes(w: Write, k: Lsn, o: ObjectId) {
    o in w.replaced && w.replaced[o].file == k
  }

  /** The write that made file `k` still has entry `o` to install, or has failed to install it
      and not yet subtracted it. */
  predicate Unsettled(writes: map<Lsn, Write>, k: Lsn, o: ObjectId) {
    k in writes && (o in writes[k].todo || o in writes[k].failed)
  }

  predicate InTable(table: map<ObjectId, Loc>, k: Lsn, o: ObjectId) {
    o in table && table[o].file == k
  }

  /** Entry `o` of file `k` still holds a token of the file's live count. */
  ghost predicate Held(table: map<ObjectId, Loc>, writes: map<Lsn, Write>, k: Lsn, o: ObjectId) {
    InTable(table, k, o) || Owed(writes, k, o) || Unsettled(writes, k, o)
  }

  ghost function Tokens(table: map<ObjectId, Loc>, writes: map<Lsn, Write>, f: File, k: Lsn): set<ObjectId> {
    set o | o in f.locs && Held(table, writes, k, o)
  }

  /** Token conservation. */
  ghost predicate LiveOk(live: map<Lsn, int>, table: map<ObjectId, Loc>, writes: map<Lsn, Write>,
                         files: map<Lsn, File>) {
    && live.Keys == files.Keys
    && forall k :: k in files ==> live[k] == |Tokens(table, writes, files[k], k)|
  }

  // ---------------------------------------------------------------- writes in progress

  predicate WriteOk(w: Write, f: File) {
    && w.todo <= f.locs.Keys && w.failed <= f.locs.Keys && w.todo !! w.failed
    && w.replaced.Keys <= f.locs.Keys
    && (w.phase != Installing ==> w.todo == {})
    && (w.phase in {Pathed, Described, Settled} ==> w.replaced == map[])
    && (w.phase == Settled ==> w.failed == {})
    && (if f.IsGc() then f.locs.Keys <= w.scanned.Keys else w.scanned == map[])
  }

  ghost predicate WritesOk(writes: map<Lsn, Write>, files: map<Lsn, File>, present: set<Lsn>) {
    forall k :: k in writes ==> k in files && k in present && WriteOk(writes[k], files[k])
  }

  predicate LeftBehind(l: Loc, g: Lsn, o: ObjectId, table: map<ObjectId, Loc>, files: map<Lsn, File>,
                       present: set<Lsn>) {
    && Wrote(files, l, o) && l.file in present && l.file != g
    && o in table && table[o].file != l.file
  }

  /** A replaced location was left for good, and exactly one write answers for it. */
  ghost predicate ReplacedOk(writes: map<Lsn, Write>, table: map<ObjectId, Loc>, files: map<Lsn, File>,
                             present: set<Lsn>) {
    && (forall g, o :: g in writes && o in writes[g].replaced ==>
          LeftBehind(writes[g].replaced[o], g, o, table, files, present) && !Unsettled(writes, g, o))
    && (forall g, h, o :: g in writes && h in writes && g != h && o in writes[g].replaced && o in writes[h].replaced
          ==> writes[g].replaced[o].file != writes[h].replaced[o].file)
  }

  /** Entries not installed are neither in the table nor replaced by anyone. */
  ghost predicate UnsettledOk(writes: map<Lsn, Write>, table: map<ObjectId, Loc>) {
    forall k, o :: Unsettled(writes, k, o) ==> !InTable(table, k, o) && !Owed(writes, k, o)
  }

  /** Maintenance copies: an object's new record repeats the record it was scanned from, which
      lies in a finished file lower in masked order. */
  ghost predicate Copied(files: map<Lsn, File>, pathed: set<Lsn>, l: Loc, o: ObjectId, v: Option<Bytes>) {
    Wrote(files, l, o) && l.file in pathed && o in files[l.file].vals && files[l.file].vals[o] == v
  }

  ghost predicate CopiesOk(writes: map<Lsn, Write>, files: map<Lsn, File>, pathed: set<Lsn>) {
    forall k, o :: k in writes && k in files && files[k].IsGc() && o in files[k].vals && o in writes[k].scanned
      ==> Copied(files, pathed, writes[k].scanned[o], o, files[k].vals[o])
          && files[writes[k].scanned[o].file].base < files[k].base
  }

  /** Every object a file has tried to install is in the table. */
  ghost predicate KnownOk(writes: map<Lsn, Write>, table: map<ObjectId, Loc>, files: map<Lsn, File>) {
    forall k, o :: k in files && o in files[k].locs && !(k in writes && o in writes[k].todo) ==> o in table
  }

  // ---------------------------------------------------------------- the file map

  /** How far a file has come is recorded in its path, its metadata and its claim. */
  ghost predicate StageOk(files: map<Lsn, File>, present: set<Lsn>, writes: map<Lsn, Write>, claimed: set<Lsn>,
                          pathed: set<Lsn>, described: set<Lsn>, live: map<Lsn, int>)
  {
    && present <= files.Keys && claimed <= files.Keys && described <= pathed <= files.Keys
    && (forall k :: k in files && k !in present ==> k in pathed && k in claimed && k in live && live[k] == 0)
    && (forall k :: k in present ==> (k in pathed <==> !(k in writes && writes[k].phase in {Installing, Renamed})))
    && (forall k :: k in present ==>
         (k in described <==> !(k in writes && writes[k].phase in {Installing, Renamed, Pathed})))
  }

  /** Every claim on a present file has exactly one holder: the write that made the file, or one
      maintenance pass. */
  ghost predicate ClaimsOk(claimed: set<Lsn>, present: set<Lsn>, writes: map<Lsn, Write>,
                           passes: map<ThreadId, Maintenance>) {
    && (forall k :: k in claimed && k in present ==> k in writes || exists t :: t in passes && k in passes[t].claims)
    && (forall k :: k in writes ==> k in claimed)
    && (forall t, k :: t in passes && k in passes[t].claims ==> k in claimed && k !in writes)
    && (forall t, u, k :: t in passes && u in passes && k in passes[t].claims && k in passes[u].claims ==> t == u)
  }

  ghost predicate PassOk(m: Maintenance, files: map<Lsn, File>, present: set<Lsn>, live: map<Lsn, int>,
                         pathed: set<Lsn>) {
    && (m.look.Fragmented? ==> m.look.file in pathed)
    && (m.look.Empty? ==> m.look.file in pathed && m.look.file in live && live[m.look.file] == 0)
    && m.empties <= m.claims && m.claims <= pathed
    && (forall k :: k in m.empties ==> k in present && k in live && live[k] == 0)
    && m.scanned.Keys == m.batch.Keys
    && (forall o :: o in m.scanned ==> Copied(files, pathed, m.scanned[o], o, m.batch[o]))
  }

  ghost predicate PassesOk(passes: map<ThreadId, Maintenance>, files: map<Lsn, File>, present: set<Lsn>,
                           live: map<Lsn, int>, pathed: set<Lsn>) {
    forall t :: t in passes ==> PassOk(passes[t], files, present, live, pathed)
  }

  // ---------------------------------------------------------------- debug history

  ghost predicate DebugOk(adds: set<(ObjectId, Loc)>, removes: set<(ObjectId, Loc)>, table: map<ObjectId, Loc>,
                          files: map<Lsn, File>, writes: map<Lsn, Write>)
  {
    && removes <= adds
    && (forall o, l :: (o, l) in adds ==> Wrote(files, l, o) && !Unsettled(writes, l.file, o) )
    && (forall o, l :: (o, l) in adds && (o, l) !in removes <==> o in table && table[o] == l)
  }

  // ---------------------------------------------------------------- disk

  /** A file is on disk from its rename on; a present file is missing from disk only while its
      write has not come that far. What is on disk is the file without entries that hold no token. */
  ghost predicate DiskOk(disk: map<Lsn, File>, files: map<Lsn, File>, present: set<Lsn>, writes: map<Lsn, Write>,
                         table: map<ObjectId, Loc>)
  {
    && disk.Keys <= files.Keys
    && (forall k :: k in disk ==> disk[k].WellFormed() && IsPart(disk[k], files[k]))
    && (forall k :: k in disk ==> !(k in writes && writes[k].phase == Installing))
    && (forall k :: k in present && !(k in writes && writes[k].phase == Installing) ==> k in disk)
    && (forall k, o :: k in disk && o in files[k].locs && (InTable(table, k, o) || Owed(writes, k, o)) ==>
         o in disk[k].locs)
  }

  /** `d` is `f` with some trailer entries left out, which only maintenance does. */
  ghost predicate IsPart(d: File, f: File) {
    && d == f.(locs := d.locs, vals := d.vals, size := d.size, lost := d.lost)
    && d.locs.Items <= f.locs.Items && d.vals.Items <= f.vals.Items
    && (!f.IsGc() ==> d == f)
  }

  ghost predicate Inv(s: State) {
    && !s.panicked
    && FilesOk(s.files, s.nextLsn)
    && TableOk(s.table, s.files, s.present)
    && LiveOk(s.live, s.table, s.writes, s.files)
    && WritesOk(s.writes, s.files, s.present)
    && ReplacedOk(s.writes, s.table, s.files, s.present)
    && UnsettledOk(s.writes, s.table)
    && CopiesOk(s.writes, s.files, s.pathed)
    && KnownOk(s.writes, s.table, s.files)
    && StageOk(s.files, s.present, s.writes, s.claimed, s.pathed, s.described, s.live)
    && ClaimsOk(s.claimed, s.present, s.writes, s.passes)
    && PassesOk(s.passes, s.files, s.present, s.live, s.pathed)
    && DebugOk(s.adds, s.removes, s.table, s.files, s.writes)
    && DiskOk(s.disk, s.files, s.present, s.writes, s.table)
  }

  // ---------------------------------------------------------------- lookup

  /** Lookup safety: searching the file map downwards from a location finds the very file that
      wrote it, in either half of the sequence number space, tombstones included. */
  lemma LookupFindsWriter(s: State, l: Loc, o: ObjectId)
    requires FilesOk(s.files, s.nextLsn) && s.present <= s.files.Keys
    requires Wrote(s.files, l, o) && l.file in s.present
    ensures forall k :: IsPredecessor(s.present, Raw(l), k) <==> k == l.file
  {
    forall j | j in s.present && 2 * j <= Raw(l) ensures j <= l.file {
      if j != l.file {
        assert Disjoint(s.files[j], s.files[l.file]);
      }
    }
  }

  /** Two locations of one object are the same word only if they are the same entry. */
  lemma RawIdentifies(s: State, l: Loc, m: Loc, o: ObjectId)
    requires FilesOk(s.files, s.nextLsn)
    requires Wrote(s.files, l, o) && Wrote(s.files, m, o)
    ensures Raw(l) == Raw(m) <==> l == m
  {
    if l.file != m.file {
      assert Disjoint(s.files[l.file], s.files[m.file]);
    }
  }
}
