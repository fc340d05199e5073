/** Writing batches and reading objects, each carried out without interruption on packed words,
    in-memory file records and file contents. */
module Store {
  import opened Basics
  import opened DiskLocations
  import opened Protocol
  import opened Invariant
  import opened CrashRefinement
  import opened Cells
  import opened Selection
  import opened Sequential
  import opened FileNames
  import opened Records
  import opened Images
  import opened Ledger
  import S = Sharding
  import T = Trailers
  import C = Concurrency
  import E = Effects

  /** How a write ends. `Exhausted` is where the hypothesis that sequence numbers stay below the
      new-write bit fails; the program makes no such check. */
  datatype WriteResult = Done | TooBig(id: nat) | IoError | Exhausted

  datatype ReadResult = Success(value: Option<Bytes>) | Corrupted

  function Decimal(n: nat): string {
    var digit := ["0123456789"[n % 10]];
    if n < 10 then digit else Decimal(n / 10) + digit
  }

  function TmpName(n: nat): string { Decimal(n) + "-tmp" }

  /** File `f` is kept in full under its name and in the open file of its record. */
  ghost predicate KeptFile(lib: Library, disk: map<string, Bytes>, fam: Fam, f: File) {
    && Spellable(MetadataOf(f))
    && fam.path == Some(ToFileName(MetadataOf(f)))
    && fam.path.value in disk && disk[fam.path.value] == fam.file
    && IsImage(lib, fam.file, f, fam.dict)
  }

  /** Every file of the map is kept; the rest of the directory is temporary files and the legend. */
  ghost predicate Kept(lib: Library, disk: map<string, Bytes>, fams: map<Lsn, Fam>, s: State) {
    && s.disk.Keys == fams.Keys
    && (forall k :: k in fams ==> k in s.files && s.disk[k] == s.files[k] && KeptFile(lib, disk, fams[k], s.files[k]))
    && Accounted(disk, fams)
  }

  ghost predicate Accounted(disk: map<string, Bytes>, fams: map<Lsn, Fam>) {
    forall name :: name in disk ==>
      IsTemporary(name) || name == LEGEND || exists k :: k in fams && fams[k].path == Some(name)
  }

  /** The table has every object of `t` where it should; it may have more. */
  ghost predicate Covers(table: map<nat, nat>, t: map<ObjectId, Loc>) {
    t.Keys <= table.Keys && forall o :: o in t ==> table[o] == Raw(t[o])
  }

  /** Pass `thread` has scanned the objects, nothing has moved them since, and `expected` says where
      they were. */
  ghost predicate Ready(s: State, thread: ThreadId, objects: Batch, expected: map<nat, nat>) {
    && thread in s.passes
    && forall o :: o in objects ==> ReadyObject(s, s.passes[thread], o, objects[o], expected)
  }

  ghost predicate ReadyObject(s: State, m: Maintenance, o: ObjectId, v: Option<Bytes>, expected: map<nat, nat>) {
    && o in s.table && o in m.scanned && s.table[o] == m.scanned[o]
    && o in m.batch && m.batch[o] == v
    && o in expected && expected[o] == Raw(m.scanned[o])
  }

  lemma NextLsnPositive(s: State)
    requires Inv(s)
    ensures 1 <= s.nextLsn
  {
    C.FilesAreOk(s);
    hide Inv;
  }

  lemma StartReady(s: State, a: Action, f: File, thread: ThreadId, expected: map<nat, nat>)
    requires s.writes == map[] && f.WellFormed() && f.base == s.nextLsn && f.objects == |f.locs| && f.lost == map[]
    requires f.base + f.len + 1 <= NEW_WRITE_BATCH_BIT
    requires a == if f.generation == 0 then StartWrite(f) else StartGc(thread, f)
    requires f.generation == 0 ==> s.passes == map[]
    requires f.generation > 0 ==> Ready(s, thread, f.vals, expected)
    ensures Enabled(s, a) && Undisturbed(s, a)
  {
    hide Raw;
    if f.generation > 0 {
      var m := s.passes[thread];
      forall o | o in f.vals
        ensures o in s.table && o in m.scanned && s.table[o] == m.scanned[o] && o in m.batch && m.batch[o] == f.vals[o]
      {
        assert ReadyObject(s, m, o, f.vals[o], expected);
      }
      assert f.vals.Items <= m.batch.Items;
    }
  }

  /** File `f` has been entered in the map in state `s` and all its objects installed. */
  ghost predicate Installed(s: State, s': State, f: File, scanned: map<ObjectId, Loc>) {
    Between(DoStart(s, f, scanned), s', f.Key(), f.locs.Keys)
  }

  lemma InstalledFrom(s: State, s': State, f: File, scanned: map<ObjectId, Loc>)
    requires Between(DoStart(s, f, scanned), s', f.Key(), f.locs.Keys)
    ensures Installed(s, s', f, scanned)
  {
  }

  lemma StartedWrite(s: State, f: File, scanned: map<ObjectId, Loc>)
    ensures var s' := DoStart(s, f, scanned); var k := f.Key();
      && k in s'.files && s'.files[k] == f && k in s'.writes && s'.writes[k].scanned == scanned && s'.table == s.table
  {
  }

  lemma NextIsNew(s: State, fams: map<Lsn, Fam>, f: File)
    requires Inv(s) && FamsAgree(fams, s) && f.base == s.nextLsn
    ensures f.Key() !in fams && f.Key() !in s.claimed && f.Key() !in s.files && f.Key() !in s.disk
  {
    hide Inv;
    E.NextIsFree(s, f);
    E.NoStage(s, f.Key());
    DiskInFiles(s);
  }

  lemma DiskInFiles(s: State)
    requires Inv(s)
    ensures s.disk.Keys <= s.files.Keys
  {
    hide FilesOk, TableOk, LiveOk, WritesOk, ReplacedOk, UnsettledOk, CopiesOk, KnownOk, StageOk, ClaimsOk, PassesOk;
    hide DebugOk;
  }

  /** The table after a failed write of the objects `ids`: those that had a location have it again,
      the others are left with one that leads nowhere. */
  ghost predicate Restored(before: map<nat, nat>, after: map<nat, nat>, ids: set<nat>) {
    after.Keys == before.Keys + ids && forall o :: o in before ==> after[o] == before[o]
  }

  /** So a failed write leaves the table as it was exactly if all its objects had locations. */
  lemma RestoredWhen(before: map<nat, nat>, after: map<nat, nat>, ids: set<nat>)
    requires Restored(before, after, ids)
    ensures after == before <==> ids <= before.Keys
  {
    if ids <= before.Keys { assert before.Keys + ids == before.Keys; }
  }

  lemma RestoredCovers(before: map<nat, nat>, after: map<nat, nat>, ids: set<nat>, t: map<ObjectId, Loc>)
    requires Restored(before, after, ids) && TableAgrees(before, t)
    ensures Covers(after, t)
  {
    hide Raw;
  }

  /** Sequence numbers that a call of `write_batch` uses up: those of its file, once they are
      reserved, whether or not its rename succeeds. */
  ghost function NextTaken(lib: Library, config: Config, items: seq<S.Item>, r: WriteResult): nat {
    if items != [] && (r.Done? || r.IoError?) then Needs(lib, config, S.Collect(items)) else 0
  }

  lemma NothingRefused(config: Config)
    ensures !Refused(config, map[])
  {
  }

  lemma TmpIsTemporary(n: nat)
    ensures IsTemporary(TmpName(n))
  {
    hide Decimal;
    var name := TmpName(n);
    assert name[|name| - 3..] == "tmp";
  }

  /** Temporary files come and go without touching what is kept. */
  lemma KeptTmp(lib: Library, disk: map<string, Bytes>, fams: map<Lsn, Fam>, s: State, tmp: string, b: Bytes)
    requires Kept(lib, disk, fams, s) && IsTemporary(tmp)
    ensures Kept(lib, disk[tmp := b], fams, s) && Kept(lib, disk - {tmp}, fams, s)
  {
    hide IsImage, ToFileName, IsTemporary, Spellable;
    forall k | k in fams
      ensures KeptFile(lib, disk[tmp := b], fams[k], s.files[k]) && KeptFile(lib, disk - {tmp}, fams[k], s.files[k])
    {
      assert KeptFile(lib, disk, fams[k], s.files[k]);
      NameRoundTrip(MetadataOf(s.files[k]));
    }
  }

  lemma KeptSame(lib: Library, disk: map<string, Bytes>, fams: map<Lsn, Fam>, s: State, s': State)
    requires Kept(lib, disk, fams, s) && s'.files == s.files && s'.disk == s.disk
    ensures Kept(lib, disk, fams, s')
  {
    hide KeptFile;
  }

  lemma InstalledFacts(s: State, s': State, f: File, scanned: map<ObjectId, Loc>)
    requires Installed(s, s', f, scanned) && s.writes == map[] && (!f.IsGc() ==> s.passes == map[])
    ensures var k := f.Key();
      && k in s'.files && s'.files[k] == f && k in s'.writes && s'.writes[k].phase == Installing
      && s'.writes[k].todo == {}
      && s'.writes[k].failed == {} && s'.writes[k].replaced == Taken(s.table, f.locs.Keys) && Alone(s', k)
  {
    hide Overlay, Taken, File.Key;
  }

  lemma Extends(s: State, s1: State, s': State, f: File, scanned: map<ObjectId, Loc>)
    requires Installed(s, s1, f, scanned) && Committed(s1, s', f.Key()) && s.writes == map[] && f.Key() !in s.claimed
    ensures Extended(s, s', f)
  {
    CommittedExtends(s, DoStart(s, f, scanned), s1, s', f, scanned);
    hide Between, DoStart, Committed, Extended;
  }

  lemma SpellableNew(s: State, f: File)
    requires Inv(s) && f.Key() in s.files && s.files[f.Key()] == f && f.objects < U64 && f.generation < 256
    ensures Spellable(MetadataOf(f))
  {
    C.FilesAreOk(s);
    hide Inv;
  }

  lemma ExtendedFiles(s: State, s': State, f: File)
    requires Extended(s, s', f)
    ensures s'.files == s.files[f.Key() := f] && s'.disk == s.disk[f.Key() := f] && s'.present == s.present + {f.Key()}
  {
    hide Overlay, File.Key;
  }

  lemma KeptOther(lib: Library, disk: map<string, Bytes>, fam: Fam, fam': Fam, f: File, g: File, b: Bytes)
    requires KeptFile(lib, disk, fam, f) && fam' == fam.(live := fam'.live) && f.Key() != g.Key()
    requires Spellable(MetadataOf(g))
    ensures KeptFile(lib, disk[ToFileName(MetadataOf(g)) := b], fam', f)
  {
    hide IsImage, ToFileName, Spellable, File.Key;
    if ToFileName(MetadataOf(f)) == ToFileName(MetadataOf(g)) {
      NamesDiffer(MetadataOf(f), MetadataOf(g));
      assert false;
    }
  }

  lemma KeptOwn(lib: Library, disk: map<string, Bytes>, fam: Fam, fam': Fam, f: File)
    requires Spellable(MetadataOf(f)) && fam.path == Some(ToFileName(MetadataOf(f)))
    requires IsImage(lib, fam.file, f, fam.dict)
    requires fam' == fam.(live := fam'.live)
    ensures KeptFile(lib, disk[fam.path.value := fam.file], fam', f)
  {
  }

  /** Adding a file under its own name leaves the others where they are. */
  lemma KeptNew(lib: Library, disk: map<string, Bytes>, fams: map<Lsn, Fam>, s: State, f: File, s': State,
                fams': map<Lsn, Fam>, fam: Fam)
    requires Kept(lib, disk, fams, s) && Extended(s, s', f) && f.Key() !in fams && f.Key() !in s.files
    requires forall j :: j in s.files ==> s.files[j].Key() == j
    requires OnlyLive(fams[f.Key() := fam], fams')
    requires Spellable(MetadataOf(f)) && fam.path == Some(ToFileName(MetadataOf(f)))
    requires IsImage(lib, fam.file, f, fam.dict)
    ensures Kept(lib, disk[fam.path.value := fam.file], fams', s')
  {
    hide IsImage, ToFileName, IsTemporary, Spellable, Extended, File.Key, KeptFile, MetadataOf, Accounted;
    ExtendedFiles(s, s', f);
    var k, name := f.Key(), fam.path.value;
    assert s'.disk.Keys == fams'.Keys;
    forall j | j in fams'
      ensures j in s'.files && s'.disk[j] == s'.files[j] && KeptFile(lib, disk[name := fam.file], fams'[j], s'.files[j])
    {
      if j != k {
        assert j in fams && fams'[j] == fams[j].(live := fams'[j].live);
        KeptOther(lib, disk, fams[j], fams'[j], s.files[j], f, fam.file);
      } else {
        assert fams'[k] == fam.(live := fams'[k].live);
        KeptOwn(lib, disk, fam, fams'[j], f);
      }
    }
    AccountedNew(disk, fams, fams', k, fam);
  }

  lemma AccountedNew(disk: map<string, Bytes>, fams: map<Lsn, Fam>, fams': map<Lsn, Fam>, k: Lsn, fam: Fam)
    requires Accounted(disk, fams) && k !in fams && fam.path.Some? && OnlyLive(fams[k := fam], fams')
    ensures Accounted(disk[fam.path.value := fam.file], fams')
  {
    hide IsTemporary;
    var name := fam.path.value;
    forall n | n in disk[name := fam.file]
      ensures IsTemporary(n) || n == LEGEND || exists j :: j in fams' && fams'[j].path == Some(n)
    {
      if n == name {
        assert k in fams' && fams'[k].path == Some(n);
      } else if j :| j in fams && fams[j].path == Some(n) {
        assert j in fams' && fams'[j].path == Some(n);
      }
    }
  }

  lemma NonEmpty(objects: Batch, locs: map<nat, Relative>)
    requires objects != map[] && locs.Keys == objects.Keys
    ensures locs != map[]
  {
    assert objects.Keys != {};
  }

  lemma WrittenKept(lib: Library, disk: map<string, Bytes>, tmp: string, fams: map<Lsn, Fam>, s: State, s1: State,
                    s': State,
                    f: File, scanned: map<ObjectId, Loc>, fam: Fam, fams': map<Lsn, Fam>)
    requires Kept(lib, disk, fams, s) && IsTemporary(tmp) && FamsAgree(fams, s) && f.base == s.nextLsn
    requires s.writes == map[]
    requires Installed(s, s1, f, scanned) && Committed(s1, s', f.Key()) && OnlyLive(fams[f.Key() := fam], fams')
    requires f.objects < U64 && f.generation < 256 && f.Key() in s1.files && s1.files[f.Key()] == f
    requires fam.path == Some(ToFileName(MetadataOf(f))) && IsImage(lib, fam.file, f, fam.dict)
    requires Inv(s) && Inv(s1)
    ensures Extended(s, s', f)
    ensures Kept(lib, (disk - {tmp})[fam.path.value := fam.file], fams', s')
  {
    hide Inv, FamsAgree, Kept, Installed, Committed, Extended, OnlyLive, IsImage, ToFileName, IsTemporary, Spellable;
    hide MetadataOf, FilesOk, File.WellFormed, File.Key;
    NextIsNew(s, fams, f);
    Extends(s, s1, s', f, scanned);
    SpellableNew(s1, f);
    KeysAgree(s);
    KeptTmp(lib, disk, fams, s, tmp, []);
    KeptNew(lib, disk - {tmp}, fams, s, f, s', fams', fam);
  }

  lemma KeysAgree(s: State)
    requires Inv(s)
    ensures forall j :: j in s.files ==> s.files[j].Key() == j
  {
    C.FilesAreOk(s);
    hide Inv;
  }

  lemma LiveExtends(fams: map<Lsn, Fam>, k: Lsn, fam: Fam, fams': map<Lsn, Fam>)
    requires OnlyLive(fams[k := fam], fams') && k !in fams
    ensures FamsAdd(fams, fams', k, fam.dict)
  {
  }

  lemma CommittedWrites(s: State, s': State, k: Lsn)
    requires Committed(s, s', k) && Alone(s, k)
    ensures s'.writes == map[]
  {
  }

  // ---------------------------------------------------------------- reading

  /** Object `id` is entry `id` of file `f`, which is in the map. */
  ghost predicate Located(s: State, id: ObjectId, f: File) {
    && id in s.table && s.table[id].file in s.present
    && s.table[id].file in s.files && f == s.files[s.table[id].file]
    && id in f.locs && f.locs[id] == s.table[id].rel
    && id in f.vals && (f.locs[id].isDelete <==> f.vals[id].None?)
  }

  lemma EntryFacts(s: State, id: ObjectId)
    requires Inv(s) && id in s.table
    ensures s.table[id].file in s.files && Located(s, id, s.files[s.table[id].file])
  {
    C.FilesAreOk(s);
    C.TableIsOk(s);
    hide Inv;
    assert Wrote(s.files, s.table[id], id);
    assert s.files[s.table[id].file].WellFormed();
  }

  lemma FindsFile(s: State, id: ObjectId)
    requires Inv(s) && id in s.table
    ensures forall k :: IsPredecessor(s.present, Raw(s.table[id]), k) <==> k == s.table[id].file
  {
    hide Inv, IsPredecessor, Raw;
    C.LookupAlwaysFindsWriter(s);
  }

  lemma ReadsView(s: State, id: ObjectId)
    ensures id !in s.table ==> id !in View(s)
    ensures id in s.table && s.table[id].file in s.files && id in s.files[s.table[id].file].vals
      ==> id in View(s) && View(s)[id] == s.files[s.table[id].file].vals[id]
  {
  }

  lemma FamsKeys(fams: map<Lsn, Fam>, s: State)
    requires FamsAgree(fams, s)
    ensures fams.Keys == s.present
  {
  }

  lemma ReadFinds(lib: Library, disk: map<string, Bytes>, fams: map<Lsn, Fam>, s: State, id: nat, f: File)
    requires Located(s, id, f) && s.table[id].file in fams && f.vals[id].Some?
    requires Kept(lib, disk, fams, s) && Faithful(lib)
    ensures var fam := fams[s.table[id].file];
      var found := RecordAt(lib.crc, fam.file, f.locs[id].offset);
      found.Found? && found.record.id == id && Decode(lib, fam.dict, found.record.stored) == f.vals[id].value
  {
    hide IsImage, Accounted, RecordAt, Decode, Faithful, ToFileName, Spellable;
    var fam := fams[s.table[id].file];
    assert KeptFile(lib, disk, fam, f);
    ImageObject(lib, fam.file, f, fam.dict, id);
  }

  // ---------------------------------------------------------------- writing a user's batch

  lemma {:induction false} CollectBounds(items: seq<S.Item>)
    requires forall i :: 0 <= i < |items| ==> items[i].id < U64
    ensures |S.Collect(items)| <= |items| && (forall o :: o in S.Collect(items) ==> o < U64)
    ensures items != [] ==> S.Collect(items) != map[]
    ensures items == [] ==> S.Collect(items) == map[]
  {
    if items != [] {
      var n := |items| - 1;
      var front, last := S.Collect(items[..n]), items[n];
      CollectBounds(items[..n]);
      assert front[last.id := last.data].Keys == front.Keys + {last.id};
      assert last.id in S.Collect(items);
    }
  }

  lemma SkipView(s: State, s': State)
    requires s' == s.(nextLsn := s'.nextLsn)
    ensures View(s') == View(s)
  {
  }

  lemma FreshView(s: State, s': State, f: File)
    requires Extended(s, s', f) && f.base == s.nextLsn && f.locs.Keys == f.vals.Keys && Inv(s)
    ensures View(s') == View(s) + f.vals && s'.passes == s.passes
  {
    hide Inv, View;
    E.NextIsFree(s, f);
    ExtendedView(s, s', f);
  }

  lemma StartScanned(s: State, a: Action, f: File, thread: ThreadId, expected: map<nat, nat>)
    requires f.locs.Keys == f.vals.Keys && a == if f.generation == 0 then StartWrite(f) else StartGc(thread, f)
    requires f.generation == 0 ==> expected == map[]
    requires f.generation > 0 ==> Ready(s, thread, f.vals, expected)
    ensures ExpectedFor(expected, f.locs, ScannedBy(s, a))
  {
    hide Raw;
    if f.generation > 0 {
      forall o | o in f.vals ensures ReadyObject(s, s.passes[thread], o, f.vals[o], expected) {}
    }
  }

  /** What a rewrite expects to find in the table is where it scanned its objects; a fresh write
      expects nothing. */
  ghost predicate ExpectedFor(expected: map<nat, nat>, locs: map<nat, Relative>, scanned: map<ObjectId, Loc>) {
    && (forall o :: o in locs ==> (o in expected <==> o in scanned))
    && (forall o :: o in locs && o in scanned && o in expected ==> expected[o] == Raw(scanned[o]))
  }

  lemma TakenNone(table: map<ObjectId, Loc>)
    ensures TableAgrees(map[], Taken(table, {}))
  {
  }

  lemma TakenNext(replaced: map<nat, nat>, table: map<ObjectId, Loc>, done: set<ObjectId>, o: ObjectId,
                  outcome: Outcome)
    requires TableAgrees(replaced, Taken(table, done)) && o !in done && outcome != Lost
    requires outcome == Added <==> o !in table
    requires outcome.Replaced? ==> o in table && outcome.was == Raw(table[o])
    ensures TableAgrees(if outcome.Replaced? then replaced[o := outcome.was] else replaced, Taken(table, done + {o}))
  {
    hide Raw;
  }

  /** Only live counts differ. */
  ghost predicate OnlyLive(fams: map<Lsn, Fam>, fams': map<Lsn, Fam>) {
    fams'.Keys == fams.Keys && forall k :: k in fams ==> fams'[k] == fams[k].(live := fams'[k].live)
  }

  lemma RestAgrees(replaced: map<nat, nat>, taken: map<ObjectId, Loc>, o: ObjectId)
    requires TableAgrees(replaced, taken)
    ensures TableAgrees(replaced - {o}, taken - {o})
  {
  }

  lemma KeptFiled(lib: Library, config: Config, disk: map<string, Bytes>, fams: map<Lsn, Fam>, s: State,
                  fams': map<Lsn, Fam>, s': State, f: File, objects: Batch, generation: nat)
    requires !Refused(config, objects) && Room(lib, config, objects, s.nextLsn)
    requires NewFor(f, objects, generation, s.nextLsn) && Shaped(lib, config, f, objects) && f.WellFormed()
    requires Extended(s, s', f) && FamsAdd(fams, fams', f.Key(), DictFor(lib, config, objects))
    requires Kept(lib, disk, fams', s') && FamsAgree(fams', s') && s'.writes == map[] && Inv(s')
    ensures Filed(lib, config, MemoryOf(fams, s), MemoryOf(fams', s'), objects, generation)
  {
    hide Inv, Refused, Room, Shaped, File.WellFormed, IsImage, File.Key, Filed, Overlay, NewFor, Accounted;
    hide Spellable, ToFileName;
    assert KeptFile(lib, disk, fams'[f.Key()], f);
    hide Kept, KeptFile;
    FiledFrom(lib, config, fams, s, fams', s', f, objects, generation);
  }

  /** Who is over the limit, among the items. */
  lemma OversizedItem(items: seq<S.Item>, max: nat, id: nat)
    ensures Oversized(S.Collect(items), max, id) <==> exists i: nat ::
      S.IsLastItem(items, id, i) && items[i].data.Some? && |items[i].data.value| > max
  {
    S.CollectIsLast(items, id);
  }

  lemma RefusedItems(items: seq<S.Item>, config: Config)
    ensures Refused(config, S.Collect(items)) <==> exists i: nat ::
      && i < |items| && S.IsLastItem(items, items[i].id, i)
      && items[i].data.Some? && |items[i].data.value| > config.maxObjectSize
  {
    hide S.Collect;
    var max := config.maxObjectSize;
    if id :| Oversized(S.Collect(items), max, id) {
      OversizedItem(items, max, id);
      var i: nat :| S.IsLastItem(items, id, i) && items[i].data.Some? && |items[i].data.value| > max;
      assert i < |items| && S.IsLastItem(items, items[i].id, i);
    }
    if i: nat :|
      && i < |items| && S.IsLastItem(items, items[i].id, i)
      && items[i].data.Some? && |items[i].data.value| > max
    {
      OversizedItem(items, max, items[i].id);
      assert Oversized(S.Collect(items), max, items[i].id);
    }
  }

  /** The file that a batch leaves under its printed name: how long its records are, how many objects its
      name and its trailer give, and the dictionary, which is the trained one only with compression on. */
  ghost predicate LeavesFile(lib: Library, config: Config, disk: map<string, Bytes>, fam: Fam, k: Lsn, len: int,
                             objects: Batch)
  {
    && fam.path.Some? && fam.path.value in disk && disk[fam.path.value] == fam.file && 0 <= len <= |fam.file|
    && fam.metadata == Some(Metadata(k, len, |objects|, 0, |fam.file|))
    && fam.path == Some(ToFileName(Metadata(k, len, |objects|, 0, |fam.file|)))
    && fam.dict == (if !config.compress || lib.train(objects).None? then [] else lib.train(objects).value)
    && var p := T.Parse(lib.crc, fam.file[len..]); p.Parsed? && p.dict == fam.dict && |p.entries| == |objects|
  }

  /** What it holds of one object: the word in the table leads to the object's record, its own bytes or,
      with a dictionary, their compression; a deletion has the tombstone's word at the file's start. */
  ghost predicate LeavesObject(lib: Library, fam: Fam, k: Lsn, table: map<nat, nat>, id: nat, data: Option<Bytes>) {
    && id in table
    && if data.None? then table[id] == 2 * k + 1
       else
         && table[id] % 2 == 0 && table[id] >= 2 * k
         && RecordAt(lib.crc, fam.file, table[id] / 2 - k) ==
              Found(Record(id, if fam.dict == [] then data.value else lib.compress(fam.dict, data.value)))
  }

  lemma FileLeft(lib: Library, config: Config, disk: map<string, Bytes>, fam: Fam, f: File, objects: Batch)
    requires KeptFile(lib, disk, fam, f) && f.generation == 0 && f.objects == |f.locs| && f.locs.Keys == objects.Keys
    requires fam.metadata == Some(MetadataOf(f)) && fam.dict == DictFor(lib, config, objects)
    ensures LeavesFile(lib, config, disk, fam, f.Key(), f.len, objects)
  {
    hide IsImage, Spellable, ToFileName, T.Parse, File.Key;
    ImageTrailer(lib, fam.file, f, fam.dict);
    ListsSize(T.Parse(lib.crc, fam.file[f.len..]), f);
    assert |f.locs| == |f.locs.Keys| == |objects.Keys| == |objects|;
  }

  lemma ObjectLeft(lib: Library, fam: Fam, f: File, table: map<nat, nat>, id: nat)
    requires IsImage(lib, fam.file, f, fam.dict) && id in f.vals && id in f.locs && id in table
    requires table[id] == Raw(Loc(f.Key(), f.locs[id]))
    ensures LeavesObject(lib, fam, f.Key(), table, id, f.vals[id])
  {
    hide IsImage, RecordAt, File.Key;
    if f.vals[id].Some? {
      ImageStored(lib, fam.file, f, fam.dict, id);
    } else {
      ImageTombstone(lib, fam.file, f, fam.dict, id);
    }
  }

  /** All of it: the batch of `items`, written when `base` was the next number and `next` is now. */
  ghost predicate LeavesBatch(lib: Library, config: Config, disk: map<string, Bytes>, table: map<nat, nat>,
                              fams: map<Lsn, Fam>, base: nat, next: nat, items: seq<S.Item>)
  {
    var k := base + NEW_WRITE_BATCH_BIT;
    && k in fams && LeavesFile(lib, config, disk, fams[k], k, next - base - 1, S.Collect(items))
    && forall i: nat :: i < |items| && S.IsLastItem(items, items[i].id, i) ==>
         LeavesObject(lib, fams[k], k, table, items[i].id, items[i].data)
  }

  lemma FiledFile(lib: Library, config: Config, fams: map<Lsn, Fam>, s: State, fams': map<Lsn, Fam>, s': State,
                  objects: Batch) returns (f: File)
    requires Filed(lib, config, MemoryOf(fams, s), MemoryOf(fams', s'), objects, 0)
    ensures f.vals == objects && f.locs.Keys == objects.Keys && f.objects == |f.locs| && f.generation == 0
    ensures f.Key() == s.nextLsn + NEW_WRITE_BATCH_BIT && s'.nextLsn == s.nextLsn + f.len + 1
    ensures f.Key() in fams' && f.Key() in s'.files && s'.files[f.Key()] == f
    ensures fams'[f.Key()].metadata == Some(MetadataOf(f)) && fams'[f.Key()].dict == DictFor(lib, config, objects)
    ensures forall o :: o in f.locs ==> o in s'.table && s'.table[o] == Loc(f.Key(), f.locs[o])
  {
    hide Refused, Room, Needs, Counts, File.WellFormed, IsImage, FamsExtend, DictFor;
    f :| FiledAs(lib, config, MemoryOf(fams, s), MemoryOf(fams', s'), f, objects, 0);
  }

  lemma KeptImage(lib: Library, disk: map<string, Bytes>, fams: map<Lsn, Fam>, s: State, k: Lsn)
    requires Kept(lib, disk, fams, s) && k in fams
    ensures k in s.files && KeptFile(lib, disk, fams[k], s.files[k])
    ensures IsImage(lib, fams[k].file, s.files[k], fams[k].dict)
  {
    hide IsImage, Spellable, ToFileName, Accounted;
  }

  lemma BatchOnDisk(lib: Library, config: Config, disk: map<string, Bytes>, table: map<nat, nat>,
                    fams: map<Lsn, Fam>, s: State, fams': map<Lsn, Fam>, s': State, items: seq<S.Item>)
    requires Filed(lib, config, MemoryOf(fams, s), MemoryOf(fams', s'), S.Collect(items), 0)
    requires TableAgrees(table, s'.table) && Kept(lib, disk, fams', s')
    ensures LeavesBatch(lib, config, disk, table, fams', s.nextLsn, s'.nextLsn, items)
  {
    hide Filed, Kept, KeptFile, IsImage, S.Collect, LeavesFile, LeavesObject, Raw, DictFor, MemoryOf, MetadataOf;
    hide S.IsLastItem, File.Key;
    var objects := S.Collect(items);
    var f := FiledFile(lib, config, fams, s, fams', s', objects);
    var k := f.Key();
    KeptImage(lib, disk, fams', s', k);
    FileLeft(lib, config, disk, fams'[k], f, objects);
    forall i: nat | i < |items| && S.IsLastItem(items, items[i].id, i)
      ensures LeavesObject(lib, fams'[k], k, table, items[i].id, items[i].data)
    {
      var o := items[i].id;
      S.CollectIsLast(items, o);
      assert o in f.vals && f.vals[o] == items[i].data && o in f.locs;
      assert table[o] == Raw(s'.table[o]);
      ObjectLeft(lib, fams'[k], f, table, o);
    }
  }

  lemma ListsSize(p: T.Parsed, f: File)
    requires p.Parsed? && T.Lists(p.entries, f.locs)
    ensures |p.entries| == |f.locs|
  {
  }

  lemma NewForFields(f: File, objects: Batch, base: nat)
    requires NewFor(f, objects, 0, base)
    ensures f.locs.Keys == f.vals.Keys && f.vals == objects && !f.IsGc() && f.base == base
  {
  }

  class Marble {
    const lib: Library
    const config: Config
    const cells: Shared
    var disk: map<string, Bytes>
    var tmpCounter: nat

    constructor (lib: Library, config: Config, cells: Shared, disk: map<string, Bytes>)
      ensures this.lib == lib && this.config == config && this.cells == cells && this.disk == disk
    {
      this.lib, this.config, this.cells, this.disk, tmpCounter := lib, config, cells, disk, 0;
    }

    /** No write is in progress, and memory and disk are what the protocol says they are. */
    ghost predicate Steady()
      reads this, cells
    {
      && cells.s.writes == map[] && Kept(lib, disk, cells.fams, cells.s) && Faithful(lib)
      && CrashInv(cells.s) && cells.Valid()
    }

    /** As much of this as there is after opening any directory, even one that crash atomicity does not
        hold of. */
    ghost predicate Sane()
      reads this, cells
    {
      cells.s.writes == map[] && Kept(lib, disk, cells.fams, cells.s) && Faithful(lib) && cells.Valid()
    }

    /** As much as reading takes: the table may also hold locations that lead nowhere. */
    ghost predicate Legible()
      reads this, cells
    {
      && cells.s.writes == map[] && Kept(lib, disk, cells.fams, cells.s) && Faithful(lib)
      && Inv(cells.s) && FamsAgree(cells.fams, cells.s) && cells.nextLsn == cells.s.nextLsn
      && Covers(cells.table, cells.s.table)
    }

    /** What is left after a failed write. */
    ghost predicate Usable()
      reads this, cells
    {
      CrashInv(cells.s) && Legible()
    }

    lemma SaneIsLegible()
      requires Sane()
      ensures Legible() && cells.table.Keys == cells.s.table.Keys
      ensures CrashInv(cells.s) ==> Steady()
    {
      hide Inv, CrashInv, FamsAgree, Kept, Faithful, Raw;
    }

    lemma SteadyIsUsable()
      requires Steady()
      ensures Usable() && cells.table.Keys == cells.s.table.Keys
    {
      hide Inv, CrashInv, FamsAgree, Kept, Faithful, Raw;
    }

    /** The value every object has: its contents, or a tombstone. */
    ghost function Contents(): Batch
      reads this, cells
    {
      View(cells.s)
    }

    /** `read`: the location's file is found by search, the record checked, and the value decoded;
        the checks never fail, and the value is the one last written. After a failed write this still
        holds of every object except those that the write was the first to mention. */
    method Read(id: nat) returns (r: ReadResult)
      requires Legible() && (id in cells.table ==> id in cells.s.table)
      ensures r == Success(if id in Contents() then Contents()[id] else None)
    {
      hide Inv, CrashInv, FamsAgree, Raw, Kept, Faithful, IsPredecessor, View, RecordAt, Decode;
      ghost var s := cells.s;
      var word := cells.Load(id);
      ReadsView(s, id);
      if word.None? {
        return Success(None);
      }
      EntryFacts(s, id);
      ghost var f := s.files[s.table[id].file];
      E.RawUnshift(s.table[id]);
      FindsFile(s, id);
      FamsKeys(cells.fams, s);
      var (address, isDelete) := Unshift(word.value);
      if isDelete {
        return Success(None);
      }
      assert IsPredecessor(cells.fams.Keys, word.value, s.table[id].file);
      var found := cells.FamForLocation(word.value);
      assert found.Some?;
      var k := found.value;
      var fam := cells.fams[k];
      ReadFinds(lib, disk, cells.fams, s, id, f);
      var record := RecordAt(lib.crc, fam.file, address - k);
      assert record.Found? ==> record.record.id == id;
      r := if record.Found? then Success(Some(Decode(lib, fam.dict, record.record.stored))) else Corrupted;
    }

    /** `write_batch`: all of the batch or nothing of it, and the last value of each object counts. */
    method WriteBatch(items: seq<S.Item>, ioOk: bool) returns (r: WriteResult)
      requires cells.s.passes == map[] && (forall i :: 0 <= i < |items| ==> items[i].id < U64) && |items| < U64
      requires Steady()
      modifies this, cells
      ensures r.TooBig? <==> exists i: nat ::
        && i < |items| && S.IsLastItem(items, items[i].id, i)
        && items[i].data.Some? && |items[i].data.value| > config.maxObjectSize
      ensures r.TooBig? ==> exists i: nat ::
        S.IsLastItem(items, r.id, i) && items[i].data.Some? && |items[i].data.value| > config.maxObjectSize
      ensures r.Done? && items != [] ==>
        LeavesBatch(lib, config, disk, cells.table, cells.fams, old(cells.nextLsn), cells.nextLsn, items)
      ensures r.TooBig? <==> Refused(config, S.Collect(items))
      ensures r.Exhausted? <==>
        && items != [] && !r.TooBig?
        && old(cells.nextLsn) + Needs(lib, config, S.Collect(items)) > NEW_WRITE_BATCH_BIT
      ensures r.Done? <==> items == [] || (!r.TooBig? && !r.Exhausted? && ioOk)
      ensures r.Done? ==> Contents() == old(Contents()) + S.Collect(items)
      ensures r.TooBig? || r.Exhausted? ==> cells.table == old(cells.table) && cells.fams == old(cells.fams)
      ensures r.IoError? ==>
        cells.fams == old(cells.fams) && Restored(old(cells.table), cells.table, S.Collect(items).Keys)
      ensures !r.Done? ==> Contents() == old(Contents()) && cells.s.table == old(cells.s.table)
      ensures cells.nextLsn == old(cells.nextLsn) + NextTaken(lib, config, items, r)
      ensures r.Done? && items != [] ==>
        Filed(lib, config, MemoryOf(old(cells.fams), old(cells.s)), MemoryOf(cells.fams, cells.s), S.Collect(items), 0)
      ensures !r.Done? || items == [] ==>
        cells.fams == old(cells.fams) && cells.s == old(cells.s).(nextLsn := cells.nextLsn)
      ensures !r.IoError? || S.Collect(items).Keys <= old(cells.table).Keys ==> Steady()
      ensures cells.s.passes == map[] && Usable()
    {
      hide Inv, CrashInv, FamsAgree, TableAgrees, Raw, Kept, Faithful, View, Extended, Restored, Refused, Covers;
      hide Needs, Filed, FamsAdd, Shaped, NewFor, LeavesBatch, S.IsLastItem, Oversized, S.Unique, S.Shards;
      ghost var s0 := cells.s;
      SteadyIsUsable();
      ghost var open;
      var groups;
      groups, open := S.ShardBatch(0, items, config.targetFileSize, config.partition);
      CollectBounds(items);
      NothingRefused(config);
      r := Done;
      assert items == [] ==> View(s0) + S.Collect(items) == View(s0);
      hide S.Collect;
      RefusedItems(items, config);
      for i := 0 to |groups|
        invariant r.Done? && cells.s.passes == map[] && Usable() && Steady()
        invariant i == 0 ==> cells.s == s0 && cells.table == old(cells.table) && cells.fams == old(cells.fams)
        invariant i == 0 ==> cells.nextLsn == old(cells.nextLsn)
        invariant i > 0 ==> View(cells.s) == View(s0) + S.Collect(items)
        invariant i > 0 ==>
          !Refused(config, S.Collect(items)) && Room(lib, config, S.Collect(items), old(cells.nextLsn)) && ioOk
        invariant i > 0 ==> cells.nextLsn == old(cells.nextLsn) + Needs(lib, config, S.Collect(items))
        invariant i > 0 ==> Filed(lib, config, MemoryOf(old(cells.fams), s0), MemoryOf(cells.fams, cells.s),
          S.Collect(items), 0)
      {
        ghost var f;
        r, f := WriteBatchInner(groups[i], 0, map[], ioOk, 0);
        if !r.Done? {
          SkipView(s0, cells.s);
          if r.TooBig? { OversizedItem(items, config.maxObjectSize, r.id); }
          return;
        }
        SteadyIsUsable();
        KeptFiled(lib, config, disk, old(cells.fams), s0, cells.fams, cells.s, f, groups[i], 0);
        NewForFields(f, groups[i], s0.nextLsn);
        FreshView(s0, cells.s, f);
      }
      if items != [] {
        BatchOnDisk(lib, config, disk, cells.table, old(cells.fams), s0, cells.fams, cells.s, items);
      }
    }

    /** Steps 1 to 6 of `write_batch_inner`, with `ioOk` saying whether the trailer and the rename
        succeed. */
    method WriteBatchInner(objects: Batch, generation: nat, expected: map<nat, nat>, ioOk: bool, ghost thread: ThreadId)
      returns (r: WriteResult, ghost f: File)
      requires objects != map[] && |objects| < U64 && generation < 256 && forall o :: o in objects ==> o < U64
      requires generation == 0 ==> expected == map[] && cells.s.passes == map[]
      requires generation > 0 ==> Ready(cells.s, thread, objects, expected)
      requires Steady()
      modifies this, cells
      ensures r.TooBig? ==> Oversized(objects, config.maxObjectSize, r.id)
      ensures r.TooBig? <==> Refused(config, objects)
      ensures r.Exhausted? <==> !r.TooBig? && !Room(lib, config, objects, old(cells.nextLsn))
      ensures r.Done? <==> !r.TooBig? && !r.Exhausted? && ioOk
      ensures r.Done? ==> NewFor(f, objects, generation, old(cells.nextLsn)) && Extended(old(cells.s), cells.s, f)
      ensures r.Done? ==> Shaped(lib, config, f, objects) && f.WellFormed()
      ensures r.Done? ==> FamsAdd(old(cells.fams), cells.fams, f.Key(), DictFor(lib, config, objects)) && Steady()
      ensures r.TooBig? || r.Exhausted? ==> cells.table == old(cells.table) && cells.s == old(cells.s) && Steady()
      ensures !r.Done? ==>
        cells.fams == old(cells.fams) && cells.s == old(cells.s).(nextLsn := cells.nextLsn) && Usable()
      ensures r.IoError? ==> Restored(old(cells.table), cells.table, objects.Keys)
      ensures r.IoError? && objects.Keys <= old(cells.table).Keys ==> Steady()
      ensures cells.nextLsn == old(cells.nextLsn) + if r.Done? || r.IoError? then Needs(lib, config, objects) else 0
    {
      hide Inv, CrashInv, FamsAgree, TableAgrees, Exclusive, Enabled, Apply, Raw, Kept, Extended, Faithful, Installed;
      hide Stream, Laid, Ready, Taken, FamsAdd;
      ghost var s0, fams0 := cells.s, cells.fams;
      var tmp := TmpName(tmpCounter);
      TmpIsTemporary(tmpCounter);
      tmpCounter := tmpCounter + 1;
      disk := disk[tmp := []];
      var w, dict, rs := Prepare(objects);
      KeptTmp(lib, old(disk), fams0, s0, tmp, []);
      f := NewFile(generation, cells.nextLsn, [], objects, map[], []);
      if w.TooLarge? {
        SteadyIsUsable();
        return TooBig(w.id), f;
      }
      KeptTmp(lib, disk, fams0, s0, tmp, w.data);
      disk := disk[tmp := w.data];
      SteadyIsUsable();
      if cells.nextLsn + |w.data| + 1 > NEW_WRITE_BATCH_BIT {
        return Exhausted, f;
      }
      hide Restored;
      r, f := WriteFile(tmp, objects, w.data, w.locs, generation, dict, expected, ioOk, thread, rs);
    }

    /** The rest of `write_batch_inner`, once the data is in the temporary file. */
    method WriteFile(tmp: string, objects: Batch, data: Bytes, locs: map<nat, Relative>, generation: nat, dict: Bytes,
                     expected: map<nat, nat>, ioOk: bool, ghost thread: ThreadId, ghost rs: seq<Record>)
      returns (r: WriteResult, ghost f: File)
      requires objects != map[] && |objects| < U64 && generation < 256 && (forall o :: o in objects ==> o < U64)
      requires IsTemporary(tmp)
      requires data == Stream(lib.crc, rs) && Laid(Encoder(lib, dict), rs, objects, locs) && |dict| < U64
      requires cells.nextLsn + |data| + 1 <= NEW_WRITE_BATCH_BIT
      requires generation == 0 ==> expected == map[] && cells.s.passes == map[]
      requires generation > 0 ==> Ready(cells.s, thread, objects, expected)
      requires Steady()
      modifies this`disk, cells
      ensures r == if ioOk then Done else IoError
      ensures ioOk ==> NewFor(f, objects, generation, old(cells.nextLsn)) && Extended(old(cells.s), cells.s, f)
      ensures f == NewFile(generation, old(cells.nextLsn), data, objects, locs, dict) && f.WellFormed()
      ensures ioOk ==> FamsAdd(old(cells.fams), cells.fams, f.Key(), dict) && Steady()
      ensures !ioOk ==> cells.fams == old(cells.fams) && Restored(old(cells.table), cells.table, objects.Keys)
      ensures !ioOk ==> cells.s == old(cells.s).(nextLsn := cells.nextLsn) && Usable()
      ensures !ioOk && objects.Keys <= old(cells.table).Keys ==> Steady()
      ensures cells.nextLsn == old(cells.nextLsn) + |data| + 1
    {
      hide Inv, CrashInv, FamsAgree, TableAgrees, Exclusive, Enabled, Apply, Raw, Kept, Extended, Faithful, Installed;
      hide Stream, Laid, Ready, Taken, FamsAdd;
      hide ToFileName, IsTemporary, T.TrailerBytes, T.Lists, T.Recovers, Restored;
      ghost var s0, fams0 := cells.s, cells.fams;
      f := NewFile(generation, cells.nextLsn, data, objects, locs, dict);
      ghost var a := if generation == 0 then StartWrite(f) else StartGc(thread, f);
      NextLsnPositive(s0);
      NewFileWellFormed(lib.crc, Encoder(lib, dict), rs, generation, cells.nextLsn, objects, locs, dict);
      RecordsFit(lib.crc, Encoder(lib, dict), rs, objects, locs);
      LaidSize(Encoder(lib, dict), rs, objects, locs);
      hide File.WellFormed, T.Storable;
      var k, replaced, lost := InsertAndInstall(data, locs, generation, dict, expected, f, a, thread);
      InstalledLsn(s0, cells.s, f, ScannedBy(s0, a));
      var metadata := Metadata(k, |data|, |objects|, generation, |data| + 4 + 8 + 8 + 16 * |locs| + |dict|);
      var name := ToFileName(metadata);
      var trailer, es := T.WriteTrailer(lib.crc, locs, if dict == [] then None else Some(dict));
      if !ioOk {
        assert cells.fams - {k} == fams0;
        RollBack(k, tmp, locs, replaced, s0, f, ScannedBy(s0, a), old(cells.table), fams0);
        KeptTmp(lib, old(disk), fams0, s0, tmp, []);
        KeptSame(lib, disk, fams0, s0, cells.s);
        return IoError, f;
      }
      r := Done;
      NewImage(lib, rs, es, generation, f.base, objects, locs, dict);
      NonEmpty(objects, locs);
      hide IsImage;
      CommitFile(k, tmp, name, data + trailer, metadata, replaced, |lost|, s0, fams0, f, ScannedBy(s0, a));
    }

    /** Steps 5 and 6 as seen from outside: the batch is in the table, in the map and on disk. */
    method CommitFile(k: Lsn, tmp: string, name: string, file: Bytes, metadata: Metadata, replaced: map<nat, nat>,
                      subtract: nat,
                      ghost s0: State, ghost fams0: map<Lsn, Fam>, ghost f: File, ghost scanned: map<ObjectId, Loc>)
      requires k == f.Key() && f.locs != map[] && f.objects < U64 && f.generation < 256 && f.base == s0.nextLsn
      requires s0.writes == map[]
      requires !f.IsGc() ==> s0.passes == map[]
      requires k in cells.fams && k !in fams0 && cells.fams == fams0[k := cells.fams[k]] && FamsAgree(fams0, s0)
      requires subtract == 0
      requires metadata == MetadataOf(f) && name == ToFileName(metadata) && IsImage(lib, file, f, cells.fams[k].dict)
      requires TableAgrees(replaced, Taken(s0.table, f.locs.Keys)) && Installed(s0, cells.s, f, scanned)
      requires Kept(lib, disk, fams0, s0) && IsTemporary(tmp) && Faithful(lib)
      requires Inv(s0) && CrashInv(cells.s) && cells.Valid()
      modifies this`disk, cells`fams, cells`s
      ensures Extended(s0, cells.s, f) && k in old(cells.fams) && FamsAdd(fams0, cells.fams, k, old(cells.fams)[k].dict)
      ensures Steady()
    {
      hide Inv, CrashInv, FamsAgree, TableAgrees, Kept, Installed, ToFileName, IsTemporary, IsImage, Taken, Faithful;
      hide MetadataOf, Alone;
      hide OnlyLive, Committed, Extended, FamsAdd;
      ghost var s1 := cells.s;
      InstalledFacts(s0, s1, f, scanned);
      ghost var fam := cells.fams[k].(file := file, path := Some(name), metadata := Some(metadata), claim := false);
      Commit(k, tmp, name, file, metadata, replaced, subtract);
      CommittedWrites(s1, cells.s, k);
      assert fams0[k := old(cells.fams)[k]][k := fam] == fams0[k := fam];
      WrittenKept(lib, old(disk), tmp, fams0, s0, s1, cells.s, f, scanned, fam, cells.fams);
      LiveExtends(fams0, k, fam, cells.fams);
    }

    /** Steps 2 and 3: the file is entered in the map and its objects in the table. */
    method InsertAndInstall(data: Bytes, locs: map<nat, Relative>, generation: nat, dict: Bytes,
                            expected: map<nat, nat>,
                            ghost f: File, ghost a: Action, ghost thread: ThreadId)
      returns (k: Lsn, replaced: map<nat, nat>, lost: set<nat>)
      requires f.len == |data| && f.locs == locs && f.generation == generation && f.base == cells.nextLsn
      requires f.objects == |locs|
      requires a == if generation == 0 then StartWrite(f) else StartGc(thread, f)
      requires f.WellFormed() && f.lost == map[] && f.base + f.len + 1 <= NEW_WRITE_BATCH_BIT && cells.s.writes == map[]
      requires generation == 0 ==> expected == map[] && cells.s.passes == map[]
      requires generation > 0 ==> Ready(cells.s, thread, f.vals, expected)
      requires CrashInv(cells.s) && cells.Valid()
      modifies cells
      ensures k == f.Key() && k !in old(cells.fams) && Installed(old(cells.s), cells.s, f, ScannedBy(old(cells.s), a))
      ensures cells.fams == old(cells.fams)[k := Fam(data, generation, |locs|, true, None, None, dict)]
      ensures lost == {} && TableAgrees(replaced, Taken(old(cells.s.table), locs.Keys))
      ensures CrashInv(cells.s) && cells.Valid()
    {
      hide Inv, CrashInv, FamsAgree, TableAgrees, Exclusive, Enabled, Apply, Raw, Wins, Alone, Ready, ExpectedFor;
      hide Between, Installed;
      ghost var s0 := cells.s;
      StartReady(s0, a, f, thread, expected);
      StartScanned(s0, a, f, thread, expected);
      NobodyExclusive(s0);
      StartSound(s0, a);
      NextIsNew(s0, cells.fams, f);
      hide File.WellFormed, Undisturbed;
      k := cells.Insert(data, |locs|, generation, dict, a);
      StartedWrite(s0, f, ScannedBy(s0, a));
      replaced, lost := InstallAll(k, locs, expected);
      StartedWrite(s0, f, ScannedBy(s0, a));
      InstalledFrom(s0, cells.s, f, ScannedBy(s0, a));
    }

    /** Step 1: the dictionary and the records. */
    method Prepare(objects: Batch) returns (w: Written, dict: Bytes, ghost rs: seq<Record>)
      requires Faithful(lib)
      ensures dict == DictFor(lib, config, objects) && |dict| < U64
      ensures w.Written? ==> w.data == Stream(lib.crc, rs) && Laid(Encoder(lib, dict), rs, objects, w.locs)
      ensures w.Written? ==> |w.data| + 1 == Needs(lib, config, objects)
      ensures w.TooLarge? <==> Refused(config, objects)
      ensures w.TooLarge? ==> Oversized(objects, config.maxObjectSize, w.id)
    {
      var trained := if config.compress then lib.train(objects) else None;
      dict := if trained.Some? then trained.value else [];
      w, rs := WriteRecords(lib.crc, Encoder(lib, dict), config.maxObjectSize, objects);
    }

    /** Step 3 of a write: every object is installed, and what it replaced is noted. */
    method InstallAll(k: Lsn, locs: map<nat, Relative>, expected: map<nat, nat>)
      returns (replaced: map<nat, nat>, lost: set<nat>)
      requires Wins(cells.s, k) && Alone(cells.s, k) && cells.s.files[k].locs == locs
      requires ExpectedFor(expected, locs, cells.s.writes[k].scanned)
      requires CrashInv(cells.s) && cells.Valid()
      modifies cells`table, cells`s
      ensures Between(old(cells.s), cells.s, k, locs.Keys)
      ensures lost == {} && TableAgrees(replaced, Taken(old(cells.s.table), locs.Keys))
      ensures CrashInv(cells.s) && cells.Valid()
    {
      hide Inv, CrashInv, Enabled, Apply, Raw, Exclusive, Wins, Between, FamsAgree, Overlay, Taken, TableAgrees, Alone;
      ghost var s0 := cells.s;
      TakenNone(s0.table);
      replaced, lost := map[], {};
      var rest := locs;
      BetweenStart(s0, k);
      assert locs.Keys - rest.Keys == {};
      while rest != map[]
        invariant rest.Keys <= locs.Keys && forall o :: o in rest ==> rest[o] == locs[o]
        invariant Between(s0, cells.s, k, locs.Keys - rest.Keys)
        invariant lost == {} && TableAgrees(replaced, Taken(s0.table, locs.Keys - rest.Keys))
        invariant CrashInv(cells.s) && cells.Valid()
        decreases rest.Keys
      {
        assert rest.Keys != {};
        var id :| id in rest;
        ghost var s1 := cells.s;
        ghost var done := locs.Keys - rest.Keys;
        InstallEnabled(s0, s1, k, done, id);
        InstallNext(s0, s1, k, done, id);
        var outcome := cells.Install(k, id, rest[id], if id in expected then Some(expected[id]) else None);
        StillAlone(s0, s1, k, done);
        StillAlone(s0, cells.s, k, done + {id});
        SoundStep(s1, Install(k, id));
        TakenNext(replaced, s0.table, done, id, outcome);
        if outcome.Replaced? {
          replaced := replaced[id := outcome.was];
        } else if outcome.Lost? {
          lost := lost + {id};
        }
        rest := rest - {id};
        assert locs.Keys - rest.Keys == done + {id};
      }
      assert locs.Keys - rest.Keys == locs.Keys;
    }

    /** `decrement_evacuated_fams`. */
    method DecrementAll(k: Lsn, replaced: map<nat, nat>)
      requires k in cells.s.writes && cells.s.writes[k].phase == Renamed && Alone(cells.s, k)
      requires TableAgrees(replaced, cells.s.writes[k].replaced)
      requires CrashInv(cells.s) && cells.Valid()
      modifies cells`fams, cells`s
      ensures Paying(old(cells.s), cells.s, k) && cells.s.writes[k].replaced == map[]
      ensures OnlyLive(old(cells.fams), cells.fams)
      ensures CrashInv(cells.s) && cells.Valid()
    {
      hide Inv, CrashInv, Enabled, Apply, Raw, Exclusive, TableAgrees, FamsAgree, Paying, Alone;
      ghost var s0 := cells.s;
      var rest := replaced;
      assert Paying(s0, s0, k) by { PayingStart(s0, k); }
      while rest != map[]
        invariant Paying(s0, cells.s, k) && k in cells.s.writes && TableAgrees(rest, cells.s.writes[k].replaced)
        invariant OnlyLive(old(cells.fams), cells.fams)
        invariant CrashInv(cells.s) && cells.Valid()
        decreases rest.Keys
      {
        assert rest.Keys != {};
        var id :| id in rest;
        ghost var s1 := cells.s;
        AgreesAt(rest, s1.writes[k].replaced, id);
        PayNext(s0, s1, k, id);
        cells.DecrementOne(k, id, rest[id]);
        PayingAlone(s0, s1, k);
        PayingAlone(s0, cells.s, k);
        SoundStep(s1, Decrement(k, id));
        RestAgrees(rest, s1.writes[k].replaced, id);
        rest := rest - {id};
      }
      AgreesEmpty(cells.s.writes[k].replaced);
    }

    /** `finalize_fam`: path and metadata become visible, and objects that were not installed leave
        the count. */
    method Finalize(k: Lsn, path: string, metadata: Metadata, subtract: nat)
      requires k in cells.s.writes && cells.s.writes[k].phase == Renamed && cells.s.writes[k].replaced == map[]
      requires cells.s.writes[k].failed == {} && subtract == 0 && Alone(cells.s, k)
      requires k in cells.s.disk && metadata == MetadataOf(cells.s.disk[k])
      requires CrashInv(cells.s) && cells.Valid()
      modifies cells`fams, cells`s
      ensures Settles(old(cells.s), cells.s, k)
      ensures k in old(cells.fams)
      ensures cells.fams == old(cells.fams)[k := old(cells.fams)[k].(path := Some(path), metadata := Some(metadata))]
      ensures CrashInv(cells.s) && cells.Valid()
    {
      hide Inv, CrashInv, FamsAgree, FamAgrees, TableAgrees, Exclusive, Enabled, Apply;
      ghost var s0 := cells.s;
      AloneExclusive(s0, k);
      LastSteps(s0, k);
      E.Safe(s0, SetPath(k));
      E.SetPathEffect(s0, k);
      cells.InstallPath(k, path);
      ghost var s1 := cells.s;
      AloneAfter(s0, s1, k);
      SoundStep(s0, SetPath(k));

      LastSteps(s1, k);
      E.Safe(s1, SetMetadata(k));
      E.SetMetadataEffect(s1, k);
      cells.InstallMetadata(k, metadata);
      ghost var s2 := cells.s;
      AloneAfter(s1, s2, k);
      SoundStep(s1, SetMetadata(k));

      LastSteps(s2, k);
      E.Safe(s2, Subtract(k));
      E.SubtractEffect(s2, k);
      cells.SubtractFailed(k, subtract);
      AloneAfter(s2, cells.s, k);
      SoundStep(s2, Subtract(k));
    }

    /** Step 5 and 6 of a write whose objects are all installed: the file gets its name, the files it
        emptied are charged, and the new file is opened to maintenance. */
    method Commit(k: Lsn, tmp: string, name: string, file: Bytes, metadata: Metadata, replaced: map<nat, nat>,
                  subtract: nat)
      requires k in cells.s.files && k in cells.s.writes && cells.s.files[k].locs != map[] && Alone(cells.s, k)
      requires cells.s.writes[k].phase == Installing && cells.s.writes[k].todo == {} && cells.s.writes[k].failed == {}
      requires TableAgrees(replaced, cells.s.writes[k].replaced) && subtract == 0
      requires metadata == MetadataOf(cells.s.files[k])
      requires k in cells.fams && CrashInv(cells.s) && cells.Valid()
      modifies this`disk, cells`fams, cells`s
      ensures Committed(old(cells.s), cells.s, k)
      ensures disk == (old(disk) - {tmp})[name := file]
      ensures OnlyLive(old(cells.fams)[k := old(cells.fams)[k].(file := file, path := Some(name),
        metadata := Some(metadata), claim := false)], cells.fams)
      ensures CrashInv(cells.s) && cells.Valid()
    {
      hide Inv, CrashInv, FamsAgree, FamAgrees, TableAgrees, Exclusive, Enabled, Apply, MetadataOf, Alone;
      hide OnlyLive, Committed, RenamedTo, Charged;
      ghost var s0, fams0 := cells.s, cells.fams;
      RenamedFacts(s0, k);
      AloneKeys(s0, k);
      RenameFile(k, tmp, name, file);
      ghost var s1 := cells.s;
      AloneAfter(s0, s1, k);
      ghost var fam := fams0[k].(file := file, path := Some(name), metadata := Some(metadata), claim := false);
      assert cells.fams[k := fam] == fams0[k := fam];
      Charge(k, name, metadata, replaced, subtract);
      ChargedCommits(s0, s1, cells.s, k);
    }

    /** Step 6: the files it emptied are charged, and the new file is opened to maintenance. */
    method Charge(k: Lsn, name: string, metadata: Metadata, replaced: map<nat, nat>, subtract: nat)
      requires k in cells.s.files && k in cells.s.writes && Alone(cells.s, k)
      requires cells.s.writes[k].phase == Renamed && cells.s.writes[k].failed == {}
      requires TableAgrees(replaced, cells.s.writes[k].replaced) && subtract == 0
      requires k in cells.s.disk && metadata == MetadataOf(cells.s.disk[k])
      requires k in cells.fams && CrashInv(cells.s) && cells.Valid()
      modifies cells`fams, cells`s
      ensures Charged(old(cells.s), cells.s, k)
      ensures OnlyLive(old(cells.fams)[k := old(cells.fams)[k].(path := Some(name), metadata := Some(metadata),
        claim := false)], cells.fams)
      ensures CrashInv(cells.s) && cells.Valid()
    {
      hide Inv, CrashInv, FamsAgree, FamAgrees, TableAgrees, Exclusive, Enabled, Apply, MetadataOf, Alone;
      hide OnlyLive, Paying, Settles, Charged;
      ghost var s1, fams1 := cells.s, cells.fams;
      AloneKeys(s1, k);
      DecrementAll(k, replaced);
      ghost var s2, fams2 := cells.s, cells.fams;
      PayingFrame(s1, s2, k);
      AloneAfter(s1, s2, k);
      Finalize(k, name, metadata, subtract);
      ghost var s3 := cells.s;
      SettledPhase(s2, s3, k);
      AloneAfter(s1, s3, k);
      DropClaim(k);
      Composed(s1, s2, s3, cells.s, k);
      ComposedFams(fams1, fams2, cells.fams, k, name, metadata);
    }

    /** The temporary file, complete with its trailer, gets its final name. */
    method RenameFile(k: Lsn, tmp: string, name: string, file: Bytes)
      requires k in cells.s.files && k in cells.s.writes && cells.s.files[k].locs != map[] && Alone(cells.s, k)
      requires cells.s.writes[k].phase == Installing && cells.s.writes[k].todo == {} && cells.s.writes[k].failed == {}
      requires k in cells.fams && CrashInv(cells.s) && cells.Valid()
      modifies this`disk, cells`fams, cells`s
      ensures cells.s == RenamedTo(old(cells.s), k) && disk == (old(disk) - {tmp})[name := file]
      ensures cells.fams == old(cells.fams)[k := old(cells.fams)[k].(file := file)]
      ensures CrashInv(cells.s) && cells.Valid()
    {
      hide Inv, CrashInv, FamsAgree, TableAgrees, Exclusive, Enabled, Apply, Alone, RenamedTo;
      ghost var s0 := cells.s;
      AloneExclusive(s0, k);
      AloneKeys(s0, k);
      RenameWhole(s0, k);
      RenamedFacts(s0, k);
      disk := (disk - {tmp})[name := file];
      cells.Rename(k, file);
      AloneAfter(s0, cells.s, k);
      SoundStep(s0, Rename(k));
    }

    /** What a failed trailer write or rename leaves to do: every replaced location is put back by
        compare-and-exchange, then the file is forgotten. Objects that had no location keep the new
        one: nobody takes it back. */
    method PutBack(k: Lsn, locs: map<nat, Relative>, replaced: map<nat, nat>, ghost before: map<nat, nat>)
      requires InPlace(k, locs, cells.table, before, replaced)
      modifies cells`table
      ensures Restored(before, cells.table, locs.Keys)
    {
      hide ToAbsolute;
      var rest := replaced;
      while rest != map[]
        invariant rest.Keys <= replaced.Keys && forall o :: o in rest ==> rest[o] == replaced[o]
        invariant cells.table.Keys == before.Keys + locs.Keys
        invariant forall o :: o in before && o in rest ==> cells.table[o] == ToAbsolute(locs[o], k)
        invariant forall o :: o in before && o !in rest ==> cells.table[o] == before[o]
        decreases rest.Keys
      {
        assert rest.Keys != {};
        var id :| id in rest;
        var _ := cells.Cas(id, ToAbsolute(locs[id], k), rest[id]);
        rest := rest - {id};
      }
    }

    /** The failure path: the table is put back and the file forgotten; its temporary file goes with
        it. The reserved sequence numbers are not returned. */
    method RollBack(k: Lsn, tmp: string, locs: map<nat, Relative>, replaced: map<nat, nat>, ghost s0: State,
                    ghost f: File,
                    ghost scanned: map<ObjectId, Loc>, ghost table0: map<nat, nat>, ghost fams0: map<Lsn, Fam>)
      requires f.locs == locs && k == f.Key() && k in cells.fams && cells.fams - {k} == fams0
      requires Installed(s0, cells.s, f, scanned) && TableAgrees(table0, s0.table) && FamsAgree(fams0, s0)
      requires TableAgrees(replaced, Taken(s0.table, locs.Keys)) && s0.nextLsn == f.base && s0.writes == map[]
      requires Inv(s0)
      requires CrashInv(s0) && cells.Valid()
      modifies this`disk, cells`table, cells`fams, cells`s
      ensures Restored(table0, cells.table, locs.Keys) && cells.fams == fams0 && disk == old(disk) - {tmp}
      ensures cells.s == s0.(nextLsn := cells.nextLsn) && CrashInv(cells.s) && Inv(cells.s)
      ensures FamsAgree(cells.fams, cells.s)
      ensures Covers(cells.table, cells.s.table)
      ensures locs.Keys <= table0.Keys ==> cells.Valid()
    {
      hide Inv, CrashInv, FamsAgree, Exclusive, Enabled, Apply, Raw, Installed, Restored;
      InstalledTable(s0, cells.s, f, scanned, cells.table, table0, replaced);
      PutBack(k, locs, replaced, table0);
      assert k in cells.fams;
      cells.fams := cells.fams - {k};
      disk := disk - {tmp};
      cells.s := s0.(nextLsn := cells.nextLsn);
      InstalledLsn(s0, old(cells.s), f, scanned);
      NobodyExclusive(s0);
      SkipSound(s0, cells.nextLsn);
      SameFams(fams0, s0, cells.s);
      RestoredCovers(table0, cells.table, locs.Keys, s0.table);
      if locs.Keys <= table0.Keys { RestoredWhen(table0, cells.table, locs.Keys); }
    }

    /** Dropping the writer's claim ends the write. */
    method DropClaim(k: Lsn)
      requires k in cells.s.writes && cells.s.writes[k].phase == Settled && Alone(cells.s, k)
      requires CrashInv(cells.s) && cells.Valid()
      modifies cells`fams, cells`s
      ensures cells.s == E.Finished(old(cells.s), k)
      ensures k in old(cells.fams) && cells.fams == old(cells.fams)[k := old(cells.fams)[k].(claim := false)]
      ensures CrashInv(cells.s) && cells.Valid()
    {
      hide Inv, CrashInv, FamsAgree, FamAgrees, TableAgrees, Exclusive, Enabled, Apply;
      ghost var s := cells.s;
      AloneExclusive(s, k);
      LastSteps(s, k);
      E.WriterPresent(s, k);
      E.Safe(s, Finish(k));
      E.FinishEffect(s, k);
      cells.Unclaim(k);
      assert cells.s.writes == map[];
      NobodyExclusive(cells.s);
      SoundStep(s, Finish(k));
    }
  }

  lemma LaidSize(code: Bytes -> Bytes, rs: seq<Record>, batch: Batch, locs: map<nat, Relative>)
    requires Laid(code, rs, batch, locs)
    ensures |locs| == |batch|
  {
    assert |locs.Keys| == |batch.Keys|;
  }

  lemma InstalledLsn(s: State, s': State, f: File, scanned: map<ObjectId, Loc>)
    requires Installed(s, s', f, scanned) && Inv(s')
    ensures s'.nextLsn == s.nextLsn + f.len + 1 <= NEW_WRITE_BATCH_BIT
  {
    C.FilesAreOk(s');
    hide Inv, Overlay, Taken, FilesOk;
    NextInRange(s');
  }

  lemma NextInRange(s: State)
    requires Inv(s)
    ensures s.nextLsn <= NEW_WRITE_BATCH_BIT
  {
    C.FilesAreOk(s);
    hide Inv;
  }

  /** The words `table` are those of `table0` with the entries of file `k` on top, which replaced
      `replaced`. */
  ghost predicate InPlace(k: Lsn, locs: map<nat, Relative>, table: map<nat, nat>, table0: map<nat, nat>,
                          replaced: map<nat, nat>) {
    && (forall o :: o in locs ==> k + locs[o].offset < U63)
    && table.Keys == table0.Keys + locs.Keys && replaced.Keys == table0.Keys * locs.Keys
    && (forall o :: o in table0 ==> table[o] == if o in locs then ToAbsolute(locs[o], k) else table0[o])
    && (forall o :: o in replaced ==> replaced[o] == table0[o])
  }

  /** The table words in the middle of a write. */
  lemma InstalledTable(s: State, s': State, f: File, scanned: map<ObjectId, Loc>, table: map<nat, nat>,
                       table0: map<nat, nat>,
                       replaced: map<nat, nat>)
    requires Installed(s, s', f, scanned) && Inv(s') && TableAgrees(table, s'.table) && TableAgrees(table0, s.table)
    requires TableAgrees(replaced, Taken(s.table, f.locs.Keys))
    ensures InPlace(f.Key(), f.locs, table, table0, replaced)
  {
    hide Inv, Raw, ToAbsolute, File.Key, Installed;
    var k := f.Key();
    InstalledMaps(s, s', f, scanned);
    forall o | o in f.locs ensures k + f.locs[o].offset < U63 && ToAbsolute(f.locs[o], k) == Raw(Loc(k, f.locs[o])) {
      E.WordIsRaw(s', k, o);
    }
  }

  lemma InstalledMaps(s: State, s': State, f: File, scanned: map<ObjectId, Loc>)
    requires Installed(s, s', f, scanned)
    ensures f.Key() in s'.files && s'.files[f.Key()] == f && s'.table == Overlay(s.table, f.Key(), f.locs, f.locs.Keys)
  {
    hide Overlay, Taken, File.Key;
  }

  lemma RenamedFacts(s: State, k: Lsn)
    requires k in s.files && k in s.writes
    ensures var s' := RenamedTo(s, k);
      && s'.writes.Keys == s.writes.Keys && s'.files == s.files && s'.passes == s.passes
      && s'.writes[k].phase == Renamed
      && s'.writes[k].replaced == s.writes[k].replaced && s'.writes[k].failed == s.writes[k].failed
      && k in s'.disk && s'.disk[k] == s.files[k]
  {
  }

  lemma PayingFrame(s: State, s': State, k: Lsn)
    requires Paying(s, s', k)
    ensures s'.writes.Keys == s.writes.Keys && s'.files == s.files && s'.passes == s.passes && s'.disk == s.disk
    ensures s'.writes[k].phase == s.writes[k].phase && s'.writes[k].failed == s.writes[k].failed
  {
  }

  lemma SettledPhase(s: State, s': State, k: Lsn)
    requires Settles(s, s', k)
    ensures k in s'.writes && s'.writes[k].phase == Settled
    ensures s'.writes.Keys == s.writes.Keys && s'.files == s.files && s'.passes == s.passes
  {
  }

  /** The effect of step 6 on a write that lost nothing. */
  ghost predicate Charged(s: State, s': State, k: Lsn) {
    s' == s.(live := s'.live, pathed := s.pathed + {k}, described := s.described + {k}, claimed := s.claimed - {k},
      writes := s.writes - {k})
  }

  lemma Composed(s1: State, s2: State, s3: State, s4: State, k: Lsn)
    requires Paying(s1, s2, k) && Settles(s2, s3, k) && s4 == E.Finished(s3, k)
    ensures Charged(s1, s4, k)
  {
    assert s3.writes - {k} == s1.writes - {k};
  }

  lemma ChargedCommits(s0: State, s1: State, s': State, k: Lsn)
    requires k in s0.files && k in s0.writes && s1 == RenamedTo(s0, k) && Charged(s1, s', k)
    ensures Committed(s0, s', k)
  {
    assert s1.writes - {k} == s0.writes - {k};
  }

  lemma ComposedFams(fams1: map<Lsn, Fam>, fams2: map<Lsn, Fam>, fams4: map<Lsn, Fam>, k: Lsn, name: string,
                     metadata: Metadata)
    requires k in fams1 && OnlyLive(fams1, fams2)
    requires k in fams2
    requires fams4 == fams2[k := fams2[k].(path := Some(name), metadata := Some(metadata), claim := false)]
    ensures OnlyLive(fams1[k := fams1[k].(path := Some(name), metadata := Some(metadata), claim := false)], fams4)
  {
  }

  /** The effect of `finalize_fam` on a write that lost nothing. */
  ghost predicate Settles(s: State, s': State, k: Lsn) {
    && k in s.writes && k in s'.writes && s'.writes[k].phase == Settled && s'.writes == s.writes[k := s'.writes[k]]
    && s' == s.(live := s'.live, pathed := s.pathed + {k}, described := s.described + {k}, writes := s'.writes)
  }

  lemma AloneKeys(s: State, k: Lsn)
    requires Alone(s, k)
    ensures s.writes.Keys == {k}
  {
  }

  lemma NobodyExclusive(s: State)
    requires s.writes == map[]
    ensures Exclusive(s)
  {
  }

  lemma PayingStart(s: State, k: Lsn)
    requires k in s.writes
    ensures Paying(s, s, k)
  {
    assert s.writes == s.writes[k := s.writes[k]];
  }

  lemma AgreesAt(rest: map<nat, nat>, taken: map<ObjectId, Loc>, o: ObjectId)
    requires TableAgrees(rest, taken) && o in rest
    ensures o in taken && rest[o] == Raw(taken[o])
  {
  }

  lemma AgreesEmpty(taken: map<ObjectId, Loc>)
    requires TableAgrees(map[], taken)
    ensures taken == map[]
  {
  }

  lemma PayingAlone(s: State, s': State, k: Lsn)
    requires Paying(s, s', k) && Alone(s, k)
    ensures Alone(s', k) && Exclusive(s')
  {
  }
}
