/** `open` as a whole, and what closing and reopening a store does to it. */
module Opening {
  import opened Basics
  import opened DiskLocations
  import opened Protocol
  import opened Invariant
  import opened CrashRefinement
  import opened FileNames
  import opened Cells
  import opened Selection
  import opened Images
  import opened Sequential
  import opened Ledger
  import opened Store
  import opened Recovery
  import R = Reopening
  import X = CrashTheorems
  import C = Concurrency
  import E = Effects

  ghost function InFile(t: map<ObjectId, Loc>, k: Lsn, done: set<ObjectId>): set<ObjectId> {
    set o | o in done && o in t && t[o].file == k
  }

  ghost function Counted(fams: map<Lsn, Fam>, t: map<ObjectId, Loc>, done: set<ObjectId>): map<Lsn, Fam> {
    map k | k in fams :: fams[k].(live := |InFile(t, k, done)|)
  }

  /** The second loop of `open`: each object counts for the file found by searching the map. */
  method CountLive(words: map<nat, nat>, fams: map<Lsn, Fam>, ghost t: map<ObjectId, Loc>)
    returns (fams': map<Lsn, Fam>)
    requires TableAgrees(words, t) && forall k :: k in fams ==> fams[k].live == 0
    requires forall o, k :: o in t ==> (IsPredecessor(fams.Keys, Raw(t[o]), k) <==> k == t[o].file)
    ensures fams' == Counted(fams, t, t.Keys)
  {
    hide IsPredecessor, Raw, Counted;
    fams' := fams;
    var rest := words;
    CountNone(fams, t);
    assert t.Keys - rest.Keys == {};
    while rest != map[]
      invariant rest.Keys <= words.Keys && forall o :: o in rest ==> rest[o] == words[o]
      invariant fams' == Counted(fams, t, t.Keys - rest.Keys) && fams'.Keys == fams.Keys
      decreases rest.Keys
    {
      assert rest.Keys != {};
      var o :| o in rest;
      assert IsPredecessor(fams'.Keys, rest[o], t[o].file);
      PredecessorIn(fams'.Keys, rest[o], t[o].file);
      var k :| k in fams' && IsPredecessor(fams'.Keys, rest[o], k);
      CountNext(fams, t, t.Keys - rest.Keys, o);
      fams' := fams'[k := fams'[k].(live := fams'[k].live + 1)];
      assert t.Keys - (rest - {o}).Keys == t.Keys - rest.Keys + {o};
      rest := rest - {o};
    }
    assert t.Keys - rest.Keys == t.Keys;
  }

  lemma PredecessorIn(keys: set<Lsn>, word: nat, k: Lsn)
    requires IsPredecessor(keys, word, k)
    ensures k in keys
  {
  }

  lemma CountNone(fams: map<Lsn, Fam>, t: map<ObjectId, Loc>)
    requires forall k :: k in fams ==> fams[k].live == 0
    ensures Counted(fams, t, {}) == fams
  {
    assert forall k :: InFile(t, k, {}) == {};
  }

  lemma CountNext(fams: map<Lsn, Fam>, t: map<ObjectId, Loc>, done: set<ObjectId>, o: ObjectId)
    requires o in t && o !in done && t[o].file in fams
    ensures var c := Counted(fams, t, done); var k := t[o].file;
      k in c && Counted(fams, t, done + {o}) == c[k := c[k].(live := c[k].live + 1)]
      && Counted(fams, t, done + {o}).Keys == fams.Keys
  {
    forall k
      ensures InFile(t, k, done + {o}) == if k == t[o].file then InFile(t, k, done) + {o} else InFile(t, k, done)
    {
    }
    hide InFile;
    assert o !in InFile(t, t[o].file, done) by { NotYet(t, t[o].file, done, o); }
  }

  lemma NotYet(t: map<ObjectId, Loc>, k: Lsn, done: set<ObjectId>, o: ObjectId)
    requires o !in done
    ensures o !in InFile(t, k, done)
  {
  }

  // ---------------------------------------------------------------- open

  lemma RecoveredFields(s: State, files: map<Lsn, File>)
    ensures var s' := Recovered(s, files);
      && s'.table == RecoveredTable(files) && s'.files == files && s'.present == files.Keys && s'.disk == files
      && s'.claimed == {} && s'.pathed == files.Keys && s'.described == files.Keys && s'.nextLsn == NextLsn(files)
      && s'.writes == map[] && s'.passes == map[] && s'.live.Keys == files.Keys
      && forall k :: k in files ==> s'.live[k] == |Attributed(RecoveredTable(files), files.Keys, k)|
  {
    hide RecoveredTable, Attributed, MonotonicOrder, NextLsn, IsPredecessor;
  }

  lemma SearchFinds(s: State, files: map<Lsn, File>)
    requires Inv(Recovered(s, files))
    ensures forall o, k :: o in RecoveredTable(files) ==>
      (IsPredecessor(files.Keys, Raw(RecoveredTable(files)[o]), k) <==> k == RecoveredTable(files)[o].file)
  {
    hide Inv, IsPredecessor, Raw, Recovered, RecoveredTable, Attributed;
    RecoveredFields(s, files);
    C.LookupAlwaysFindsWriter(Recovered(s, files));
  }

  lemma CountsAgree(t: map<ObjectId, Loc>, keys: set<Lsn>, k: Lsn)
    requires forall o, j :: o in t ==> (IsPredecessor(keys, Raw(t[o]), j) <==> j == t[o].file)
    ensures InFile(t, k, t.Keys) == Attributed(t, keys, k)
  {
    hide IsPredecessor, Raw;
  }

  /** The records that `open` makes are those of the recovered state. */
  lemma OpenedAgree(lib: Library, disk: map<string, Bytes>, fams: map<Lsn, Fam>, files: map<Lsn, File>, s: State)
    requires fams.Keys == files.Keys && (forall k :: k in fams ==> OpenedAs(lib, disk, fams[k], files[k]))
    requires Inv(Recovered(s, files))
    ensures FamsAgree(Counted(fams, RecoveredTable(files), RecoveredTable(files).Keys), Recovered(s, files))
  {
    hide Inv, IsPredecessor, Raw, Recovered, RecoveredTable, IsImage, ToFileName, Attributed, InFile;
    var t, s' := RecoveredTable(files), Recovered(s, files);
    var fams' := Counted(fams, t, t.Keys);
    RecoveredFields(s, files);
    SearchFinds(s, files);
    forall k | k in fams' ensures FamAgrees(fams'[k], s', k) {
      assert OpenedAs(lib, disk, fams[k], files[k]);
      CountsAgree(t, files.Keys, k);
    }
  }

  lemma OpenedKept(lib: Library, disk: map<string, Bytes>, disk': map<string, Bytes>, fams: map<Lsn, Fam>,
                   files: map<Lsn, File>,
                   t: map<ObjectId, Loc>, s': State)
    requires fams.Keys == files.Keys && (forall k :: k in fams ==> OpenedAs(lib, disk, fams[k], files[k]))
    requires Directory(lib, disk, files)
    requires forall name :: name in disk' <==> name in disk && !IsTemporary(name)
    requires forall name :: name in disk' ==> disk'[name] == disk[name]
    requires s'.files == files && s'.disk == files
    ensures Kept(lib, disk', Counted(fams, t, t.Keys), s')
  {
    hide IsImage, ToFileName, IsTemporary, Spellable, InFile, Accounted;
    var fams' := Counted(fams, t, t.Keys);
    forall k | k in fams' ensures KeptFile(lib, disk', fams'[k], files[k]) {
      assert OpenedAs(lib, disk, fams[k], files[k]) && ListedFile(lib, disk, files[k]);
      NameRoundTrip(MetadataOf(files[k]));
    }
    assert Accounted(disk', fams') by { OpenedAccounted(lib, disk, disk', fams', files); }
  }

  lemma OpenedAccounted(lib: Library, disk: map<string, Bytes>, disk': map<string, Bytes>, fams: map<Lsn, Fam>,
                        files: map<Lsn, File>)
    requires fams.Keys == files.Keys && (forall k :: k in fams ==> fams[k].path == Some(NameOf(files[k])))
    requires Directory(lib, disk, files)
    requires forall name :: name in disk' <==> name in disk && !IsTemporary(name)
    ensures Accounted(disk', fams)
  {
    hide IsTemporary, ListedFile, ToFileName;
    forall name | name in disk'
      ensures IsTemporary(name) || name == LEGEND || exists k :: k in fams && fams[k].path == Some(name)
    {
      if k :| k in files && name == NameOf(files[k]) {
        assert k in fams && fams[k].path == Some(name);
      }
    }
  }

  datatype OpenResult = Opened(store: Marble) | Exhausted

  /** `open` on a directory that holds `files`: temporary files are removed, and the store that comes
      up is exactly the recovered state, whatever run left the directory behind; its next number is one
      more than the highest base and the greatest size together. The source's assertions, on masked order,
      on the file map and on the search for each object's file, all hold. `Exhausted` is where the next
      sequence number would reach the new-write bit. */
  method Open(lib: Library, config: Config, disk: map<string, Bytes>, ghost s: State, ghost files: map<Lsn, File>)
    returns (r: OpenResult, ghost top: Lsn, ghost large: Lsn)
    requires Directory(lib, disk, files) && Faithful(lib) && R.DirectoryOk(files) && FilesOk(files, s.nextLsn)
    requires !s.panicked
    ensures files == map[] ==> r.Opened? && r.store.cells.nextLsn == 1
    ensures files != map[] ==>
      && top in files && large in files
      && (r.Opened? <==> files[top].base + files[large].size + 1 <= NEW_WRITE_BATCH_BIT)
      && (r.Opened? ==> r.store.cells.nextLsn == files[top].base + files[large].size + 1)
      && forall i :: i in files ==> files[i].base <= files[top].base && files[i].size <= files[large].size
    ensures r.Opened? <==> NextLsn(files) <= NEW_WRITE_BATCH_BIT
    ensures r.Opened? ==> fresh(r.store) && fresh(r.store.cells) && r.store.lib == lib && r.store.config == config
    ensures r.Opened? ==> forall name :: name in r.store.disk ==>
      name in disk && r.store.disk[name] == disk[name] && !IsTemporary(name)
    ensures r.Opened? ==> r.store.cells.s == Recovered(s, files) && r.store.Sane()
    ensures r.Opened? && CrashInv(Recovered(s, files)) ==> r.store.Steady()
  {
    hide Inv, CrashInv, Directory, Faithful, R.DirectoryOk, Recovered, RecoveredTable, NextLsn, Raw, IsPredecessor;
    hide TableAgrees, FamsAgree, Kept;
    hide Sorted, FileNames.Opened, InOrder, OpenedAs, EntriesOf, Counted, FilesOk, Attributed, IsTemporary, ToFileName;
    var entries := ListDirectory(disk);
    var listed, removed := ReadStorageDirectory(entries);
    OrderIs(lib, disk, files, entries, listed);
    var ok, words, fams, maxLsn, maxSize := Rebuild(lib, disk, listed, files, s.nextLsn);
    top, large := R.NextLsnIs(files);
    if maxLsn + maxSize + 1 > NEW_WRITE_BATCH_BIT {
      return OpenResult.Exhausted, top, large;
    }
    R.RecoveredKeeps(s, files);
    RecoveredFields(s, files);
    SearchFinds(s, files);
    OpenedEmpty(lib, disk, fams, files);
    var counted := CountLive(words, fams, RecoveredTable(files));
    OpenedAgree(lib, disk, fams, files, s);
    var disk' := disk - removed;
    Removed(disk, entries, removed);
    OpenedKept(lib, disk, disk', fams, files, RecoveredTable(files), Recovered(s, files));
    var cells := new Shared(words, counted, maxLsn + maxSize + 1, Recovered(s, files));
    var m := new Marble(lib, config, cells, disk');
    assert m.Sane();
    m.SaneIsLegible();
    r := Opened(m);
  }

  lemma OpenedEmpty(lib: Library, disk: map<string, Bytes>, fams: map<Lsn, Fam>, files: map<Lsn, File>)
    requires fams.Keys == files.Keys && forall k :: k in fams ==> OpenedAs(lib, disk, fams[k], files[k])
    ensures forall k :: k in fams ==> fams[k].live == 0
  {
    hide IsImage, ToFileName;
    forall k | k in fams ensures fams[k].live == 0 { assert OpenedAs(lib, disk, fams[k], files[k]); }
  }

  lemma Removed(disk: map<string, Bytes>, entries: seq<DirEntry>, removed: set<string>)
    requires EntriesOf(entries, disk) && forall e :: e in entries ==> (e.name in removed <==> IsTemporary(e.name))
    ensures forall name :: name in disk - removed <==> name in disk && !IsTemporary(name)
  {
    hide IsTemporary;
    forall name | name in disk ensures name in removed <==> IsTemporary(name) {
      assert DirEntry(name, |disk[name]|) in entries;
    }
  }

  // ---------------------------------------------------------------- closing and crashing

  /** What dropping the store leaves in the directory: the file of every record whose live count is
      zero is deleted. */
  method Close(m: Marble) returns (disk: map<string, Bytes>)
    requires m.Steady()
    ensures Directory(m.lib, disk, Surviving(m.cells.s))
    ensures forall name :: name in disk ==> name in m.disk && disk[name] == m.disk[name]
  {
    hide Inv, CrashInv, Faithful, Kept, FamsAgree, TableAgrees, Directory, Surviving, Leftover;
    disk := m.disk;
    var rest := m.cells.fams.Keys;
    LeftAtFirst(m.lib, m.disk, m.cells.fams, m.cells.s);
    while rest != {}
      invariant rest <= m.cells.fams.Keys && Leftover(m.disk, m.cells.fams, disk, rest)
      invariant forall name :: name in disk ==> name in m.disk && disk[name] == m.disk[name]
      decreases rest
    {
      var k :| k in rest;
      LeftNext(m.disk, m.cells.fams, disk, rest, k);
      HasPath(m.lib, m.disk, m.cells.fams, m.cells.s, k);
      if m.cells.fams[k].live == 0 {
        disk := disk - {m.cells.fams[k].path.value};
      }
      rest := rest - {k};
    }
    KeysAgree(m.cells.s);
    LeftIsSurviving(m.lib, m.disk, m.cells.fams, disk, m.cells.s);
  }

  lemma HasPath(lib: Library, disk: map<string, Bytes>, fams: map<Lsn, Fam>, s: State, k: Lsn)
    requires Kept(lib, disk, fams, s) && k in fams
    ensures fams[k].path.Some?
  {
    hide IsImage, Accounted, ToFileName, Spellable;
    assert KeptFile(lib, disk, fams[k], s.files[k]);
  }

  /** The directory without the files of the empty records outside `rest`. */
  ghost predicate Leftover(disk: map<string, Bytes>, fams: map<Lsn, Fam>, disk': map<string, Bytes>, rest: set<Lsn>) {
    && (forall name :: name in disk' ==> name in disk && disk'[name] == disk[name])
    && (forall name :: name in disk && name !in disk' ==> exists k :: Gone(fams, rest, k, name))
    && (forall k, name :: Gone(fams, rest, k, name) ==> name !in disk')
  }

  /** Record `k` outside `rest` is empty, and its file is `name`. */
  predicate Gone(fams: map<Lsn, Fam>, rest: set<Lsn>, k: Lsn, name: string) {
    k in fams && k !in rest && fams[k].live == 0 && fams[k].path == Some(name)
  }

  lemma LeftAtFirst(lib: Library, disk: map<string, Bytes>, fams: map<Lsn, Fam>, s: State)
    ensures Leftover(disk, fams, disk, fams.Keys)
  {
  }

  lemma LeftNext(disk: map<string, Bytes>, fams: map<Lsn, Fam>, disk': map<string, Bytes>, rest: set<Lsn>, k: Lsn)
    requires Leftover(disk, fams, disk', rest) && k in rest && k in fams
    ensures fams[k].live != 0 ==> Leftover(disk, fams, disk', rest - {k})
    ensures fams[k].live == 0 && fams[k].path.Some? ==> Leftover(disk, fams, disk' - {fams[k].path.value}, rest - {k})
  {
    forall name | name in disk && name !in disk' ensures exists j :: Gone(fams, rest - {k}, j, name) {
      var j :| Gone(fams, rest, j, name);
      assert Gone(fams, rest - {k}, j, name);
    }
    forall j, name | Gone(fams, rest - {k}, j, name)
      ensures Gone(fams, rest, j, name) || (j == k && fams[k].live == 0)
    {
    }
    if fams[k].live == 0 && fams[k].path.Some? {
      assert Gone(fams, rest - {k}, k, fams[k].path.value);
    }
  }

  lemma LeftIsSurviving(lib: Library, disk: map<string, Bytes>, fams: map<Lsn, Fam>, disk': map<string, Bytes>,
                        s: State)
    requires Kept(lib, disk, fams, s) && FamsAgree(fams, s) && Leftover(disk, fams, disk', {})
    requires forall k :: k in s.files ==> s.files[k].Key() == k
    ensures Directory(lib, disk', Surviving(s))
  {
    hide IsImage, ToFileName, IsTemporary, Spellable, File.Key;
    var files := Surviving(s);
    forall k | k in files ensures files[k].Key() == k && ListedFile(lib, disk', files[k]) {
      assert FamAgrees(fams[k], s, k) && KeptFile(lib, disk, fams[k], s.files[k]);
      SurvivesNamed(lib, disk, fams, disk', s, k);
      ImageTrailer(lib, fams[k].file, s.files[k], fams[k].dict);
    }
    forall name | name in disk'
      ensures IsTemporary(name) || name == LEGEND || exists k :: k in files && name == NameOf(files[k])
    {
      if k :| k in fams && fams[k].path == Some(name) {
        assert FamAgrees(fams[k], s, k) && KeptFile(lib, disk, fams[k], s.files[k]);
        assert !Gone(fams, {}, k, name);
        assert k in files && name == NameOf(files[k]);
      }
    }
  }

  lemma SurvivesNamed(lib: Library, disk: map<string, Bytes>, fams: map<Lsn, Fam>, disk': map<string, Bytes>, s: State,
                      k: Lsn)
    requires Kept(lib, disk, fams, s) && Leftover(disk, fams, disk', {}) && k in fams && fams[k].live != 0
    requires forall j :: j in s.files ==> s.files[j].Key() == j
    ensures NameOf(s.files[k]) in disk' && disk'[NameOf(s.files[k])] == fams[k].file
  {
    hide IsImage, ToFileName, Spellable, Accounted, File.Key;
    var name := NameOf(s.files[k]);
    assert KeptFile(lib, disk, fams[k], s.files[k]);
    if name !in disk' {
      var j :| Gone(fams, {}, j, name);
      assert KeptFile(lib, disk, fams[j], s.files[j]);
      NamesDiffer(MetadataOf(s.files[j]), MetadataOf(s.files[k]));
      assert false;
    }
  }

  /** Closing a quiet store and opening it again, under whatever configuration, gives the same
      contents, the same table and the same counts for the files that are left: those not empty. */
  method Restart(m: Marble, config: Config) returns (r: OpenResult)
    requires m.cells.s.passes == map[] && m.Steady()
    ensures r.Opened? <==> NextLsn(Surviving(m.cells.s)) <= NEW_WRITE_BATCH_BIT
    ensures r.Opened? ==> fresh(r.store) && fresh(r.store.cells) && r.store.lib == m.lib && r.store.config == config
    ensures r.Opened? ==> r.store.Contents() == m.Contents() && r.store.cells.table == m.cells.table
    ensures r.Opened? ==> LeftFull(m.cells.fams, r.store.cells.fams)
    ensures r.Opened? ==>
      MemoryOf(r.store.cells.fams, r.store.cells.s) == Reopened(MemoryOf(m.cells.fams, m.cells.s))
    ensures r.Opened? ==> r.store.cells.s == Recovered(m.cells.s, Surviving(m.cells.s))
    ensures r.Opened? ==> r.store.cells.s.passes == map[] && r.store.Steady()
  {
    hide Inv, CrashInv, Faithful, Kept, FamsAgree, TableAgrees, Directory, Surviving, Enabled, Apply, Exclusive, View;
    hide NextLsn, Recovered, R.DirectoryOk;
    hide FilesOk, LeftFull, MemoryOf, Reopened;
    ghost var s := m.cells.s;
    var disk := Close(m);
    KeptDisk(m.lib, m.disk, m.cells.fams, s);
    SurvivingDirectory(s);
    if NextLsn(Surviving(s)) <= NEW_WRITE_BATCH_BIT { RestartReady(s); }
    ghost var top, large;
    r, top, large := Open(m.lib, config, disk, s, Surviving(s));
    if r.Opened? {
      AfterRestart(m.lib, m.disk, r.store.disk, m.cells.table, r.store.cells.table, m.cells.fams, r.store.cells.fams, s,
        r.store.cells.s);
    }
  }

  /** What the store that comes up has of the one that was closed. */
  lemma AfterRestart(lib: Library, disk: map<string, Bytes>, disk': map<string, Bytes>, table: map<nat, nat>,
                     table': map<nat, nat>, fams: map<Lsn, Fam>, fams': map<Lsn, Fam>, s: State, s': State)
    requires s' == Recovered(s, Surviving(s)) && Enabled(s, Action.Restart)
    requires Apply(s, Action.Restart) == Recovered(s, Surviving(s)) && s.writes == map[]
    requires forall name :: name in disk' ==> name in disk && disk'[name] == disk[name]
    requires TableAgrees(table, s.table) && TableAgrees(table', s'.table)
    requires FamsAgree(fams, s) && FamsAgree(fams', s') && Kept(lib, disk, fams, s) && Kept(lib, disk', fams', s')
    requires CrashInv(s) && Inv(s)
    ensures View(s') == View(s) && table' == table && LeftFull(fams, fams') && s'.passes == map[]
    ensures MemoryOf(fams', s') == Reopened(MemoryOf(fams, s))
  {
    hide Inv, CrashInv, Kept, FamsAgree, TableAgrees, Surviving, Enabled, Apply, View, NextLsn, Recovered, LeftFull;
    hide MemoryOf, Reopened;
    IsDurable(s);
    KeptDisk(lib, disk, fams, s);
    X.RestartAgrees(s);
    RecoveredFields(s, Surviving(s));
    SameView(s, s');
    SameWords(s.table, table, table');
    SameCounts(fams, fams', s, s');
    ReopenedMemory(lib, disk, disk', fams, fams', s, s');
  }

  /** A record rebuilt from the directory is the one that was there. */
  lemma SameRecord(lib: Library, disk: map<string, Bytes>, disk': map<string, Bytes>, fam: Fam, fam': Fam, f: File)
    requires KeptFile(lib, disk, fam, f) && KeptFile(lib, disk', fam', f)
    requires forall name :: name in disk' ==> name in disk && disk'[name] == disk[name]
    ensures fam'.file == fam.file && fam'.path == fam.path && fam'.dict == fam.dict
  {
    hide IsImage, ToFileName, Spellable;
    ImageTrailer(lib, fam.file, f, fam.dict);
    ImageTrailer(lib, fam'.file, f, fam'.dict);
  }

  lemma ReopenedRecord(lib: Library, disk: map<string, Bytes>, disk': map<string, Bytes>, fams: map<Lsn, Fam>,
                       fams': map<Lsn, Fam>, s: State, s': State, k: Lsn)
    requires Kept(lib, disk, fams, s) && Kept(lib, disk', fams', s') && FamsAgree(fams, s) && FamsAgree(fams', s')
    requires forall name :: name in disk' ==> name in disk && disk'[name] == disk[name]
    requires LeftFull(fams, fams') && k in fams' && s'.files == Surviving(s) && s'.disk == s'.files
    requires s'.described == s'.files.Keys && s.writes == map[] && Inv(s)
    ensures k in fams && fams'[k] == fams[k].(claim := fams'[k].claim)
  {
    hide IsImage, ToFileName, Spellable, Accounted, Inv;
    assert FamAgrees(fams[k], s, k) && FamAgrees(fams'[k], s', k);
    assert KeptFile(lib, disk, fams[k], s.files[k]) && KeptFile(lib, disk', fams'[k], s'.files[k]);
    assert k in s.described by { DescribedAll(s, k); }
    hide KeptFile;
    SameRecord(lib, disk, disk', fams[k], fams'[k], s.files[k]);
  }

  lemma DescribedAll(s: State, k: Lsn)
    requires Inv(s) && s.writes == map[] && k in s.present
    ensures k in s.described
  {
    hide FilesOk, TableOk, LiveOk, WritesOk, ReplacedOk, UnsettledOk, CopiesOk, KnownOk, ClaimsOk, PassesOk, DebugOk;
    hide DiskOk;
  }

  lemma ReopenedMemory(lib: Library, disk: map<string, Bytes>, disk': map<string, Bytes>, fams: map<Lsn, Fam>,
                       fams': map<Lsn, Fam>, s: State, s': State)
    requires Kept(lib, disk, fams, s) && Kept(lib, disk', fams', s') && FamsAgree(fams, s) && FamsAgree(fams', s')
    requires forall name :: name in disk' ==> name in disk && disk'[name] == disk[name]
    requires LeftFull(fams, fams') && s' == Recovered(s, Surviving(s)) && s.writes == map[] && Inv(s)
    ensures MemoryOf(fams', s') == Reopened(MemoryOf(fams, s))
  {
    hide Inv, Kept, FamsAgree, Surviving, NextLsn, RecoveredTable, Attributed, MonotonicOrder;
    RecoveredFields(s, Surviving(s));
    forall k | k in fams' ensures k in fams && fams'[k] == fams[k].(claim := fams'[k].claim) {
      ReopenedRecord(lib, disk, disk', fams, fams', s, s', k);
    }
    var a := MemoryOf(fams, s);
    assert Surviving(a.s) == Surviving(s) by { SameSurvivors(s, a.s); }
    assert MemoryOf(fams', s').fams == a.fams - EmptyFiles(a.fams);
  }

  lemma SameSurvivors(s: State, s': State)
    requires s'.disk == s.disk && s'.live == s.live
    ensures Surviving(s') == Surviving(s)
  {
  }

  /** The second map holds the files of the first that were not empty, with the same counts. */
  ghost predicate LeftFull(fams: map<Lsn, Fam>, fams': map<Lsn, Fam>) {
    && (forall k :: k in fams' <==> k in fams && fams[k].live != 0)
    && (forall k :: k in fams' && k in fams ==> fams'[k].live == fams[k].live)
  }

  lemma KeptDisk(lib: Library, disk: map<string, Bytes>, fams: map<Lsn, Fam>, s: State)
    requires Kept(lib, disk, fams, s)
    ensures s.disk.Keys == fams.Keys && forall k :: k in s.disk ==> k in s.files && s.disk[k] == s.files[k]
  {
    hide KeptFile, Accounted;
  }

  lemma SameView(s: State, s': State)
    requires s'.table == s.table && s'.files == Surviving(s)
    requires (forall o :: o in s.table ==> s.table[o].file in s'.files)
    requires forall k :: k in s.disk ==> k in s.files && s.disk[k] == s.files[k]
    ensures View(s') == View(s)
  {
  }

  lemma SameCounts(fams: map<Lsn, Fam>, fams': map<Lsn, Fam>, s: State, s': State)
    requires FamsAgree(fams, s) && FamsAgree(fams', s') && s.disk.Keys == fams.Keys && s'.files == Surviving(s)
    requires s'.present == s'.files.Keys
    requires forall k :: k in s'.files ==> k in s.live && k in s'.live && s'.live[k] == s.live[k]
    ensures LeftFull(fams, fams')
  {
    forall k | k in fams ensures k in s.live && fams[k].live == s.live[k] { assert FamAgrees(fams[k], s, k); }
    forall k | k in fams' ensures k in s'.live && fams'[k].live == s'.live[k] { assert FamAgrees(fams'[k], s', k); }
    hide FamAgrees;
  }

  lemma RestartEnabled(s: State)
    requires s.writes == map[] && s.passes == map[] && NextLsn(Surviving(s)) <= NEW_WRITE_BATCH_BIT
    ensures Enabled(s, Action.Restart) && Apply(s, Action.Restart) == Recovered(s, Surviving(s))
  {
    hide NextLsn, Surviving, Recovered;
  }

  lemma SurvivingDirectory(s: State)
    requires Inv(s) && forall k :: k in s.disk ==> k in s.files && s.disk[k] == s.files[k]
    ensures R.DirectoryOk(Surviving(s)) && !s.panicked && FilesOk(Surviving(s), s.nextLsn)
  {
    hide Inv, R.DirectoryOk, File.WellFormed, File.Key;
    E.Unpanicked(s);
    DirectoryIsOk(s, Surviving(s));
    C.FilesAreOk(s);
  }

  lemma RestartReady(s: State)
    requires s.writes == map[] && s.passes == map[] && NextLsn(Surviving(s)) <= NEW_WRITE_BATCH_BIT && Inv(s)
    requires CrashInv(s)
    ensures Enabled(s, Action.Restart)
    ensures Apply(s, Action.Restart) == Recovered(s, Surviving(s)) && Sound(Recovered(s, Surviving(s)))
  {
    hide Inv, CrashInv, R.DirectoryOk;
    RestartEnabled(s);
    hide Enabled, Apply, Surviving, NextLsn;
    NobodyExclusive(s);
    RecoveredFields(s, Surviving(s));
    hide Recovered;
    NobodyExclusive(Recovered(s, Surviving(s)));
    SoundStep(s, Action.Restart);
  }
}
