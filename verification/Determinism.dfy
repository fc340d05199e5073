/** How far operations determine memory. Objects are laid out in a file in the unspecified order of a map, and
    a pass takes generations, files and objects in such orders; everything else is determined. */
module Determinism {
  import opened Basics
  import opened DiskLocations
  import opened Protocol
  import opened Invariant
  import opened CrashRefinement
  import opened Cells
  import opened Selection
  import opened Sequential
  import opened Images
  import opened Ledger
  import R = Reopening

  /** Two files that differ only in the offsets of their objects. */
  predicate SameShape(f: File, g: File) { f.locs.Keys == g.locs.Keys && g == f.(locs := g.locs) }

  predicate AlikeFiles(f: map<Lsn, File>, g: map<Lsn, File>) {
    f.Keys == g.Keys && forall k :: k in f ==> SameShape(f[k], g[k])
  }

  predicate AlikeTables(t: map<ObjectId, Loc>, u: map<ObjectId, Loc>) {
    t.Keys == u.Keys && forall o :: o in t ==> t[o].file == u[o].file
  }

  predicate AlikeCounts(l: map<Lsn, int>, m: map<Lsn, int>, ks: set<Lsn>) {
    forall k :: k in ks ==> k in l && k in m && l[k] == m[k]
  }

  predicate SameLive(f: map<Lsn, Fam>, g: map<Lsn, Fam>) {
    f.Keys == g.Keys && forall k :: k in f ==> f[k].live == g[k].live
  }

  predicate AlikeFams(f: map<Lsn, Fam>, g: map<Lsn, Fam>) {
    SameLive(f, g) && forall k :: k in f ==> f[k].generation == g[k].generation && f[k].metadata == g[k].metadata
  }

  /** Two memories that differ only in the order of records within files. */
  predicate Alike(a: Memory, b: Memory) {
    && a.s.nextLsn == b.s.nextLsn && AlikeTables(a.s.table, b.s.table)
    && AlikeFiles(a.s.files, b.s.files) && AlikeFiles(a.s.disk, b.s.disk) && a.s.disk.Keys <= a.s.files.Keys
    && AlikeCounts(a.s.live, b.s.live, a.s.files.Keys) && AlikeFams(a.fams, b.fams)
  }

  lemma AlikeViews(a: Memory, b: Memory)
    requires Alike(a, b)
    ensures View(a.s) == View(b.s)
  {
    hide AlikeCounts, AlikeFams;
  }

  // ---------------------------------------------------------------- writing

  lemma FilesAlike(lib: Library, config: Config, f: File, g: File, objects: Batch, generation: nat, base: nat)
    requires NewFor(f, objects, generation, base) && Shaped(lib, config, f, objects)
    requires NewFor(g, objects, generation, base) && Shaped(lib, config, g, objects)
    ensures SameShape(f, g) && f.Key() == g.Key()
  {
    hide Needs, DictFor;
    assert |f.locs| == |f.locs.Keys| && |g.locs| == |g.locs.Keys|;
  }

  lemma ExtendedAlike(s: State, s': State, t: State, t': State, f: File, g: File)
    requires AlikeTables(s.table, t.table) && AlikeFiles(s.files, t.files) && AlikeFiles(s.disk, t.disk)
    requires s.disk.Keys <= s.files.Keys && s.nextLsn == t.nextLsn
    requires Extended(s, s', f) && Extended(t, t', g) && SameShape(f, g) && f.Key() == g.Key()
    ensures AlikeTables(s'.table, t'.table) && AlikeFiles(s'.files, t'.files) && AlikeFiles(s'.disk, t'.disk)
    ensures s'.disk.Keys <= s'.files.Keys && s'.nextLsn == t'.nextLsn
  {
    hide File.Key, SameShape;
    var k := f.Key();
    assert AlikeTables(s'.table, t'.table) by {
      hide AlikeFiles;
      assert f.locs.Keys == g.locs.Keys by { ShapeKeys(f, g); }
      OverlayAlike(s.table, t.table, k, f.locs, g.locs);
    }
    hide AlikeTables, Overlay;
    AlikeAdd(s.files, t.files, k, f, g);
    AlikeAdd(s.disk, t.disk, k, f, g);
    assert f.len == g.len by { ShapeKeys(f, g); }
  }

  lemma ShapeKeys(f: File, g: File)
    requires SameShape(f, g)
    ensures f.locs.Keys == g.locs.Keys && f.len == g.len
  {
  }

  lemma AlikeAdd(f: map<Lsn, File>, g: map<Lsn, File>, k: Lsn, x: File, y: File)
    requires AlikeFiles(f, g) && SameShape(x, y)
    ensures AlikeFiles(f[k := x], g[k := y])
  {
    hide SameShape;
  }

  lemma OverlayAlike(t: map<ObjectId, Loc>, u: map<ObjectId, Loc>, k: Lsn, locs: map<ObjectId, Relative>,
                     locs': map<ObjectId, Relative>)
    requires AlikeTables(t, u) && locs.Keys == locs'.Keys
    ensures AlikeTables(Overlay(t, k, locs, locs.Keys), Overlay(u, k, locs', locs'.Keys))
  {
  }

  lemma CountsAlike(a: Memory, b: Memory)
    requires Counts(a) && Counts(b) && AlikeTables(a.s.table, b.s.table) && AlikeFiles(a.s.files, b.s.files)
    requires a.fams.Keys == b.fams.Keys
    ensures AlikeCounts(a.s.live, b.s.live, a.s.files.Keys) && SameLive(a.fams, b.fams)
  {
    hide SameShape;
    forall k ensures LiveIn(a.s, {k}) == LiveIn(b.s, {k}) {
    }
    hide LiveIn;
  }

  /** Writing the same objects leaves memories alike. */
  lemma FiledAlike(lib: Library, config: Config, a: Memory, a': Memory, b: Memory, b': Memory, objects: Batch,
                   generation: nat)
    requires Alike(a, b) && Filed(lib, config, a, a', objects, generation)
    requires Filed(lib, config, b, b', objects, generation)
    ensures Alike(a', b')
  {
    hide Refused, Room, File.WellFormed, RecordOf, Overlay, SameShape, AlikeFiles, AlikeTables, Counts, Shaped, NewFor;
    hide AlikeCounts, DictFor, Extended;
    var f :| FiledAs(lib, config, a, a', f, objects, generation);
    var g :| FiledAs(lib, config, b, b', g, objects, generation);
    FilesAlike(lib, config, f, g, objects, generation, a.s.nextLsn);
    ExtendedAlike(a.s, a'.s, b.s, b'.s, f, g);
    assert a'.fams.Keys == b'.fams.Keys;
    CountsAlike(a', b');
    assert AlikeFams(a'.fams, b'.fams) by {
      AddedAlike(lib, a.fams, a'.fams, b.fams, b'.fams, f, g, DictFor(lib, config, objects));
    }
  }

  lemma AddedAlike(lib: Library, f: map<Lsn, Fam>, f': map<Lsn, Fam>, g: map<Lsn, Fam>, g': map<Lsn, Fam>, x: File,
                   y: File, dict: Bytes)
    requires AlikeFams(f, g) && FamsAdd(f, f', x.Key(), dict) && FamsAdd(g, g', y.Key(), dict) && SameLive(f', g')
    requires SameShape(x, y) && x.Key() == y.Key()
    requires RecordOf(lib, f'[x.Key()], x, dict) && RecordOf(lib, g'[y.Key()], y, dict)
    ensures AlikeFams(f', g')
  {
    hide File.Key, IsImage;
    forall k | k in f' ensures f'[k].generation == g'[k].generation && f'[k].metadata == g'[k].metadata {
      if k != x.Key() { assert k in f && k in g; }
    }
  }

  lemma UnfiledAlike(lib: Library, config: Config, a: Memory, a': Memory, b: Memory, b': Memory, objects: Batch,
                     ioOk: bool)
    requires Alike(a, b) && Unfiled(lib, config, a, a', objects, ioOk) && Unfiled(lib, config, b, b', objects, ioOk)
    ensures Alike(a', b')
  {
    hide Refused, Needs, AlikeFiles, AlikeTables, AlikeCounts, AlikeFams;
  }

  // ---------------------------------------------------------------- passes

  lemma {:induction false} GroupsAlike(lib: Library, config: Config, part: Part, row: nat -> bool, n: nat, a: Memory,
                                       a': Memory, b: Memory, b': Memory)
    requires n <= |part.groups| && Alike(a, b)
    requires WroteGroups(lib, config, part, row, n, a, a') && WroteGroups(lib, config, part, row, n, b, b')
    ensures Alike(a', b')
    decreases n
  {
    hide Alike, Filed;
    if n > 0 {
      var i := n - 1;
      var x :| WroteGroups(lib, config, part, row, i, a, x)
        && row(i) && Filed(lib, config, x, a', part.groups[i], part.generation);
      var y :| WroteGroups(lib, config, part, row, i, b, y)
        && row(i) && Filed(lib, config, y, b', part.groups[i], part.generation);
      GroupsAlike(lib, config, part, row, i, a, x, b, y);
      FiledAlike(lib, config, x, a', y, b', part.groups[i], part.generation);
    }
  }

  lemma {:induction false} SweptAlike(lib: Library, config: Config, io: (nat, nat) -> bool, parts: seq<Part>, a: Memory,
                                      a': Memory, b: Memory, b': Memory)
    requires Alike(a, b) && Swept(lib, config, io, parts, a, a') && Swept(lib, config, io, parts, b, b')
    ensures Alike(a', b')
    decreases |parts|
  {
    hide Alike, WroteGroups;
    if parts != [] {
      var n := |parts| - 1;
      var row := Row(io, parts[n].generation);
      var x :| Swept(lib, config, io, parts[..n], a, x)
        && WroteGroups(lib, config, parts[n], row, |parts[n].groups|, x, a');
      var y :| Swept(lib, config, io, parts[..n], b, y)
        && WroteGroups(lib, config, parts[n], row, |parts[n].groups|, y, b');
      SweptAlike(lib, config, io, parts[..n], a, x, b, y);
      GroupsAlike(lib, config, parts[n], row, |parts[n].groups|, x, a', y, b');
    }
  }

  lemma StuckAlike(lib: Library, config: Config, part: Part, row: nat -> bool, n: nat, a: Memory, a': Memory, b: Memory,
                   b': Memory)
    requires Alike(a, b) && StuckAt(lib, config, part, row, n, a, a') && StuckAt(lib, config, part, row, n, b, b')
    ensures Alike(a', b')
  {
    hide Alike, WroteGroups, Unfiled;
    var x :| WroteGroups(lib, config, part, row, n, a, x) && Unfiled(lib, config, x, a', part.groups[n], row(n));
    var y :| WroteGroups(lib, config, part, row, n, b, y) && Unfiled(lib, config, y, b', part.groups[n], row(n));
    GroupsAlike(lib, config, part, row, n, a, x, b, y);
    UnfiledAlike(lib, config, x, a', y, b', part.groups[n], row(n));
  }

  lemma WorksAlike(lib: Library, config: Config, io: (nat, nat) -> bool, log: Log, a: Memory, a': Memory, b: Memory,
                   b': Memory)
    requires Alike(a, b) && Works(lib, config, io, log, a, a') && Works(lib, config, io, log, b, b')
    ensures Alike(a', b')
  {
    hide Alike, Swept, StuckAt, Plans, Planned, Enough, Members, Unreadable, Includes;
    if log.halt.Stuck? {
      var part, n := log.halt.part, log.halt.n;
      var row := Row(io, part.generation);
      var x :| Swept(lib, config, io, log.parts, a, x) && StuckAt(lib, config, part, row, n, x, a');
      var y :| Swept(lib, config, io, log.parts, b, y) && StuckAt(lib, config, part, row, n, y, b');
      SweptAlike(lib, config, io, log.parts, a, x, b, y);
      StuckAlike(lib, config, part, row, n, x, a', y, b');
    } else {
      SweptAlike(lib, config, io, log.parts, a, a', b, b');
    }
  }

  lemma PrunedAlike(a: Memory, b: Memory)
    requires Alike(a, b)
    ensures Alike(Pruned(a), Pruned(b))
  {
    hide SameShape, AlikeTables, AlikeCounts;
    assert EmptyFiles(a.fams) == EmptyFiles(b.fams);
  }

  /** A pass with the same log leaves memories alike. */
  lemma PassAlike(lib: Library, config: Config, io: (nat, nat) -> bool, log: Log, a: Memory, a': Memory, b: Memory,
                  b': Memory)
    requires Alike(a, b) && Tidies(lib, config, io, log, a, a') && Tidies(lib, config, io, log, b, b')
    ensures Alike(a', b')
  {
    hide Alike, Works, Pruned;
    var x :| Works(lib, config, io, log, a, x) && a' == if log.halt.Complete? then Pruned(x) else x;
    var y :| Works(lib, config, io, log, b, y) && b' == if log.halt.Complete? then Pruned(y) else y;
    WorksAlike(lib, config, io, log, a, x, b, y);
    PrunedAlike(x, y);
  }

  // ---------------------------------------------------------------- reopening

  lemma SurvivorsAlike(a: Memory, b: Memory)
    requires Alike(a, b)
    ensures AlikeFiles(Surviving(a.s), Surviving(b.s))
  {
    hide SameShape, AlikeTables, AlikeFams;
  }

  lemma NextAlike(f: map<Lsn, File>, g: map<Lsn, File>)
    requires AlikeFiles(f, g)
    ensures NextLsn(f) == NextLsn(g)
  {
    forall k | k in f ensures k in g && f[k].base == g[k].base && f[k].size == g[k].size {
      assert SameShape(f[k], g[k]);
    }
    hide AlikeFiles;
    assert f.Keys == g.Keys;
    assert Bases(f) == Bases(g) && Sizes(f) == Sizes(g);
  }

  lemma LatestAlike(f: map<Lsn, File>, g: map<Lsn, File>, o: ObjectId, k: Lsn)
    requires AlikeFiles(f, g) && IsLatest(f, o, k)
    ensures IsLatest(g, o, k)
  {
    assert SameShape(f[k], g[k]);
    forall j | j in g && o in g[j].locs ensures g[j].base <= g[k].base {
      assert SameShape(f[j], g[j]);
    }
  }

  lemma TablesAlike(f: map<Lsn, File>, g: map<Lsn, File>)
    requires AlikeFiles(f, g) && AlikeFiles(g, f) && R.DirectoryOk(g)
    ensures AlikeTables(RecoveredTable(f), RecoveredTable(g))
  {
    hide RecoveredTable, R.DirectoryOk, IsLatest, Objects;
    var t, u := RecoveredTable(f), RecoveredTable(g);
    forall o ensures (o in t <==> o in u) && (o in t ==> t[o].file == u[o].file) {
      R.RecoveredEntry(f, o);
      R.RecoveredEntry(g, o);
      ObjectsAlike(f, g);
      if o in t {
        LatestAlike(f, g, o, t[o].file);
        R.LatestUnique(g, o, t[o].file, u[o].file);
      }
    }
  }

  lemma ObjectsAlike(f: map<Lsn, File>, g: map<Lsn, File>)
    requires AlikeFiles(f, g)
    ensures Objects(f) == Objects(g)
  {
    forall o ensures o in Objects(f) <==> o in Objects(g) {
      if k :| k in f && o in f[k].locs { assert SameShape(f[k], g[k]) && o in g[k].locs; }
      if k :| k in g && o in g[k].locs { assert SameShape(f[k], g[k]) && o in f[k].locs; }
    }
  }

  lemma AlikeBack(f: map<Lsn, File>, g: map<Lsn, File>)
    requires AlikeFiles(f, g)
    ensures AlikeFiles(g, f)
  {
  }

  lemma GoodDirectory(m: Memory)
    requires Good(m)
    ensures R.DirectoryOk(Surviving(m.s))
  {
    hide Inv, FamsAgree, R.DirectoryOk;
    DirectoryIsOk(Quiet(m), Surviving(m.s));
  }

  lemma ReopenedFields(m: Memory)
    ensures var m' := Reopened(m); var files := Surviving(m.s);
      && m'.s.table == RecoveredTable(files) && m'.s.files == files && m'.s.disk == files
      && m'.s.nextLsn == NextLsn(files) && m'.fams == m.fams - EmptyFiles(m.fams)
  {
    hide RecoveredTable, Attributed, MonotonicOrder, NextLsn, IsPredecessor, Surviving;
  }

  lemma FullAlike(f: map<Lsn, Fam>, g: map<Lsn, Fam>)
    requires AlikeFams(f, g)
    ensures AlikeFams(f - EmptyFiles(f), g - EmptyFiles(g))
  {
    assert EmptyFiles(f) == EmptyFiles(g);
  }

  lemma CompactedAlike(config: Config, f: map<Lsn, Fam>, g: map<Lsn, Fam>)
    requires AlikeFams(f, g)
    ensures Compacted(config, f) == Compacted(config, g)
  {
    assert |f| == |f.Keys| == |g.Keys| == |g|;
    forall k | k in f
      ensures Candidate(config, |f|, f[k]) <==> Candidate(config, |g|, g[k])
      ensures NextGeneration(f[k]) == NextGeneration(g[k])
    {
    }
    hide Candidate, NextGeneration;
    forall n ensures Members(config, f, n) == Members(config, g, n) {
    }
    hide Members;
  }

  lemma FamsKeysAlike(f: map<Lsn, Fam>, g: map<Lsn, Fam>)
    requires AlikeFams(f, g)
    ensures f.Keys == g.Keys
  {
  }

  /** So does reopening. */
  lemma ReopenedAlike(a: Memory, b: Memory)
    requires Alike(a, b) && Good(b) && Counts(Reopened(a)) && Counts(Reopened(b))
    ensures Alike(Reopened(a), Reopened(b)) && NextLsn(Surviving(a.s)) == NextLsn(Surviving(b.s))
  {
    hide Good, R.DirectoryOk, Surviving, NextLsn, RecoveredTable, SameShape, Counts, AlikeTables, AlikeCounts;
    hide Recovered;
    hide AlikeFams, Reopened, AlikeFiles;
    SurvivorsAlike(a, b);
    AlikeBack(Surviving(a.s), Surviving(b.s));
    GoodDirectory(b);
    NextAlike(Surviving(a.s), Surviving(b.s));
    TablesAlike(Surviving(a.s), Surviving(b.s));
    FullAlike(a.fams, b.fams);
    ReopenedFields(a);
    ReopenedFields(b);
    assert Reopened(a).fams.Keys == Reopened(b).fams.Keys by { FamsKeysAlike(Reopened(a).fams, Reopened(b).fams); }
    CountsAlike(Reopened(a), Reopened(b));
  }
}
