/** Opening a store: the directory is listed, trailers are read in masked order, and the table, the
    file map, the live counts and the next sequence number are rebuilt from them. */
module Recovery {
  import opened Basics
  import opened DiskLocations
  import opened Protocol
  import opened Invariant
  import opened FileNames
  import opened Cells
  import opened Images
  import opened Sequential
  import T = Trailers
  import R = Reopening
  import E = Effects

  /** The table that the files `ks` amount to: every object some of them mentions, at the entry of the
      latest that does. */
  ghost predicate Latest(files: map<Lsn, File>, ks: set<Lsn>, t: map<ObjectId, Loc>) {
    && (forall o :: o in t ==> LatestEntry(files, ks, o, t[o]))
    && (forall k, o :: k in ks && k in files && o in files[k].locs ==> o in t)
  }

  ghost predicate LatestEntry(files: map<Lsn, File>, ks: set<Lsn>, o: ObjectId, l: Loc) {
    && l.file in ks && l.file in files && o in files[l.file].locs && files[l.file].locs[o] == l.rel
    && forall j :: j in ks && j in files && o in files[j].locs ==> files[j].base <= files[l.file].base
  }

  /** File `k` comes after all of `ks`. */
  ghost predicate After(files: map<Lsn, File>, ks: set<Lsn>, k: Lsn) {
    && k in files && k !in ks && ks <= files.Keys
    && forall j :: j in ks && j in files ==> files[j].base + files[j].len < files[k].base
  }

  lemma NextFile(files: map<Lsn, File>, ks: set<Lsn>, t: map<ObjectId, Loc>, k: Lsn)
    requires Latest(files, ks, t) && After(files, ks, k)
    ensures Latest(files, ks + {k}, Overlay(t, k, files[k].locs, files[k].locs.Keys))
  {
    var t' := Overlay(t, k, files[k].locs, files[k].locs.Keys);
    forall o | o in t' ensures LatestEntry(files, ks + {k}, o, t'[o]) {
      if o !in files[k].locs { assert LatestEntry(files, ks, o, t[o]); }
    }
  }

  /** Applied in masked order, the trailers give the table that recovery is to give. */
  lemma LatestIsRecovered(files: map<Lsn, File>, t: map<ObjectId, Loc>)
    requires Latest(files, files.Keys, t) && R.DirectoryOk(files)
    ensures t == RecoveredTable(files)
  {
    hide R.DirectoryOk, RecoveredTable;
    forall o ensures (o in t <==> o in RecoveredTable(files)) && (o in t ==> t[o] == RecoveredTable(files)[o]) {
      R.RecoveredEntry(files, o);
      if o in t {
        assert LatestEntry(files, files.Keys, o, t[o]);
        assert IsLatest(files, o, t[o].file);
        assert o in Objects(files);
        R.LatestUnique(files, o, t[o].file, RecoveredTable(files)[o].file);
      }
    }
  }

  lemma MaxOfMore(xs: set<nat>, x: nat)
    ensures MaxOf(xs + {x}) == if MaxOf(xs) < x then x else MaxOf(xs)
  {
    var m := MaxOf(xs + {x});
    assert x in xs + {x} && m in xs + {x};
    assert forall y :: y in xs ==> y in xs + {x};
  }

  // ---------------------------------------------------------------- one trailer

  /** Inserts the entries of one trailer. The source asserts that a location replaces only one that is
      lower in masked order. */
  method ApplyTrailer(words: map<nat, nat>, lsn: nat, entries: seq<T.Entry>, ghost files: map<Lsn, File>,
                      ghost ks: set<Lsn>,
                      ghost t: map<ObjectId, Loc>, ghost limit: nat)
    returns (words': map<nat, nat>)
    requires lsn in files && Latest(files, ks, t) && After(files, ks, lsn) && TableAgrees(words, t)
    requires T.Lists(entries, files[lsn].locs)
    requires FilesOk(files, limit)
    ensures TableAgrees(words', Overlay(t, lsn, files[lsn].locs, files[lsn].locs.Keys))
  {
    hide FilesOk, Latest, After, TableAgrees, Overlay, Raw, Masked, Unshift, ToAbsolute, NextLsn;
    ghost var locs := files[lsn].locs;
    ghost var done: set<ObjectId> := {};
    words' := words;
    NothingOver(t, lsn, locs);
    for i := 0 to |entries|
      invariant done <= locs.Keys && TableAgrees(words', Overlay(t, lsn, locs, done))
      invariant forall o :: o in done <==> exists j :: 0 <= j < i && entries[j].id == o
    {
      var e := entries[i];
      assert e.id in locs && locs[e.id] == e.rel && e.id !in done;
      WordFits(files, ks, t, lsn, e.id, done, words', limit);
      var word := ToAbsolute(e.rel, lsn);
      if e.id in words' {
        assert Masked(Unshift(words'[e.id]).0) < Masked(Unshift(word).0);
      }
      OverNext(t, lsn, locs, done, e.id, words', word);
      words' := words'[e.id := word];
      done := done + {e.id};
    }
    assert done == locs.Keys;
  }

  lemma NothingOver(t: map<ObjectId, Loc>, k: Lsn, locs: map<ObjectId, Relative>)
    ensures Overlay(t, k, locs, {}) == t
  {
  }

  lemma OverNext(t: map<ObjectId, Loc>, k: Lsn, locs: map<ObjectId, Relative>, done: set<ObjectId>, o: ObjectId,
                 words: map<nat, nat>, word: nat)
    requires done <= locs.Keys && o in locs && TableAgrees(words, Overlay(t, k, locs, done))
    requires word == Raw(Loc(k, locs[o]))
    ensures TableAgrees(words[o := word], Overlay(t, k, locs, done + {o}))
  {
    hide Raw;
  }

  /** The word is the entry's, and lies above the one it replaces in masked order. */
  lemma WordFits(files: map<Lsn, File>, ks: set<Lsn>, t: map<ObjectId, Loc>, k: Lsn, o: ObjectId, done: set<ObjectId>,
                 words: map<nat, nat>, limit: nat)
    requires k in files && Latest(files, ks, t) && After(files, ks, k) && FilesOk(files, limit) && o in files[k].locs
    requires o !in done
    requires done <= files[k].locs.Keys && TableAgrees(words, Overlay(t, k, files[k].locs, done))
    ensures var rel := files[k].locs[o];
      && k + rel.offset < U63 && ToAbsolute(rel, k) == Raw(Loc(k, rel))
      && (o in words ==> Masked(Unshift(words[o]).0) < Masked(Unshift(ToAbsolute(rel, k)).0))
  {
    hide FilesOk, File.WellFormed, File.Key, Raw, Masked, Latest, After, NextLsn, ToAbsolute, Unshift;
    FileFacts(files, k, limit);
    E.EntryWord(files[k], o);
    if o in words {
      assert words[o] == Raw(t[o]);
      Earlier(files, ks, t, k, o);
      FileFacts(files, t[o].file, limit);
      E.EntryWord(files[t[o].file], o);
    }
  }

  lemma FileFacts(files: map<Lsn, File>, k: Lsn, limit: nat)
    requires FilesOk(files, limit) && k in files
    ensures files[k].WellFormed() && files[k].Key() == k && files[k].base + files[k].len < NEW_WRITE_BATCH_BIT
  {
    hide File.WellFormed, File.Key;
  }

  lemma Earlier(files: map<Lsn, File>, ks: set<Lsn>, t: map<ObjectId, Loc>, k: Lsn, o: ObjectId)
    requires Latest(files, ks, t) && After(files, ks, k) && o in t
    ensures var l := t[o];
      && l.file in files && o in files[l.file].locs && l == Loc(l.file, files[l.file].locs[o])
      && files[l.file].base + files[l.file].len < files[k].base
  {
    assert LatestEntry(files, ks, o, t[o]);
  }

  // ---------------------------------------------------------------- the directory

  function NameOf(f: File): string { ToFileName(MetadataOf(f)) }

  ghost predicate ListedFile(lib: Library, disk: map<string, Bytes>, f: File) {
    && Spellable(MetadataOf(f)) && NameOf(f) in disk && |disk[NameOf(f)]| == f.size
    && exists dict :: IsImage(lib, disk[NameOf(f)], f, dict)
  }

  /** The directory holds these files under their names; everything else in it is temporary or the
      legend. */
  ghost predicate Directory(lib: Library, disk: map<string, Bytes>, files: map<Lsn, File>) {
    && (forall k :: k in files ==> files[k].Key() == k && ListedFile(lib, disk, files[k]))
    && (forall name :: name in disk ==>
         IsTemporary(name) || name == LEGEND || exists k :: k in files && name == NameOf(files[k]))
  }

  /** The directory's entries, in the unspecified order of a directory. */
  method ListDirectory(disk: map<string, Bytes>) returns (entries: seq<DirEntry>)
    ensures EntriesOf(entries, disk)
  {
    entries := [];
    var rest := disk.Keys;
    while rest != {}
      invariant rest <= disk.Keys
      invariant forall e :: e in entries ==> e.name in disk && e.name !in rest && e.size == |disk[e.name]|
      invariant forall name :: name in disk && name !in rest ==> DirEntry(name, |disk[name]|) in entries
      invariant forall i, j :: 0 <= i < j < |entries| ==> entries[i] != entries[j]
      decreases rest
    {
      var name :| name in rest;
      entries := entries + [DirEntry(name, |disk[name]|)];
      rest := rest - {name};
    }
  }

  lemma {:induction false} OpenedFrom(entries: seq<DirEntry>, x: Listed)
    requires x in Opened(entries)
    ensures x.entry in entries && !IsTemporary(x.entry.name)
    ensures ParseName(x.entry.name, x.entry.size) == Some(x.metadata)
  {
    hide ParseName, IsTemporary;
    var n := |entries| - 1;
    if x in Opened(entries[..n]) { OpenedFrom(entries[..n], x); }
  }

  lemma {:induction false} OpenedOnce(entries: seq<DirEntry>, x: Listed)
    requires forall i, j :: 0 <= i < j < |entries| ==> entries[i] != entries[j]
    ensures multiset(Opened(entries))[x] <= 1
  {
    hide ParseName, IsTemporary;
    if entries != [] {
      var n := |entries| - 1;
      var front := entries[..n];
      OpenedOnce(front, x);
      OpenedLast(entries);
      hide Opened;
      if x in Opened(front) {
        OpenedFrom(front, x);
        assert x.entry != entries[n];
      }
    }
  }

  /** The last entry adds at most one file to the listing. */
  lemma OpenedLast(entries: seq<DirEntry>)
    requires entries != []
    ensures var n := |entries| - 1;
      || multiset(Opened(entries)) == multiset(Opened(entries[..n]))
      || exists m :: multiset(Opened(entries)) == multiset(Opened(entries[..n])) + multiset{Listed(m, entries[n])}
  {
    hide IsTemporary, ParseName;
    var n := |entries| - 1;
    var m := ParseName(entries[n].name, entries[n].size);
    if !IsTemporary(entries[n].name) && m.Some? {
      assert multiset(Opened(entries)) == multiset(Opened(entries[..n])) + multiset{Listed(m.value, entries[n])};
    } else {
      assert Opened(entries) == Opened(entries[..n]);
    }
  }

  lemma NoRepeat<X>(xs: seq<X>, i: nat, j: nat)
    requires i < j < |xs| && multiset(xs)[xs[i]] <= 1
    ensures xs[i] != xs[j]
  {
    assert xs == xs[..j] + xs[j..];
    assert xs[i] in xs[..j];
    assert xs[j] in xs[j..];
  }

  /** A listed file is one of the files, under its own key and name. */
  lemma ListedIs(lib: Library, disk: map<string, Bytes>, files: map<Lsn, File>, entries: seq<DirEntry>, x: Listed)
    requires Directory(lib, disk, files) && x in Opened(entries)
    requires forall e :: e in entries ==> e.name in disk && e.size == |disk[e.name]|
    ensures var k := x.metadata.lsn;
      k in files && x.metadata == MetadataOf(files[k]) && x.entry.name == NameOf(files[k])
  {
    hide ParseName, IsTemporary, ToFileName, Spellable, IsImage, File.Key;
    OpenedFrom(entries, x);
    LegendSkipped(x.entry.size);
    var k :| k in files && x.entry.name == NameOf(files[k]);
    assert ListedFile(lib, disk, files[k]);
    NameRoundTrip(MetadataOf(files[k]));
  }

  lemma FileIsListed(lib: Library, disk: map<string, Bytes>, files: map<Lsn, File>, entries: seq<DirEntry>, k: Lsn)
    requires Directory(lib, disk, files) && k in files
    requires forall name :: name in disk ==> DirEntry(name, |disk[name]|) in entries
    ensures Listed(MetadataOf(files[k]), DirEntry(NameOf(files[k]), files[k].size)) in Opened(entries)
  {
    hide ParseName, IsTemporary, ToFileName, Spellable, IsImage, File.Key, Opened;
    assert ListedFile(lib, disk, files[k]);
    OpensExactly(entries, MetadataOf(files[k]));
  }

  /** The order in which recovery reads the files: each once, all of them, lowest base first. */
  ghost predicate InOrder(files: map<Lsn, File>, listed: seq<Listed>) {
    && (forall i :: 0 <= i < |listed| ==> Matches(files, listed[i]))
    && (forall k :: k in files ==> exists i :: 0 <= i < |listed| && listed[i].metadata.lsn == k)
    && (forall i, j :: 0 <= i < j < |listed| ==> listed[i].metadata.lsn != listed[j].metadata.lsn)
    && Sorted(listed)
  }

  ghost predicate Matches(files: map<Lsn, File>, x: Listed) {
    var k := x.metadata.lsn;
    k in files && x.metadata == MetadataOf(files[k]) && x.entry.name == NameOf(files[k])
  }

  /** Every name of the directory, once. */
  ghost predicate EntriesOf(entries: seq<DirEntry>, disk: map<string, Bytes>) {
    && (forall e :: e in entries ==> e.name in disk && e.size == |disk[e.name]|)
    && (forall name :: name in disk ==> DirEntry(name, |disk[name]|) in entries)
    && (forall i, j :: 0 <= i < j < |entries| ==> entries[i] != entries[j])
  }

  lemma OrderIs(lib: Library, disk: map<string, Bytes>, files: map<Lsn, File>, entries: seq<DirEntry>,
                listed: seq<Listed>)
    requires Directory(lib, disk, files) && Sorted(listed) && multiset(listed) == multiset(Opened(entries))
    requires EntriesOf(entries, disk)
    ensures InOrder(files, listed)
  {
    hide Directory, Sorted, Opened, EntriesOf, Matches;
    forall i | 0 <= i < |listed| ensures Matches(files, listed[i]) {
      MatchesAt(lib, disk, files, entries, listed, i);
    }
    forall k | k in files ensures exists i :: 0 <= i < |listed| && listed[i].metadata.lsn == k {
      var i := FoundAt(lib, disk, files, entries, listed, k);
    }
    forall i, j | 0 <= i < j < |listed| ensures listed[i].metadata.lsn != listed[j].metadata.lsn {
      ApartAt(lib, disk, files, entries, listed, i, j);
    }
  }

  lemma MatchesAt(lib: Library, disk: map<string, Bytes>, files: map<Lsn, File>, entries: seq<DirEntry>,
                  listed: seq<Listed>, i: nat)
    requires Directory(lib, disk, files) && multiset(listed) == multiset(Opened(entries)) && EntriesOf(entries, disk)
    requires i < |listed|
    ensures Matches(files, listed[i]) && listed[i].entry in entries
  {
    hide Directory, Opened, ToFileName, ParseName, IsTemporary, MetadataOf;
    assert listed[i] in multiset(listed);
    ListedIs(lib, disk, files, entries, listed[i]);
    OpenedFrom(entries, listed[i]);
  }

  lemma FoundAt(lib: Library, disk: map<string, Bytes>, files: map<Lsn, File>, entries: seq<DirEntry>,
                listed: seq<Listed>, k: Lsn) returns (i: nat)
    requires Directory(lib, disk, files) && multiset(listed) == multiset(Opened(entries)) && EntriesOf(entries, disk)
    requires k in files
    ensures i < |listed| && listed[i].metadata.lsn == k
  {
    hide Directory, Opened, ToFileName, ListedFile;
    FileIsListed(lib, disk, files, entries, k);
    KeyIs(lib, disk, files, k);
    var x := Listed(MetadataOf(files[k]), DirEntry(NameOf(files[k]), files[k].size));
    assert x in multiset(listed);
    i :| 0 <= i < |listed| && listed[i] == x;
  }

  lemma ApartAt(lib: Library, disk: map<string, Bytes>, files: map<Lsn, File>, entries: seq<DirEntry>,
                listed: seq<Listed>, i: nat, j: nat)
    requires Directory(lib, disk, files) && multiset(listed) == multiset(Opened(entries)) && EntriesOf(entries, disk)
    requires i < j < |listed|
    ensures listed[i].metadata.lsn != listed[j].metadata.lsn
  {
    hide Directory, Opened, ToFileName, MetadataOf;
    OpenedOnce(entries, listed[i]);
    NoRepeat(listed, i, j);
    MatchesAt(lib, disk, files, entries, listed, i);
    MatchesAt(lib, disk, files, entries, listed, j);
  }

  lemma KeyIs(lib: Library, disk: map<string, Bytes>, files: map<Lsn, File>, k: Lsn)
    requires Directory(lib, disk, files) && k in files
    ensures MetadataOf(files[k]).lsn == k && ListedFile(lib, disk, files[k])
  {
  }

  // ---------------------------------------------------------------- rebuilding

  /** The record made for file `f` before its live objects are counted. */
  ghost predicate OpenedAs(lib: Library, disk: map<string, Bytes>, fam: Fam, f: File) {
    && NameOf(f) in disk
    && fam == Fam(disk[NameOf(f)], f.generation, 0, false, Some(NameOf(f)), Some(MetadataOf(f)), fam.dict)
    && IsImage(lib, fam.file, f, fam.dict)
  }

  ghost function KeysOf(listed: seq<Listed>, n: nat): set<Lsn>
    requires n <= |listed|
  {
    set i | 0 <= i < n :: listed[i].metadata.lsn
  }

  ghost function BasesOf(files: map<Lsn, File>,
                         ks: set<Lsn>): set<nat> { set k | k in ks && k in files :: files[k].base }

  ghost function SizesOf(files: map<Lsn, File>,
                         ks: set<Lsn>): set<nat> { set k | k in ks && k in files :: files[k].size }

  lemma ComesAfter(files: map<Lsn, File>, listed: seq<Listed>, n: nat, limit: nat)
    requires InOrder(files, listed) && n < |listed| && FilesOk(files, limit)
    ensures After(files, KeysOf(listed, n), listed[n].metadata.lsn)
  {
    hide NextLsn, File.WellFormed, ToFileName;
    var k := listed[n].metadata.lsn;
    assert Matches(files, listed[n]);
    RankIsBase(files, listed[n], limit);
    forall j | j in KeysOf(listed, n) ensures j in files && files[j].base + files[j].len < files[k].base {
      var i :| 0 <= i < n && listed[i].metadata.lsn == j;
      assert Matches(files, listed[i]) && j != k;
      RankIsBase(files, listed[i], limit);
      assert Disjoint(files[j], files[k]);
    }
  }

  lemma RankIsBase(files: map<Lsn, File>, x: Listed, limit: nat)
    requires Matches(files, x) && FilesOk(files, limit)
    ensures Rank(x) == files[x.metadata.lsn].base
  {
    hide NextLsn, ToFileName, Masked;
    var f := files[x.metadata.lsn];
    assert f.WellFormed() && f.Key() == x.metadata.lsn && f.base + f.len < limit;
    E.KeyMasked(f, 0);
  }

  lemma NextKeys(files: map<Lsn, File>, listed: seq<Listed>, n: nat)
    requires n < |listed| && listed[n].metadata.lsn in files
    ensures var k := listed[n].metadata.lsn;
      && KeysOf(listed, n + 1) == KeysOf(listed, n) + {k}
      && BasesOf(files, KeysOf(listed, n + 1)) == BasesOf(files, KeysOf(listed, n)) + {files[k].base}
      && SizesOf(files, KeysOf(listed, n + 1)) == SizesOf(files, KeysOf(listed, n)) + {files[k].size}
  {
    var k := listed[n].metadata.lsn;
    var ks := KeysOf(listed, n);
    assert KeysOf(listed, n + 1) == ks + {k};
    NextImages(files, ks, k);
  }

  lemma NextImages(files: map<Lsn, File>, ks: set<Lsn>, k: Lsn)
    requires k in files
    ensures BasesOf(files, ks + {k}) == BasesOf(files, ks) + {files[k].base}
    ensures SizesOf(files, ks + {k}) == SizesOf(files, ks) + {files[k].size}
  {
  }

  lemma AllKeys(files: map<Lsn, File>, listed: seq<Listed>)
    requires InOrder(files, listed)
    ensures KeysOf(listed, |listed|) == files.Keys
    ensures BasesOf(files, files.Keys) == Bases(files) && SizesOf(files, files.Keys) == Sizes(files)
  {
    hide Matches, Sorted;
    forall k ensures k in KeysOf(listed, |listed|) <==> k in files {
      if k in KeysOf(listed, |listed|) {
        var i :| 0 <= i < |listed| && listed[i].metadata.lsn == k;
        MatchesKey(files, listed[i]);
      }
    }
  }

  lemma MatchesKey(files: map<Lsn, File>, x: Listed)
    requires Matches(files, x)
    ensures x.metadata.lsn in files && x.metadata == MetadataOf(files[x.metadata.lsn])
    ensures x.entry.name == NameOf(files[x.metadata.lsn])
  {
  }

  /** One file: its trailer is read and applied, and its record made. */
  method OpenFile(lib: Library, disk: map<string, Bytes>, x: Listed, words: map<nat, nat>, ghost files: map<Lsn, File>,
                  ghost ks: set<Lsn>,
                  ghost t: map<ObjectId, Loc>, ghost limit: nat)
    returns (ok: bool, words': map<nat, nat>, fam: Fam)
    requires Readable(lib, disk, files, x) && x.metadata.lsn in files && Latest(files, ks, t)
    requires After(files, ks, x.metadata.lsn)
    requires TableAgrees(words, t) && FilesOk(files, limit)
    ensures var f := files[x.metadata.lsn];
      ok && TableAgrees(words', Overlay(t, x.metadata.lsn, f.locs, f.locs.Keys)) && OpenedAs(lib, disk, fam, f)
        && |fam.file| == f.size
  {
    hide FilesOk, Latest, After, TableAgrees, Overlay, IsImage, ToFileName, T.Lists, T.Parse, NextLsn;
    var metadata := x.metadata;
    var file := disk[x.entry.name];
    var parsed := T.ReadTrailer(lib.crc, file[metadata.trailerOffset..metadata.fileSize]);
    ok := parsed.Parsed?;
    var entries := if parsed.Parsed? then parsed.entries else [];
    words' := ApplyTrailer(words, metadata.lsn, entries, files, ks, t, limit);
    fam := Fam(file, metadata.generation, 0, false, Some(x.entry.name), Some(metadata),
      if parsed.Parsed? then parsed.dict else []);
  }

  /** The first loop of `open`: trailers in order, records of the file map, and the two maxima. */
  method Rebuild(lib: Library, disk: map<string, Bytes>, listed: seq<Listed>, ghost files: map<Lsn, File>,
                 ghost limit: nat)
    returns (ok: bool, words: map<nat, nat>, fams: map<Lsn, Fam>, maxLsn: nat, maxSize: nat)
    requires Directory(lib, disk, files) && InOrder(files, listed) && FilesOk(files, limit) && R.DirectoryOk(files)
    ensures ok && TableAgrees(words, RecoveredTable(files))
    ensures fams.Keys == files.Keys && forall k :: k in fams ==> OpenedAs(lib, disk, fams[k], files[k])
    ensures maxLsn + maxSize + 1 == NextLsn(files)
  {
    hide Directory, InOrder, FilesOk, R.DirectoryOk, RecoveredTable, Latest, After, TableAgrees, OpenedAs, MaxOf;
    hide KeysOf, BasesOf, SizesOf, Overlay, Readable, Masked;
    ok, words, fams, maxLsn, maxSize := true, map[], map[], 0, 0;
    ghost var t: map<ObjectId, Loc> := map[];
    NothingOpened(files, listed);
    for n := 0 to |listed|
      invariant ok && Latest(files, KeysOf(listed, n), t) && TableAgrees(words, t)
      invariant fams.Keys == KeysOf(listed, n) <= files.Keys
      invariant forall k :: k in fams ==> OpenedAs(lib, disk, fams[k], files[k])
      invariant maxLsn == MaxOf(BasesOf(files, KeysOf(listed, n)))
      invariant maxSize == MaxOf(SizesOf(files, KeysOf(listed, n)))
    {
      var k := listed[n].metadata.lsn;
      ghost var ks := KeysOf(listed, n);
      ListedFacts(lib, disk, files, listed, n);
      ComesAfter(files, listed, n, limit);
      RankOf(files, listed, n, limit);
      IsNew(files, listed, n);
      NextKeys(files, listed, n);
      MaxOfMore(BasesOf(files, ks), files[k].base);
      MaxOfMore(SizesOf(files, ks), files[k].size);
      NextFile(files, ks, t, k);
      var fine, fam;
      fine, words, fam := OpenFile(lib, disk, listed[n], words, files, ks, t, limit);
      t := Overlay(t, k, files[k].locs, files[k].locs.Keys);
      ok := ok && fine;
      maxSize := if maxSize < |fam.file| then |fam.file| else maxSize;
      maxLsn := if maxLsn < Masked(k) then Masked(k) else maxLsn;
      assert k !in fams;
      fams := fams[k := fam];
    }
    AllKeys(files, listed);
    LatestIsRecovered(files, t);
  }

  /** Entry `x` leads to a file whose trailer can be read, and reads as it should. */
  ghost predicate Readable(lib: Library, disk: map<string, Bytes>, files: map<Lsn, File>, x: Listed) {
    var m, name, k := x.metadata, x.entry.name, x.metadata.lsn;
    && k in files && name == NameOf(files[k]) && name in disk && |disk[name]| == files[k].size
    && m == MetadataOf(files[k])
    && m.trailerOffset <= m.fileSize == |disk[name]|
    && var p := T.Parse(lib.crc, disk[name][m.trailerOffset..m.fileSize]);
       p.Parsed? && T.Lists(p.entries, files[k].locs) && IsImage(lib, disk[name], files[k], p.dict)
  }

  lemma NothingOpened(files: map<Lsn, File>, listed: seq<Listed>)
    ensures KeysOf(listed, 0) == {} && Latest(files, {}, map[]) && TableAgrees(map[], map[])
    ensures MaxOf(BasesOf(files, {})) == 0 && MaxOf(SizesOf(files, {})) == 0
  {
  }

  /** What reading the trailer of the next file gives. */
  lemma ListedFacts(lib: Library, disk: map<string, Bytes>, files: map<Lsn, File>, listed: seq<Listed>, n: nat)
    requires Directory(lib, disk, files) && InOrder(files, listed) && n < |listed|
    ensures listed[n].metadata.lsn in files && Readable(lib, disk, files, listed[n])
  {
    hide IsImage, ToFileName, Spellable, T.Parse, T.Lists;
    var k := listed[n].metadata.lsn;
    assert Matches(files, listed[n]);
    KeyIs(lib, disk, files, k);
    var f := files[k];
    var b := disk[NameOf(f)];
    var dict :| IsImage(lib, b, f, dict);
    ImageTrailer(lib, b, f, dict);
    assert b[f.len..] == b[f.len..f.size];
  }

  lemma RankOf(files: map<Lsn, File>, listed: seq<Listed>, n: nat, limit: nat)
    requires InOrder(files, listed) && n < |listed| && FilesOk(files, limit)
    ensures listed[n].metadata.lsn in files && Masked(listed[n].metadata.lsn) == files[listed[n].metadata.lsn].base
  {
    hide NextLsn, Masked, FilesOk, ToFileName;
    assert Matches(files, listed[n]);
    RankIsBase(files, listed[n], limit);
  }

  lemma IsNew(files: map<Lsn, File>, listed: seq<Listed>, n: nat)
    requires InOrder(files, listed) && n < |listed|
    ensures listed[n].metadata.lsn !in KeysOf(listed, n)
  {
    hide Matches, Sorted;
  }
}
