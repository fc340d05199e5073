/** Opening the store on any well-formed set of files establishes the invariant. */
module Reopening {
  import opened DiskLocations
  import opened Protocol
  import opened Invariant

  /** What the files of one directory have in common: each is complete, lies under the key its
      name says, and shares no sequence number with another. */
  ghost predicate DirectoryOk(disk: map<Lsn, File>) {
    && (forall k :: k in disk ==> disk[k].WellFormed() && disk[k].Key() == k)
    && (forall j, k :: j in disk && k in disk && j != k ==> Disjoint(disk[j], disk[k]))
  }

  lemma DirectoryAlways(s: State, disk: map<Lsn, File>)
    requires FilesOk(s.files, s.nextLsn)
    requires DiskOk(s.disk, s.files, s.present, s.writes, s.table)
    requires disk.Keys <= s.disk.Keys && forall k :: k in disk ==> disk[k] == s.disk[k]
    ensures DirectoryOk(disk)
  {
    hide InTable, Owed;
    forall k | k in disk
      ensures disk[k].WellFormed() && disk[k].Key() == k
      ensures disk[k].base == s.files[k].base && disk[k].len == s.files[k].len
    {
      assert IsPart(s.disk[k], s.files[k]);
    }
  }

  /** Some file is the latest to mention an object, and only one. */
  lemma LatestExists(disk: map<Lsn, File>, o: ObjectId)
    requires o in Objects(disk)
    ensures exists k :: IsLatest(disk, o, k)
  {
    var bases := set k | k in disk && o in disk[k].locs :: disk[k].base;
    var j :| j in disk && o in disk[j].locs;
    assert disk[j].base in bases;
    var m := MaxOf(bases);
    var k :| k in disk && o in disk[k].locs && disk[k].base == m;
    forall i | i in disk && o in disk[i].locs ensures disk[i].base <= disk[k].base {
      assert disk[i].base in bases;
    }
    assert IsLatest(disk, o, k);
  }

  lemma LatestUnique(disk: map<Lsn, File>, o: ObjectId, j: Lsn, k: Lsn)
    requires DirectoryOk(disk) && IsLatest(disk, o, j) && IsLatest(disk, o, k)
    ensures j == k
  {
  }

  /** The recovered table maps exactly the objects some trailer mentions, each to the entry of the
      latest file that mentions it. */
  lemma RecoveredEntry(disk: map<Lsn, File>, o: ObjectId)
    ensures o in RecoveredTable(disk) <==> o in Objects(disk)
    ensures o in RecoveredTable(disk) ==>
      var k := RecoveredTable(disk)[o].file;
      IsLatest(disk, o, k) && RecoveredTable(disk)[o] == Loc(k, disk[k].locs[o])
  {
    if o in Objects(disk) {
      LatestExists(disk, o);
    }
  }

  lemma Maxima(disk: map<Lsn, File>)
    ensures disk == map[] ==> MaxOf(Bases(disk)) == 0 && MaxOf(Sizes(disk)) == 0
    ensures disk != map[] ==> MaxOf(Bases(disk)) in Bases(disk) && MaxOf(Sizes(disk)) in Sizes(disk)
    ensures forall i :: i in disk ==> disk[i].base <= MaxOf(Bases(disk)) && disk[i].size <= MaxOf(Sizes(disk))
  {
    hide MaxOf;
    forall i | i in disk ensures disk[i].base in Bases(disk) && disk[i].size in Sizes(disk) {}
    if disk == map[] {
      assert Bases(disk) == {} && Sizes(disk) == {};
    } else {
      assert disk.Keys != {};
      var i :| i in disk;
      assert disk[i].base in Bases(disk) && disk[i].size in Sizes(disk);
    }
  }

  /** The next sequence number, in numbers: one more than the highest base and the greatest size together,
      and 1 where there is no file. */
  lemma NextLsnIs(disk: map<Lsn, File>) returns (j: Lsn, k: Lsn)
    ensures disk == map[] ==> NextLsn(disk) == 1
    ensures disk != map[] ==> j in disk && k in disk && NextLsn(disk) == disk[j].base + disk[k].size + 1
    ensures disk != map[] ==> forall i :: i in disk ==> disk[i].base <= disk[j].base && disk[i].size <= disk[k].size
  {
    var b, s := MaxOf(Bases(disk)), MaxOf(Sizes(disk));
    assert NextLsn(disk) == b + s + 1;
    hide NextLsn, Bases, Sizes, MaxOf;
    Maxima(disk);
    j, k := 0, 0;
    if disk != map[] {
      j := HasBase(disk, b);
      k := HasSize(disk, s);
    }
  }

  lemma HasBase(disk: map<Lsn, File>, b: nat) returns (j: Lsn)
    requires b in Bases(disk)
    ensures j in disk && disk[j].base == b
  {
    j :| j in disk && disk[j].base == b;
  }

  lemma HasSize(disk: map<Lsn, File>, b: nat) returns (j: Lsn)
    requires b in Sizes(disk)
    ensures j in disk && disk[j].size == b
  {
    j :| j in disk && disk[j].size == b;
  }

  /** The next sequence number lies above every range in use. */
  lemma NextLsnAbove(disk: map<Lsn, File>, k: Lsn)
    requires k in disk && disk[k].WellFormed()
    ensures disk[k].base + disk[k].len < NextLsn(disk)
  {
    assert disk[k].base in Bases(disk);
    assert disk[k].size in Sizes(disk);
  }

  lemma OrderHolds(disk: map<Lsn, File>)
    requires DirectoryOk(disk)
    ensures MonotonicOrder(disk)
  {
    forall j, k, o | j in disk && k in disk && j != k && o in disk[j].locs && o in disk[k].locs
      && disk[j].base <= disk[k].base
      ensures disk[j].base + disk[j].locs[o].offset < disk[k].base + disk[k].locs[o].offset
    {
      assert Disjoint(disk[j], disk[k]) && disk[j].WellFormed();
    }
  }

  lemma RecoveredFiles(s: State, disk: map<Lsn, File>)
    requires DirectoryOk(disk) && NextLsn(disk) <= NEW_WRITE_BATCH_BIT
    ensures FilesOk(disk, NextLsn(disk))
  {
    forall k | k in disk ensures disk[k].base + disk[k].len < NextLsn(disk) {
      NextLsnAbove(disk, k);
    }
  }

  lemma RecoveredTableOk(disk: map<Lsn, File>)
    ensures TableOk(RecoveredTable(disk), disk, disk.Keys)
    ensures KnownOk(map[], RecoveredTable(disk), disk)
  {
    forall o
      ensures o in RecoveredTable(disk) ==>
        Wrote(disk, RecoveredTable(disk)[o], o) && RecoveredTable(disk)[o].file in disk
    {
      RecoveredEntry(disk, o);
    }
    forall k, o | k in disk && o in disk[k].locs ensures o in RecoveredTable(disk) {
      assert o in Objects(disk);
      RecoveredEntry(disk, o);
    }
  }

  /** Counting by search is counting by provenance. */
  lemma AttributedIsTokens(s: State, disk: map<Lsn, File>, k: Lsn)
    requires FilesOk(disk, NextLsn(disk)) && k in disk
    requires TableOk(RecoveredTable(disk), disk, disk.Keys)
    ensures Attributed(RecoveredTable(disk), disk.Keys, k) == Tokens(RecoveredTable(disk), map[], disk[k], k)
    ensures forall o :: o in RecoveredTable(disk) ==>
      IsPredecessor(disk.Keys, Raw(RecoveredTable(disk)[o]), RecoveredTable(disk)[o].file)
  {
    var table := RecoveredTable(disk);
    hide RecoveredTable, IsPredecessor, Raw, FilesOk;
    forall o | o in table
      ensures forall j :: IsPredecessor(disk.Keys, Raw(table[o]), j) <==> j == table[o].file
      ensures Wrote(disk, table[o], o)
    {
      LookupFindsWriter(s.(files := disk, present := disk.Keys, nextLsn := NextLsn(disk)), table[o], o);
    }
  }

  lemma RecoveredLive(s: State, disk: map<Lsn, File>)
    requires FilesOk(disk, NextLsn(disk))
    requires TableOk(RecoveredTable(disk), disk, disk.Keys)
    ensures LiveOk(map k | k in disk :: |Attributed(RecoveredTable(disk), disk.Keys, k)|, RecoveredTable(disk), map[],
      disk)
    ensures !exists o ::
      o in RecoveredTable(disk) && forall k :: !IsPredecessor(disk.Keys, Raw(RecoveredTable(disk)[o]), k)
  {
    hide FilesOk, TableOk, RecoveredTable, IsPredecessor, Raw, Attributed, Tokens;
    forall k | k in disk
      ensures Attributed(RecoveredTable(disk), disk.Keys, k) == Tokens(RecoveredTable(disk), map[], disk[k], k)
    {
      AttributedIsTokens(s, disk, k);
    }
    if o :| o in RecoveredTable(disk) && forall k :: !IsPredecessor(disk.Keys, Raw(RecoveredTable(disk)[o]), k) {
      EntryIsIn(disk, o);
      AttributedIsTokens(s, disk, RecoveredTable(disk)[o].file);
      assert false;
    }
  }

  lemma EntryIsIn(disk: map<Lsn, File>, o: ObjectId)
    requires TableOk(RecoveredTable(disk), disk, disk.Keys) && o in RecoveredTable(disk)
    ensures RecoveredTable(disk)[o].file in disk
  {
  }

  lemma RecoveredRest(s: State, disk: map<Lsn, File>)
    requires DirectoryOk(disk)
    requires TableOk(RecoveredTable(disk), disk, disk.Keys)
    ensures var s' := Recovered(s, disk);
      && DebugOk(s'.adds, s'.removes, s'.table, s'.files, s'.writes)
      && DiskOk(s'.disk, s'.files, s'.present, s'.writes, s'.table)
  {
    hide RecoveredTable, Attributed, MonotonicOrder, File.WellFormed, DebugOk, NextLsn, IsPredecessor;
    RecoveredHistory(RecoveredTable(disk), disk);
  }

  lemma RecoveredHistory(table: map<ObjectId, Loc>, files: map<Lsn, File>)
    requires TableOk(table, files, files.Keys)
    ensures DebugOk(set o | o in table :: (o, table[o]), {}, table, files, map[])
  {
  }

  lemma RecoveredVacuous(s: State, disk: map<Lsn, File>)
    ensures var s' := Recovered(s, disk);
      && WritesOk(s'.writes, s'.files, s'.present)
      && ReplacedOk(s'.writes, s'.table, s'.files, s'.present)
      && UnsettledOk(s'.writes, s'.table)
      && CopiesOk(s'.writes, s'.files, s'.pathed)
      && StageOk(s'.files, s'.present, s'.writes, s'.claimed, s'.pathed, s'.described, s'.live)
      && ClaimsOk(s'.claimed, s'.present, s'.writes, s'.passes)
      && PassesOk(s'.passes, s'.files, s'.present, s'.live, s'.pathed)
  {
    hide RecoveredTable, Attributed, MonotonicOrder;
  }

  lemma RecoveredKeeps(s: State, disk: map<Lsn, File>)
    requires !s.panicked && DirectoryOk(disk) && NextLsn(disk) <= NEW_WRITE_BATCH_BIT
    ensures Inv(Recovered(s, disk))
  {
    hide FilesOk, TableOk, LiveOk, WritesOk, ReplacedOk, UnsettledOk, CopiesOk, KnownOk, StageOk, ClaimsOk, PassesOk;
    hide DebugOk, DiskOk;
    hide RecoveredTable, Attributed, MonotonicOrder, DirectoryOk, IsPredecessor, Raw;
    RecoveredFiles(s, disk);
    RecoveredTableOk(disk);
    OrderHolds(disk);
    RecoveredLive(s, disk);
    RecoveredRest(s, disk);
    RecoveredVacuous(s, disk);
  }

  lemma CrashKeeps(s: State)
    requires Inv(s) && Enabled(s, Crash)
    ensures Inv(Apply(s, Crash))
  {
    hide FilesOk, TableOk, LiveOk, WritesOk, ReplacedOk, UnsettledOk, CopiesOk, KnownOk, StageOk, ClaimsOk, PassesOk;
    hide DebugOk, DiskOk;
    hide Recovered, DirectoryOk;
    DirectoryAlways(s, s.disk);
    RecoveredKeeps(s, s.disk);
  }

  lemma RestartKeeps(s: State)
    requires Inv(s) && Enabled(s, Restart)
    ensures Inv(Apply(s, Restart))
  {
    hide FilesOk, TableOk, LiveOk, WritesOk, ReplacedOk, UnsettledOk, CopiesOk, KnownOk, StageOk, ClaimsOk, PassesOk;
    hide DebugOk, DiskOk;
    hide Recovered, DirectoryOk;
    DirectoryAlways(s, Surviving(s));
    RecoveredKeeps(s, Surviving(s));
  }
}
