/** What writes and maintenance passes amount to, as an account of the files written: which objects went
    into each, how many sequence numbers it took, and why a pass stopped where it did. */
module Ledger {
  import opened Basics
  import opened DiskLocations
  import opened Protocol
  import opened Invariant
  import opened Cells
  import opened Selection
  import opened Sequential
  import opened Records
  import opened Images
  import S = Sharding
  import C = Concurrency

  // ---------------------------------------------------------------- one file

  /** File `f` holds the batch `objects`, from sequence number `base` on. */
  ghost predicate NewFor(f: File, objects: Batch, generation: nat, base: nat) {
    f.vals == objects && f.generation == generation && f.base == base && f.objects == |f.locs|
      && f.locs.Keys == objects.Keys
  }

  /** The dictionary that objects are compressed with: a trained one, or none. */
  function DictFor(lib: Library, config: Config, objects: Batch): Bytes {
    if config.compress && lib.train(objects).Some? then lib.train(objects).value else []
  }

  /** The sequence numbers that a file of these objects takes. */
  ghost function Needs(lib: Library, config: Config, objects: Batch): nat {
    Space(Encoder(lib, DictFor(lib, config, objects)), objects) + 1
  }

  /** They stay below the new-write bit. */
  ghost predicate Room(lib: Library, config: Config, objects: Batch, next: nat) {
    next + Needs(lib, config, objects) <= NEW_WRITE_BATCH_BIT
  }

  /** Some object is over the size limit. */
  ghost predicate Refused(config: Config, objects: Batch) {
    exists id :: Oversized(objects, config.maxObjectSize, id)
  }

  /** The file is as long as these objects, its trailer and its dictionary make it. */
  ghost predicate Shaped(lib: Library, config: Config, f: File, objects: Batch) {
    && f.lost == map[] && f.len + 1 == Needs(lib, config, objects)
    && f.size == f.len + 20 + 16 * |f.locs| + |DictFor(lib, config, objects)|
  }

  /** Every record is still there, and only its live count may differ. */
  ghost predicate FamsExtend(fams: map<Lsn, Fam>, fams': map<Lsn, Fam>) {
    forall k :: k in fams ==> k in fams' && fams'[k] == fams[k].(live := fams'[k].live)
  }

  /** And there is one more, with this dictionary. */
  ghost predicate FamsAdd(fams: map<Lsn, Fam>, fams': map<Lsn, Fam>, k: Lsn, dict: Bytes) {
    FamsExtend(fams, fams') && fams'.Keys == fams.Keys + {k} && fams'[k].dict == dict
  }

  // ---------------------------------------------------------------- memory

  /** What a store has in memory: the records of its files, and the protocol's state. */
  datatype Memory = Memory(fams: map<Lsn, Fam>, s: State)

  /** Claims come and go; everything else in memory is accounted for. */
  ghost function MemoryOf(fams: map<Lsn, Fam>, s: State): Memory {
    Memory(map k | k in fams :: fams[k].(claim := false), s.(claimed := {}, passes := map[]))
  }

  /** The objects the table has in these files. */
  ghost function LiveIn(s: State, ks: set<Lsn>): set<ObjectId> {
    set o | o in s.table && s.table[o].file in ks
  }

  /** With their values. */
  ghost function Values(s: State, ks: set<Lsn>): Batch {
    map o | o in View(s) && o in LiveIn(s, ks) :: View(s)[o]
  }

  /** Live counts are numbers of objects in the table. */
  ghost predicate Counts(m: Memory) {
    && (forall k :: k in m.s.files ==> k in m.s.live && m.s.live[k] == |LiveIn(m.s, {k})|)
    && (forall k :: k in m.fams ==> m.fams[k].live == |LiveIn(m.s, {k})|)
  }

  /** The protocol's state, with the claims there are while nobody is at work: those on files that are gone. */
  ghost function Quiet(m: Memory): State { m.s.(claimed := m.s.files.Keys - m.s.present) }

  /** Memory of a store in good order. */
  ghost predicate Good(m: Memory) {
    m.s.writes == map[] && FamsAgree(m.fams, Quiet(m)) && Inv(Quiet(m))
  }

  /** Record `fam` is that of file `f`, and its open file holds `f`, compressed with `dict`. */
  ghost predicate RecordOf(lib: Library, fam: Fam, f: File, dict: Bytes) {
    && fam.generation == f.generation && fam.metadata == Some(MetadataOf(f)) && fam.dict == dict
    && IsImage(lib, fam.file, f, dict)
  }

  /** Memory `b` is memory `a` after a file `f` of these objects has been written: the objects were within
      the size limit and there were enough numbers. */
  ghost predicate FiledAs(lib: Library, config: Config, a: Memory, b: Memory, f: File, objects: Batch,
                          generation: nat) {
    && !Refused(config, objects) && Room(lib, config, objects, a.s.nextLsn)
    && NewFor(f, objects, generation, a.s.nextLsn) && Shaped(lib, config, f, objects) && f.WellFormed()
    && Extended(a.s, b.s, f) && FamsAdd(a.fams, b.fams, f.Key(), DictFor(lib, config, objects))
    && RecordOf(lib, b.fams[f.Key()], f, DictFor(lib, config, objects)) && Counts(b)
  }

  ghost predicate Filed(lib: Library, config: Config, a: Memory, b: Memory, objects: Batch, generation: nat) {
    exists f :: FiledAs(lib, config, a, b, f, objects, generation)
  }

  /** It could not be written: an object was over the limit, or there were too few numbers, and then
      nothing has changed; or the rename failed, and then the numbers are gone. */
  ghost predicate Unfiled(lib: Library, config: Config, a: Memory, b: Memory, objects: Batch, ioOk: bool) {
    if Refused(config, objects) || !Room(lib, config, objects, a.s.nextLsn) then b == a
    else !ioOk && b == a.(s := a.s.(nextLsn := a.s.nextLsn + Needs(lib, config, objects)))
  }

  /** With no write in progress a file's live count is the number of objects the table has in it. */
  lemma LiveIsCount(s: State, k: Lsn)
    requires Inv(s) && s.writes == map[] && k in s.files
    ensures k in s.live && s.live[k] == |LiveIn(s, {k})|
  {
    hide Inv, InTable;
    C.LiveCountIsTokenSum(s, k);
    assert C.OwedEntries(s, k) == {};
    InFileEntries(s, k);
  }

  lemma InFileEntries(s: State, k: Lsn)
    requires Inv(s) && k in s.files
    ensures C.InTableEntries(s, k) == LiveIn(s, {k})
  {
    hide Inv;
    C.TableIsOk(s);
    forall o ensures o in C.InTableEntries(s, k) <==> o in LiveIn(s, {k}) {
      if o in s.table { assert Wrote(s.files, s.table[o], o); }
    }
  }

  lemma CountsHold(fams: map<Lsn, Fam>, s: State)
    requires FamsAgree(fams, s) && s.writes == map[] && Inv(s)
    ensures Counts(MemoryOf(fams, s))
  {
    hide Inv;
    var m := MemoryOf(fams, s);
    forall k | k in s.files ensures k in s.live && s.live[k] == |LiveIn(m.s, {k})| {
      hide FamsAgree;
      LiveIsCount(s, k);
      assert LiveIn(m.s, {k}) == LiveIn(s, {k});
    }
    forall k | k in fams ensures k in s.files && fams[k].live == s.live[k] { assert FamAgrees(fams[k], s, k); }
  }

  lemma QuietClaims(s: State)
    requires s.writes == map[] && s.passes == map[] && Inv(s)
    ensures s.claimed == s.files.Keys - s.present
  {
    hide FilesOk, TableOk, LiveOk, WritesOk, ReplacedOk, UnsettledOk, CopiesOk, KnownOk, PassesOk, DebugOk, DiskOk;
  }

  lemma MemoryIsGood(fams: map<Lsn, Fam>, s: State)
    requires FamsAgree(fams, s) && s.writes == map[] && s.passes == map[] && Inv(s)
    ensures Good(MemoryOf(fams, s)) && Counts(MemoryOf(fams, s))
  {
    hide Inv;
    QuietClaims(s);
    CountsHold(fams, s);
    var m := MemoryOf(fams, s);
    assert Quiet(m) == s;
    forall k | k in fams ensures FamAgrees(m.fams[k], s, k) { assert FamAgrees(fams[k], s, k); }
  }

  lemma ExtendedMemory(s: State, s': State, f: File)
    requires Extended(s, s', f)
    ensures Extended(s.(claimed := {}, passes := map[]), s'.(claimed := {}, passes := map[]), f)
  {
    hide Overlay, File.Key;
  }

  lemma FamsAddMemory(fams: map<Lsn, Fam>, fams': map<Lsn, Fam>, s: State, s': State, k: Lsn, dict: Bytes)
    requires FamsAdd(fams, fams', k, dict)
    ensures FamsAdd(MemoryOf(fams, s).fams, MemoryOf(fams', s').fams, k, dict)
  {
  }

  /** An uninterrupted write, accounted for. */
  lemma FiledFrom(lib: Library, config: Config, fams: map<Lsn, Fam>, s: State, fams': map<Lsn, Fam>, s': State, f: File,
                  objects: Batch, generation: nat)
    requires !Refused(config, objects) && Room(lib, config, objects, s.nextLsn)
    requires NewFor(f, objects, generation, s.nextLsn) && Shaped(lib, config, f, objects) && f.WellFormed()
    requires Extended(s, s', f) && FamsAdd(fams, fams', f.Key(), DictFor(lib, config, objects))
    requires IsImage(lib, fams'[f.Key()].file, f, fams'[f.Key()].dict)
    requires FamsAgree(fams', s') && s'.writes == map[] && Inv(s')
    ensures Filed(lib, config, MemoryOf(fams, s), MemoryOf(fams', s'), objects, generation)
  {
    hide Inv, Refused, Room, Shaped, File.WellFormed, IsImage, File.Key;
    var a, b, k := MemoryOf(fams, s), MemoryOf(fams', s'), f.Key();
    assert RecordOf(lib, b.fams[k], f, DictFor(lib, config, objects)) by {
      assert FamAgrees(fams'[k], s', k);
    }
    CountsHold(fams', s');
    ExtendedMemory(s, s', f);
    FamsAddMemory(fams, fams', s, s', k, DictFor(lib, config, objects));
    hide FamsAgree, FamsAdd, Counts, RecordOf, Extended;
    assert FiledAs(lib, config, a, b, f, objects, generation);
  }

  /** So is one that was refused, or whose rename failed and was taken back. */
  lemma UnfiledFrom(lib: Library, config: Config, fams: map<Lsn, Fam>, s: State, s': State, objects: Batch, ioOk: bool)
    requires s' == s.(nextLsn := s'.nextLsn)
    requires if Refused(config, objects) || !Room(lib, config, objects, s.nextLsn) then s'.nextLsn == s.nextLsn
      else !ioOk && s'.nextLsn == s.nextLsn + Needs(lib, config, objects)
    ensures Unfiled(lib, config, MemoryOf(fams, s), MemoryOf(fams, s'), objects, ioOk)
  {
    hide Refused, Needs;
  }

  // ---------------------------------------------------------------- a maintenance pass

  /** Some record of the file is as long as the size limit, so that the scan takes it for corruption. */
  predicate Unreadable(lib: Library, config: Config, fams: map<Lsn, Fam>, k: Lsn) {
    && k in fams && fams[k].metadata.Some?
    && ScanFrom(lib.crc, config.maxObjectSize, fams[k].file, 0, fams[k].metadata.value.trailerOffset).Corrupt?
  }

  function Row(io: (nat, nat) -> bool, g: nat): nat -> bool { (i: nat) => io(g, i) }

  /** Generation `g` has enough files to be compacted. */
  predicate Enough(config: Config, fams: map<Lsn, Fam>, g: nat) {
    Members(config, fams, g) != {} && |Members(config, fams, g)| >= config.minCompactionFiles
  }

  /** The rewrite of one generation: the groups of objects that become files, in order. */
  datatype Part = Part(generation: nat, groups: seq<Batch>)

  /** In memory `a` the generation has enough files, all can be read, and their live objects are divided
      into these groups. */
  ghost predicate Planned(lib: Library, config: Config, a: Memory, part: Part) {
    var files := Members(config, a.fams, part.generation);
    && Enough(config, a.fams, part.generation) && (forall k :: k in files ==> !Unreadable(lib, config, a.fams, k))
    && S.Shards(part.groups, Values(a.s, files), config.targetFileSize, config.partition)
  }

  /** From memory `a` to memory `b` the first `n` groups have been written. */
  ghost predicate WroteGroups(lib: Library, config: Config, part: Part, row: nat -> bool, n: nat, a: Memory, b: Memory)
    requires n <= |part.groups|
  {
    if n == 0 then b == a else
    var i := n - 1;
    exists mid :: WroteGroups(lib, config, part, row, i, a, mid)
      && row(i) && Filed(lib, config, mid, b, part.groups[i], part.generation)
  }

  /** All groups of all these parts have been written. */
  ghost predicate Swept(lib: Library, config: Config, io: (nat, nat) -> bool, parts: seq<Part>, a: Memory, b: Memory) {
    if parts == [] then b == a else
    var n := |parts| - 1;
    exists mid :: Swept(lib, config, io, parts[..n], a, mid)
      && WroteGroups(lib, config, parts[n], Row(io, parts[n].generation), |parts[n].groups|, mid, b)
  }

  /** How a pass ends: all generations are compacted, or a file of a generation cannot be read, or group
      `n` of a generation cannot be written. */
  datatype Halt = Complete | Unread(generation: nat, key: Lsn) | Stuck(part: Part, n: nat)

  datatype Log = Log(parts: seq<Part>, halt: Halt)

  predicate Includes(parts: seq<Part>, g: nat) { exists i :: 0 <= i < |parts| && parts[i].generation == g }

  /** The parts are plans for different generations. */
  ghost predicate Plans(lib: Library, config: Config, a: Memory, parts: seq<Part>) {
    && (forall i :: 0 <= i < |parts| ==> Planned(lib, config, a, parts[i]))
    && (forall i, j :: 0 <= i < j < |parts| ==> parts[i].generation != parts[j].generation)
  }

  ghost predicate StuckAt(lib: Library, config: Config, part: Part, row: nat -> bool, n: nat, a: Memory, b: Memory) {
    n < |part.groups| && exists mid ::
      WroteGroups(lib, config, part, row, n, a, mid) && Unfiled(lib, config, mid, b, part.groups[n], row(n))
  }

  /** The log accounts for the change of memory from `a` to `b` up to the pruning of empty files. */
  ghost predicate Works(lib: Library, config: Config, io: (nat, nat) -> bool, log: Log, a: Memory, b: Memory) {
    && Plans(lib, config, a, log.parts)
    && match log.halt
       case Complete =>
         (forall g :: Enough(config, a.fams, g) ==> Includes(log.parts, g)) && Swept(lib, config, io, log.parts, a, b)
       case Unread(g, k) =>
         && Enough(config, a.fams, g) && k in Members(config, a.fams, g) && Unreadable(lib, config, a.fams, k)
         && !Includes(log.parts, g) && Swept(lib, config, io, log.parts, a, b)
       case Stuck(part, n) =>
         && Planned(lib, config, a, part) && !Includes(log.parts, part.generation)
         && exists mid :: Swept(lib, config, io, log.parts, a, mid)
              && StuckAt(lib, config, part, Row(io, part.generation), n, mid, b)
  }

  /** How the compaction of `files` in a pass that began in memory `start` went from `a` to `b`. */
  ghost predicate Compacts(lib: Library, config: Config, start: Memory, files: set<Lsn>, row: nat -> bool, part: Part,
                           halt: Halt, a: Memory, b: Memory)
  {
    match halt
    case Complete =>
      Divided(lib, config, start, files, part) && WroteGroups(lib, config, part, row, |part.groups|, a, b)
    case Unread(g, k) =>
      g == part.generation && k in files && Unreadable(lib, config, start.fams, k) && b == a
    case Stuck(p, n) =>
      p == part && Divided(lib, config, start, files, part) && StuckAt(lib, config, part, row, n, a, b)
  }

  ghost predicate Divided(lib: Library, config: Config, start: Memory, files: set<Lsn>, part: Part) {
    && (forall k :: k in files ==> !Unreadable(lib, config, start.fams, k))
    && S.Shards(part.groups, Values(start.s, files), config.targetFileSize, config.partition)
  }

  lemma GroupsMore(lib: Library, config: Config, part: Part,
                   row: nat -> bool, n: nat, a: Memory, mid: Memory, b: Memory)
    requires n < |part.groups| && WroteGroups(lib, config, part, row, n, a, mid)
    requires row(n) && Filed(lib, config, mid, b, part.groups[n], part.generation)
    ensures WroteGroups(lib, config, part, row, n + 1, a, b)
  {
    hide Filed;
  }

  lemma GroupsNone(lib: Library, config: Config, part: Part, row: nat -> bool, a: Memory)
    ensures WroteGroups(lib, config, part, row, 0, a, a)
  {
  }

  lemma StuckFrom(lib: Library, config: Config, part: Part, row: nat -> bool, n: nat, a: Memory, mid: Memory, b: Memory)
    requires n < |part.groups| && WroteGroups(lib, config, part, row, n, a, mid)
    requires Unfiled(lib, config, mid, b, part.groups[n], row(n))
    ensures StuckAt(lib, config, part, row, n, a, b)
  {
    hide WroteGroups, Unfiled;
  }

  /** The files of a generation are the same to a pass that has already compacted others. */
  lemma CompactsFrom(lib: Library, config: Config, start: Memory, files: set<Lsn>,
                     row: nat -> bool, part: Part, halt: Halt,
                     a: Memory, b: Memory)
    requires Compacts(lib, config, a, files, row, part, halt, a, b) && Values(a.s, files) == Values(start.s, files)
    requires FamsExtend(start.fams, a.fams) && files <= start.fams.Keys
    ensures Compacts(lib, config, start, files, row, part, halt, a, b)
  {
    hide Values, S.Shards, WroteGroups, StuckAt, ScanFrom;
    forall k | k in files ensures Unreadable(lib, config, a.fams, k) <==> Unreadable(lib, config, start.fams, k) {
    }
  }

  /** The pass goes on with the next generation, or ends with this one. */
  lemma SweptMore(lib: Library, config: Config, io: (nat, nat) -> bool, start: Memory, parts: seq<Part>, part: Part,
                  halt: Halt, a: Memory, b: Memory)
    requires Plans(lib, config, start, parts) && Swept(lib, config, io, parts, start, a)
    requires Enough(config, start.fams, part.generation) && !Includes(parts, part.generation)
    requires Compacts(lib, config, start, Members(config, start.fams, part.generation), Row(io, part.generation), part,
                      halt, a, b)
    ensures halt.Complete? ==>
      Plans(lib, config, start, parts + [part]) && Swept(lib, config, io, parts + [part], start, b)
    ensures !halt.Complete? ==> Works(lib, config, io, Log(parts, halt), start, b)
  {
    hide Values, S.Shards, WroteGroups, StuckAt, Unreadable, Enough, Members, Row;
    assert !halt.Unread? ==> Planned(lib, config, start, part);
    if halt.Complete? {
      var more, n := parts + [part], |parts|;
      assert more[..n] == parts && more[n] == part;
      forall i, j | 0 <= i < j < |more| ensures more[i].generation != more[j].generation {
      }
      assert Swept(lib, config, io, more, start, b) by {
        assert Swept(lib, config, io, more[..|more| - 1], start, a);
      }
    }
  }

  lemma IncludesMore(parts: seq<Part>, part: Part, g: nat)
    ensures Includes(parts + [part], g) <==> Includes(parts, g) || g == part.generation
  {
    var more := parts + [part];
    assert more[|parts|] == part;
    if i :| 0 <= i < |parts| && parts[i].generation == g { assert more[i].generation == g; }
  }

  // ---------------------------------------------------------------- claims do not matter

  lemma SameMemory(fams: map<Lsn, Fam>, s: State, s': State)
    requires s' == s.(passes := s'.passes, claimed := s'.claimed)
    ensures MemoryOf(fams, s') == MemoryOf(fams, s)
  {
  }

  lemma SameFamsMemory(fams: map<Lsn, Fam>, fams': map<Lsn, Fam>, s: State)
    requires fams'.Keys == fams.Keys && forall k :: k in fams ==> fams'[k] == fams[k].(claim := fams'[k].claim)
    ensures MemoryOf(fams', s) == MemoryOf(fams, s)
  {
  }

  lemma MemoryMembers(config: Config, fams: map<Lsn, Fam>, s: State, g: nat)
    ensures Members(config, MemoryOf(fams, s).fams, g) == Members(config, fams, g)
    ensures Enough(config, MemoryOf(fams, s).fams, g) <==> Enough(config, fams, g)
  {
    var m := MemoryOf(fams, s);
    assert m.fams.Keys == fams.Keys;
    assert |m.fams| == |m.fams.Keys| == |fams.Keys| == |fams|;
    hide LivePercent, IsSmall;
  }

  lemma MemoryCompacted(config: Config, fams: map<Lsn, Fam>, s: State)
    ensures Compacted(config, MemoryOf(fams, s).fams) == Compacted(config, fams)
  {
    var m := MemoryOf(fams, s);
    assert m.fams.Keys == fams.Keys;
    assert |m.fams| == |m.fams.Keys| == |fams.Keys| == |fams|;
    forall g ensures Members(config, m.fams, g) == Members(config, fams, g) { MemoryMembers(config, fams, s, g); }
    hide Members, LivePercent, IsSmall;
  }

  lemma MemoryValues(fams: map<Lsn, Fam>, s: State, ks: set<Lsn>)
    ensures Values(MemoryOf(fams, s).s, ks) == Values(s, ks)
  {
    var s' := MemoryOf(fams, s).s;
    assert View(s') == View(s) && LiveIn(s', ks) == LiveIn(s, ks);
  }

  lemma MemoryUnreadable(lib: Library, config: Config, fams: map<Lsn, Fam>, s: State, k: Lsn)
    ensures Unreadable(lib, config, MemoryOf(fams, s).fams, k) <==> Unreadable(lib, config, fams, k)
  {
    hide ScanFrom;
  }

  lemma MemoryExtends(fams: map<Lsn, Fam>, fams': map<Lsn, Fam>, s: State, s': State)
    requires FamsExtend(fams, fams')
    ensures FamsExtend(MemoryOf(fams, s).fams, MemoryOf(fams', s').fams)
  {
  }

  function EmptyFiles(fams: map<Lsn, Fam>): set<Lsn> { set k | k in fams && fams[k].live == 0 }

  /** Memory without the files that have nothing live. */
  ghost function Pruned(m: Memory): Memory {
    var empties := EmptyFiles(m.fams);
    Memory(m.fams - empties, m.s.(present := m.s.present - empties, disk := m.s.disk - empties))
  }

  /** Memory after closing the store and opening it again. */
  ghost function Reopened(m: Memory): Memory {
    Memory(m.fams - EmptyFiles(m.fams), Recovered(m.s, Surviving(m.s)))
  }

  /** The log accounts for a whole pass. */
  ghost predicate Tidies(lib: Library, config: Config, io: (nat, nat) -> bool, log: Log, a: Memory, b: Memory) {
    exists mid :: Works(lib, config, io, log, a, mid) && b == if log.halt.Complete? then Pruned(mid) else mid
  }

  // ---------------------------------------------------------------- numbers

  /** The sequence numbers that the first `n` groups take. */
  ghost function Cost(lib: Library, config: Config, groups: seq<Batch>, n: nat): nat
    requires n <= |groups|
  {
    if n == 0 then 0 else Cost(lib, config, groups, n - 1) + Needs(lib, config, groups[n - 1])
  }

  ghost function Costs(lib: Library, config: Config, parts: seq<Part>): nat {
    if parts == [] then 0 else
    var n := |parts| - 1;
    Costs(lib, config, parts[..n]) + Cost(lib, config, parts[n].groups, |parts[n].groups|)
  }

  /** What a group that could not be written takes all the same, when `next` is the next number. */
  ghost function Wasted(lib: Library, config: Config, objects: Batch, next: nat): nat {
    if Refused(config, objects) || !Room(lib, config, objects, next) then 0 else Needs(lib, config, objects)
  }

  /** The next sequence number after a pass that began at `next`. */
  ghost function NextAfter(lib: Library, config: Config, log: Log, next: nat): nat {
    var reached := next + Costs(lib, config, log.parts);
    if log.halt.Stuck? && log.halt.n < |log.halt.part.groups| then
      var at := reached + Cost(lib, config, log.halt.part.groups, log.halt.n);
      at + Wasted(lib, config, log.halt.part.groups[log.halt.n], at)
    else reached
  }

  lemma FiledNext(lib: Library, config: Config, a: Memory, b: Memory, objects: Batch, generation: nat)
    requires Filed(lib, config, a, b, objects, generation)
    ensures b.s.nextLsn == a.s.nextLsn + Needs(lib, config, objects) <= NEW_WRITE_BATCH_BIT
  {
    hide Needs, Refused, RecordOf, Counts, FamsAdd, File.WellFormed, Overlay;
    var f :| FiledAs(lib, config, a, b, f, objects, generation);
  }

  lemma {:induction false} GroupsNext(lib: Library, config: Config, part: Part, row: nat -> bool, n: nat, a: Memory,
                                      b: Memory)
    requires n <= |part.groups| && WroteGroups(lib, config, part, row, n, a, b)
    ensures b.s.nextLsn == a.s.nextLsn + Cost(lib, config, part.groups, n)
    decreases n
  {
    hide Filed, Needs;
    if n > 0 {
      var mid :| WroteGroups(lib, config, part, row, n - 1, a, mid)
        && row(n - 1) && Filed(lib, config, mid, b, part.groups[n - 1], part.generation);
      GroupsNext(lib, config, part, row, n - 1, a, mid);
      FiledNext(lib, config, mid, b, part.groups[n - 1], part.generation);
    }
  }

  lemma {:induction false} SweptNext(lib: Library, config: Config, io: (nat, nat) -> bool, parts: seq<Part>, a: Memory,
                                     b: Memory)
    requires Swept(lib, config, io, parts, a, b)
    ensures b.s.nextLsn == a.s.nextLsn + Costs(lib, config, parts)
    decreases |parts|
  {
    hide WroteGroups, Cost;
    if parts != [] {
      var n := |parts| - 1;
      var row := Row(io, parts[n].generation);
      var mid :| Swept(lib, config, io, parts[..n], a, mid)
        && WroteGroups(lib, config, parts[n], row, |parts[n].groups|, mid, b);
      SweptNext(lib, config, io, parts[..n], a, mid);
      GroupsNext(lib, config, parts[n], row, |parts[n].groups|, mid, b);
    }
  }

  lemma StuckNext(lib: Library, config: Config, part: Part, row: nat -> bool, n: nat, a: Memory, b: Memory)
    requires StuckAt(lib, config, part, row, n, a, b)
    ensures var at := a.s.nextLsn + Cost(lib, config, part.groups, n);
      b.s.nextLsn == at + Wasted(lib, config, part.groups[n], at)
  {
    hide WroteGroups, Cost, Needs, Refused, Room;
    var mid :| WroteGroups(lib, config, part, row, n, a, mid) && Unfiled(lib, config, mid, b, part.groups[n], row(n));
    GroupsNext(lib, config, part, row, n, a, mid);
  }

  /** A pass takes the numbers of the files it has written, and of one more if the rename of that one
      failed; no others. */
  lemma NumbersOfPass(lib: Library, config: Config, io: (nat, nat) -> bool, log: Log, a: Memory, b: Memory)
    requires Tidies(lib, config, io, log, a, b)
    ensures b.s.nextLsn == NextAfter(lib, config, log, a.s.nextLsn)
    ensures log.halt.Stuck? ==> log.halt.n < |log.halt.part.groups|
  {
    hide Plans, Planned, Swept, StuckAt, Cost, Costs, Wasted, Enough, Members;
    var mid :| Works(lib, config, io, log, a, mid) && b == if log.halt.Complete? then Pruned(mid) else mid;
    if log.halt.Stuck? {
      var part, n := log.halt.part, log.halt.n;
      var x :| Swept(lib, config, io, log.parts, a, x)
        && StuckAt(lib, config, part, Row(io, part.generation), n, x, mid);
      SweptNext(lib, config, io, log.parts, a, x);
      assert n < |part.groups| by { StuckInside(lib, config, part, Row(io, part.generation), n, x, mid); }
      StuckNext(lib, config, part, Row(io, part.generation), n, x, mid);
    } else {
      SweptNext(lib, config, io, log.parts, a, mid);
    }
  }

  lemma StuckInside(lib: Library, config: Config, part: Part, row: nat -> bool, n: nat, a: Memory, b: Memory)
    requires StuckAt(lib, config, part, row, n, a, b)
    ensures n < |part.groups|
  {
  }

  /** Where there is nothing to compact, a pass is complete and takes no numbers. */
  lemma IdlePass(lib: Library, config: Config, io: (nat, nat) -> bool, log: Log, a: Memory, b: Memory)
    requires Works(lib, config, io, log, a, b) && Compacted(config, a.fams) == {}
    ensures log == Log([], Complete) && b == a
  {
    hide Swept, StuckAt, S.Shards, Values, Unreadable;
    FirstPlan(lib, config, a, log.parts);
    NothingSwept(lib, config, io, a, b);
    hide Enough;
    NoneEnough(config, a.fams);
  }

  lemma FirstPlan(lib: Library, config: Config, a: Memory, parts: seq<Part>)
    requires Plans(lib, config, a, parts)
    ensures parts != [] ==> Enough(config, a.fams, parts[0].generation)
  {
    hide Enough, Members, Unreadable, S.Shards, Values;
    assert parts != [] ==> Planned(lib, config, a, parts[0]);
  }

  lemma NothingSwept(lib: Library, config: Config, io: (nat, nat) -> bool, a: Memory, b: Memory)
    ensures Swept(lib, config, io, [], a, b) <==> b == a
  {
  }

  lemma NoneEnough(config: Config, fams: map<Lsn, Fam>)
    requires Compacted(config, fams) == {}
    ensures forall g :: !Enough(config, fams, g)
  {
    hide Candidate, NextGeneration;
    forall g ensures !Enough(config, fams, g) {
      if Enough(config, fams, g) { EnoughCompacted(config, fams, g); }
    }
  }

  lemma EnoughCompacted(config: Config, fams: map<Lsn, Fam>, g: nat)
    requires Enough(config, fams, g)
    ensures Compacted(config, fams) != {}
  {
    hide Candidate, NextGeneration;
    var k :| k in Members(config, fams, g);
    assert k in Compacted(config, fams);
  }

  /** A pass gives up only where it must: some generation with enough files has one that cannot be read, or
      its live objects as they were at the beginning are divided into groups one of which is over the
      limit, or does not fit into the numbers left when its turn comes, or fails to be renamed. */
  lemma WhyHalted(lib: Library, config: Config, io: (nat, nat) -> bool, log: Log, a: Memory, b: Memory)
    requires Tidies(lib, config, io, log, a, b) && !log.halt.Complete?
    ensures log.halt.Unread? ==>
      && Enough(config, a.fams, log.halt.generation) && log.halt.key in Members(config, a.fams, log.halt.generation)
      && Unreadable(lib, config, a.fams, log.halt.key)
    ensures log.halt.Stuck? ==> var part, n := log.halt.part, log.halt.n;
      Planned(lib, config, a, part) && n < |part.groups|
      && (|| Refused(config, part.groups[n]) || !io(part.generation, n)
          || !Room(lib, config, part.groups[n],
                   a.s.nextLsn + Costs(lib, config, log.parts) + Cost(lib, config, part.groups, n)))
  {
    hide Plans, Planned, Swept, WroteGroups, Cost, Costs, Enough, Members, Unreadable, Refused, Room;
    var mid :| Works(lib, config, io, log, a, mid) && b == if log.halt.Complete? then Pruned(mid) else mid;
    if log.halt.Stuck? {
      var part, n := log.halt.part, log.halt.n;
      var row := Row(io, part.generation);
      var x :| Swept(lib, config, io, log.parts, a, x) && StuckAt(lib, config, part, row, n, x, mid);
      SweptNext(lib, config, io, log.parts, a, x);
      var y :| WroteGroups(lib, config, part, row, n, x, y) && Unfiled(lib, config, y, mid, part.groups[n], row(n));
      GroupsNext(lib, config, part, row, n, x, y);
    }
  }
}
