/** The running store as a step system.

    Shared memory is the location table, the file map and the cells of every file's in-memory
    record; every write in progress and every maintenance pass is a thread with its own local
    variables. One action is one atomic step of one thread, and a run is any interleaving of
    actions. Wherever the source asserts, unwraps or expects, the action sets `panicked` if the
    condition is false. */
module Protocol {
  import opened Basics
  import opened DiskLocations

  type ObjectId = nat
  type Lsn = nat       // log sequence number of a file's first byte, new-write bit included
  type ThreadId = nat

  /** What a batch says about each object: new contents, or a deletion. */
  type Batch = map<ObjectId, Option<Bytes>>

  /** A record that is in a file's object section but not in its trailer. */
  datatype Stale = Stale(rel: Relative, data: Bytes)

  /** The immutable part of a storage file. `base` is its log sequence number without the
      new-write bit, `len` the length of the object section, `size` that of the whole file and
      `objects` the object count in its name; `locs` are its trailer entries, and `lost` the records
      that have none, because a rewrite failed to install them. */
  datatype File = File(generation: nat, base: nat, len: nat, size: nat, objects: nat,
                       locs: map<ObjectId, Relative>, vals: Batch, lost: map<ObjectId, Stale>)
  {
    predicate IsGc() { generation > 0 }

    function Key(): Lsn { if IsGc() then base else base + NEW_WRITE_BATCH_BIT }

    predicate WellFormed() {
      && 1 <= base && len + 20 + 16 * |locs| <= size && locs != map[] && |locs| <= objects
      && locs.Keys == vals.Keys
      && (forall o :: o in locs ==> locs[o].offset <= len)
      && (forall o :: o in locs ==> (locs[o].isDelete <==> vals[o].None?))
      && lost.Keys !! locs.Keys && (forall o :: o in lost ==> lost[o].rel.offset <= len)
    }

    /** The file with the trailer entries of `dropped` left out: it is 16 bytes shorter for each, and
        the records are still there; tombstones had none. */
    function Without(dropped: set<ObjectId>): File {
      var saved := 16 * |locs.Keys * dropped|;
      this.(locs := locs - dropped, vals := vals - dropped, size := if saved <= size then size - saved else 0,
            lost := lost + map o | o in locs && o in dropped && o in vals && vals[o].Some? ::
              Stale(locs[o], vals[o].value))
    }
  }

  /** A disk location together with the file that wrote it. The program keeps only `Raw`. */
  datatype Loc = Loc(file: Lsn, rel: Relative)

  function Raw(l: Loc): nat {
    2 * (l.file + l.rel.offset) + if l.rel.isDelete then 1 else 0
  }

  /** Progress of one call to `write_batch_inner` after its file was entered in the map. */
  datatype Phase = Installing | Renamed | Pathed | Described | Settled

  datatype Write = Write(scanned: map<ObjectId, Loc>, todo: set<ObjectId>,
                         replaced: map<ObjectId, Loc>, failed: set<ObjectId>, phase: Phase)

  /** What a maintenance pass last saw of a file it is considering; possibly out of date. */
  datatype Look = Nothing | Fragmented(file: Lsn) | Empty(file: Lsn)

  datatype Maintenance = Maintenance(look: Look, claims: set<Lsn>, empties: set<Lsn>,
                                     scanned: map<ObjectId, Loc>, batch: Batch)

  datatype State = State(
    table: map<ObjectId, Loc>,           // location table
    files: map<Lsn, File>,               // every in-memory file record made since opening
    present: set<Lsn>,                   // keys of the file map
    live: map<Lsn, int>,                 // live_objects
    claimed: set<Lsn>,                   // rewrite_claim
    pathed: set<Lsn>,                    // path pointer installed
    described: set<Lsn>,                 // metadata pointer installed
    nextLsn: nat,
    writes: map<Lsn, Write>,             // writes in progress, by the key of their file
    passes: map<ThreadId, Maintenance>,  // maintenance passes in progress
    disk: map<Lsn, File>,                // storage files that carry their final name
    history: map<nat, Batch>,            // every write batch ever committed, by base (never read)
    adds: set<(ObjectId, Loc)>,          // debug history
    removes: set<(ObjectId, Loc)>,
    panicked: bool)

  datatype Action =
    | StartWrite(file: File)
    | StartGc(thread: ThreadId, file: File)
    | Install(key: Lsn, id: ObjectId)
    | Rename(key: Lsn)
    | Decrement(key: Lsn, id: ObjectId)
    | SetPath(key: Lsn)
    | SetMetadata(key: Lsn)
    | Subtract(key: Lsn)
    | Finish(key: Lsn)
    | AbortGc(key: Lsn)
    | Begin(thread: ThreadId)
    | LookFragmented(thread: ThreadId, key: Lsn)
    | LookEmpty(thread: ThreadId, key: Lsn)
    | Claim(thread: ThreadId)
    | Scan(thread: ThreadId, key: Lsn, id: ObjectId)
    | ScanLost(thread: ThreadId, key: Lsn, id: ObjectId)
    | Forget(thread: ThreadId)
    | Remove(thread: ThreadId, key: Lsn)
    | Release(thread: ThreadId, key: Lsn)
    | End(thread: ThreadId)
    | Delete(key: Lsn)
    | Crash
    | Restart

  /** When an action can be taken. These are control flow and scheduling, never a check that the
      program does not make; the only hypothesis is that sequence numbers stay below the bit. */
  ghost predicate Enabled(s: State, a: Action) {
    match a
    case StartWrite(f) =>
      && f.WellFormed() && !f.IsGc() && f.base == s.nextLsn && f.objects == |f.locs| && f.lost == map[]
      && f.base + f.len + 1 <= NEW_WRITE_BATCH_BIT
    case StartGc(t, f) =>
      && f.WellFormed() && f.IsGc() && f.base == s.nextLsn && f.objects == |f.locs| && f.lost == map[]
      && f.base + f.len + 1 <= NEW_WRITE_BATCH_BIT
      && t in s.passes && f.locs.Keys <= s.passes[t].scanned.Keys
      && f.vals.Items <= s.passes[t].batch.Items
    case Install(k, o) => k in s.writes && o in s.writes[k].todo && s.writes[k].phase == Installing
    case Rename(k) =>
      && k in s.writes && s.writes[k].phase == Installing && s.writes[k].todo == {}
      && k in s.files && Trailer(s, k).locs != map[]
    case Decrement(k, o) => k in s.writes && s.writes[k].phase == Renamed && o in s.writes[k].replaced
    case SetPath(k) => k in s.writes && s.writes[k].phase == Renamed && s.writes[k].replaced == map[]
    case SetMetadata(k) => k in s.writes && s.writes[k].phase == Pathed
    case Subtract(k) => k in s.writes && s.writes[k].phase == Described
    case Finish(k) => k in s.writes && s.writes[k].phase == Settled
    case AbortGc(k) =>
      && k in s.writes && s.writes[k].phase == Installing && s.writes[k].todo == {}
      && k in s.files && Trailer(s, k).locs == map[]
    case Begin(t) => t !in s.passes
    case LookFragmented(t, k) => t in s.passes && k in s.described && k in s.live && s.live[k] != 0
    case LookEmpty(t, k) => t in s.passes && k in s.pathed && k in s.live && s.live[k] == 0
    case Claim(t) => t in s.passes && s.passes[t].look != Nothing
    case Scan(t, k, o) =>
      t in s.passes && k in s.passes[t].claims && k in s.described && k in s.files && o in s.files[k].locs
    case ScanLost(t, k, o) =>
      t in s.passes && k in s.passes[t].claims && k in s.described && k in s.files && o in s.files[k].lost
    case Forget(t) => t in s.passes
    case Remove(t, k) => t in s.passes && k in s.passes[t].empties
    case Release(t, k) => t in s.passes && k in s.passes[t].claims && k !in s.passes[t].empties
    case End(t) => t in s.passes && s.passes[t].claims == {}
    case Delete(k) => k in s.files && k in s.live && k !in s.present && k !in s.writes
    case Crash => NextLsn(s.disk) <= NEW_WRITE_BATCH_BIT
    case Restart => s.writes == map[] && s.passes == map[] && NextLsn(Surviving(s)) <= NEW_WRITE_BATCH_BIT
  }

  ghost function Apply(s: State, a: Action): State
    requires Enabled(s, a)
  {
    if OfPass(a) then ApplyPass(s, a)
    else if OfWrite(a) then ApplyWrite(s, a)
    else match a
    case StartWrite(f) => DoStart(s, f, map[])
    case StartGc(t, f) => DoStart(s, f, s.passes[t].scanned)
    case Install(k, o) => DoInstall(s, k, o)
    case Delete(k) =>
      if s.live[k] != 0 then s
      else s.(disk := s.disk - {k}, panicked := s.panicked || k !in s.pathed)
    case Crash => Recovered(s, s.disk)
    case Restart => Recovered(s, Surviving(s))
  }

  /** Steps of a write after its objects are installed. */
  predicate OfWrite(a: Action) {
    a.Rename? || a.Decrement? || a.SetPath? || a.SetMetadata? || a.Subtract? || a.Finish? || a.AbortGc?
  }

  ghost function ApplyWrite(s: State, a: Action): (s': State)
    requires Enabled(s, a) && OfWrite(a)
    ensures s'.table == s.table && s'.files == s.files && s'.adds == s.adds && s'.removes == s.removes
    ensures s'.nextLsn == s.nextLsn && s'.passes == s.passes
    ensures !a.Rename? ==> s'.disk == s.disk && s'.history == s.history
    ensures s'.present == if a.AbortGc? then s.present - {a.key} else s.present
    ensures s'.pathed == if a.AbortGc? || a.SetPath? then s.pathed + {a.key} else s.pathed
    ensures a.key in s.writes
    ensures s'.writes == s.writes - {a.key} || (a.key in s'.writes && s'.writes == s.writes[a.key := s'.writes[a.key]])
    ensures a.key in s'.writes ==>
      s'.writes[a.key].phase != Installing && s'.writes[a.key].scanned == s.writes[a.key].scanned
  {
    match a
    case Rename(k) => DoRename(s, k)
    case Decrement(k, o) => DoDecrement(s, k, o)
    case SetPath(k) => s.(
      pathed := s.pathed + {k}, writes := s.writes[k := s.writes[k].(phase := Pathed)],
      panicked := s.panicked || k !in s.present || k in s.pathed)
    case SetMetadata(k) => s.(
      described := s.described + {k}, writes := s.writes[k := s.writes[k].(phase := Described)],
      panicked := s.panicked || k in s.described)
    case Subtract(k) => DoSubtract(s, k)
    case Finish(k) => s.(
      claimed := if k in s.present then s.claimed - {k} else s.claimed,
      writes := s.writes - {k},
      panicked := s.panicked || (k in s.present && k !in s.claimed))
    case AbortGc(k) => s.(
      present := s.present - {k}, live := s.live[k := 0], pathed := s.pathed + {k},
      writes := s.writes - {k},
      panicked := s.panicked || k !in s.present || k in s.pathed)
  }

  /** Steps of a maintenance pass other than starting a rewrite. */
  predicate OfPass(a: Action) {
    a.Begin? || a.LookFragmented? || a.LookEmpty? || a.Claim? || a.Scan? || a.ScanLost? || a.Forget? || a.Remove?
      || a.Release? || a.End?
  }

  ghost function ApplyPass(s: State, a: Action): (s': State)
    requires Enabled(s, a) && OfPass(a)
    ensures s' == s.(passes := s'.passes, claimed := s'.claimed, present := s'.present, panicked := s'.panicked)
    ensures s'.present == if a.Remove? then s.present - {a.key} else s.present
  {
    match a
    case Begin(t) => s.(passes := s.passes[t := Maintenance(Nothing, {}, {}, map[], map[])])
    case LookFragmented(t, k) => s.(passes := s.passes[t := s.passes[t].(look := Fragmented(k))])
    case LookEmpty(t, k) => s.(passes := s.passes[t := s.passes[t].(look := Empty(k))])
    case Claim(t) => DoClaim(s, t)
    case Scan(t, k, o) => DoScan(s, t, k, o)
    case ScanLost(t, k, o) => DoScanLost(s, t, k, o)
    case Forget(t) => s.(passes := s.passes[t := s.passes[t].(scanned := map[], batch := map[])])
    case Remove(t, k) => s.(
      present := s.present - {k},
      passes := s.passes[t := s.passes[t].(empties := s.passes[t].empties - {k})],
      panicked := s.panicked || k !in s.present)
    case Release(t, k) => s.(
      claimed := if k in s.present then s.claimed - {k} else s.claimed,
      passes := s.passes[t := s.passes[t].(claims := s.passes[t].claims - {k})],
      panicked := s.panicked || (k in s.present && k !in s.claimed))
    case End(t) => s.(passes := s.passes - {t})
  }

  // ---------------------------------------------------------------- write path

  /** `FileMap::insert`: the reserved range and the new entry of the file map. */
  ghost function DoStart(s: State, f: File, scanned: map<ObjectId, Loc>): State {
    var k := f.Key();
    s.(files := s.files[k := f], present := s.present + {k}, live := s.live[k := |f.locs|],
       claimed := s.claimed + {k}, nextLsn := s.nextLsn + f.len + 1,
       writes := s.writes[k := Write(scanned, f.locs.Keys, map[], {}, Installing)],
       panicked := s.panicked || k in s.present || k == 0)
  }

  /** One object's turn: `cas` from the scanned location, or `fetch_max` for a fresh write. */
  ghost function DoInstall(s: State, k: Lsn, o: ObjectId): (s': State)
    requires k in s.writes
    ensures s' == s.(table := s'.table, writes := s'.writes, adds := s'.adds, removes := s'.removes,
      panicked := s'.panicked)
  {
    if k !in s.files || o !in s.files[k].locs then s.(panicked := true) else
    var w := s.writes[k].(todo := s.writes[k].todo - {o});
    var there := Loc(k, s.files[k].locs[o]);
    if o in w.scanned then
      if o in s.table && Raw(s.table[o]) == Raw(w.scanned[o])
      then Replace(s, k, o, w, there, Some(w.scanned[o]))
      else s.(writes := s.writes[k := w.(failed := w.failed + {o})],
              panicked := s.panicked || o !in s.table)
    else if o !in s.table then Replace(s, k, o, w, there, None)
    else if Raw(s.table[o]) < Raw(there) then Replace(s, k, o, w, there, Some(s.table[o]))
    else s.(writes := s.writes[k := w.(failed := w.failed + {o})],
            panicked := s.panicked || Raw(s.table[o]) == Raw(there))
  }

  /** A successful installation: the table cell, the list of replaced locations, and the debug
      history with its assertions. */
  ghost function Replace(s: State, k: Lsn, o: ObjectId, w: Write, there: Loc, was: Option<Loc>): State {
    var removed := if was.Some? then {(o, was.value)} else {};
    s.(table := s.table[o := there],
       writes := s.writes[k := if was.Some? then w.(replaced := w.replaced[o := was.value]) else w],
       adds := s.adds + {(o, there)},
       removes := s.removes + removed,
       panicked := s.panicked || (o, there) in s.removes || (o, there) in s.adds
                   || !(removed <= s.adds) || removed * s.removes != {})
  }

  /** The file as it will be read back: objects that maintenance failed to install are not in
      the trailer, objects that a fresh write failed to install are. */
  function Trailer(s: State, k: Lsn): File
    requires k in s.files && k in s.writes
  {
    if s.files[k].IsGc() then s.files[k].Without(s.writes[k].failed) else s.files[k]
  }

  ghost function DoRename(s: State, k: Lsn): State
    requires k in s.files && k in s.writes
  {
    var f := s.files[k];
    s.(disk := s.disk[k := Trailer(s, k)],
       writes := s.writes[k := s.writes[k].(phase := Renamed)],
       history := if f.IsGc() then s.history else s.history[f.base := f.vals])
  }

  /** The file map searched downwards from a location: the greatest key at or below it. */
  predicate IsPredecessor(keys: set<Lsn>, raw: nat, k: Lsn) {
    k in keys && 2 * k <= raw && forall j :: j in keys && 2 * j <= raw ==> j <= k
  }

  ghost function DoDecrement(s: State, k: Lsn, o: ObjectId): (s': State)
    requires k in s.writes && o in s.writes[k].replaced
    ensures s' == s.(writes := s.writes[k := s.writes[k].(replaced := s.writes[k].replaced - {o})], live := s'.live,
      panicked := s'.panicked)
  {
    var raw := Raw(s.writes[k].replaced[o]);
    var s' := s.(writes := s.writes[k := s.writes[k].(replaced := s.writes[k].replaced - {o})]);
    if j :| IsPredecessor(s.present, raw, j) && j in s.live
    then s'.(live := s.live[j := s.live[j] - 1], panicked := s.panicked || j == k || s.live[j] < 1)
    else s'.(panicked := true)
  }

  ghost function DoSubtract(s: State, k: Lsn): State
    requires k in s.writes
  {
    var w := s.writes[k];
    if k !in s.live then s.(panicked := true) else
    s.(live := s.live[k := s.live[k] - |w.failed|],
       writes := s.writes[k := w.(failed := {}, phase := Settled)],
       panicked := s.panicked || s.live[k] < |w.failed|)
  }

  // ---------------------------------------------------------------- maintenance

  /** `rewrite_claim.swap(true)` on the file last looked at, however long ago that was. */
  ghost function DoClaim(s: State, t: ThreadId): (s': State)
    requires t in s.passes && s.passes[t].look != Nothing
    ensures s' == s.(passes := s'.passes, claimed := s'.claimed)
  {
    var m := s.passes[t];
    var k := m.look.file;
    var m' :=
      if k in s.claimed then m
      else m.(claims := m.claims + {k}, empties := if m.look.Empty? then m.empties + {k} else m.empties);
    s.(claimed := s.claimed + {k}, passes := s.passes[t := m'.(look := Nothing)])
  }

  ghost function DoScan(s: State, t: ThreadId, k: Lsn, o: ObjectId): (s': State)
    requires t in s.passes && k in s.files && o in s.files[k].locs
    ensures s' == s.(passes := s'.passes, panicked := s'.panicked)
  {
    var m := s.passes[t];
    var here := Loc(k, s.files[k].locs[o]);
    if o !in s.table || k !in s.pathed then s.(panicked := true)
    else if Raw(s.table[o]) != Raw(here) || o !in s.files[k].vals then s
    else s.(passes := s.passes[t := m.(scanned := m.scanned[o := here], batch := m.batch[o := s.files[k].vals[o]])])
  }

  /** The scan of a record without a trailer entry: it goes like any other. */
  ghost function DoScanLost(s: State, t: ThreadId, k: Lsn, o: ObjectId): (s': State)
    requires t in s.passes && k in s.files && o in s.files[k].lost
    ensures s' == s.(passes := s'.passes, panicked := s'.panicked)
  {
    var m := s.passes[t];
    var here := Loc(k, s.files[k].lost[o].rel);
    if o !in s.table || k !in s.pathed then s.(panicked := true)
    else if Raw(s.table[o]) != Raw(here) then s
    else s.(passes := s.passes[t := m.(scanned := m.scanned[o := here],
      batch := m.batch[o := Some(s.files[k].lost[o].data)])])
  }

  // ---------------------------------------------------------------- recovery

  ghost predicate IsLatest(disk: map<Lsn, File>, o: ObjectId, k: Lsn) {
    && k in disk && o in disk[k].locs
    && forall j :: j in disk && o in disk[j].locs ==> disk[j].base <= disk[k].base
  }

  /** What recovery reads back: for every object its entry in the file highest in masked order. */
  ghost function RecoveredTable(disk: map<Lsn, File>): map<ObjectId, Loc> {
    map o | o in Objects(disk) && (exists k :: IsLatest(disk, o, k)) ::
      var k :| IsLatest(disk, o, k); Loc(k, disk[k].locs[o])
  }

  ghost function Objects(disk: map<Lsn, File>): set<ObjectId> {
    set k, o | k in disk && o in disk[k].locs :: o
  }

  ghost function MaxOf(xs: set<nat>): (m: nat)
    ensures forall x :: x in xs ==> x <= m
    ensures xs != {} ==> m in xs
    ensures xs == {} ==> m == 0
  {
    if xs == {} then 0 else
    var x :| x in xs;
    var rest := MaxOf(xs - {x});
    assert xs == (xs - {x}) + {x};
    if x <= rest then rest else x
  }

  ghost function Bases(disk: map<Lsn, File>): set<nat> { set k | k in disk :: disk[k].base }

  ghost function Sizes(disk: map<Lsn, File>): set<nat> { set k | k in disk :: disk[k].size }

  ghost function NextLsn(disk: map<Lsn, File>): nat {
    MaxOf(Bases(disk)) + MaxOf(Sizes(disk)) + 1
  }

  /** What is left on disk after a clean shutdown: dropping the store deletes empty files. */
  ghost function Surviving(s: State): map<Lsn, File> {
    map k | k in s.disk && !(k in s.live && s.live[k] == 0) :: s.disk[k]
  }

  /** Recovery's assertion: whatever two files say about one object, the file that comes later
      in masked order says it at a higher masked location. */
  ghost predicate MonotonicOrder(disk: map<Lsn, File>) {
    forall j, k, o ::
      j in disk && k in disk && j != k && o in disk[j].locs && o in disk[k].locs && disk[j].base <= disk[k].base
      ==> disk[j].base + disk[j].locs[o].offset < disk[k].base + disk[k].locs[o].offset
  }

  /** The table entries that the search through `keys` attributes to the file `k`. */
  ghost function Attributed(table: map<ObjectId, Loc>, keys: set<Lsn>, k: Lsn): set<ObjectId> {
    set o | o in table && IsPredecessor(keys, Raw(table[o]), k)
  }

  /** `Config::open` on the files of `disk`. */
  ghost function Recovered(s: State, disk: map<Lsn, File>): State {
    var table := RecoveredTable(disk);
    State(table, disk, disk.Keys, map k | k in disk :: |Attributed(table, disk.Keys, k)|,
          {}, disk.Keys, disk.Keys, NextLsn(disk), map[], map[], disk, s.history,
          set o | o in table :: (o, table[o]), {},
          s.panicked || !MonotonicOrder(disk)
          || exists o :: o in table && forall k :: !IsPredecessor(disk.Keys, Raw(table[o]), k))
  }

  // ---------------------------------------------------------------- runs

  ghost function Initial(): State {
    State(map[], map[], {}, map[], {}, {}, {}, 1, map[], map[], map[], map[], {}, {}, false)
  }

  /** `states` is a run of `actions` from the empty store. */
  ghost predicate IsRun(states: seq<State>, actions: seq<Action>) {
    && |states| == |actions| + 1
    && states[0] == Initial()
    && forall i :: 0 <= i < |actions| ==>
         Enabled(states[i], actions[i]) && states[i + 1] == Apply(states[i], actions[i])
  }

  /** The abstract map: the value each object reads as. */
  ghost function View(s: State): Batch {
    map o | o in s.table && s.table[o].file in s.files && o in s.files[s.table[o].file].vals
      :: s.files[s.table[o].file].vals[o]
  }
}
