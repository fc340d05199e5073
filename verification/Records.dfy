/** The object section of a storage file: each object is a 20-byte header (checksum, object id,
    stored length) followed by its stored bytes; deletions have no record. */
module Records {
  import opened Basics
  import opened DiskLocations
  import opened Trailers

  const HEADER_LEN: nat := 20

  datatype Record = Record(id: nat, stored: Bytes)

  predicate Fits(r: Record) { r.id < U64 && |r.stored| < U64 }

  /** The checksum covers the length, the id and the stored bytes, in this order. */
  function Digest(crc: Checksum, id: Bytes, len: Bytes, stored: Bytes): Bytes {
    ToLe(crc(len + id + stored), 4)
  }

  function RecordBytes(crc: Checksum, r: Record): (b: Bytes)
    ensures |b| == HEADER_LEN + |r.stored|
  {
    var id, len := ToLe(r.id, 8), ToLe(|r.stored|, 8);
    Digest(crc, id, len, r.stored) + id + len + r.stored
  }

  function Stream(crc: Checksum, rs: seq<Record>): Bytes {
    if rs == [] then [] else Stream(crc, rs[..|rs| - 1]) + RecordBytes(crc, rs[|rs| - 1])
  }

  /** Where record `i` starts. */
  function Offset(rs: seq<Record>, i: nat): nat
    requires i <= |rs|
  {
    if i == 0 then 0 else Offset(rs, i - 1) + HEADER_LEN + |rs[i - 1].stored|
  }

  lemma {:induction false} OffsetOfPrefix(rs: seq<Record>, more: seq<Record>, i: nat)
    requires i <= |rs|
    ensures Offset(rs + more, i) == Offset(rs, i)
  {
    if i > 0 { OffsetOfPrefix(rs, more, i - 1); }
  }

  /** Record `i` occupies the bytes between its offset and the next. */
  lemma {:induction false} RecordsLie(crc: Checksum, rs: seq<Record>, i: nat)
    requires i < |rs|
    ensures |Stream(crc, rs)| == Offset(rs, |rs|)
    ensures Offset(rs, i) + HEADER_LEN + |rs[i].stored| == Offset(rs, i + 1) <= Offset(rs, |rs|)
    ensures Stream(crc, rs)[Offset(rs, i)..Offset(rs, i + 1)] == RecordBytes(crc, rs[i])
  {
    var n := |rs| - 1;
    var front, last := rs[..n], RecordBytes(crc, rs[n]);
    assert Stream(crc, rs) == Stream(crc, front) + last;
    assert Offset(rs, |rs|) == Offset(rs, n) + |last|;
    hide RecordBytes, Stream;
    StreamLength(crc, front);
    StreamLength(crc, rs);
    assert front + [rs[n]] == rs;
    OffsetOfPrefix(front, [rs[n]], n);
    if i < n {
      RecordsLie(crc, front, i);
      OffsetOfPrefix(front, [rs[n]], i);
      OffsetOfPrefix(front, [rs[n]], i + 1);
    }
  }

  lemma {:induction false} StreamLength(crc: Checksum, rs: seq<Record>)
    ensures |Stream(crc, rs)| == Offset(rs, |rs|)
  {
    if rs != [] {
      var n := |rs| - 1;
      StreamLength(crc, rs[..n]);
      assert rs[..n] + [rs[n]] == rs;
      OffsetOfPrefix(rs[..n], [rs[n]], n);
    }
  }

  // ---------------------------------------------------------------- reading one record

  /** What a reader finds at an offset: the file ends too early, the checksum does not match, or a
      record. */
  datatype Found = Short | BadCrc | Found(record: Record)

  function RecordAt(crc: Checksum, file: Bytes, offset: nat): (f: Found)
    ensures f.Found? ==> offset + HEADER_LEN + |f.record.stored| <= |file|
  {
    if offset + HEADER_LEN > |file| then Short else
    var header := file[offset..offset + HEADER_LEN];
    var len := FromLe(header[12..20]);
    if offset + HEADER_LEN + len > |file| then Short else
    var stored := file[offset + HEADER_LEN..offset + HEADER_LEN + len];
    if header[..4] != Digest(crc, header[4..12], header[12..20], stored) then BadCrc
    else Found(Record(FromLe(header[4..12]), stored))
  }

  /** A record is found exactly where its bytes are. */
  lemma RecordThere(crc: Checksum, file: Bytes, offset: nat, r: Record)
    ensures RecordAt(crc, file, offset) == Found(r) <==>
      Fits(r) && offset + HEADER_LEN + |r.stored| <= |file|
      && file[offset..offset + HEADER_LEN + |r.stored|] == RecordBytes(crc, r)
  {
    hide FromLe, ToLe;
    if RecordAt(crc, file, offset) == Found(r) {
      var header := file[offset..offset + HEADER_LEN];
      Word64(0, header[4..12]);
      Word64(0, header[12..20]);
      HeaderPieces(file, offset, |r.stored|);
      assert ToLe(r.id, 8) == header[4..12] && ToLe(|r.stored|, 8) == header[12..20];
    }
    if Fits(r) && offset + HEADER_LEN + |r.stored| <= |file|
       && file[offset..offset + HEADER_LEN + |r.stored|] == RecordBytes(crc, r)
    {
      WrittenPieces(crc, file, offset, r);
      Word64(r.id, []);
      Word64(|r.stored|, []);
    }
  }

  /** What the checksum covers: the length, the id and all stored bytes. Wherever a whole record fits, it is
      found if its first four bytes are the checksum of the others in this order, and refused if not. */
  lemma ChecksumCovers(crc: Checksum, b: Bytes, x: nat)
    requires x + 20 <= |b| && x + 20 + FromLe(b[x + 12..x + 20]) <= |b|
    ensures var stored := b[x + 20..x + 20 + FromLe(b[x + 12..x + 20])];
      RecordAt(crc, b, x) ==
        if b[x..x + 4] == ToLe(crc(b[x + 12..x + 20] + b[x + 4..x + 12] + stored), 4)
        then Found(Record(FromLe(b[x + 4..x + 12]), stored)) else BadCrc
  {
    hide FromLe, ToLe;
    HeaderSlices(b, x);
  }

  /** Object `id` as it lies in a section: the checksum, the id, the stored length, the stored bytes. */
  lemma RecordLies(crc: Checksum, rs: seq<Record>, b: Bytes, i: nat)
    requires i < |rs| && Stream(crc, rs) <= b
    ensures var x, len := Offset(rs, i), ToLe(|rs[i].stored|, 8);
      && x + 20 + |rs[i].stored| <= |b|
      && b[x..x + 4] == ToLe(crc(len + ToLe(rs[i].id, 8) + rs[i].stored), 4)
      && b[x + 4..x + 12] == ToLe(rs[i].id, 8) && b[x + 12..x + 20] == len
      && b[x + 20..x + 20 + |rs[i].stored|] == rs[i].stored
  {
    hide ToLe, Offset, RecordBytes, Stream;
    var x, r := Offset(rs, i), rs[i];
    RecordsLie(crc, rs, i);
    SamePrefix(Stream(crc, rs), b, x, Offset(rs, i + 1));
    WrittenPieces(crc, b, x, r);
    HeaderSlices(b, x);
  }

  lemma SamePrefix(a: Bytes, b: Bytes, x: nat, y: nat)
    requires a <= b && x <= y <= |a|
    ensures b[x..y] == a[x..y]
  {
  }

  lemma HeaderSlices(b: Bytes, x: nat)
    requires x + 20 <= |b|
    ensures var h := b[x..x + 20];
      h[..4] == b[x..x + 4] && h[4..12] == b[x + 4..x + 12] && h[12..20] == b[x + 12..x + 20]
  {
    SubSlice(b, x, x + 20, 0, 4);
    SubSlice(b, x, x + 20, 4, 12);
    SubSlice(b, x, x + 20, 12, 20);
  }

  lemma HeaderPieces(file: Bytes, offset: nat, len: nat)
    requires offset + HEADER_LEN + len <= |file|
    ensures var h := file[offset..offset + HEADER_LEN];
      file[offset..offset + HEADER_LEN + len]
      == h[..4] + h[4..12] + h[12..20] + file[offset + HEADER_LEN..offset + HEADER_LEN + len]
  {
    var h, all := file[offset..offset + HEADER_LEN], file[offset..offset + HEADER_LEN + len];
    assert h == h[..4] + h[4..12] + h[12..20];
    assert all == all[..HEADER_LEN] + all[HEADER_LEN..];
  }

  lemma WrittenPieces(crc: Checksum, file: Bytes, offset: nat, r: Record)
    requires offset + HEADER_LEN + |r.stored| <= |file|
    requires file[offset..offset + HEADER_LEN + |r.stored|] == RecordBytes(crc, r)
    ensures var h := file[offset..offset + HEADER_LEN];
      && h[4..12] == ToLe(r.id, 8) && h[12..20] == ToLe(|r.stored|, 8)
      && file[offset + HEADER_LEN..offset + HEADER_LEN + |r.stored|] == r.stored
      && h[..4] == Digest(crc, ToLe(r.id, 8), ToLe(|r.stored|, 8), r.stored)
  {
    hide ToLe, Digest;
    var b := RecordBytes(crc, r);
    var h := file[offset..offset + HEADER_LEN];
    assert h == b[..HEADER_LEN];
    assert b[..4] == Digest(crc, ToLe(r.id, 8), ToLe(|r.stored|, 8), r.stored);
    assert b[4..12] == ToLe(r.id, 8) && b[12..20] == ToLe(|r.stored|, 8) && b[20..] == r.stored;
    assert file[offset + HEADER_LEN..offset + HEADER_LEN + |r.stored|] == b[HEADER_LEN..];
  }

  /** Every record of a stream is found at its offset. */
  lemma StreamReadsBack(crc: Checksum, rs: seq<Record>, file: Bytes, i: nat)
    requires i < |rs| && Fits(rs[i]) && Stream(crc, rs) <= file
    ensures RecordAt(crc, file, Offset(rs, i)) == Found(rs[i])
  {
    RecordsLie(crc, rs, i);
    RecordThere(crc, file, Offset(rs, i), rs[i]);
    assert file[Offset(rs, i)..Offset(rs, i + 1)] == Stream(crc, rs)[Offset(rs, i)..Offset(rs, i + 1)];
  }

  // ---------------------------------------------------------------- writing a batch

  datatype Written = TooLarge(id: nat) | Written(data: Bytes, locs: map<nat, Relative>)

  /** Object `id` is recorded as `stored` at `rel`. */
  ghost predicate Recorded(rs: seq<Record>, id: nat, stored: Bytes, rel: Relative) {
    exists i :: 0 <= i < |rs| && rs[i] == Record(id, stored) && rel == Relative(Offset(rs, i), false)
  }

  /** The records `rs` and the locations `locs` hold exactly the objects of `batch`, each stored in
      the form `code` gives it. */
  ghost predicate Laid(code: Bytes -> Bytes, rs: seq<Record>, batch: map<nat, Option<Bytes>>, locs: map<nat,
                       Relative>) {
    && locs.Keys == batch.Keys
    && (forall id :: id in batch && batch[id].None? ==> locs[id] == Relative(0, true))
    && (forall id :: id in batch && batch[id].Some? ==> Recorded(rs, id, code(batch[id].value), locs[id]))
    && (forall i :: 0 <= i < |rs| ==> Describes(rs, i, code, batch, locs))
  }

  ghost predicate Describes(rs: seq<Record>, i: nat, code: Bytes -> Bytes, batch: map<nat,
                            Option<Bytes>>, locs: map<nat, Relative>)
    requires i < |rs|
  {
    var id := rs[i].id;
    && id in batch && batch[id].Some? && rs[i].stored == code(batch[id].value)
    && id in locs && locs[id] == Relative(Offset(rs, i), false)
  }

  lemma LaidDelete(code: Bytes -> Bytes, rs: seq<Record>, batch: map<nat, Option<Bytes>>, locs: map<nat,
                   Relative>, id: nat)
    requires Laid(code, rs, batch, locs) && id !in batch
    ensures Laid(code, rs, batch[id := None], locs[id := Relative(0, true)])
  {
    var batch', locs' := batch[id := None], locs[id := Relative(0, true)];
    forall i | 0 <= i < |rs| ensures Describes(rs, i, code, batch', locs') {
      assert Describes(rs, i, code, batch, locs);
    }
  }

  lemma LaidObject(code: Bytes -> Bytes, rs: seq<Record>, batch: map<nat, Option<Bytes>>, locs: map<nat,
                   Relative>, id: nat, v: Bytes)
    requires Laid(code, rs, batch, locs) && id !in batch
    ensures Laid(code, rs + [Record(id, code(v))], batch[id := Some(v)], locs[id := Relative(Offset(rs, |rs|), false)])
  {
    hide Offset;
    var rs', batch', locs' := rs + [Record(id, code(v))], batch[id := Some(v)],
      locs[id := Relative(Offset(rs, |rs|), false)];
    forall i | 0 <= i < |rs'| ensures Describes(rs', i, code, batch', locs') {
      OffsetOfPrefix(rs, [Record(id, code(v))], i);
      if i < |rs| { assert Describes(rs, i, code, batch, locs); }
    }
    forall o | o in batch' && batch'[o].Some? ensures Recorded(rs', o, code(batch'[o].value), locs'[o]) {
      if o == id {
        OffsetOfPrefix(rs, [Record(id, code(v))], |rs|);
        assert rs'[|rs|] == Record(id, code(v));
      } else {
        assert Recorded(rs, o, code(batch[o].value), locs[o]);
        var i :| 0 <= i < |rs| && rs[i] == Record(o, code(batch[o].value)) && locs[o] == Relative(Offset(rs, i), false);
        OffsetOfPrefix(rs, [Record(id, code(v))], i);
        assert rs'[i] == rs[i];
      }
    }
  }

  /** What the space is, object by object. */
  lemma SpaceIs(code: Bytes -> Bytes, b: map<nat, Option<Bytes>>, id: nat, v: Bytes)
    requires id !in b
    ensures Space(code, map[]) == 0
    ensures Space(code, b[id := None]) == Space(code, b)
    ensures Space(code, b[id := Some(v)]) == Space(code, b) + 20 + |code(v)|
  {
    hide Space;
    SpaceInsert(code, b, id, None);
    SpaceInsert(code, b, id, Some(v));
    assert Space(code, map[]) == 0 by { NothingLaid(code); }
  }

  function RecordSpace(code: Bytes -> Bytes, data: Option<Bytes>): nat {
    if data.Some? then HEADER_LEN + |code(data.value)| else 0
  }

  /** Bytes that the records of a batch take. */
  ghost function Space(code: Bytes -> Bytes, batch: map<nat, Option<Bytes>>): nat {
    if batch == map[] then 0 else
    assert batch.Keys != {};
    var id :| id in batch;
    RecordSpace(code, batch[id]) + Space(code, batch - {id})
  }

  lemma SomeFirst(code: Bytes -> Bytes, b: map<nat, Option<Bytes>>) returns (first: nat)
    requires b != map[]
    ensures first in b && Space(code, b) == RecordSpace(code, b[first]) + Space(code, b - {first})
  {
    assert b.Keys != {};
    first :| first in b && Space(code, b) == RecordSpace(code, b[first]) + Space(code, b - {first});
  }

  lemma Smaller(b: map<nat, Option<Bytes>>, id: nat)
    requires id in b
    ensures |b - {id}| < |b|
  {
    assert b.Keys == (b - {id}).Keys + {id};
    assert |(b - {id}).Keys| < |b.Keys|;
  }

  lemma {:induction false} SpaceWithout(code: Bytes -> Bytes, b: map<nat, Option<Bytes>>, id: nat)
    requires id in b
    ensures Space(code, b) == RecordSpace(code, b[id]) + Space(code, b - {id})
    decreases |b|
  {
    hide Space, RecordSpace;
    var first := SomeFirst(code, b);
    if first != id {
      Smaller(b, first);
      Smaller(b, id);
      SpaceWithout(code, b - {first}, id);
      SpaceWithout(code, b - {id}, first);
      assert b - {first} - {id} == b - {id} - {first};
    }
  }

  lemma SpaceInsert(code: Bytes -> Bytes, b: map<nat, Option<Bytes>>, id: nat, data: Option<Bytes>)
    ensures id !in b ==> Space(code, b[id := data]) == Space(code, b) + RecordSpace(code, data)
    ensures id in b ==>
      Space(code, b[id := data]) == Space(code, b) - RecordSpace(code, b[id]) + RecordSpace(code, data)
  {
    SpaceWithout(code, b[id := data], id);
    assert b[id := data] - {id} == b - {id};
    if id in b { SpaceWithout(code, b, id); } else { assert b - {id} == b; }
  }

  predicate Oversized(batch: map<nat, Option<Bytes>>, maxSize: nat, id: nat) {
    id in batch && batch[id].Some? && |batch[id].value| > maxSize
  }

  /** The record loop of `write_batch_inner`: objects are written in the unspecified order of the
      map, and an object over the size limit ends the write. */
  method WriteRecords(crc: Checksum, code: Bytes -> Bytes, maxSize: nat, batch: map<nat, Option<Bytes>>)
    returns (w: Written, ghost rs: seq<Record>)
    ensures w.Written? ==> w.data == Stream(crc, rs) && Laid(code, rs, batch, w.locs) && |w.data| == Space(code, batch)
    ensures w.TooLarge? ==> Oversized(batch, maxSize, w.id)
    ensures w.TooLarge? <==> exists id :: Oversized(batch, maxSize, id)
    ensures w.TooLarge? ==> w.id in batch && batch[w.id].Some? && |batch[w.id].value| > maxSize
    ensures w.TooLarge? <==> exists id :: id in batch && batch[id].Some? && |batch[id].value| > maxSize
    ensures w.Written? ==> forall id :: id in batch && batch[id].None? ==>
      id in w.locs && w.locs[id] == Relative(0, true)
    ensures w.Written? ==> forall id :: id in batch && batch[id].Some? ==>
      && id in w.locs && !w.locs[id].isDelete
      && var x, out := w.locs[id].offset, code(batch[id].value);
         && x + 20 + |out| <= |w.data|
         && w.data[x..x + 4] == ToLe(crc(ToLe(|out|, 8) + ToLe(id, 8) + out), 4)
         && w.data[x + 4..x + 12] == ToLe(id, 8) && w.data[x + 12..x + 20] == ToLe(|out|, 8)
         && w.data[x + 20..x + 20 + |out|] == out
  {
    hide Laid, Offset, RecordBytes, Space;
    var data: Bytes := [];
    var locs: map<nat, Relative> := map[];
    var rest := batch;
    ghost var done: map<nat, Option<Bytes>> := map[];
    rs := [];
    NothingLaid(code);
    while rest != map[]
      invariant Partition(batch, done, rest)
      invariant data == Stream(crc, rs) && |data| == Offset(rs, |rs|) && Laid(code, rs, done, locs)
      invariant |data| == Space(code, done)
      invariant forall id :: id in done ==> !Oversized(batch, maxSize, id)
      decreases rest.Keys
    {
      assert rest.Keys != {};
      var id :| id in rest;
      SpaceInsert(code, done, id, rest[id]);
      if rest[id].None? {
        LaidDelete(code, rs, done, locs, id);
        locs := locs[id := Relative(0, true)];
      } else {
        var raw := rest[id].value;
        if |raw| > maxSize {
          assert Oversized(batch, maxSize, id);
          return TooLarge(id), rs;
        }
        LaidObject(code, rs, done, locs, id, raw);
        locs := locs[id := Relative(|data|, false)];
        var out := code(raw);
        var len, idBytes := ToLe(|out|, 8), ToLe(id, 8);
        data := data + (Digest(crc, idBytes, len, out) + idBytes + len + out);
        StreamGrows(crc, rs, Record(id, out));
        rs := rs + [Record(id, out)];
      }
      done := done[id := rest[id]];
      rest := rest - {id};
    }
    assert done == batch;
    w := Written(data, locs);
    assert forall id :: id in batch && batch[id].Some? && |batch[id].value| > maxSize ==> Oversized(batch, maxSize, id);
    forall id | id in batch
      ensures id in locs && (batch[id].None? ==> locs[id] == Relative(0, true))
      ensures batch[id].Some? ==> RecordedIn(crc, data, id, code(batch[id].value), locs[id])
    {
      LaidLies(crc, code, rs, batch, locs, id);
    }
  }

  /** The bytes of object `id`, stored as `out`, are where `rel` says. */
  predicate RecordedIn(crc: Checksum, b: Bytes, id: nat, out: Bytes, rel: Relative) {
    var x := rel.offset;
    && !rel.isDelete && x + 20 + |out| <= |b|
    && b[x..x + 4] == ToLe(crc(ToLe(|out|, 8) + ToLe(id, 8) + out), 4)
    && b[x + 4..x + 12] == ToLe(id, 8) && b[x + 12..x + 20] == ToLe(|out|, 8) && b[x + 20..x + 20 + |out|] == out
  }

  lemma LaidLies(crc: Checksum, code: Bytes -> Bytes, rs: seq<Record>, batch: map<nat, Option<Bytes>>,
                 locs: map<nat, Relative>, id: nat)
    requires Laid(code, rs, batch, locs) && id in batch
    ensures id in locs && (batch[id].None? ==> locs[id] == Relative(0, true))
    ensures batch[id].Some? ==> RecordedIn(crc, Stream(crc, rs), id, code(batch[id].value), locs[id])
  {
    hide Describes, Stream, Offset, ToLe;
    if batch[id].Some? {
      assert Recorded(rs, id, code(batch[id].value), locs[id]);
      var out := code(batch[id].value);
      var i :| 0 <= i < |rs| && rs[i] == Record(id, out) && locs[id] == Relative(Offset(rs, i), false);
      RecordLies(crc, rs, Stream(crc, rs), i);
    }
  }

  ghost predicate Partition(batch: map<nat, Option<Bytes>>, done: map<nat, Option<Bytes>>,
                            rest: map<nat, Option<Bytes>>) {
    batch.Keys == done.Keys + rest.Keys && done.Keys !! rest.Keys
    && (forall id :: id in done ==> done[id] == batch[id]) && (forall id :: id in rest ==> rest[id] == batch[id])
  }

  lemma NothingLaid(code: Bytes -> Bytes)
    ensures Laid(code, [], map[], map[]) && Offset([], 0) == 0 && Space(code, map[]) == 0
  {
  }

  lemma StreamGrows(crc: Checksum, rs: seq<Record>, r: Record)
    ensures Stream(crc, rs + [r]) == Stream(crc, rs) + RecordBytes(crc, r)
    ensures RecordBytes(crc, r) ==
      Digest(crc, ToLe(r.id, 8), ToLe(|r.stored|, 8), r.stored) + ToLe(r.id, 8) + ToLe(|r.stored|, 8) + r.stored
    ensures |Stream(crc, rs + [r])| == Offset(rs + [r], |rs + [r]|)
  {
    hide Digest, ToLe;
    var more := rs + [r];
    assert more[..|more| - 1] == rs && more[|more| - 1] == r;
    StreamLength(crc, more);
  }

  // ---------------------------------------------------------------- scanning a whole file

  datatype Sighting = Sighting(offset: nat, record: Record)

  datatype Scan = Corrupt | Scan(found: seq<Sighting>)

  /** Records from `offset` up to the trailer, as maintenance walks them: the next header follows
      the last object, and a stored length at or over the limit counts as corruption. */
  function ScanFrom(crc: Checksum, maxSize: nat, file: Bytes, offset: nat, end: nat): Scan
    decreases end - offset
  {
    if offset >= end then Scan([]) else
    match RecordAt(crc, file, offset)
    case Found(r) =>
      if |r.stored| >= maxSize then Corrupt else
      (match ScanFrom(crc, maxSize, file, offset + HEADER_LEN + |r.stored|, end)
       case Corrupt => Corrupt
       case Scan(rest) => Scan([Sighting(offset, r)] + rest))
    case _ => Corrupt
  }

  /** The records of a stream, with where they are. */
  function Sightings(rs: seq<Record>, from: nat): seq<Sighting>
    requires from <= |rs|
  {
    seq(|rs| - from, i requires 0 <= i < |rs| - from => Sighting(Offset(rs, from + i), rs[from + i]))
  }

  lemma SightingsNext(rs: seq<Record>, from: nat)
    requires from < |rs|
    ensures Sightings(rs, from) == [Sighting(Offset(rs, from), rs[from])] + Sightings(rs, from + 1)
  {
    hide Offset;
  }

  lemma {:induction false} ScanStreamFrom(crc: Checksum, maxSize: nat, rs: seq<Record>, file: Bytes, from: nat)
    requires from <= |rs| && (forall r :: r in rs ==> Fits(r)) && Stream(crc, rs) <= file
    ensures ScanFrom(crc, maxSize, file, Offset(rs, from), |Stream(crc, rs)|) ==
      if forall i :: from <= i < |rs| ==> |rs[i].stored| < maxSize then Scan(Sightings(rs, from)) else Corrupt
    decreases |rs| - from
  {
    StreamLength(crc, rs);
    if from < |rs| {
      RecordsLie(crc, rs, from);
      StreamReadsBack(crc, rs, file, from);
      hide RecordAt, Stream, RecordBytes, Sightings, Offset;
      if |rs[from].stored| < maxSize {
        ScanStreamFrom(crc, maxSize, rs, file, from + 1);
        SightingsNext(rs, from);
      }
    }
  }

  /** Scanning an object section finds exactly the records that were written, in order, at their
      offsets, and stops at the trailer; unless some record is as long as the limit, which the
      writer allows and the scan refuses. */
  lemma ScanStream(crc: Checksum, maxSize: nat, rs: seq<Record>, file: Bytes)
    requires (forall r :: r in rs ==> Fits(r)) && Stream(crc, rs) <= file
    ensures ScanFrom(crc, maxSize, file, 0, |Stream(crc, rs)|) ==
      if forall r :: r in rs ==> |r.stored| < maxSize then Scan(Sightings(rs, 0)) else Corrupt
  {
    ScanStreamFrom(crc, maxSize, rs, file, 0);
  }

  /** Whole records below the limit, one right after the other from the beginning on, up to `next`; all begin
      before `end`. */
  ghost predicate Tiles(crc: Checksum, maxSize: nat, file: Bytes, end: nat, found: seq<Sighting>, next: nat) {
    && (forall i :: 0 <= i < |found| ==>
         && RecordAt(crc, file, found[i].offset) == Found(found[i].record)
         && |found[i].record.stored| < maxSize && found[i].offset < end
         && found[i].offset == if i == 0 then 0 else found[i - 1].offset + 20 + |found[i - 1].record.stored|)
    && next == if found == [] then 0 else found[|found| - 1].offset + 20 + |found[|found| - 1].record.stored|
  }

  lemma TilesMore(crc: Checksum, maxSize: nat, file: Bytes, end: nat, found: seq<Sighting>, next: nat, r: Record)
    requires Tiles(crc, maxSize, file, end, found, next) && next < end
    requires RecordAt(crc, file, next) == Found(r) && |r.stored| < maxSize
    ensures Tiles(crc, maxSize, file, end, found + [Sighting(next, r)], next + 20 + |r.stored|)
  {
    hide RecordAt;
  }

  /** The record loop of `maintenance`. Whatever the bytes are, it goes from record to record, and takes the
      file for corrupt exactly where there is no whole record below the limit before the end. */
  method ScanRecords(crc: Checksum, maxSize: nat, file: Bytes, end: nat)
    returns (s: Scan, ghost seen: seq<Sighting>, ghost next: nat)
    ensures s == ScanFrom(crc, maxSize, file, 0, end)
    ensures Tiles(crc, maxSize, file, end, seen, next) && s == if next >= end then Scan(seen) else Corrupt
    ensures next < end ==>
      var f := RecordAt(crc, file, next); f.Found? ==> |f.record.stored| >= maxSize
  {
    hide Digest, FromLe, Tiles;
    var offset, found := 0, [];
    seen, next := [], 0;
    assert Tiles(crc, maxSize, file, end, found, 0) by { NoTiles(crc, maxSize, file, end); }
    while offset < end
      invariant seen == found && next == offset && Tiles(crc, maxSize, file, end, found, offset)
      invariant ScanFrom(crc, maxSize, file, 0, end) ==
        match ScanFrom(crc, maxSize, file, offset, end)
        case Corrupt => Corrupt
        case Scan(rest) => Scan(found + rest)
      decreases end - offset
    {
      if |file| - offset < HEADER_LEN {
        return Corrupt, seen, next;
      }
      var header := file[offset..offset + HEADER_LEN];
      var len := FromLe(header[12..20]);
      if len >= maxSize {
        LongIsCorrupt(crc, maxSize, file, offset, end);
        return Corrupt, seen, next;
      }
      if |file| - offset - HEADER_LEN < len {
        return Corrupt, seen, next;
      }
      var stored := file[offset + HEADER_LEN..offset + HEADER_LEN + len];
      if header[0..4] != Digest(crc, header[4..12], header[12..20], stored) {
        return Corrupt, seen, next;
      }
      assert RecordAt(crc, file, offset) == Found(Record(FromLe(header[4..12]), stored));
      hide RecordAt;
      TilesMore(crc, maxSize, file, end, found, offset, Record(FromLe(header[4..12]), stored));
      ghost var before := found;
      found := found + [Sighting(offset, Record(FromLe(header[4..12]), stored))];
      offset := offset + HEADER_LEN + len;
      assert forall rest :: before + ([found[|before|]] + rest) == found + rest;
      seen, next := found, offset;
    }
    s := Scan(found);
  }

  lemma NoTiles(crc: Checksum, maxSize: nat, file: Bytes, end: nat)
    ensures Tiles(crc, maxSize, file, end, [], 0)
  {
  }

  lemma LongIsCorrupt(crc: Checksum, maxSize: nat, file: Bytes, offset: nat, end: nat)
    requires offset < end && offset + HEADER_LEN <= |file|
    requires FromLe(file[offset..offset + HEADER_LEN][12..20]) >= maxSize
    ensures ScanFrom(crc, maxSize, file, offset, end).Corrupt?
  {
    hide Digest, FromLe;
  }
}
