/** Whole storage files: records followed by a trailer, and what each reader gets out of them. */
module Images {
  import opened Basics
  import opened DiskLocations
  import opened Protocol
  import opened Trailers
  import opened Records

  /** The foreign code the store calls: the checksum, and zstd's training, compression and
      decompression. An absent dictionary means objects are stored as they are. */
  datatype Library = Library(crc: Checksum, train: Batch -> Option<Bytes>, compress: (Bytes, Bytes) -> Bytes,
                             decompress: (Bytes, Bytes) -> Bytes)

  /** All that is assumed of it: decompression undoes compression with the same dictionary, and a
      trained dictionary is not empty. */
  ghost predicate Faithful(lib: Library) {
    && (forall d, x :: lib.decompress(d, lib.compress(d, x)) == x)
    && (forall b :: lib.train(b).Some? ==> 0 < |lib.train(b).value| < U64)
  }

  function Encoder(lib: Library, dict: Bytes): Bytes -> Bytes {
    if dict == [] then (x: Bytes) => x else (x: Bytes) => lib.compress(dict, x)
  }

  function Decode(lib: Library, dict: Bytes, stored: Bytes): Bytes {
    if dict == [] then stored else lib.decompress(dict, stored)
  }

  lemma Decodes(lib: Library, dict: Bytes, x: Bytes)
    requires Faithful(lib)
    ensures Decode(lib, dict, Encoder(lib, dict)(x)) == x
  {
  }

  /** What the records of a file say, those without a trailer entry included. */
  function Written(f: File): Batch { (map o | o in f.lost :: Some(f.lost[o].data)) + f.vals }

  function Places(f: File): map<ObjectId, Relative> { (map o | o in f.lost :: f.lost[o].rel) + f.locs }

  /** Bytes `b` are file `f`, with records and trailer entries in these orders. */
  ghost predicate Imaged(lib: Library, b: Bytes, f: File, dict: Bytes, rs: seq<Record>, es: seq<Entry>) {
    && (forall e :: e in es ==> Storable(e)) && (forall r :: r in rs ==> Fits(r)) && |es| < U64 && |dict| < U64
    && b == Stream(lib.crc, rs) + TrailerBytes(lib.crc, es, dict)
    && f.len == |Stream(lib.crc, rs)| && f.size == |b|
    && f.locs.Keys == f.vals.Keys && Lists(es, f.locs) && Laid(Encoder(lib, dict), rs, Written(f), Places(f))
  }

  ghost predicate IsImage(lib: Library, b: Bytes, f: File, dict: Bytes) {
    exists rs, es :: Imaged(lib, b, f, dict, rs, es)
  }

  /** The trailer reader gets the file's locations and its dictionary. */
  lemma ImageTrailer(lib: Library, b: Bytes, f: File, dict: Bytes)
    requires IsImage(lib, b, f, dict)
    ensures f.len <= |b| == f.size
    ensures var p := Parse(lib.crc, b[f.len..]); p.Parsed? && Lists(p.entries, f.locs) && p.dict == dict
  {
    hide Laid, Lists;
    var rs, es :| Imaged(lib, b, f, dict, rs, es);
    TrailerRoundTrip(lib.crc, es, dict);
    hide Parse, TrailerBytes, Stream;
    assert b[f.len..] == TrailerBytes(lib.crc, es, dict);
  }

  /** An object lies at its offset as it is without a dictionary, and compressed with the file's otherwise. */
  lemma ImageStored(lib: Library, b: Bytes, f: File, dict: Bytes, o: ObjectId)
    requires IsImage(lib, b, f, dict) && o in f.vals && f.vals[o].Some?
    ensures o in f.locs && !f.locs[o].isDelete
    ensures var v := f.vals[o].value;
      RecordAt(lib.crc, b, f.locs[o].offset) == Found(Record(o, if dict == [] then v else lib.compress(dict, v)))
  {
    hide Lists, TrailerBytes;
    var rs, es :| Imaged(lib, b, f, dict, rs, es);
    var v := f.vals[o].value;
    assert Encoder(lib, dict)(v) == if dict == [] then v else lib.compress(dict, v);
    hide Encoder;
    assert o in Written(f) && Written(f)[o] == Some(v) && Places(f)[o] == f.locs[o];
    assert Recorded(rs, o, Encoder(lib, dict)(v), f.locs[o]);
    var i :| 0 <= i < |rs| && rs[i] == Record(o, Encoder(lib, dict)(v)) && f.locs[o] == Relative(Offset(rs, i), false);
    StreamReadsBack(lib.crc, rs, b, i);
  }

  /** A tombstone has no record. */
  lemma ImageTombstone(lib: Library, b: Bytes, f: File, dict: Bytes, o: ObjectId)
    requires IsImage(lib, b, f, dict) && o in f.vals && f.vals[o].None?
    ensures o in f.locs && f.locs[o] == Relative(0, true)
  {
    hide Lists, TrailerBytes, Encoder, Stream;
    var rs, es :| Imaged(lib, b, f, dict, rs, es);
    assert o in Written(f) && Written(f)[o] == None && Places(f)[o] == f.locs[o];
  }

  /** Reading at an object's offset gets the object's record, its value once decoded. */
  lemma ImageObject(lib: Library, b: Bytes, f: File, dict: Bytes, o: ObjectId)
    requires IsImage(lib, b, f, dict) && Faithful(lib) && o in f.vals && f.vals[o].Some?
    ensures o in f.locs && !f.locs[o].isDelete
    ensures var found := RecordAt(lib.crc, b, f.locs[o].offset);
      found.Found? && found.record.id == o && Decode(lib, dict, found.record.stored) == f.vals[o].value
  {
    hide IsImage;
    ImageStored(lib, b, f, dict, o);
  }

  /** A sighting of the scan that is an object of file `f`, or a record that `f` has lost. */
  ghost predicate Sees(lib: Library, f: File, dict: Bytes, x: Sighting) {
    var o := x.record.id;
    if o in f.vals then
      && f.vals[o] == Some(Decode(lib, dict, x.record.stored)) && o in f.locs && f.locs[o] == Relative(x.offset, false)
    else
      o in f.lost && f.lost[o] == Stale(Relative(x.offset, false), Decode(lib, dict, x.record.stored))
  }

  /** A scan that meets no record at the size limit sees every object of the file that is not a
      deletion, once, where the trailer says it is, and nothing else but the records it has lost. */
  lemma ImageScan(lib: Library, maxSize: nat, b: Bytes, f: File, dict: Bytes)
    requires IsImage(lib, b, f, dict) && Faithful(lib)
    ensures var scan := ScanFrom(lib.crc, maxSize, b, 0, f.len);
      scan.Scan? ==>
        && (forall x :: x in scan.found ==> Sees(lib, f, dict, x))
        && (forall o :: o in f.vals && f.vals[o].Some? ==> exists x :: x in scan.found && x.record.id == o)
  {
    hide Lists, TrailerBytes, ScanFrom, Stream;
    var rs, es :| Imaged(lib, b, f, dict, rs, es);
    ScanStream(lib.crc, maxSize, rs, b);
    var found := Sightings(rs, 0);
    forall x | x in found ensures Sees(lib, f, dict, x) {
      var i :| 0 <= i < |found| && found[i] == x;
      assert x == Sighting(Offset(rs, i), rs[i]) && Describes(rs, i, Encoder(lib, dict), Written(f), Places(f));
      Decodes(lib, dict, Written(f)[x.record.id].value);
    }
    forall o | o in f.vals && f.vals[o].Some? ensures exists x :: x in found && x.record.id == o {
      assert o in Written(f) && Written(f)[o] == f.vals[o];
      assert Recorded(rs, o, Encoder(lib, dict)(f.vals[o].value), Places(f)[o]);
      var i :| 0 <= i < |rs| && rs[i] == Record(o, Encoder(lib, dict)(f.vals[o].value));
      assert found[i] == Sighting(Offset(rs, i), rs[i]) && found[i] in found;
    }
  }

  /** The scan takes a file for corrupt if and only if some object, lost ones included, is stored in as many
      bytes as the limit allows an object to have, or more. */
  lemma ImageReadable(lib: Library, maxSize: nat, b: Bytes, f: File, dict: Bytes)
    requires IsImage(lib, b, f, dict)
    ensures ScanFrom(lib.crc, maxSize, b, 0, f.len).Corrupt? <==> exists o ::
      && o in Written(f) && Written(f)[o].Some?
      && maxSize <= |if dict == [] then Written(f)[o].value else lib.compress(dict, Written(f)[o].value)|
  {
    hide Lists, TrailerBytes, ScanFrom, Stream, Written, Places;
    var rs, es :| Imaged(lib, b, f, dict, rs, es);
    ScanStream(lib.crc, maxSize, rs, b);
    var code := Encoder(lib, dict);
    forall o | o in Written(f) && Written(f)[o].Some? && maxSize <= |code(Written(f)[o].value)|
      ensures exists r: Record :: r in rs && maxSize <= |r.stored|
    {
      assert Recorded(rs, o, code(Written(f)[o].value), Places(f)[o]);
      var i :| 0 <= i < |rs| && rs[i] == Record(o, code(Written(f)[o].value));
      assert rs[i] in rs;
    }
    if r: Record :| r in rs && maxSize <= |r.stored| {
      var i :| 0 <= i < |rs| && rs[i] == r;
      assert Describes(rs, i, code, Written(f), Places(f));
      assert r.id in Written(f) && Written(f)[r.id].Some? && maxSize <= |code(Written(f)[r.id].value)|;
    }
  }

  // ---------------------------------------------------------------- new files

  /** The file that holds a batch whose records have been written. */
  function NewFile(generation: nat, base: nat, data: Bytes, batch: Batch, locs: map<nat, Relative>, dict: Bytes): File {
    File(generation, base, |data|, |data| + 20 + 16 * |locs| + |dict|, |locs|, locs, batch, map[])
  }

  lemma OffsetsInside(crc: Checksum, rs: seq<Record>, batch: Batch, locs: map<nat, Relative>,
                      code: Bytes -> Bytes, o: nat)
    requires Laid(code, rs, batch, locs) && o in batch
    ensures locs[o].offset <= |Stream(crc, rs)| && (locs[o].isDelete <==> batch[o].None?)
  {
    if batch[o].Some? {
      assert Recorded(rs, o, code(batch[o].value), locs[o]);
      var i :| 0 <= i < |rs| && rs[i] == Record(o, code(batch[o].value)) && locs[o] == Relative(Offset(rs, i), false);
      RecordsLie(crc, rs, i);
    }
  }

  lemma NewFileWellFormed(crc: Checksum,
                          code: Bytes -> Bytes, rs: seq<Record>, generation: nat, base: nat, batch: Batch,
                          locs: map<nat, Relative>, dict: Bytes)
    requires Laid(code, rs, batch, locs) && batch != map[] && 1 <= base
    ensures NewFile(generation, base, Stream(crc, rs), batch, locs, dict).WellFormed()
  {
    hide Recorded, Describes;
    forall o | o in locs ensures locs[o].offset <= |Stream(crc, rs)| && (locs[o].isDelete <==> batch[o].None?) {
      OffsetsInside(crc, rs, batch, locs, code, o);
    }
    assert batch.Keys != {};
    hide Stream;
    var o :| o in batch;
    assert o in locs;
  }

  lemma RecordsFit(crc: Checksum, code: Bytes -> Bytes, rs: seq<Record>, batch: Batch, locs: map<nat, Relative>)
    requires Laid(code, rs, batch, locs) && (forall o :: o in batch ==> o < U64) && |Stream(crc, rs)| < U63
    ensures forall r :: r in rs ==> Fits(r)
    ensures forall o :: o in locs ==> Storable(Entry(o, locs[o]))
  {
    forall r | r in rs ensures Fits(r) {
      var i :| 0 <= i < |rs| && rs[i] == r;
      assert Describes(rs, i, code, batch, locs);
      RecordsLie(crc, rs, i);
    }
    forall o | o in locs ensures Storable(Entry(o, locs[o])) {
      OffsetsInside(crc, rs, batch, locs, code, o);
    }
  }

  lemma LaidKeys(code: Bytes -> Bytes, rs: seq<Record>, batch: Batch, locs: map<nat, Relative>)
    requires Laid(code, rs, batch, locs)
    ensures locs.Keys == batch.Keys
  {
    hide Recorded, Describes;
  }

  lemma NothingLost(f: File)
    requires f.lost == map[]
    ensures Written(f) == f.vals && Places(f) == f.locs
  {
  }

  /** A written object section with a written trailer is the image of its file. */
  lemma NewImage(lib: Library, rs: seq<Record>, es: seq<Entry>, generation: nat, base: nat, batch: Batch,
                 locs: map<nat, Relative>, dict: Bytes)
    requires Laid(Encoder(lib, dict), rs, batch, locs) && (forall o :: o in batch ==> o < U64)
    requires |Stream(lib.crc, rs)| < U63 && |locs| < U64 && |dict| < U64
    requires Lists(es, locs) && forall e :: e in es ==> Storable(e)
    ensures var data := Stream(lib.crc, rs);
      IsImage(lib, data + TrailerBytes(lib.crc, es, dict), NewFile(generation, base, data, batch, locs, dict), dict)
  {
    RecordsFit(lib.crc, Encoder(lib, dict), rs, batch, locs);
    ListedAll(es, locs);
    LaidKeys(Encoder(lib, dict), rs, batch, locs);
    hide Laid, Lists, Stream, TrailerBytes, Written, Places;
    var data := Stream(lib.crc, rs);
    NothingLost(NewFile(generation, base, data, batch, locs, dict));
    assert Imaged(lib, data + TrailerBytes(lib.crc, es, dict), NewFile(generation, base, data, batch, locs, dict), dict,
      rs, es);
  }

  /** Object ids in an image are machine words. */
  lemma ImageId(lib: Library, b: Bytes, f: File, dict: Bytes, o: ObjectId)
    requires IsImage(lib, b, f, dict) && o in f.locs
    ensures o < U64
  {
    hide Laid, Stream, TrailerBytes;
    var rs, es :| Imaged(lib, b, f, dict, rs, es);
    assert Entry(o, f.locs[o]) in es;
  }
}
