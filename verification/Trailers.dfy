/** The trailer of a storage file: checksum, entry count, dictionary size, one 16-byte entry per
    object and the compression dictionary. */
module Trailers {
  import opened Basics
  import opened DiskLocations

  /** A checksum function; nothing is assumed about it. */
  type Checksum = Bytes -> Word32

  /** An object id and where the file has that object. */
  datatype Entry = Entry(id: nat, rel: Relative)

  predicate Storable(e: Entry) { e.id < U64 && e.rel.offset < U63 }

  function EntryBytes(e: Entry): (b: Bytes)
    requires Storable(e)
    ensures |b| == 16
  {
    ToLe(e.id, 8) + ToLe(Shift(e.rel.offset, e.rel.isDelete), 8)
  }

  function EntriesBytes(es: seq<Entry>): (b: Bytes)
    requires forall e :: e in es ==> Storable(e)
    ensures |b| == 16 * |es|
  {
    if es == [] then [] else EntriesBytes(es[..|es| - 1]) + EntryBytes(es[|es| - 1])
  }

  /** Everything the checksum covers. */
  function Covered(es: seq<Entry>, dict: Bytes): (b: Bytes)
    requires forall e :: e in es ==> Storable(e)
    ensures |b| == 16 + 16 * |es| + |dict|
  {
    ToLe(|es|, 8) + ToLe(|dict|, 8) + EntriesBytes(es) + dict
  }

  /** The trailer on disk for entries in the order of `es`. */
  function TrailerBytes(crc: Checksum, es: seq<Entry>, dict: Bytes): (b: Bytes)
    requires forall e :: e in es ==> Storable(e)
    ensures |b| == 20 + 16 * |es| + |dict|
  {
    ToLe(crc(Covered(es, dict)), 4) + Covered(es, dict)
  }

  // ---------------------------------------------------------------- reading

  datatype Parsed = TooSmall | CrcMismatch | OutOfBounds | Parsed(entries: seq<Entry>, dict: Bytes)

  function ParseEntry(b: Bytes): (e: Entry)
    requires |b| == 16
  {
    var (offset, isDelete) := Unshift(FromLe(b[8..]));
    Entry(FromLe(b[..8]), Relative(offset, isDelete))
  }

  function ParseEntries(b: Bytes, n: nat): (es: seq<Entry>)
    requires |b| >= 16 * n
    ensures |es| == n
  {
    if n == 0 then [] else ParseEntries(b, n - 1) + [ParseEntry(b[16 * (n - 1)..16 * n])]
  }

  /** What a reader makes of any buffer. `OutOfBounds` is the slice panic of a trailer whose checksum
      is right but whose sizes reach past its end. */
  function Parse(crc: Checksum, buf: Bytes): (p: Parsed) {
    if |buf| < 20 then TooSmall
    else if crc(buf[4..]) != FromLe(buf[..4]) then CrcMismatch
    else
      var n, d := FromLe(buf[4..12]), FromLe(buf[12..20]);
      if 20 + 16 * n + d > |buf| then OutOfBounds
      else Parsed(ParseEntries(buf[20..], n), buf[20 + 16 * n..20 + 16 * n + d])
  }

  lemma EntryRoundTrip(e: Entry, b: Bytes)
    ensures Storable(e) ==> ParseEntry(EntryBytes(e)) == e
    ensures |b| == 16 ==> Storable(ParseEntry(b)) && EntryBytes(ParseEntry(b)) == b
  {
    if Storable(e) {
      var raw := Shift(e.rel.offset, e.rel.isDelete);
      Word64(e.id, []);
      Word64(raw, []);
      assert EntryBytes(e)[..8] == ToLe(e.id, 8) && EntryBytes(e)[8..] == ToLe(raw, 8);
      assert Unshift(raw) == (e.rel.offset, e.rel.isDelete);
    }
    if |b| == 16 {
      Word64(0, b[..8]);
      Word64(0, b[8..]);
      assert b == b[..8] + b[8..];
    }
  }

  lemma ParseMore(b: Bytes, n: nat)
    requires |b| >= 16 * (n + 1)
    ensures ParseEntries(b, n + 1) == ParseEntries(b, n) + [ParseEntry(b[16 * n..16 * (n + 1)])]
  {
    hide ParseEntry;
  }

  lemma BytesMore(es: seq<Entry>)
    requires es != [] && forall e :: e in es ==> Storable(e)
    ensures EntriesBytes(es) == EntriesBytes(es[..|es| - 1]) + EntryBytes(es[|es| - 1])
  {
    hide EntryBytes, Storable;
  }

  lemma FrontAndLast(es: seq<Entry>)
    requires es != []
    ensures es[..|es| - 1] + [es[|es| - 1]] == es
  {
  }

  lemma {:induction false} EntriesRoundTrip(es: seq<Entry>, b: Bytes)
    requires (forall e :: e in es ==> Storable(e)) && EntriesBytes(es) <= b
    ensures ParseEntries(b, |es|) == es
  {
    hide EntryBytes, ParseEntry, Storable;
    if es != [] {
      hide EntriesBytes, ParseEntries;
      var n := |es| - 1;
      EntryRoundTrip(es[n], []);
      BytesMore(es);
      FrontAndLast(es);
      LastPiece(EntriesBytes(es[..n]), EntryBytes(es[n]), b);
      ParseMore(b, n);
      EntriesRoundTrip(es[..n], b);
    }
  }

  lemma LastPiece(front: Bytes, last: Bytes, b: Bytes)
    requires front + last <= b
    ensures front <= b && b[|front|..|front| + |last|] == last
  {
    assert b[..|front| + |last|] == front + last;
    SubSlice(b, 0, |front| + |last|, |front|, |front| + |last|);
  }

  /** Entry `i` of a written trailer: eight bytes of object id, then eight of location, which is twice the
      offset and one more for a tombstone. */
  lemma EntryAt(crc: Checksum, es: seq<Entry>, dict: Bytes, i: nat)
    requires (forall e :: e in es ==> Storable(e)) && i < |es|
    ensures var buf, x := TrailerBytes(crc, es, dict), 20 + 16 * i;
      && buf[x..x + 8] == ToLe(es[i].id, 8)
      && buf[x + 8..x + 16] == ToLe(2 * es[i].rel.offset + if es[i].rel.isDelete then 1 else 0, 8)
  {
    hide ToLe;
    var buf, x, n := TrailerBytes(crc, es, dict), 20 + 16 * i, 16 * |es|;
    var body := EntriesBytes(es);
    assert buf[20..][..n] == body by { TrailerParts(crc, es, dict); }
    EntryInside(es, i);
    hide TrailerBytes, EntriesBytes;
    SubSlice(buf, 20, 20 + n, 16 * i, 16 * i + 8);
    SubSlice(buf, 20, 20 + n, 16 * i + 8, 16 * i + 16);
    assert buf[20..][..n] == buf[20..20 + n];
  }

  lemma EntryParts(e: Entry)
    requires Storable(e)
    ensures EntryBytes(e)[0..8] == ToLe(e.id, 8)
    ensures EntryBytes(e)[8..16] == ToLe(2 * e.rel.offset + if e.rel.isDelete then 1 else 0, 8)
  {
    hide ToLe;
    var a, b := ToLe(e.id, 8), ToLe(Shift(e.rel.offset, e.rel.isDelete), 8);
    assert EntryBytes(e) == a + b;
  }

  lemma {:induction false} EntryInside(es: seq<Entry>, i: nat)
    requires (forall e :: e in es ==> Storable(e)) && i < |es|
    ensures var body := EntriesBytes(es);
      && body[16 * i..16 * i + 8] == ToLe(es[i].id, 8)
      && body[16 * i + 8..16 * i + 16] == ToLe(2 * es[i].rel.offset + if es[i].rel.isDelete then 1 else 0, 8)
  {
    hide ToLe;
    var n := |es| - 1;
    var front := EntriesBytes(es[..n]);
    var body := EntriesBytes(es);
    assert body == front + EntryBytes(es[n]) && |front| == 16 * n;
    if i < n {
      EntryInside(es[..n], i);
      assert es[..n][i] == es[i];
      assert body[..16 * n] == front;
      SubSlice(body, 0, 16 * n, 16 * i, 16 * i + 8);
      SubSlice(body, 0, 16 * n, 16 * i + 8, 16 * i + 16);
    } else {
      EntryParts(es[n]);
      assert body[16 * n..16 * n + 16] == EntryBytes(es[n]);
      SubSlice(body, 16 * n, 16 * n + 16, 0, 8);
      SubSlice(body, 16 * n, 16 * n + 16, 8, 16);
    }
  }

  lemma {:induction false} EntriesBack(b: Bytes, n: nat)
    requires |b| >= 16 * n
    ensures forall e :: e in ParseEntries(b, n) ==> Storable(e)
    ensures EntriesBytes(ParseEntries(b, n)) == b[..16 * n]
  {
    hide EntryBytes, ParseEntry, Storable;
    if n > 0 {
      var front, piece := ParseEntries(b, n - 1), b[16 * (n - 1)..16 * n];
      EntriesBack(b, n - 1);
      EntryRoundTrip(ParseEntry(piece), piece);
      ParseMore(b, n - 1);
      hide ParseEntries;
      var es := front + [ParseEntry(piece)];
      BytesMore(es);
      assert es[..n - 1] == front;
      hide EntriesBytes;
      assert b[..16 * n] == b[..16 * (n - 1)] + piece;
    }
  }

  /** Where the parts of a written trailer are. */
  lemma TrailerParts(crc: Checksum, es: seq<Entry>, dict: Bytes)
    requires forall e :: e in es ==> Storable(e)
    ensures var buf, n := TrailerBytes(crc, es, dict), 16 * |es|;
      && buf[..4] == ToLe(crc(buf[4..]), 4) && buf[4..12] == ToLe(|es|, 8) && buf[12..20] == ToLe(|dict|, 8)
      && buf[20..][..n] == EntriesBytes(es) && buf[20 + n..20 + n + |dict|] == dict
  {
    hide ToLe, EntriesBytes;
    var a, b, c := ToLe(|es|, 8), ToLe(|dict|, 8), EntriesBytes(es);
    var crcBytes := ToLe(crc(Covered(es, dict)), 4);
    FiveParts(crcBytes, a, b, c, dict);
  }

  lemma FiveParts(crc: Bytes, a: Bytes, b: Bytes, c: Bytes, d: Bytes)
    requires |crc| == 4 && |a| == 8 && |b| == 8
    ensures var buf := crc + (a + b + c + d);
      && buf[..4] == crc && buf[4..] == a + b + c + d && buf[4..12] == a && buf[12..20] == b
      && buf[20..][..|c|] == c && buf[20 + |c|..20 + |c| + |d|] == d
  {
    var buf := crc + (a + b + c + d);
    assert buf[20..] == c + d;
  }

  lemma PartsParse(crc: Checksum, buf: Bytes, es: seq<Entry>, dict: Bytes)
    requires |buf| == 20 + 16 * |es| + |dict| && FromLe(buf[..4]) == crc(buf[4..])
    requires FromLe(buf[4..12]) == |es| && FromLe(buf[12..20]) == |dict|
    requires ParseEntries(buf[20..], |es|) == es && buf[20 + 16 * |es|..20 + 16 * |es| + |dict|] == dict
    ensures Parse(crc, buf) == Parsed(es, dict)
  {
    hide FromLe, ParseEntries;
  }

  lemma BeginsWith(b: Bytes, front: Bytes)
    requires |front| <= |b| && b[..|front|] == front
    ensures front <= b
  {
  }

  /** Reading a trailer that was written gives back its entries, in order, and its dictionary. */
  lemma TrailerRoundTrip(crc: Checksum, es: seq<Entry>, dict: Bytes)
    requires (forall e :: e in es ==> Storable(e)) && |es| < U64 && |dict| < U64
    ensures Parse(crc, TrailerBytes(crc, es, dict)) == Parsed(es, dict)
  {
    hide TrailerBytes, ToLe, FromLe, ParseEntries, EntriesBytes, Covered, Parse, Storable;
    var buf := TrailerBytes(crc, es, dict);
    TrailerParts(crc, es, dict);
    Word64(|es|, []);
    Word64(|dict|, []);
    Word32Bytes(crc(buf[4..]), []);
    BeginsWith(buf[20..], EntriesBytes(es));
    EntriesRoundTrip(es, buf[20..]);
    PartsParse(crc, buf, es, dict);
  }

  /** The buffers a reader accepts and uses to the last byte are exactly the trailers that a writer
      produces: nothing else passes the checksum and the size checks. */
  lemma AcceptedIsWritten(crc: Checksum, buf: Bytes, es: seq<Entry>, dict: Bytes)
    requires |buf| < U64 && |buf| == 20 + 16 * |es| + |dict|
    ensures Parse(crc, buf) == Parsed(es, dict)
       <==> (forall e :: e in es ==> Storable(e)) && buf == TrailerBytes(crc, es, dict)
  {
    if Parse(crc, buf) == Parsed(es, dict) {
      AcceptedBytes(crc, buf);
    } else if (forall e :: e in es ==> Storable(e)) && buf == TrailerBytes(crc, es, dict) {
      TrailerRoundTrip(crc, es, dict);
      assert false;
    }
  }

  lemma Slice(buf: Bytes, a: nat, b: nat)
    requires a <= b && 20 + b <= |buf|
    ensures buf[20 + a..20 + b] == buf[20..][a..b]
  {
    var rest := buf[20..];
    assert forall i :: 0 <= i < b - a ==> buf[20 + a..20 + b][i] == rest[a..b][i];
  }

  lemma Pieces(buf: Bytes, n: nat)
    requires 20 + 16 * n <= |buf|
    ensures buf == buf[..4] + buf[4..]
    ensures buf[4..] == buf[4..12] + buf[12..20] + buf[20..][..16 * n] + buf[20 + 16 * n..]
  {
  }

  lemma AcceptedBytes(crc: Checksum, buf: Bytes)
    requires var p := Parse(crc, buf); p.Parsed? && |buf| == 20 + 16 * |p.entries| + |p.dict|
    ensures var p := Parse(crc, buf);
      (forall e :: e in p.entries ==> Storable(e)) && buf == TrailerBytes(crc, p.entries, p.dict)
  {
    var p := Parse(crc, buf);
    var n := |p.entries|;
    Word64(0, buf[4..12]);
    Word64(0, buf[12..20]);
    Word32Bytes(0, buf[..4]);
    EntriesBack(buf[20..], n);
    hide ParseEntries, EntriesBytes, FromLe, ToLe;
    assert p.dict == buf[20 + 16 * n..];
    assert p.entries == ParseEntries(buf[20..], n);
    assert crc(buf[4..]) == FromLe(buf[..4]) && n == FromLe(buf[4..12]) && |p.dict| == FromLe(buf[12..20]);
    Pieces(buf, n);
    hide Parse;
  }

  // ---------------------------------------------------------------- the program

  /** `es` lists the entries of `locs` that are not in `rest`, each once, in some order. */
  ghost predicate Listed(es: seq<Entry>, locs: map<nat, Relative>, rest: map<nat, Relative>) {
    && |es| + |rest| == |locs|
    && (forall id :: id in rest ==> id in locs && rest[id] == locs[id])
    && (forall e :: e in es ==> e.id in locs && locs[e.id] == e.rel && e.id !in rest)
    && (forall id :: id in locs && id !in rest ==> Entry(id, locs[id]) in es)
    && forall i, j :: 0 <= i < j < |es| ==> es[i].id != es[j].id
  }

  ghost predicate Lists(es: seq<Entry>, locs: map<nat, Relative>) { Listed(es, locs, map[]) }

  lemma ListNext(es: seq<Entry>, locs: map<nat, Relative>, rest: map<nat, Relative>, id: nat)
    requires Listed(es, locs, rest) && id in rest
    ensures Listed(es + [Entry(id, locs[id])], locs, rest - {id})
  {
    var more := es + [Entry(id, locs[id])];
    assert (rest - {id}).Keys == rest.Keys - {id};
    assert more[|more| - 1] == Entry(id, locs[id]);
    forall i | i in locs && i !in rest - {id} ensures Entry(i, locs[i]) in more {
      if i != id { assert Entry(i, locs[i]) in es; }
    }
    forall e | e in more ensures e.id in locs && locs[e.id] == e.rel && e.id !in rest - {id} {
      if e in es {}
    }
  }

  lemma EntriesNext(es: seq<Entry>, e: Entry)
    requires (forall x :: x in es ==> Storable(x)) && Storable(e)
    ensures EntriesBytes(es + [e]) == EntriesBytes(es) + ToLe(e.id, 8) + ToLe(Shift(e.rel.offset, e.rel.isDelete), 8)
  {
    hide ToLe, Shift;
    var more := es + [e];
    assert more[..|more| - 1] == es && more[|more| - 1] == e;
  }

  /** `write_trailer`: the buffer is extended entry by entry, in the unspecified order of the map,
      and the checksum patched in last. An absent dictionary is written as an empty one. */
  method WriteTrailer(crc: Checksum, locs: map<nat, Relative>, dict: Option<Bytes>)
    returns (buf: Bytes, ghost es: seq<Entry>)
    requires forall id :: id in locs ==> Storable(Entry(id, locs[id]))
    ensures Lists(es, locs)
    ensures forall e :: e in es ==> Storable(e)
    ensures buf == TrailerBytes(crc, es, if dict.Some? then dict.value else [])
    ensures |buf| == 20 + 16 * |locs| + if dict.Some? then |dict.value| else 0
    ensures |locs| < U64 && (dict.Some? ==> |dict.value| < U64) ==>
      Recovers(crc, buf, locs, if dict.Some? then dict.value else [])
  {
    hide Listed, ToLe, Shift, EntriesBytes, Parse, Lists;
    var dictBytes := if dict.Some? then dict.value else [];
    buf := [0, 0, 0, 0] + ToLe(|locs|, 8) + ToLe(|dictBytes|, 8);
    ghost var head := buf;
    es := [];
    var rest := locs;
    StartList(locs);
    while rest != map[]
      invariant Listed(es, locs, rest) && rest.Keys <= locs.Keys
      invariant forall e :: e in es ==> Storable(e)
      invariant forall id :: id in rest ==> rest[id] == locs[id]
      invariant buf == head + EntriesBytes(es)
      decreases rest.Keys
    {
      assert rest.Keys != {};
      var id :| id in rest;
      ListNext(es, locs, rest, id);
      EntriesNext(es, Entry(id, locs[id]));
      ghost var a, b := ToLe(id, 8), ToLe(Shift(rest[id].offset, rest[id].isDelete), 8);
      Appended(head, EntriesBytes(es), a, b);
      buf := buf + ToLe(id, 8) + ToLe(Shift(rest[id].offset, rest[id].isDelete), 8);
      es := es + [Entry(id, locs[id])];
      rest := rest - {id};
    }
    ListedAll(es, locs);
    buf := buf + dictBytes;
    AfterChecksum(ToLe(|locs|, 8), ToLe(|dictBytes|, 8), EntriesBytes(es), dictBytes);
    buf := ToLe(crc(buf[4..]), 4) + buf[4..];
    AllListed(es, locs);
    if |locs| < U64 && |dictBytes| < U64 { TrailerRoundTrip(crc, es, dictBytes); }
  }

  /** The reader gets these locations, each once, and this dictionary out of the buffer. */
  ghost predicate Recovers(crc: Checksum, buf: Bytes, locs: map<nat, Relative>, dict: Bytes) {
    var p := Parse(crc, buf);
    p.Parsed? && Lists(p.entries, locs) && p.dict == dict
  }

  lemma AllListed(es: seq<Entry>, locs: map<nat, Relative>)
    requires Listed(es, locs, map[])
    ensures Lists(es, locs)
  {
  }

  lemma Appended(head: Bytes, body: Bytes, a: Bytes, b: Bytes)
    ensures head + body + a + b == head + (body + a + b)
  {
  }

  lemma AfterChecksum(a: Bytes, b: Bytes, body: Bytes, dict: Bytes)
    ensures ([0, 0, 0, 0] + a + b + body + dict)[4..] == a + b + body + dict
  {
    assert [0, 0, 0, 0] + a + b + body + dict == [0, 0, 0, 0] + (a + b + body + dict);
  }

  lemma StartList(locs: map<nat, Relative>)
    ensures Listed([], locs, locs) && EntriesBytes([]) == []
  {
  }

  lemma ListedAll(es: seq<Entry>, locs: map<nat, Relative>)
    requires Listed(es, locs, map[])
    ensures |es| == |locs|
  {
  }

  lemma {:induction false} ParsedEntry(b: Bytes, n: nat, i: nat)
    requires |b| >= 16 * n && i < n
    ensures var e, raw := ParseEntries(b, n)[i], FromLe(b[16 * i + 8..16 * i + 16]);
      e == Entry(FromLe(b[16 * i..16 * i + 8]), Relative(raw / 2, raw % 2 == 1))
  {
    hide FromLe;
    ParseMore(b, n - 1);
    hide ParseEntries;
    if i < n - 1 {
      ParsedEntry(b, n - 1, i);
    } else {
      SubSlice(b, 16 * i, 16 * i + 16, 0, 8);
      SubSlice(b, 16 * i, 16 * i + 16, 8, 16);
      assert b[16 * i..16 * i + 16][8..] == b[16 * i..16 * i + 16][8..16];
    }
  }

  /** `read_trailer_from_buf`, on any buffer: it is refused if it is shorter than 20 bytes, or its checksum is
      wrong, or the sizes it gives reach past its end; otherwise entries and dictionary are what these
      sizes cut out. */
  method ReadTrailer(crc: Checksum, buf: Bytes) returns (p: Parsed)
    ensures p == Parse(crc, buf)
    ensures p.TooSmall? <==> |buf| < 20
    ensures p.CrcMismatch? <==> |buf| >= 20 && FromLe(buf[..4]) != crc(buf[4..])
    ensures p.OutOfBounds? <==>
      && |buf| >= 20 && FromLe(buf[..4]) == crc(buf[4..])
      && |buf| < 20 + 16 * FromLe(buf[4..12]) + FromLe(buf[12..20])
    ensures p.Parsed? ==>
      && |buf| >= 20 + 16 * FromLe(buf[4..12]) + FromLe(buf[12..20])
      && |p.entries| == FromLe(buf[4..12]) && |p.dict| == FromLe(buf[12..20])
      && p.dict == buf[20 + 16 * |p.entries|..20 + 16 * |p.entries| + |p.dict|]
    ensures p.Parsed? ==> forall i :: 0 <= i < |p.entries| && 36 + 16 * i <= |buf| ==>
      && p.entries[i].id == FromLe(buf[20 + 16 * i..28 + 16 * i])
      && p.entries[i].rel.offset == FromLe(buf[28 + 16 * i..36 + 16 * i]) / 2
      && (p.entries[i].rel.isDelete <==> FromLe(buf[28 + 16 * i..36 + 16 * i]) % 2 == 1)
  {
    hide ParseEntry, FromLe;
    if |buf| < 20 {
      return TooSmall;
    }
    if crc(buf[4..]) != FromLe(buf[0..4]) {
      return CrcMismatch;
    }
    var offsets := FromLe(buf[4..12]);
    var dictSize := FromLe(buf[12..20]);
    var end := 20 + offsets * 16;
    if |buf| < end + dictSize {
      return OutOfBounds;
    }
    var entries := [];
    for i := 0 to offsets
      invariant entries == ParseEntries(buf[20..], i)
    {
      var chunk := buf[20 + 16 * i..20 + 16 * (i + 1)];
      Slice(buf, 16 * i, 16 * (i + 1));
      entries := entries + [ParseEntry(chunk)];
    }
    p := Parsed(entries, buf[end..end + dictSize]);
    forall i | 0 <= i < offsets
      ensures entries[i].id == FromLe(buf[20 + 16 * i..28 + 16 * i])
      ensures entries[i].rel.offset == FromLe(buf[28 + 16 * i..36 + 16 * i]) / 2
      ensures entries[i].rel.isDelete <==> FromLe(buf[28 + 16 * i..36 + 16 * i]) % 2 == 1
    {
      ParsedEntry(buf[20..], offsets, i);
      Slice(buf, 16 * i, 16 * i + 8);
      Slice(buf, 16 * i + 8, 16 * i + 16);
    }
  }
}
