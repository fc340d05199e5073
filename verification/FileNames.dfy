/** Storage file names: sequence number, trailer offset, object count and generation, in
    hexadecimal, separated by dashes; and the directory listing that recovery starts from. */
module FileNames {
  import opened Basics
  import opened DiskLocations

  datatype Metadata = Metadata(lsn: nat, trailerOffset: nat, presentObjects: nat, generation: nat, fileSize: nat)

  /** The fields as wide as the program keeps them. */
  predicate Spellable(m: Metadata) {
    m.lsn < U64 && m.trailerOffset < U64 && m.presentObjects < U64 && m.generation < 256
  }

  const LEGEND := "             lsn" + "   trailer_offset" + "  present_objects" + " generation"

  // ---------------------------------------------------------------- hexadecimal

  function Digit(d: nat): char
    requires d < 16
  {
    "0123456789abcdef"[d]
  }

  function DigitValue(c: char): Option<nat> {
    if '0' <= c <= '9' then Some(c as nat - '0' as nat)
    else if 'a' <= c <= 'f' then Some(c as nat - 'a' as nat + 10)
    else if 'A' <= c <= 'F' then Some(c as nat - 'A' as nat + 10)
    else None
  }

  function Pow16(n: nat): (p: nat)
    ensures p > 0
  {
    if n == 0 then 1 else 16 * Pow16(n - 1)
  }

  /** Exactly `n` digits. */
  function Hex(x: nat, n: nat): (s: string)
    ensures |s| == n
  {
    if n == 0 then "" else Hex(x / 16, n - 1) + [Digit(x % 16)]
  }

  function Digits(s: string): Option<nat> {
    if s == "" then Some(0) else
    match (Digits(s[..|s| - 1]), DigitValue(s[|s| - 1]))
    case (Some(high), Some(low)) => Some(16 * high + low)
    case _ => None
  }

  /** `from_str_radix(.., 16)` for a type with the given number of values: a leading plus sign is
      allowed, an empty numeral or one out of range is not. */
  function FromHex(s: string, limit: nat): Option<nat> {
    var body := if s != "" && s[0] == '+' then s[1..] else s;
    if body == "" then None else
    match Digits(body)
    case Some(x) => if x < limit then Some(x) else None
    case None => None
  }

  lemma DigitRoundTrip(d: nat)
    requires d < 16
    ensures DigitValue(Digit(d)) == Some(d) && Digit(d) != '-' && Digit(d) != '+' && Digit(d) != 'p'
  {
  }

  lemma {:induction false} HexRoundTrip(x: nat, n: nat)
    requires x < Pow16(n)
    ensures Digits(Hex(x, n)) == Some(x)
    ensures forall c :: c in Hex(x, n) ==> c != '-' && c != '+' && c != 'p'
  {
    if n > 0 {
      HexRoundTrip(x / 16, n - 1);
      DigitRoundTrip(x % 16);
      hide Digit, DigitValue;
      var high := Hex(x / 16, n - 1);
      assert (high + [Digit(x % 16)])[..n - 1] == high;
    }
  }

  /** Digit `i` is that of weight `16^(n-1-i)`, in lower case: the highest comes first. */
  lemma {:induction false} HexDigits(x: nat, n: nat, i: nat)
    requires i < n
    ensures Hex(x, n)[i] == "0123456789abcdef"[x / Pow16(n - 1 - i) % 16]
  {
    var high := Hex(x / 16, n - 1);
    assert Hex(x, n) == high + [Digit(x % 16)];
    if i < n - 1 {
      HexDigits(x / 16, n - 1, i);
      assert Pow16(n - 1 - i) == 16 * Pow16(n - 2 - i);
      hide Hex, Pow16, Digit;
      DivTwice(x, 16, Pow16(n - 2 - i));
    }
  }

  lemma Widths16()
    ensures Pow16(1) == 16 && Pow16(2) == 256 && Pow16(16) == U64
  {
    assert Pow16(4) == 16 * (16 * (16 * (16 * Pow16(0))));
    assert Pow16(8) == 16 * (16 * (16 * (16 * Pow16(4))));
    assert Pow16(12) == 16 * (16 * (16 * (16 * Pow16(8))));
    assert Pow16(16) == 16 * (16 * (16 * (16 * Pow16(12))));
    assert Pow16(2) == 16 * (16 * Pow16(0));
    assert Pow16(1) == 16 * Pow16(0);
  }

  // ---------------------------------------------------------------- names

  /** `{:016x}` of a 64-bit number. */
  function Wide(x: nat): string { Hex(x, 16) }

  /** `{:01x}` of an 8-bit number. */
  function Narrow(x: nat): string { if x < 16 then Hex(x, 1) else Hex(x, 2) }

  function ToFileName(m: Metadata): string {
    Wide(m.lsn) + "-" + Wide(m.trailerOffset) + "-" + Wide(m.presentObjects) + "-" + Narrow(m.generation)
  }

  /** The pieces between dashes. */
  function Split(s: string): (pieces: seq<string>)
    ensures |pieces| > 0
  {
    if s == "" then [""] else
    var rest := Split(s[1..]);
    if s[0] == '-' then [""] + rest else [[s[0]] + rest[0]] + rest[1..]
  }

  function ParseName(name: string, fileSize: nat): (m: Option<Metadata>)
    ensures m.Some? ==> Spellable(m.value) && m.value.fileSize == fileSize
  {
    var pieces := Split(name);
    if |pieces| < 4 then None else
    match (FromHex(pieces[0], U64), FromHex(pieces[1], U64), FromHex(pieces[2], U64), FromHex(pieces[3], 256))
    case (Some(lsn), Some(offset), Some(objects), Some(generation)) =>
      Some(Metadata(lsn, offset, objects, generation, fileSize))
    case _ => None
  }

  predicate IsTemporary(name: string) { |name| >= 3 && name[|name| - 3..] == "tmp" }

  lemma NotTemporary(name: string)
    requires name != "" && name[|name| - 1] != 'p'
    ensures !IsTemporary(name)
  {
    if |name| >= 3 { assert name[|name| - 3..][2] == name[|name| - 1]; }
  }

  lemma {:induction false} SplitPiece(a: string, rest: string)
    requires '-' !in a
    ensures Split(a) == [a]
    ensures Split(a + "-" + rest) == [a] + Split(rest)
  {
    if a == "" {
      assert a + "-" + rest == "-" + rest && ("-" + rest)[1..] == rest;
    } else {
      SplitPiece(a[1..], rest);
      var s := a + "-" + rest;
      assert s[0] == a[0] && s[1..] == a[1..] + "-" + rest;
      assert [a[0]] + a[1..] == a;
      assert ([a[1..]] + Split(rest))[1..] == Split(rest);
    }
  }

  lemma FieldRoundTrip(s: string, x: nat, limit: nat)
    requires s != "" && '+' !in s && Digits(s) == Some(x) && x < limit
    ensures FromHex(s, limit) == Some(x)
  {
  }

  lemma FourPieces(a: string, b: string, c: string, d: string)
    requires '-' !in a && '-' !in b && '-' !in c && '-' !in d
    ensures Split(a + "-" + b + "-" + c + "-" + d) == [a, b, c, d]
  {
    SplitPiece(d, "");
    SplitPiece(c, d);
    SplitPiece(b, c + "-" + d);
    SplitPiece(a, b + "-" + (c + "-" + d));
    Regroup(a, b, c, d);
    hide Split;
  }

  lemma Regroup(a: string, b: string, c: string, d: string)
    ensures a + "-" + b + "-" + c + "-" + d == a + "-" + (b + "-" + (c + "-" + d))
  {
    assert b + "-" + (c + "-" + d) == b + "-" + c + "-" + d;
  }

  lemma WideRoundTrip(x: nat)
    requires x < U64
    ensures FromHex(Wide(x), U64) == Some(x) && '-' !in Wide(x)
  {
    Widths16();
    HexRoundTrip(x, 16);
    FieldRoundTrip(Wide(x), x, U64);
  }

  lemma NarrowRoundTrip(x: nat)
    requires x < 256
    ensures FromHex(Narrow(x), 256) == Some(x) && '-' !in Narrow(x) && Narrow(x) != "" && 'p' !in Narrow(x)
  {
    Widths16();
    HexRoundTrip(x, if x < 16 then 1 else 2);
    FieldRoundTrip(Narrow(x), x, 256);
  }

  lemma FourFields(a: string, b: string, c: string, d: string)
    requires |a| == 16 && |b| == 16 && |c| == 16
    ensures var name := a + "-" + b + "-" + c + "-" + d;
      && |name| == 51 + |d| && name[16] == '-' && name[33] == '-' && name[50] == '-'
      && name[..16] == a && name[17..33] == b && name[34..50] == c && name[51..] == d
  {
    var name := a + "-" + b + "-" + c + "-" + d;
    assert name == a + ("-" + b + "-" + c + "-" + d);
    assert name == (a + "-") + b + ("-" + c + "-" + d);
    assert name == (a + "-" + b + "-") + c + ("-" + d);
  }

  /** A name spelled out: sixteen digits of sequence number, of trailer offset and of object count, then one
      or two of generation; lower case, highest digit first, dashes between. */
  lemma NameLayout(m: Metadata, i: nat)
    requires Spellable(m) && i < 16
    ensures |ToFileName(m)| == if m.generation < 16 then 52 else 53
    ensures ToFileName(m)[16] == '-' && ToFileName(m)[33] == '-' && ToFileName(m)[50] == '-'
    ensures ToFileName(m)[i] == "0123456789abcdef"[m.lsn / Pow16(15 - i) % 16]
    ensures ToFileName(m)[17 + i] == "0123456789abcdef"[m.trailerOffset / Pow16(15 - i) % 16]
    ensures ToFileName(m)[34 + i] == "0123456789abcdef"[m.presentObjects / Pow16(15 - i) % 16]
    ensures m.generation < 16 ==> ToFileName(m)[51] == "0123456789abcdef"[m.generation]
    ensures m.generation >= 16 ==> ToFileName(m)[51] == "0123456789abcdef"[m.generation / 16]
    ensures m.generation >= 16 ==> ToFileName(m)[52] == "0123456789abcdef"[m.generation % 16]
  {
    hide Hex, Pow16;
    var a, b, c, d := Wide(m.lsn), Wide(m.trailerOffset), Wide(m.presentObjects), Narrow(m.generation);
    FourFields(a, b, c, d);
    HexDigits(m.lsn, 16, i);
    HexDigits(m.trailerOffset, 16, i);
    HexDigits(m.presentObjects, 16, i);
    NarrowDigits(m.generation);
    var name := ToFileName(m);
    hide ToFileName, Narrow;
    assert name[..16][i] == name[i] && name[17..33][i] == name[17 + i] && name[34..50][i] == name[34 + i];
    assert name[51..][0] == name[51];
    assert |d| == 2 ==> name[51..][1] == name[52];
  }

  lemma NarrowDigits(x: nat)
    requires x < 256
    ensures var s, digits := Narrow(x), "0123456789abcdef";
      if x < 16 then s == [digits[x]] else s == [digits[x / 16], digits[x % 16]]
  {
    assert Hex(x, 1) == Hex(x / 16, 0) + [Digit(x % 16)];
    assert Hex(x, 2) == Hex(x / 16, 1) + [Digit(x % 16)];
    assert Hex(x / 16, 1) == Hex(x / 16 / 16, 0) + [Digit(x / 16 % 16)];
  }

  /** A printed name parses back to the very fields it was printed from, and is never taken for a
      temporary file. */
  lemma NameRoundTrip(m: Metadata)
    requires Spellable(m)
    ensures ParseName(ToFileName(m), m.fileSize) == Some(m)
    ensures !IsTemporary(ToFileName(m))
  {
    hide FromHex, Hex, Split, Wide, Narrow;
    WideRoundTrip(m.lsn);
    WideRoundTrip(m.trailerOffset);
    WideRoundTrip(m.presentObjects);
    NarrowRoundTrip(m.generation);
    FourPieces(Wide(m.lsn), Wide(m.trailerOffset), Wide(m.presentObjects), Narrow(m.generation));
    var name, last := ToFileName(m), Narrow(m.generation);
    assert name[|name| - 1] == last[|last| - 1] && last[|last| - 1] in last;
    NotTemporary(name);
  }

  lemma FivePieces(a: string, b: string, c: string, d: string, rest: string)
    requires '-' !in a && '-' !in b && '-' !in c && '-' !in d
    ensures Split(a + "-" + (b + "-" + (c + "-" + (d + "-" + rest)))) == [a, b, c, d] + Split(rest)
  {
    hide Split;
    var four := d + "-" + rest;
    var three := c + "-" + four;
    var two := b + "-" + three;
    SplitPiece(d, rest);
    SplitPiece(c, four);
    SplitPiece(b, three);
    SplitPiece(a, two);
    assert [a] + ([b] + ([c] + ([d] + Split(rest)))) == [a, b, c, d] + Split(rest);
  }

  /** How any name is read: the first four pieces between dashes are hexadecimal numerals, and whatever follows
      a further dash is ignored. */
  lemma ParseReads(a: string, b: string, c: string, d: string, rest: string, size: nat)
    requires '-' !in a && '-' !in b && '-' !in c && '-' !in d
    ensures ParseName(a + "-" + (b + "-" + (c + "-" + (d + "-" + rest))), size) ==
      if FromHex(a, U64).Some? && FromHex(b, U64).Some? && FromHex(c, U64).Some? && FromHex(d, 256).Some?
      then Some(Metadata(FromHex(a, U64).value, FromHex(b, U64).value, FromHex(c, U64).value, FromHex(d, 256).value,
        size))
      else None
  {
    FivePieces(a, b, c, d, rest);
    hide Split, FromHex;
  }

  /** Digits of either case are read, most significant first, and a leading plus sign is skipped. */
  lemma NumeralReads(s: string, c: char, limit: nat)
    requires s != "" && s[0] != '+' && Digits(s).Some? && DigitValue(c).Some?
    ensures FromHex(s + [c], limit) ==
      var x := 16 * Digits(s).value + DigitValue(c).value; if x < limit then Some(x) else None
    ensures FromHex("+" + s, limit) == FromHex(s, limit)
    ensures DigitValue('a') == DigitValue('A') == Some(10) && DigitValue('f') == DigitValue('F') == Some(15)
    ensures DigitValue('0') == Some(0) && DigitValue('9') == Some(9) && DigitValue('g').None? && DigitValue(' ').None?
  {
    assert (s + [c])[..|s|] == s;
    assert ("+" + s)[1..] == s;
  }

  /** So names are injective in all four fields. */
  lemma NamesDiffer(m: Metadata, n: Metadata)
    requires Spellable(m) && Spellable(n) && ToFileName(m) == ToFileName(n)
    ensures m.(fileSize := 0) == n.(fileSize := 0)
  {
    NameRoundTrip(m.(fileSize := 0));
    NameRoundTrip(n.(fileSize := 0));
    hide FromHex, Hex, Split, Wide, Narrow, ParseName;
    assert ToFileName(m.(fileSize := 0)) == ToFileName(m) && ToFileName(n.(fileSize := 0)) == ToFileName(n);
  }

  /** The legend file kept in the directory is neither temporary nor a storage file. */
  lemma LegendSkipped(size: nat)
    ensures ParseName(LEGEND, size) == None && !IsTemporary(LEGEND)
  {
    hide Split, FromHex, Digits, ParseName, IsTemporary;
    assert LEGEND[0] == ' ';
    BadStart(LEGEND, size);
    NotTemporary(LEGEND);
  }

  lemma BadStart(name: string, size: nat)
    requires name != "" && name[0] !in "-+" && DigitValue(name[0]).None?
    ensures ParseName(name, size) == None
  {
    var piece := Split(name)[0];
    assert piece == [name[0]] + Split(name[1..])[0];
    NoNumeral(piece);
  }

  lemma {:induction false} NoNumeral(s: string)
    requires s != "" && DigitValue(s[0]).None?
    ensures Digits(s).None?
  {
    if |s| > 1 { NoNumeral(s[..|s| - 1]); }
  }

  // ---------------------------------------------------------------- the directory

  datatype DirEntry = DirEntry(name: string, size: nat)

  datatype Listed = Listed(metadata: Metadata, entry: DirEntry)

  /** The directory entries that recovery opens, in directory order. */
  function Opened(entries: seq<DirEntry>): seq<Listed> {
    if entries == [] then [] else
    var last := entries[|entries| - 1];
    var m := ParseName(last.name, last.size);
    Opened(entries[..|entries| - 1]) + if !IsTemporary(last.name) && m.Some? then [Listed(m.value, last)] else []
  }

  /** The key of the sort: the sequence number without the new-write bit. */
  function Rank(f: Listed): nat { Masked(f.metadata.lsn) }

  predicate Sorted(files: seq<Listed>) {
    forall i, j :: 0 <= i < j < |files| ==> Rank(files[i]) <= Rank(files[j])
  }

  /** `read_storage_directory`: files with temporary names are removed, names that do not parse are
      skipped, and the rest is sorted by sequence number without the new-write bit. */
  method ReadStorageDirectory(entries: seq<DirEntry>) returns (files: seq<Listed>, removed: set<string>)
    ensures Sorted(files)
    ensures multiset(files) == multiset(Opened(entries))
    ensures forall e :: e in entries ==> (e.name in removed <==> IsTemporary(e.name))
    ensures forall e :: e in entries ==> (e.name in removed <==>
      |e.name| >= 3 && e.name[|e.name| - 3] == 't' && e.name[|e.name| - 2] == 'm' && e.name[|e.name| - 1] == 'p')
  {
    files, removed := [], {};
    for i := 0 to |entries|
      invariant files == Opened(entries[..i])
      invariant forall e :: e in entries[..i] ==> (e.name in removed <==> IsTemporary(e.name))
      invariant forall name :: name in removed ==> IsTemporary(name)
    {
      assert entries[..i + 1][..i] == entries[..i];
      var entry := entries[i];
      if IsTemporary(entry.name) {
        removed := removed + {entry.name};
        continue;
      }
      var metadata := ParseName(entry.name, entry.size);
      if metadata.Some? {
        files := files + [Listed(metadata.value, entry)];
      }
    }
    assert entries[..|entries|] == entries;
    files := SortByMasked(files);
    forall e | e in entries { EndsTmp(e.name); }
  }

  lemma EndsTmp(name: string)
    ensures IsTemporary(name) <==>
      |name| >= 3 && name[|name| - 3] == 't' && name[|name| - 2] == 'm' && name[|name| - 1] == 'p'
  {
    if |name| >= 3 {
      var s := name[|name| - 3..];
      assert s[0] == name[|name| - 3] && s[1] == name[|name| - 2] && s[2] == name[|name| - 1];
      assert s == [s[0], s[1], s[2]] && "tmp" == ['t', 'm', 'p'];
    }
  }

  /** `sort_by_key` on the masked sequence number. */
  method SortByMasked(files: seq<Listed>) returns (sorted: seq<Listed>)
    ensures Sorted(sorted) && multiset(sorted) == multiset(files)
  {
    hide Rank, Sorted;
    sorted := [];
    assert Sorted(sorted) by { EmptySorted(); }
    for i := 0 to |files|
      invariant Sorted(sorted) && multiset(sorted) == multiset(files[..i])
    {
      var f, k := files[i], |sorted|;
      while k > 0 && Rank(sorted[k - 1]) > Rank(f)
        invariant 0 <= k <= |sorted|
        invariant forall j :: k <= j < |sorted| ==> Rank(sorted[j]) > Rank(f)
      {
        k := k - 1;
      }
      InsertedSorted(sorted, k, f);
      InsertedCount(sorted, k, f);
      assert files[..i + 1] == files[..i] + [f];
      sorted := sorted[..k] + [f] + sorted[k..];
    }
    assert files[..|files|] == files;
  }

  lemma EmptySorted()
    ensures Sorted([])
  {
  }

  lemma InsertedSorted(sorted: seq<Listed>, k: nat, f: Listed)
    requires Sorted(sorted) && k <= |sorted|
    requires k > 0 ==> Rank(sorted[k - 1]) <= Rank(f)
    requires forall j :: k <= j < |sorted| ==> Rank(sorted[j]) > Rank(f)
    ensures Sorted(sorted[..k] + [f] + sorted[k..])
  {
    hide Rank;
    var more := sorted[..k] + [f] + sorted[k..];
    assert forall i :: 0 <= i < |more| ==> more[i] == if i < k then sorted[i] else if i == k then f else sorted[i - 1];
  }

  lemma InsertedCount(sorted: seq<Listed>, k: nat, f: Listed)
    requires k <= |sorted|
    ensures multiset(sorted[..k] + [f] + sorted[k..]) == multiset(sorted) + multiset{f}
  {
    assert sorted == sorted[..k] + sorted[k..];
  }

  /** A storage file found by its printed name is opened with the fields it was printed from;
      temporary files and the legend are not. */
  lemma {:induction false} OpensExactly(entries: seq<DirEntry>, m: Metadata)
    requires Spellable(m) && DirEntry(ToFileName(m), m.fileSize) in entries
    ensures Listed(m, DirEntry(ToFileName(m), m.fileSize)) in Opened(entries)
  {
    var n := |entries| - 1;
    var e := DirEntry(ToFileName(m), m.fileSize);
    NameRoundTrip(m);
    hide ParseName, ToFileName, IsTemporary;
    if entries[n] != e {
      assert e in entries[..n];
      OpensExactly(entries[..n], m);
    }
  }
}
