/** Object locations: how a log sequence number, an offset and a tombstone flag are packed
    into the 64-bit words kept in the location table, and how the file space is split in two
    by the bit that marks new write batches. */
module DiskLocations {
  import opened Basics

  /** Bit 62 separates files of fresh write batches from files written by maintenance. */
  const NEW_WRITE_BATCH_BIT: nat := 0x4000_0000_0000_0000

  /** A position within one file: byte offset of the object's header, or a tombstone. */
  datatype Relative = Relative(offset: nat, isDelete: bool)

  /** The packed form: the address moves up one bit, the tombstone flag takes the lowest bit.
      The source asserts that the address loses no bit on the way. */
  function Shift(address: nat, isDelete: bool): (raw: nat)
    requires address < U63
    ensures raw < U64
  {
    var shifted := (address * 2) % U64;
    if isDelete then shifted + 1 else shifted
  }

  /** Packing and unpacking undo each other on all 64-bit words. */
  function Unshift(raw: nat): (parts: (nat, bool))
    ensures raw < U64 ==> parts.0 < U63 && Shift(parts.0, parts.1) == raw
    ensures forall address: nat, isDelete: bool {:trigger Shift(address, isDelete)} ::
              address < U63 && raw == Shift(address, isDelete) ==> parts == (address, isDelete)
  {
    if raw % 2 == 1 then (raw / 2, true) else (raw / 2, false)
  }

  /** The word stored in the table for an object that lies at `rel` in the file based at `base`. */
  function ToAbsolute(rel: Relative, base: nat): (raw: nat)
    requires base + rel.offset < U63
    ensures Unshift(raw) == (base + rel.offset, rel.isDelete)
  {
    Shift(base + rel.offset, rel.isDelete)
  }

  /** `lsn | NEW_WRITE_BATCH_BIT` on 64-bit words. */
  function MarkNewWrite(lsn: nat): nat {
    if (lsn / NEW_WRITE_BATCH_BIT) % 2 == 1 then lsn else lsn + NEW_WRITE_BATCH_BIT
  }

  /** `lsn & NEW_WRITE_BATCH_MASK` on 64-bit words. */
  function Masked(lsn: nat): nat {
    if (lsn / NEW_WRITE_BATCH_BIT) % 2 == 1 then lsn - NEW_WRITE_BATCH_BIT else lsn
  }

  /** While log sequence numbers stay below the bit, setting it is addition, clearing it gets the
      number back, and neither is disturbed by an offset that stays below the bit too. */
  lemma MarkAndMask(base: nat, offset: nat)
    requires base + offset < NEW_WRITE_BATCH_BIT
    ensures MarkNewWrite(base) == base + NEW_WRITE_BATCH_BIT
    ensures Masked(base + offset) == base + offset
    ensures Masked(MarkNewWrite(base) + offset) == base + offset
    ensures MarkNewWrite(base) + offset < U63
  {
    assert base / NEW_WRITE_BATCH_BIT == 0;
    assert (base + offset) / NEW_WRITE_BATCH_BIT == 0;
    assert (NEW_WRITE_BATCH_BIT + base + offset) / NEW_WRITE_BATCH_BIT == 1;
  }

  /** Packed words compare as their addresses do, a tombstone just above the object at the same
      address; so one integer comparison orders locations for `fetch_max` and the file map. */
  lemma RawOrder(a: nat, aDelete: bool, b: nat, bDelete: bool)
    requires a < U63 && b < U63
    ensures Shift(a, aDelete) < Shift(b, bDelete) <==> a < b || (a == b && !aDelete && bDelete)
    ensures Shift(a, aDelete) == Shift(b, bDelete) <==> a == b && aDelete == bDelete
  {
  }
}
