/** Bytes, machine words and the little-endian form both file sections use. */
module Basics {

  datatype Option<+T> = None | Some(value: T)

  newtype Byte = x: int | 0 <= x < 256
  type Bytes = seq<Byte>

  const U32: nat := 0x1_0000_0000
  const U63: nat := 0x8000_0000_0000_0000
  const U64: nat := 0x1_0000_0000_0000_0000

  /** A 32-bit checksum. */
  type Word32 = x: nat | x < U32

  function Pow256(n: nat): (p: nat)
    ensures p > 0
  {
    if n == 0 then 1 else 256 * Pow256(n - 1)
  }

  /** `to_le_bytes` of an `n`-byte word. */
  function ToLe(x: nat, n: nat): (b: Bytes)
    ensures |b| == n
  {
    if n == 0 then [] else [(x % 256) as Byte] + ToLe(x / 256, n - 1)
  }

  /** `from_le_bytes`. */
  function FromLe(b: Bytes): nat {
    if b == [] then 0 else b[0] as nat + 256 * FromLe(b[1..])
  }

  lemma Widths()
    ensures Pow256(4) == U32 && Pow256(8) == U64
  {
    assert Pow256(4) == 256 * (256 * (256 * (256 * Pow256(0))));
    assert Pow256(8) == 256 * (256 * (256 * (256 * Pow256(4))));
  }

  lemma {:induction false} FromToLe(x: nat, n: nat)
    requires x < Pow256(n)
    ensures FromLe(ToLe(x, n)) == x
  {
    if n > 0 {
      FromToLe(x / 256, n - 1);
      assert ToLe(x, n)[1..] == ToLe(x / 256, n - 1);
    }
  }

  /** Byte `i` is the digit of `x` to the base 256 that has weight `256^i`: the lowest comes first. */
  lemma {:induction false} LeDigits(x: nat, n: nat, i: nat)
    requires i < n
    ensures ToLe(x, n)[i] as nat == x / Pow256(i) % 256
  {
    if i > 0 {
      LeDigits(x / 256, n - 1, i - 1);
      DivTwice(x, 256, Pow256(i - 1));
    }
  }

  lemma DivTwice(x: nat, a: nat, b: nat)
    requires a > 0 && b > 0
    ensures a * b > 0 && x / a / b == x / (a * b)
  {
    var q, r := x / a, x % a;
    var s, t := q / b, q % b;
    Product(a, b);
    DivMod(x, a);
    DivMod(q, b);
    Regroup(a, b, s, t);
    Product(a, b - t);
    Distribute(a, b, t);
    Quotient(x, a * b, s, a * t + r);
  }

  lemma DivMod(x: nat, d: nat)
    requires d > 0
    ensures x == d * (x / d) + x % d && x % d < d
  {
  }

  lemma Product(a: nat, b: nat)
    requires a > 0 && b > 0
    ensures a * b >= a
  {
  }

  lemma Regroup(a: nat, b: nat, s: nat, t: nat)
    ensures a * (b * s + t) == (a * b) * s + a * t
  {
  }

  lemma Distribute(a: int, b: int, c: int)
    ensures a * (b - c) == a * b - a * c
  {
  }

  lemma Quotient(x: nat, d: nat, q: nat, r: nat)
    requires d > 0 && x == d * q + r && r < d
    ensures x / d == q
  {
    var y := x / d;
    DivMod(x, d);
    Distribute(d, y, q);
    Distribute(d, q, y);
    if y < q { Product(d, q - y); } else if y > q { Product(d, y - q); }
  }

  lemma Digit(low: nat, rest: nat)
    requires low < 256
    ensures (low + 256 * rest) % 256 == low && (low + 256 * rest) / 256 == rest
  {
  }

  lemma {:induction false} ToFromLe(b: Bytes)
    ensures FromLe(b) < Pow256(|b|)
    ensures ToLe(FromLe(b), |b|) == b
  {
    if b != [] {
      ToFromLe(b[1..]);
      var x, rest := FromLe(b), FromLe(b[1..]);
      assert x % 256 == b[0] as nat && x / 256 == rest by { Digit(b[0] as nat, rest); }
      assert ToLe(x, |b|) == [b[0]] + ToLe(rest, |b| - 1);
      assert b == [b[0]] + b[1..];
    }
  }

  /** A slice of a slice. */
  lemma SubSlice(b: Bytes, x: nat, y: nat, i: nat, j: nat)
    requires x <= y <= |b| && i <= j <= y - x
    ensures b[x..y][i..j] == b[x + i..x + j]
  {
    assert forall k :: 0 <= k < j - i ==> b[x..y][i..j][k] == b[x + i..x + j][k];
  }

  /** Eight-byte words survive being written and read back, in both directions. */
  lemma Word64(x: nat, b: Bytes)
    ensures x < U64 ==> FromLe(ToLe(x, 8)) == x
    ensures |b| == 8 ==> FromLe(b) < U64 && ToLe(FromLe(b), 8) == b
  {
    Widths();
    if x < U64 { FromToLe(x, 8); }
    if |b| == 8 { ToFromLe(b); }
  }

  lemma Word32Bytes(x: nat, b: Bytes)
    ensures x < U32 ==> FromLe(ToLe(x, 4)) == x
    ensures |b| == 4 ==> FromLe(b) < U32 && ToLe(FromLe(b), 4) == b
  {
    Widths();
    if x < U32 { FromToLe(x, 4); }
    if |b| == 4 { ToFromLe(b); }
  }
}
