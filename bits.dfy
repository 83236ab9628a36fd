/** Unsigned 64-bit words and the bit operations the tensor maps use.

    A `u64` is a natural number below 2^64. Bitwise `|`, `&`, `!`, `>> 1`,
    `1 << k` and `trailing_zeros` are defined bit by bit (by halving), and the
    lemmas below state each operation's effect on every bit `Bit(v, j)`. */
module Bits {

  /** Number of bits in a `u64`, and so the number of memory copies a map can track. */
  const WIDTH: nat := 64

  const LIMIT: nat := 0x1_0000_0000_0000_0000

  type u64 = x: nat | x < LIMIT

  function Pow2(k: nat): (r: nat)
    ensures r >= 1
  {
    if k == 0 then 1 else 2 * Pow2(k - 1)
  }

  /** Bit `j` of `v`, counted from the least significant bit. */
  predicate Bit(v: nat, j: nat)
  {
    if j == 0 then v % 2 == 1 else Bit(v / 2, j - 1)
  }

  /** `a | b` */
  function Or(a: nat, b: nat): nat
    decreases a + b
  {
    if a == 0 && b == 0 then 0
    else 2 * Or(a / 2, b / 2) + (if a % 2 == 1 || b % 2 == 1 then 1 else 0)
  }

  /** `a & b` */
  function And(a: nat, b: nat): nat
    decreases a
  {
    if a == 0 then 0
    else 2 * And(a / 2, b / 2) + (if a % 2 == 1 && b % 2 == 1 then 1 else 0)
  }

  /** `!v` on a `u64`. */
  function Not(v: u64): u64
  {
    LIMIT - 1 - v
  }

  /** `v >> 1` */
  function Shr1(v: u64): u64
  {
    v / 2
  }

  /** `1 << k` on a `u64`. */
  function Shl1(k: nat): (r: u64)
    requires k < WIDTH
    ensures forall j: nat :: Bit(r, j) <==> j == k
  {
    Pow2Bound(k, WIDTH);
    Pow2Width();
    forall j: nat ensures Bit(Pow2(k), j) <==> j == k { BitPow2(k, j); }
    Pow2(k)
  }

  /** `(1 << k) - 1`, the mask of the bits below `k`. */
  function LowMask(k: nat): (r: u64)
    requires k < WIDTH
    ensures forall j: nat :: Bit(r, j) <==> j < k
  {
    Pow2Bound(k, WIDTH);
    Pow2Width();
    var m := Pow2(k) - 1;
    forall j: nat ensures Bit(m, j) <==> j < k { BitLowMask(k, j); }
    m
  }

  /** Number of zero bits of `v` below its lowest set bit, looking at `n` bits at most. */
  function TrailingZerosIn(v: nat, n: nat): (r: nat)
    ensures r <= n
    ensures forall j: nat :: j < r ==> !Bit(v, j)
    ensures r < n ==> Bit(v, r)
    ensures v != 0 && v < Pow2(n) ==> r < n
  {
    if n == 0 || v % 2 == 1 then 0
    else
      var r := 1 + TrailingZerosIn(v / 2, n - 1);
      assert forall j: nat :: 0 < j < r ==> (Bit(v, j) <==> Bit(v / 2, j - 1));
      r
  }

  /** `v.trailing_zeros()`: the index of the lowest set bit, or 64 when `v` is 0. */
  function TrailingZeros(v: u64): (r: nat)
    ensures r <= WIDTH
    ensures r == WIDTH <==> v == 0
    ensures r < WIDTH ==> Bit(v, r) && forall j: nat :: j < r ==> !Bit(v, j)
  {
    Pow2Width();
    if v == 0 then
      ZeroHasNoBits(v);
      TrailingZerosIn(v, WIDTH)
    else
      TrailingZerosIn(v, WIDTH)
  }

  // ---------------------------------------------------------------------------
  // Bit laws

  lemma {:induction false} ZeroHasNoBits(v: nat)
    requires v == 0
    ensures forall j: nat :: !Bit(v, j)
  {
    forall j: nat ensures !Bit(v, j) { ZeroBit(j); }
  }

  lemma {:induction false} ZeroBit(j: nat)
    ensures !Bit(0, j)
  {
    if j > 0 { ZeroBit(j - 1); }
  }

  /** Two numbers with the same bits are equal. */
  lemma {:induction false} BitsDetermine(a: nat, b: nat)
    requires forall j: nat :: Bit(a, j) == Bit(b, j)
    ensures a == b
    decreases a + b
  {
    if a != 0 || b != 0 {
      assert Bit(a, 0) == Bit(b, 0);
      forall j: nat ensures Bit(a / 2, j) == Bit(b / 2, j) {
        assert Bit(a, j + 1) == Bit(b, j + 1);
      }
      BitsDetermine(a / 2, b / 2);
    }
  }

  /** A number with no set bit is zero. */
  lemma NoBitsIsZero(v: nat)
    requires forall j: nat :: !Bit(v, j)
    ensures v == 0
  {
    ZeroHasNoBits(0);
    BitsDetermine(v, 0);
  }

  lemma {:induction false} BitOr(a: nat, b: nat, j: nat)
    ensures Bit(Or(a, b), j) == (Bit(a, j) || Bit(b, j))
    decreases j
  {
    if a == 0 && b == 0 {
      ZeroBit(j);
    } else if j > 0 {
      BitOr(a / 2, b / 2, j - 1);
    }
  }

  lemma {:induction false} BitAnd(a: nat, b: nat, j: nat)
    ensures Bit(And(a, b), j) == (Bit(a, j) && Bit(b, j))
    decreases j
  {
    if a == 0 {
      ZeroBit(j);
    } else if j > 0 {
      BitAnd(a / 2, b / 2, j - 1);
    }
  }

  lemma {:induction false} BitPow2(k: nat, j: nat)
    ensures Bit(Pow2(k), j) <==> j == k
    decreases k
  {
    if k == 0 {
      if j > 0 { ZeroBit(j - 1); }
    } else if j > 0 {
      BitPow2(k - 1, j - 1);
    }
  }

  lemma {:induction false} BitLowMask(k: nat, j: nat)
    ensures Bit(Pow2(k) - 1, j) <==> j < k
    decreases k
  {
    if k == 0 {
      ZeroBit(j);
    } else {
      assert (Pow2(k) - 1) / 2 == Pow2(k - 1) - 1;
      if j > 0 { BitLowMask(k - 1, j - 1); }
    }
  }

  lemma {:induction false} Pow2Add(a: nat, b: nat)
    ensures Pow2(a + b) == Pow2(a) * Pow2(b)
    decreases a
  {
    if a > 0 { Pow2Add(a - 1, b); }
  }

  lemma Pow2Width()
    ensures Pow2(WIDTH) == LIMIT
  {
    assert Pow2(2) == 4;
    assert Pow2(4) == 16;
    assert Pow2(8) == 256 by { Pow2Add(4, 4); }
    assert Pow2(16) == 0x1_0000 by { Pow2Add(8, 8); }
    assert Pow2(32) == 0x1_0000_0000 by { Pow2Add(16, 16); }
    Pow2Add(32, 32);
  }

  /** Bits at or above `w` of a number below 2^w are clear. */
  lemma {:induction false} BitAbove(v: nat, w: nat, j: nat)
    requires v < Pow2(w) && j >= w
    ensures !Bit(v, j)
    decreases w
  {
    if w == 0 {
      ZeroBit(j);
    } else {
      BitAbove(v / 2, w - 1, j - 1);
    }
  }

  lemma {:induction false} BitComplement(v: nat, w: nat, j: nat)
    requires v < Pow2(w)
    ensures Bit(Pow2(w) - 1 - v, j) <==> j < w && !Bit(v, j)
    decreases w
  {
    if w == 0 {
      ZeroBit(j);
    } else {
      var x := Pow2(w) - 1 - v;
      assert x / 2 == Pow2(w - 1) - 1 - v / 2;
      assert x % 2 == 1 <==> v % 2 == 0;
      if j > 0 { BitComplement(v / 2, w - 1, j - 1); }
    }
  }

  lemma BitNot(v: u64, j: nat)
    ensures Bit(Not(v), j) <==> j < WIDTH && !Bit(v, j)
  {
    Pow2Width();
    BitComplement(v, WIDTH, j);
  }

  lemma BitShr1(v: u64, j: nat)
    ensures Bit(Shr1(v), j) == Bit(v, j + 1)
  {
  }

  lemma {:induction false} Pow2Bound(k: nat, w: nat)
    requires k < w
    ensures Pow2(k) < Pow2(w)
    decreases w
  {
    if k < w - 1 { Pow2Bound(k, w - 1); }
  }

  /** Bits of a `u64` above bit 63 are clear. */
  lemma U64Bits(v: u64, j: nat)
    requires j >= WIDTH
    ensures !Bit(v, j)
  {
    Pow2Width();
    BitAbove(v, WIDTH, j);
  }

  lemma {:induction false} OrBound(a: nat, b: nat, w: nat)
    requires a < Pow2(w) && b < Pow2(w)
    ensures Or(a, b) < Pow2(w)
    decreases w
  {
    if w > 0 && (a != 0 || b != 0) {
      OrBound(a / 2, b / 2, w - 1);
    }
  }

  lemma {:induction false} AndBound(a: nat, b: nat)
    ensures And(a, b) <= a
    decreases a
  {
    if a != 0 { AndBound(a / 2, b / 2); }
  }

  // ---------------------------------------------------------------------------
  // The operations of a tensor map

  /** `v | (1 << k)` */
  function Insert(v: u64, k: nat): (r: u64)
    requires k < WIDTH
    ensures forall j: nat :: Bit(r, j) <==> Bit(v, j) || j == k
  {
    Pow2Width();
    Pow2Bound(k, WIDTH);
    OrBound(v, Shl1(k), WIDTH);
    forall j: nat ensures Bit(Or(v, Shl1(k)), j) <==> Bit(v, j) || j == k { BitOr(v, Shl1(k), j); }
    Or(v, Shl1(k))
  }

  /** `k < 64 && v & (1 << k) != 0` */
  function Contains(v: u64, k: nat): (r: bool)
    ensures r <==> Bit(v, k)
  {
    if k < WIDTH then
      var x := And(v, Shl1(k));
      forall j: nat ensures Bit(x, j) <==> j == k && Bit(v, k) { BitAnd(v, Shl1(k), j); }
      if Bit(v, k) then
        ZeroBit(k);
        x != 0
      else
        NoBitsIsZero(x);
        x != 0
    else
      U64Bits(v, k);
      false
  }

  /** The map after memory `i` was removed from the copy list: bits below `i`
      stay, bit `i` goes, bits above `i` move down by one. */
  function Compact(v: u64, i: nat): (r: u64)
    requires i < WIDTH
  {
    var mask := LowMask(i);
    var lower := And(v, mask);
    var upper := And(Shr1(v), Not(mask));
    AndBound(v, mask);
    AndBound(Shr1(v), Not(mask));
    Pow2Width();
    OrBound(lower, upper, WIDTH);
    Or(lower, upper)
  }

  lemma CompactBit(v: u64, i: nat, j: nat)
    requires i < WIDTH
    ensures Bit(Compact(v, i), j) <==> if j < i then Bit(v, j) else Bit(v, j + 1)
  {
    var mask := LowMask(i);
    BitOr(And(v, mask), And(Shr1(v), Not(mask)), j);
    BitAnd(v, mask, j);
    BitAnd(Shr1(v), Not(mask), j);
    BitNot(mask, j);
    BitShr1(v, j);
    if j >= WIDTH { U64Bits(v, j + 1); }
  }
}
