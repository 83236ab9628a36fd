/** The 64-bit map of up-to-date copies, kept in a `Cell<u64>`: `Bitmap` in
    src/utility/bitmap.rs, `TensorMap` in src/tensor/tensor_map.rs and `u64Map`
    in src1/tensor/map.rs (the three are the same code). */
module VersionMaps {
  import opened Bits

  /** A map is zero exactly when it marks no copy. */
  lemma MarkedIffNonZero(v: u64)
    ensures (v == 0) <==> (forall j: nat :: !Bit(v, j))
  {
    if v == 0 {
      ZeroHasNoBits(v);
    } else {
      LowestMarked(v);
    }
  }

  lemma LowestMarked(v: u64)
    requires v != 0
    ensures exists j: nat :: Bit(v, j)
  {
    assert Bit(v, TrailingZeros(v));
  }

  class VersionMap {
    var bits: u64

    /** `new`, which is `with(0)`. */
    constructor ()
      ensures bits == 0 && Empty()
    {
      bits := 0;
      ZeroHasNoBits(0);
    }

    /** `with(n)` */
    constructor With(n: u64)
      ensures bits == n
    {
      bits := n;
    }

    /** `get` */
    function Get(): u64
      reads this
    {
      bits
    }

    /** `set(v)` replaces the whole value: `get` then returns `v`. */
    method Set(v: u64)
      modifies this
      ensures Get() == v
    {
      bits := v;
    }

    /** `clear`, which is `set(0)`: afterwards the map is empty. */
    method Clear()
      modifies this
      ensures bits == 0 && Empty()
    {
      Set(0);
      ZeroHasNoBits(0);
    }

    /** `empty`: no copy is marked. */
    function Empty(): (b: bool)
      reads this
      ensures b <==> bits == 0
      ensures b <==> (forall j: nat :: !Bit(bits, j))
    {
      MarkedIffNonZero(bits);
      bits == 0
    }

    /** `insert(k)`: mark copy `k` as well; shifting by 64 or more overflows. */
    method Insert(k: nat)
      requires k < WIDTH
      modifies this
      ensures bits == Bits.Insert(old(bits), k)
      ensures forall j: nat :: Bit(bits, j) <==> Bit(old(bits), j) || j == k
    {
      bits := Bits.Insert(bits, k);
    }

    /** `contains(k)` */
    function Contains(k: nat): (b: bool)
      reads this
      ensures b <==> k < WIDTH && Bit(bits, k)
    {
      k < WIDTH && Bits.Contains(bits, k)
    }

    /** `latest`: the lowest marked copy, or 64 when none is marked. */
    function Latest(): (r: nat)
      reads this
      ensures r <= WIDTH && (r == WIDTH <==> Empty())
      ensures r < WIDTH ==> Bit(bits, r) && forall j: nat :: j < r ==> !Bit(bits, j)
    {
      TrailingZeros(bits)
    }
  }
}
