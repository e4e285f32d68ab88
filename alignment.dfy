/**
 * Alignment arithmetic of the shader program (hell_renderer
 * `vulkan/shader_program.rs`): `get_aligned`, which rounds up with the bit
 * trick `(x + (a - 1)) & !(a - 1)`, `get_aligned_range`, and the stride the
 * builder's `calculate_ubo_stride` loop arrives at.
 *
 * The bitwise AND with a complement is modelled on unbounded naturals, bit
 * by bit (`AndNot`); for a power-of-two alignment it is proved to round up
 * to the least multiple.
 */
module Alignment {
  import opened RenderTypes

  /** `x & !m`: the bits of `x` that are clear in `m`. */
  function AndNot(x: nat, m: nat): (r: nat)
    ensures r <= x
    decreases x
  {
    if x == 0 then 0
    else 2 * AndNot(x / 2, m / 2) + (if x % 2 == 1 && m % 2 == 0 then 1 else 0)
  }

  function Pow2(k: nat): (p: nat)
    ensures p >= 1
  {
    if k == 0 then 1 else 2 * Pow2(k - 1)
  }

  /**
   * `get_aligned(operand, alignment)`; an alignment of 0 underflows
   * `alignment - 1` in the source. The guard below never fires under the
   * precondition: it only stops the verifier from expanding the bit-by-bit
   * definition on constant arguments without end.
   */
  function GetAligned(operand: nat, alignment: nat): (r: nat)
    requires alignment >= 1
  {
    if alignment == 0 then operand else AndNot(operand + (alignment - 1), alignment - 1)
  }

  /** `get_aligned_range`: offset and size are aligned independently. */
  function GetAlignedRange(offset: nat, size: nat, alignment: nat): (r: ValueRange)
    requires alignment >= 1
    ensures r.offset == GetAligned(offset, alignment) && r.range == GetAligned(size, alignment)
  {
    ValueRange(GetAligned(offset, alignment), GetAligned(size, alignment))
  }

  /**
   * The least multiple of `alignment` that is at least `size`: the value
   * `calculate_ubo_stride` reaches by adding `alignment` until it is not
   * below `size`.
   */
  function UboStride(size: nat, alignment: nat): (r: nat)
    requires alignment >= 1
  {
    ((size + alignment - 1) / alignment) * alignment
  }

  // ---------------------------------------------------------------------
  // Arithmetic facts
  // ---------------------------------------------------------------------

  /** Multiplication by a natural is monotone. */
  lemma MulMono(i: nat, j: nat, a: nat)
    requires i <= j
    ensures i * a <= j * a
  {
    var d: nat := j - i;
    assert j * a == i * a + d * a;
  }

  /** `n` lies in `[(n / a) * a, (n / a) * a + a)`. */
  lemma DivBounds(n: nat, a: nat)
    requires a >= 1
    ensures (n / a) * a <= n < (n / a) * a + a
  {
  }

  /** Division by `a` is determined by the bounds above. */
  lemma DivUnique(n: nat, a: nat, q: nat)
    requires a >= 1
    requires q * a <= n < q * a + a
    ensures n / a == q
  {
    var d := n / a;
    DivBounds(n, a);
    if d < q {
      MulMono(d + 1, q, a);
    } else if d > q {
      MulMono(q + 1, d, a);
    }
  }

  lemma DivDiv(y: nat, p: nat)
    requires p >= 1
    ensures (y / 2) / p == y / (2 * p)
  {
    var q := y / (2 * p);
    DivBounds(y, 2 * p);
    assert q * (2 * p) == 2 * (q * p);
    DivUnique(y / 2, p, q);
  }

  // ---------------------------------------------------------------------
  // get_aligned
  // ---------------------------------------------------------------------

  /** An empty mask removes no bit. */
  lemma {:induction false} AndNotZeroMask(x: nat)
    ensures AndNot(x, 0) == x
  {
    if x > 0 {
      AndNotZeroMask(x / 2);
    }
  }

  /** Clearing the low `k` bits rounds down to a multiple of `2^k`. */
  lemma {:induction false} AndNotLowMask(y: nat, k: nat)
    ensures AndNot(y, Pow2(k) - 1) == (y / Pow2(k)) * Pow2(k)
  {
    var a := Pow2(k);
    if k == 0 {
      AndNotZeroMask(y);
      assert a == 1;
    } else if y > 0 {
      var p := Pow2(k - 1);
      assert a == 2 * p;
      calc {
        AndNot(y, a - 1);
        { AndNotOddMask(y, p); }
        2 * AndNot(y / 2, p - 1);
        { AndNotLowMask(y / 2, k - 1); }
        2 * (((y / 2) / p) * p);
        { DoubleRoundDown(y, p); }
        (y / a) * a;
      }
    } else {
      assert AndNot(y, a - 1) == 0;
    }
  }

  /** A mask with its lowest bit set keeps no lowest bit. */
  lemma AndNotOddMask(y: nat, p: nat)
    requires y > 0 && p >= 1
    ensures AndNot(y, 2 * p - 1) == 2 * AndNot(y / 2, p - 1)
  {
    var m := 2 * p - 1;
    assert m % 2 == 1 && m / 2 == p - 1;
  }

  /** Rounding `y / 2` down to a multiple of `p` and doubling rounds `y` down to a multiple of `2p`. */
  lemma DoubleRoundDown(y: nat, p: nat)
    requires p >= 1
    ensures 2 * (((y / 2) / p) * p) == (y / (2 * p)) * (2 * p)
  {
    DivDiv(y, p);
    var q := y / (2 * p);
    assert 2 * (q * p) == q * (2 * p);
  }

  /** With a power-of-two alignment, `get_aligned` is the division-based round-up. */
  lemma GetAlignedIsRoundUp(x: nat, k: nat)
    ensures GetAligned(x, Pow2(k)) == UboStride(x, Pow2(k))
  {
    AndNotLowMask(x + Pow2(k) - 1, k);
  }

  /**
   * The round-up is the least multiple of `a` not below `size`: a multiple,
   * not below `size`, less than one alignment above it, zero for zero, and
   * below or equal to every other multiple not below `size`.
   */
  lemma UboStrideIsLeastMultiple(size: nat, a: nat)
    requires a >= 1
    ensures UboStride(size, a) % a == 0
    ensures size <= UboStride(size, a) < size + a
    ensures size == 0 ==> UboStride(size, a) == 0
    ensures forall m: nat :: m % a == 0 && m >= size ==> UboStride(size, a) <= m
  {
    var q := (size + a - 1) / a;
    assert UboStride(size, a) == q * a;
    DivBounds(size + a - 1, a);
    MultipleMod(q, a);
    if size == 0 {
      DivUnique(a - 1, a, 0);
    }
    forall m: nat | m % a == 0 && m >= size
      ensures q * a <= m
    {
      MultipleBelow(m, a, q, size);
    }
  }

  lemma MultipleMod(q: nat, a: nat)
    requires a >= 1
    ensures (q * a) % a == 0
  {
    DivUnique(q * a, a, q);
  }

  /** A multiple of `a` that is at least `size` is at least `q * a` when `q * a < size + a`. */
  lemma MultipleBelow(m: nat, a: nat, q: nat, size: nat)
    requires a >= 1 && m % a == 0 && m >= size
    requires q * a <= size + a - 1
    ensures q * a <= m
  {
    DivBounds(m, a);
    var j := m / a;
    assert m == j * a;
    if j < q {
      assert (j + 1) * a == j * a + a;
      MulMono(j + 1, q, a);
    }
  }

  /** Only one multiple of `a` lies in `[size, size + a)`, so it is the round-up. */
  lemma UboStrideUnique(size: nat, a: nat, s: nat)
    requires a >= 1
    requires s % a == 0 && size <= s < size + a
    ensures s == UboStride(size, a)
  {
    UboStrideIsLeastMultiple(size, a);
    var r := UboStride(size, a);
    DivBounds(s, a);
    DivBounds(r, a);
    var i, j := s / a, r / a;
    assert s == i * a && r == j * a;
    if i < j {
      assert (i + 1) * a == i * a + a;
      MulMono(i + 1, j, a);
    } else if i > j {
      assert (j + 1) * a == j * a + a;
      MulMono(j + 1, i, a);
    }
  }

  /**
   * For a power-of-two alignment, `get_aligned(x, a)` is the least multiple
   * of `a` that is at least `x`.
   */
  lemma GetAlignedPow2(x: nat, k: nat)
    ensures GetAligned(x, Pow2(k)) % Pow2(k) == 0
    ensures x <= GetAligned(x, Pow2(k)) < x + Pow2(k)
    ensures forall m: nat :: m % Pow2(k) == 0 && m >= x ==> GetAligned(x, Pow2(k)) <= m
  {
    GetAlignedIsRoundUp(x, k);
    UboStrideIsLeastMultiple(x, Pow2(k));
  }

  /** A value that is already aligned is kept. */
  lemma GetAlignedOfMultiple(x: nat, k: nat)
    requires x % Pow2(k) == 0
    ensures GetAligned(x, Pow2(k)) == x
  {
    GetAlignedIsRoundUp(x, k);
    UboStrideUnique(x, Pow2(k), x);
  }

  /** `get_aligned_range` with a power-of-two alignment gives an aligned offset and an aligned size. */
  lemma GetAlignedRangePow2(offset: nat, size: nat, k: nat)
    ensures var r := GetAlignedRange(offset, size, Pow2(k));
            r.offset % Pow2(k) == 0 && offset <= r.offset < offset + Pow2(k)
            && r.range % Pow2(k) == 0 && size <= r.range < size + Pow2(k)
  {
    GetAlignedPow2(offset, k);
    GetAlignedPow2(size, k);
  }
}
