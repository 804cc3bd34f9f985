/** The size arithmetic of ObjectCache.h: rounding an object up to its alignment with a mask, and
    choosing a buffer for it. */
module ObjectSizes {
  import opened Bits
  import M = MemCache

  const WORD32: nat := 0x1_0000_0000
  const INT_MAX: nat := 0x7FFF_FFFF
  const PAGE_SIZE: nat := 4096
  const POINTER_SIZE: nat := 8

  /** (objsize + mask) & ~mask, the complement taken in 32 bits. */
  function AlignedObjectSize(objsize: nat, alignment: nat): nat
    requires 0 < alignment <= INT_MAX
  {
    var mask := alignment - 1;
    And(objsize + mask, WORD32 - 1 - mask)
  }

  function NumFor(size: nat): nat
    requires size > 0
  {
    var num := if size < PAGE_SIZE then PAGE_SIZE / size else 16;
    if num < 16 then 16 else num
  }

  function WholePages(x: nat): nat {
    (x + PAGE_SIZE - 1) / PAGE_SIZE * PAGE_SIZE
  }

  function EstimateBufferSize(size: nat): nat
    requires size > 0
  {
    WholePages(NumFor(size) * size)
  }

  // ---------------------------------------------------------------- the mask

  lemma HalfMod(x: nat, p: nat)
    requires p > 0
    ensures x % (2 * p) == 2 * ((x / 2) % p) + x % 2
  {
    var q, r := (x / 2) / p, (x / 2) % p;
    TwiceProduct(p, q);
    DivUnique(x, 2 * p, q, 2 * r + x % 2);
  }

  lemma AndHighStep(x: nat, y: nat, r: nat)
    requires And(x / 2, y) == x / 2 - r
    ensures And(x, 2 * y) == x - (2 * r + x % 2)
  {
    AndEven(x, y);
  }

  /** Clearing the low k bits. */
  lemma {:induction false} AndHigh(x: nat, n: nat, k: nat)
    requires k <= n && x < Pow2(n)
    ensures Pow2(k) <= Pow2(n)
    ensures And(x, Pow2(n) - Pow2(k)) == x - x % Pow2(k)
    decreases n
  {
    if k < n { Pow2Monotone(k, n); }
    if k == 0 {
      MaskAndShift(x, n);
      DivUnique(x, Pow2(n), 0, x);
    } else {
      AndHigh(x / 2, n - 1, k - 1);
      HalfMod(x, Pow2(k - 1));
      AndHighStep(x, Pow2(n - 1) - Pow2(k - 1), (x / 2) % Pow2(k - 1));
    }
  }

  lemma AndEven(x: nat, y: nat)
    ensures And(x, 2 * y) == 2 * And(x / 2, y)
  {
    var z := 2 * y;
    assert z / 2 == y && z % 2 == 0;
    assert And(x, z) == if x == 0 || z == 0 then 0 else 2 * And(x / 2, y);
  }

  lemma AndOdd(x: nat, y: nat)
    requires x % 2 == 1
    ensures And(x, 2 * y + 1) == 2 * And(x / 2, y) + 1
  {
  }

  lemma {:induction false} AndComplement(x: nat, n: nat)
    requires x < Pow2(n)
    ensures And(x, Pow2(n) - 1 - x) == 0
    decreases n
  {
    if n > 0 {
      AndComplement(x / 2, n - 1);
      var y := Pow2(n) - 1 - x;
      assert y / 2 == Pow2(n - 1) - 1 - x / 2;
      assert x % 2 == 0 || y % 2 == 0;
    }
  }

  /** Masking a number with its negation leaves its lowest bit. */
  lemma {:induction false} LowBit(a: nat, n: nat) returns (j: nat)
    requires 0 < a < Pow2(n)
    ensures And(a, Pow2(n) - a) == Pow2(j) <= a
    decreases n
  {
    if a % 2 == 1 {
      j := 0;
      AndComplement(a / 2, n - 1);
      assert Pow2(n) - a == 2 * (Pow2(n - 1) - 1 - a / 2) + 1;
      AndOdd(a, Pow2(n - 1) - 1 - a / 2);
    } else {
      j := LowBit(a / 2, n - 1);
      AndEven(a, Pow2(n - 1) - a / 2);
      j := j + 1;
    }
  }

  // ---------------------------------------------------------------- rounding up

  lemma DownToMultiple(x: nat, a: nat)
    requires a > 0
    ensures (x - x % a) % a == 0
  {
    DivUnique(x - x % a, a, x / a, 0);
  }

  lemma RoundedUp(objsize: nat, a: nat, r: nat)
    requires a > 0 && r == (objsize + a - 1) - (objsize + a - 1) % a
    ensures r % a == 0 && objsize <= r < objsize + a
  {
    DownToMultiple(objsize + a - 1, a);
  }

  lemma MaskedIs(objsize: nat, alignment: nat)
    requires IsPow2(alignment) && alignment <= INT_MAX && objsize + alignment <= INT_MAX
    ensures AlignedObjectSize(objsize, alignment) == (objsize + alignment - 1) - (objsize + alignment - 1) % alignment
  {
    var k: nat :| Pow2(k) == alignment;
    var w := Pow2(32);
    assert w == WORD32 by { Pow2Values(); }
    if k > 32 { Pow2Monotone(32, k); }
    AndHigh(objsize + alignment - 1, 32, k);
  }

  /** For a power of two the result is the least multiple of the alignment that holds the object. */
  lemma AlignedIsLeastMultiple(objsize: nat, alignment: nat)
    requires IsPow2(alignment) && alignment <= INT_MAX && objsize + alignment <= INT_MAX
    ensures AlignedObjectSize(objsize, alignment) % alignment == 0
    ensures objsize <= AlignedObjectSize(objsize, alignment) < objsize + alignment
  {
    MaskedIs(objsize, alignment);
    RoundedUp(objsize, alignment, AlignedObjectSize(objsize, alignment));
  }

  lemma SmallMod(x: nat, d: nat)
    requires 0 < x < d
    ensures x % d != 0
  {
    DivUnique(x, d, 0, x);
  }

  lemma OneByteKeepsLowBit(alignment: nat) returns (j: nat)
    requires 0 < alignment <= INT_MAX
    ensures AlignedObjectSize(1, alignment) == Pow2(j) <= alignment
  {
    var w := Pow2(32);
    assert w == WORD32 by { Pow2Values(); }
    j := LowBit(alignment, 32);
  }

  /** With any other alignment already an object of one byte is not rounded to a multiple. */
  lemma OtherAlignmentFails(alignment: nat)
    requires 0 < alignment <= INT_MAX && !IsPow2(alignment)
    ensures AlignedObjectSize(1, alignment) % alignment != 0
  {
    var j := OneByteKeepsLowBit(alignment);
    SmallMod(Pow2(j), alignment);
  }

  /** The rounding is right for every object exactly if the alignment is a power of two, which the
      static assertion (alignment > 0) does not demand. */
  lemma AlignmentMustBePowerOfTwo(alignment: nat)
    requires 0 < alignment < INT_MAX
    ensures IsPow2(alignment) <==>
      forall objsize: nat :: 0 < objsize && objsize + alignment <= INT_MAX ==>
        AlignedObjectSize(objsize, alignment) % alignment == 0
  {
    if IsPow2(alignment) {
      forall objsize: nat | 0 < objsize && objsize + alignment <= INT_MAX
        ensures AlignedObjectSize(objsize, alignment) % alignment == 0
      {
        AlignedIsLeastMultiple(objsize, alignment);
      }
    } else {
      OtherAlignmentFails(alignment);
    }
  }

  // ---------------------------------------------------------------- buffers

  lemma NumSuffices(size: nat)
    requires size > 0
    ensures NumFor(size) >= 16
    ensures NumFor(size) * size <= PAGE_SIZE || NumFor(size) == 16
  {
    if size < PAGE_SIZE {
      assert PAGE_SIZE / size * size <= PAGE_SIZE;
    }
  }

  lemma RoundUpToPage(x: nat)
    ensures WholePages(x) % PAGE_SIZE == 0 && x <= WholePages(x) < x + PAGE_SIZE
    ensures 0 < x <= PAGE_SIZE ==> WholePages(x) == PAGE_SIZE
  {
  }

  lemma QuotientAtLeast(x: nat, d: nat, q: nat)
    requires d > 0 && q * d <= x
    ensures x / d >= q
  {
    var rest: nat := x - q * d;
    assert x == d * (q + rest / d) + rest % d;
    DivUnique(x, d, q + rest / d, rest % d);
  }

  /** A buffer is a whole number of pages with room for sixteen objects at least, and no page more
      than its objects need. */
  lemma BufferSizeSuffices(size: nat)
    requires size > 0
    ensures EstimateBufferSize(size) % PAGE_SIZE == 0
    ensures EstimateBufferSize(size) / size >= 16
    ensures EstimateBufferSize(size) == PAGE_SIZE || EstimateBufferSize(size) < 16 * size + PAGE_SIZE
  {
    var num := NumFor(size);
    NumSuffices(size);
    RoundUpToPage(num * size);
    AtLeastSixteen(num, size);
    QuotientAtLeast(WholePages(num * size), size, 16);
  }

  lemma AtLeastSixteen(num: nat, size: nat)
    requires num >= 16
    ensures num * size >= 16 * size
  {
    assert (num - 16) * size >= 0;
  }

  /** The computation stays within int exactly up to this object size. */
  lemma BufferSizeFitsInt(size: nat)
    requires size > 0
    ensures NumFor(size) * size + PAGE_SIZE - 1 <= INT_MAX <==> size <= (INT_MAX - PAGE_SIZE + 1) / 16
  {
    NumSuffices(size);
    if size >= PAGE_SIZE {
      assert NumFor(size) == 16;
    }
  }

  /** The default parameters of ObjectCache meet what the allocator demands, so that everything
      proved of it holds for them, and its objects are aligned. */
  lemma DefaultConfigIsValid(objsize: nat, alignment: nat)
    requires 0 < objsize && IsPow2(alignment) && objsize + alignment <= INT_MAX
    ensures
      var size := AlignedObjectSize(objsize, alignment);
      && size >= objsize && size > 0
      && var c := M.Config(size, PAGE_SIZE / POINTER_SIZE, EstimateBufferSize(size));
         c.Valid() && c.BufferObjects() >= 16
         && forall i: nat :: M.Offset(c, i) % alignment == 0
  {
    AlignedIsLeastMultiple(objsize, alignment);
    var size := AlignedObjectSize(objsize, alignment);
    BufferSizeSuffices(size);
    var c := M.Config(size, PAGE_SIZE / POINTER_SIZE, EstimateBufferSize(size));
    if c.bufferSize < size { DivUnique(c.bufferSize, size, 0, c.bufferSize); }
    forall i: nat ensures M.Offset(c, i) % alignment == 0 {
      MultipleOfMultiple(i, size, alignment);
    }
  }

  lemma MultipleOfMultiple(i: nat, size: nat, alignment: nat)
    requires alignment > 0 && size % alignment == 0
    ensures (i * size) % alignment == 0
  {
    var q := size / alignment;
    assert i * size == alignment * (i * q) by {
      assert size == alignment * q;
      Reorder(i, alignment, q);
    }
    DivUnique(i * size, alignment, i * q, 0);
  }

  lemma Reorder(i: nat, a: nat, q: nat)
    ensures i * (a * q) == a * (i * q)
  {
  }
}
