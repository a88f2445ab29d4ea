/** Power-of-two alignment arithmetic behind the allocator's free pointer. */
module Alignment {
  import opened Outcomes

  predicate PowerOfTwo(n: nat) {
    n == 1 || (n > 1 && n % 2 == 0 && PowerOfTwo(n / 2))
  }

  /** A smaller power of two divides a larger one. */
  lemma {:induction false} SmallerPowerDivides(a: nat, n: nat)
    requires PowerOfTwo(a) && PowerOfTwo(n) && a <= n
    ensures n % a == 0
    decreases a
  {
    if a > 1 {
      SmallerPowerDivides(a / 2, n / 2);
      var q := (n / 2) / (a / 2);
      assert n == 2 * (q * (a / 2)) == q * a;
      MultipleModZero(q, a);
    }
  }

  lemma MultipleModZero(q: int, a: nat)
    requires a > 0
    ensures (q * a) % a == 0
  {
    DivisionUnique(q * a, a, q, 0);
  }

  /** Quotient and remainder are determined by their defining equation. */
  lemma DivisionUnique(n: int, a: int, q: int, r: int)
    requires 0 <= r < a && n == q * a + r
    ensures n / a == q && n % a == r
  {
    assert (n / a - q) * a == r - n % a;
    MultipleGrows(n / a - q, a);
  }

  lemma MultipleGrows(k: int, a: int)
    requires a > 0
    ensures k >= 1 ==> k * a >= a
    ensures k <= -1 ==> k * a <= -a
  {
    if k >= 1 {
      assert (k - 1) * a >= 0;
    } else if k <= -1 {
      assert (-k - 1) * a >= 0;
    }
  }

  lemma SumOfMultiples(x: int, y: int, a: nat)
    requires a > 0 && x % a == 0 && y % a == 0
    ensures (x + y) % a == 0 && (x - y) % a == 0
  {
    assert x == (x / a) * a && y == (y / a) * a;
    assert x + y == (x / a + y / a) * a && x - y == (x / a - y / a) * a;
    MultipleModZero(x / a + y / a, a);
    MultipleModZero(x / a - y / a, a);
  }

  /** Divisibility is transitive. */
  lemma MultipleOfMultiple(x: int, b: nat, a: nat)
    requires a > 0 && b > 0 && x % b == 0 && b % a == 0
    ensures x % a == 0
  {
    assert x == (x / b) * b && b == (b / a) * a;
    assert x == ((x / b) * (b / a)) * a;
    MultipleModZero((x / b) * (b / a), a);
  }

  /** Two multiples of `a` that differ are at least `a` apart. */
  lemma MultiplesApart(x: int, y: int, a: nat)
    requires a > 0 && x % a == 0 && y % a == 0 && x < y
    ensures x + a <= y
  {
    SumOfMultiples(y, x, a);
  }

  /** The address the free pointer is moved up to before a resource of this alignment is placed. */
  function AlignUp(p: nat, a: nat): (r: nat)
    requires a > 0
    ensures p <= r < p + a
    ensures r % a == 0
  {
    if p % a == 0 then p
    else
      assert (p + (a - p % a)) % a == 0 by {
        assert p == (p / a) * a + p % a;
        assert p + (a - p % a) == (p / a + 1) * a;
        MultipleModZero(p / a + 1, a);
      }
      p + (a - p % a)
  }

  /** Aligning up gives the least aligned address that is not below the pointer. */
  lemma AlignUpLeast(p: nat, a: nat, m: nat)
    requires a > 0 && m % a == 0 && p <= m
    ensures AlignUp(p, a) <= m
  {
    if m < AlignUp(p, a) {
      MultiplesApart(m, AlignUp(p, a), a);
    }
  }

  /** `get_aligned_free_pointer`: the offset a resource would get on the current page, if it fits. */
  function AlignedFreePointer(freePtr: nat, size: nat, align: nat, pageSize: nat): (r: Option<nat>)
    requires align > 0
  {
    var aligned := AlignUp(freePtr, align);
    if aligned + size > pageSize then None else Some(aligned)
  }

  /** What fits behind the unaligned pointer fits behind the aligned one. */
  lemma AlignedStillFits(freePtr: nat, size: nat, align: nat, pageSize: nat)
    requires align > 0 && size % align == 0 && pageSize % align == 0 && freePtr + size <= pageSize
    ensures AlignUp(freePtr, align) + size <= pageSize
  {
    SumOfMultiples(pageSize, size, align);
    AlignUpLeast(freePtr, align, pageSize - size);
  }

  /**
   * Padding never costs a page: a lookup is refused exactly when the bytes behind the unaligned free
   * pointer are too few, and no sum computed by the lookup passes twice the page size.
   */
  lemma RefusedOnlyWhenFull(freePtr: nat, size: nat, align: nat, pageSize: nat)
    requires PowerOfTwo(align) && PowerOfTwo(pageSize) && size % align == 0
    requires freePtr <= pageSize && size <= pageSize && align <= pageSize
    ensures AlignedFreePointer(freePtr, size, align, pageSize).None? <==> freePtr + size > pageSize
    ensures AlignUp(freePtr, align) <= pageSize
    ensures AlignUp(freePtr, align) + size <= 2 * pageSize
  {
    SmallerPowerDivides(align, pageSize);
    LookupResult(freePtr, size, align, pageSize);
    FitsAligned(freePtr, size, align, pageSize);
  }

  lemma FitsAligned(freePtr: nat, size: nat, align: nat, pageSize: nat)
    requires align > 0 && size % align == 0 && pageSize % align == 0 && freePtr <= pageSize
    ensures AlignUp(freePtr, align) <= pageSize
    ensures AlignUp(freePtr, align) + size <= pageSize <==> freePtr + size <= pageSize
  {
    AlignUpLeast(freePtr, align, pageSize);
    if freePtr + size <= pageSize {
      AlignedStillFits(freePtr, size, align, pageSize);
    }
  }

  /** A lookup is refused exactly when the resource does not fit behind the aligned pointer. */
  lemma LookupResult(freePtr: nat, size: nat, align: nat, pageSize: nat)
    requires align > 0
    ensures AlignedFreePointer(freePtr, size, align, pageSize).None? <==> AlignUp(freePtr, align) + size > pageSize
  {
  }
}
