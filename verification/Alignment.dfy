/**
  Sizes on disk: the capped virtual size of a volume, rounded down to the mapper
  sector and the volume group's extent, and the LUKS sector size common to all disks.
*/
module Alignment {
  import opened Sequences

  // ---- Common multiples -----------------------------------------------------------------

  predicate IsCommonMultiple(n: int, a: int, b: int)
    requires a > 0 && b > 0
  {
    n % a == 0 && n % b == 0
  }

  /** Products by a positive number differ by at least that number. */
  lemma ProductGap(d: int, a: int, b: int)
    requires d > 0 && a < b
    ensures d * a + d <= d * b
    decreases b - a
  {
    assert d * b == d * (b - 1) + d;
    if a < b - 1 {
      ProductGap(d, a, b - 1);
    }
  }

  /** Quotient and remainder are unique. */
  lemma DivisionIs(n: int, d: int, q: int, r: int)
    requires d > 0 && n == d * q + r && 0 <= r < d
    ensures n / d == q && n % d == r
  {
    var k := n / d;
    assert n == d * k + n % d;
    if k < q {
      ProductGap(d, k, q);
    } else if k > q {
      ProductGap(d, q, k);
    }
  }

  lemma ProductIsMultiple(a: int, k: int)
    requires a > 0
    ensures (a * k) % a == 0
  {
    DivisionIs(a * k, a, k, 0);
  }

  lemma DifferenceOfMultiples(a: int, m: int, n: int)
    requires a > 0 && m % a == 0 && n % a == 0
    ensures (m - n) % a == 0 && (m + n) % a == 0
  {
    var i, j := m / a, n / a;
    assert m - n == a * (i - j) && m + n == a * (i + j);
    ProductIsMultiple(a, i - j);
    ProductIsMultiple(a, i + j);
  }

  /** The least common multiple that is at least `from`, when `limit` is one. */
  function LeastFrom(a: int, b: int, from: int, limit: int): (m: int)
    requires 0 < a && 0 < b && from <= limit && IsCommonMultiple(limit, a, b)
    ensures from <= m <= limit && IsCommonMultiple(m, a, b)
    decreases limit - from
  {
    if IsCommonMultiple(from, a, b) then from else LeastFrom(a, b, from + 1, limit)
  }

  lemma {:induction false} NoneSkipped(a: int, b: int, from: int, limit: int, n: int)
    requires 0 < a && 0 < b && from <= limit && IsCommonMultiple(limit, a, b)
    requires from <= n < LeastFrom(a, b, from, limit)
    ensures !IsCommonMultiple(n, a, b)
    decreases limit - from
  {
    if n > from {
      NoneSkipped(a, b, from + 1, limit, n);
    }
  }

  lemma ProductIsCommon(a: int, b: int)
    requires 0 < a && 0 < b
    ensures 0 < a * b && IsCommonMultiple(a * b, a, b)
  {
    ProductIsMultiple(a, b);
    ProductIsMultiple(b, a);
  }

  function Lcm(a: int, b: int): (m: int)
    requires 0 < a && 0 < b
    ensures 0 < m && IsCommonMultiple(m, a, b)
  {
    ProductIsCommon(a, b);
    LeastFrom(a, b, 1, a * b)
  }

  lemma LcmIsLeast(a: int, b: int, n: int)
    requires 0 < a && 0 < b && 0 < n < Lcm(a, b)
    ensures !IsCommonMultiple(n, a, b)
  {
    ProductIsCommon(a, b);
    NoneSkipped(a, b, 1, a * b, n);
  }

  /** The common multiples are exactly the multiples of the least one. */
  lemma MultiplesOfLcm(a: int, b: int, n: int)
    requires 0 < a && 0 < b
    ensures IsCommonMultiple(n, a, b) <==> n % Lcm(a, b) == 0
  {
    var m := Lcm(a, b);
    MultiplesOf(m, a, n);
    MultiplesOf(m, b, n);
    if n % m > 0 {
      LcmIsLeast(a, b, n % m);
    }
    ByRemainder(a, b, n, n % m);
  }

  lemma ByRemainder(a: int, b: int, n: int, r: int)
    requires 0 < a && 0 < b
    requires (n % a == 0 <==> r % a == 0) && (n % b == 0 <==> r % b == 0)
    requires r == 0 || !IsCommonMultiple(r, a, b)
    ensures IsCommonMultiple(n, a, b) <==> r == 0
  {
  }

  lemma MultiplesOf(m: int, a: int, n: int)
    requires a > 0 && m > 0 && m % a == 0
    ensures n % a == 0 <==> (n % m) % a == 0
  {
    var k := n / m;
    MultipleOfMultiple(m, a, k);
    Remainder(a, m * k, n % m, n);
  }

  lemma MultipleOfMultiple(m: int, a: int, k: int)
    requires a > 0 && m % a == 0
    ensures (m * k) % a == 0
  {
    var q := m / a;
    assert m * k == a * (q * k);
    ProductIsMultiple(a, q * k);
  }

  /** Adding a multiple does not change whether a number is one. */
  lemma Remainder(a: int, multiple: int, r: int, n: int)
    requires a > 0 && multiple % a == 0 && n == multiple + r
    ensures n % a == 0 <==> r % a == 0
  {
    if n % a == 0 {
      DifferenceOfMultiples(a, n, multiple);
    }
    if r % a == 0 {
      DifferenceOfMultiples(a, r, multiple);
    }
  }

  // ---- Capped sizes ---------------------------------------------------------------------

  predicate CapInBounds(pool: int, pct: real, sector: int, allocation: int) {
    pool > 0 && sector > 0 && allocation > 0 && 0.0 < pct <= 100.0
  }

  function Share(pool: int, pct: real): real {
    pool as real * pct / 100.0
  }

  /** The bytes a cap of `pct` percent allows, aligned down; none when the cap cannot be met. */
  function CappedVirtualSize(pool: int, pct: real, sector: int, allocationSize: Option<int>): Option<int> {
    var allocation := if allocationSize.None? then sector else allocationSize.value;
    if !CapInBounds(pool, pct, sector, allocation) then None
    else
      var alignment := Lcm(sector, allocation);
      var raw := Share(pool, pct).Floor;
      var aligned := raw - raw % alignment;
      if aligned <= 0 || aligned > pool then None else Some(aligned)
  }

  /** A size the cap allows: aligned both ways, and within the share. */
  predicate Allowed(n: int, pool: int, pct: real, sector: int, allocation: int)
    requires sector > 0 && allocation > 0
  {
    IsCommonMultiple(n, sector, allocation) && n as real <= Share(pool, pct)
  }

  lemma ShareWithinPool(pool: int, pct: real)
    requires pool > 0 && 0.0 < pct <= 100.0
    ensures 0.0 < Share(pool, pct) <= pool as real
  {
    assert pool as real * pct <= pool as real * 100.0;
  }

  /** The capped size is the greatest allowed size. */
  lemma CappedSizeIsGreatest(pool: int, pct: real, sector: int, allocation: int, n: int)
    requires CapInBounds(pool, pct, sector, allocation)
    ensures var size := CappedVirtualSize(pool, pct, sector, Some(allocation));
            && (size.Some? ==> 0 < size.value <= pool && Allowed(size.value, pool, pct, sector, allocation))
            && (n > 0 && Allowed(n, pool, pct, sector, allocation) ==> size.Some? && n <= size.value)
  {
    var m, raw := Lcm(sector, allocation), Share(pool, pct).Floor;
    var aligned := raw - raw % m;
    ShareWithinPool(pool, pct);
    assert aligned == m * (raw / m);
    ProductIsMultiple(m, raw / m);
    MultiplesOfLcm(sector, allocation, aligned);
    if n > 0 && Allowed(n, pool, pct, sector, allocation) {
      MultiplesOfLcm(sector, allocation, n);
      AlignedDown(m, raw, n);
    }
  }

  /** No multiple lies between a number aligned down and the number. */
  lemma AlignedDown(m: int, raw: int, n: int)
    requires 0 < m && n % m == 0 && n <= raw
    ensures n <= raw - raw % m
  {
    var k, q := n / m, raw / m;
    if k > q {
      ProductGap(m, q, k);
    } else if k < q {
      ProductGap(m, k, q);
    }
  }

  /** A cap is rejected exactly when an input is out of bounds or the share is below one aligned unit. */
  lemma CapRejectedIff(pool: int, pct: real, sector: int, allocation: int)
    ensures CappedVirtualSize(pool, pct, sector, Some(allocation)).None? <==>
            !CapInBounds(pool, pct, sector, allocation) || Share(pool, pct) < Lcm(sector, allocation) as real
  {
    if CapInBounds(pool, pct, sector, allocation) {
      var m, size := Lcm(sector, allocation), CappedVirtualSize(pool, pct, sector, Some(allocation));
      CappedSizeIsGreatest(pool, pct, sector, allocation, m);
      if size.Some? {
        MultiplesOfLcm(sector, allocation, size.value);
      }
      RejectedBelow(size, m, Share(pool, pct));
    }
  }

  lemma RejectedBelow(size: Option<int>, m: int, share: real)
    requires 0 < m && (m as real <= share ==> size.Some?)
    requires size.Some? ==> 0 < size.value && size.value % m == 0 && size.value as real <= share
    ensures size.None? <==> share < m as real
  {
    if size.Some? {
      MultipleHasFactor(m, size.value);
    }
  }

  lemma MultipleHasFactor(m: int, n: int)
    requires 0 < m && 0 < n && n % m == 0
    ensures m <= n
  {
  }

  /**
    Written out: a size is given only for a positive pool and alignment and a percentage
    up to 100; it is the greatest positive multiple of sector and allocation size within
    that percentage of the pool, and missing only if there is none.
  */
  lemma CapWrittenOut(pool: int, pct: real, sector: int, allocation: int, n: int)
    ensures var size := CappedVirtualSize(pool, pct, sector, Some(allocation));
            var sane := pool > 0 && sector > 0 && allocation > 0 && 0.0 < pct <= 100.0;
            && (size.Some? ==> sane)
            && (sane && size.Some? ==>
                  && size.value > 0 && size.value % sector == 0 && size.value % allocation == 0
                  && size.value as real * 100.0 <= pool as real * pct)
            && (sane && n > 0 && n % sector == 0 && n % allocation == 0 && n as real * 100.0 <= pool as real * pct ==>
                  size.Some? && n <= size.value)
    ensures CappedVirtualSize(pool, pct, sector, None) == CappedVirtualSize(pool, pct, sector, Some(sector))
  {
    if pool > 0 && sector > 0 && allocation > 0 && 0.0 < pct <= 100.0 {
      CappedSizeIsGreatest(pool, pct, sector, allocation, n);
      ShareOf(pool, pct, n);
      var size := CappedVirtualSize(pool, pct, sector, Some(allocation));
      if size.Some? {
        ShareOf(pool, pct, size.value);
      }
    }
  }

  /** What is no larger than the capped size is within that percentage of the pool. */
  lemma SmallerIsWithin(pool: int, pct: real, sector: int, allocation: int, n: int)
    requires CappedVirtualSize(pool, pct, sector, Some(allocation)).Some?
    requires n <= CappedVirtualSize(pool, pct, sector, Some(allocation)).value
    ensures n as real * 100.0 <= pool as real * pct
  {
    var size := CappedVirtualSize(pool, pct, sector, Some(allocation)).value;
    CapWrittenOut(pool, pct, sector, allocation, size);
    Hundredfold(n, size, pool as real * pct);
  }

  lemma Hundredfold(n: int, size: int, bound: real)
    requires n <= size && size as real * 100.0 <= bound
    ensures n as real * 100.0 <= bound
  {
  }

  lemma ShareOf(pool: int, pct: real, n: int)
    ensures n as real <= Share(pool, pct) <==> n as real * 100.0 <= pool as real * pct
  {
  }

  /** A larger pool or a larger percentage never caps a volume lower. */
  lemma CapIsMonotone(pool: int, pct: real, pool': int, pct': real, sector: int, allocation: int)
    requires CapInBounds(pool, pct, sector, allocation) && CapInBounds(pool', pct', sector, allocation)
    requires pool <= pool' && pct <= pct'
    requires CappedVirtualSize(pool, pct, sector, Some(allocation)).Some?
    ensures CappedVirtualSize(pool', pct', sector, Some(allocation)).Some?
    ensures CappedVirtualSize(pool, pct, sector, Some(allocation)).value
            <= CappedVirtualSize(pool', pct', sector, Some(allocation)).value
  {
    var size := CappedVirtualSize(pool, pct, sector, Some(allocation)).value;
    CappedSizeIsGreatest(pool, pct, sector, allocation, size);
    ShareIsMonotone(pool, pct, pool', pct');
    CappedSizeIsGreatest(pool', pct', sector, allocation, size);
  }

  lemma ShareIsMonotone(pool: int, pct: real, pool': int, pct': real)
    requires 0 < pool <= pool' && 0.0 < pct <= pct'
    ensures Share(pool, pct) <= Share(pool', pct')
  {
    assert pool as real * pct <= pool' as real * pct;
    assert pool' as real * pct <= pool' as real * pct';
  }

  /** The size LVM allocates: rounded up to whole extents. */
  function ExtentRoundUp(n: int, extent: int): int
    requires extent > 0
  {
    (n + extent - 1) / extent * extent
  }

  lemma RoundUpBounds(n: int, extent: int)
    requires extent > 0
    ensures n <= ExtentRoundUp(n, extent) < n + extent && ExtentRoundUp(n, extent) % extent == 0
  {
    var k := (n + extent - 1) / extent;
    ProductIsMultiple(extent, k);
    assert extent * k == k * extent;
  }

  /** LVM's rounding leaves a capped size alone, so the cap is not exceeded. */
  lemma CapSurvivesExtentRounding(pool: int, pct: real, sector: int, extent: int)
    requires CapInBounds(pool, pct, sector, extent) && CappedVirtualSize(pool, pct, sector, Some(extent)).Some?
    ensures var size := CappedVirtualSize(pool, pct, sector, Some(extent)).value;
            ExtentRoundUp(size, extent) == size
  {
    var size := CappedVirtualSize(pool, pct, sector, Some(extent)).value;
    CappedSizeIsGreatest(pool, pct, sector, extent, size);
    var k := size / extent;
    DivisionIs(size + extent - 1, extent, k, extent - 1);
  }
}
