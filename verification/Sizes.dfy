// Table sizes: powers of two, the growth and shrink thresholds, and the budget that pays for resizing.

module Sizes {

  predicate PowerOfTwo(n: nat) {
    n == 1 || (n > 1 && n % 2 == 0 && PowerOfTwo(n / 2))
  }

  lemma TimesTwo(n: nat)
    requires PowerOfTwo(n)
    ensures PowerOfTwo(2 * n)
  {
    assert 2 * n / 2 == n;
  }

  lemma {:induction false} AtLeastSixteen(n: nat)
    requires PowerOfTwo(n) && n >= 16
    ensures n % 4 == 0 && (n > 16 ==> n >= 32)
  {
    if n >= 32 {
      AtLeastSixteen(n / 2);
    } else {
      assert PowerOfTwo(n / 2) && PowerOfTwo(n / 2 / 2) && PowerOfTwo(n / 2 / 2 / 2);
    }
  }

  // The next power of two of a smaller one is at most the larger one.
  lemma {:induction false} DoubleFits(m: nat, n: nat)
    requires PowerOfTwo(m) && PowerOfTwo(n) && m < n
    ensures m <= n / 2
    decreases m
  {
    if m > 1 {
      DoubleFits(m / 2, n / 2);
    }
  }

  // The doubling loop ends at the least power of two that is at least c.
  lemma RoundUpLeast(p: nat, c: nat, q: nat)
    requires PowerOfTwo(p) && p / 2 < c <= p
    requires PowerOfTwo(q) && c <= q
    ensures p <= q
  {
    if q < p { DoubleFits(q, p); }
  }

  function GrowAt(n: nat): (r: nat)
    ensures n > 0 ==> r < n
  {
    n * 3 / 4
  }

  function ShrinkAt(n: nat): nat { n / 10 }

  // What the operations since the last resize have saved up towards the next one.
  function Saved(n: nat, count: nat, cap: nat): nat {
    (if 8 * count > 3 * n then 8 * count - 3 * n else 0)
    + (if n > cap && n > 5 * count then 4 * (n - 5 * count) else 0)
  }

  // With no failed allocation, resizing has scanned at most 20 buckets per operation, and a table
  // above its minimal size is never left with few enough keys to shrink.
  predicate Budget(ops: nat, scanned: nat, n: nat, count: nat, cap: nat) {
    && scanned + Saved(n, count, cap) <= 20 * ops
    && (n > cap ==> count > ShrinkAt(n))
  }

  lemma GrowIsPaid(ops: nat, scanned: nat, n: nat, count: nat, cap: nat)
    requires PowerOfTwo(n) && n >= 16 && count == GrowAt(n) && Budget(ops, scanned, n, count, cap)
    ensures Budget(ops, scanned + n, 2 * n, count, cap)
  {
    AtLeastSixteen(n);
  }

  lemma InsertIsPaid(ops: nat, scanned: nat, n: nat, count: nat, cap: nat)
    requires Budget(ops, scanned, n, count, cap)
    ensures Budget(ops + 1, scanned, n, count + 1, cap)
    ensures Budget(ops + 1, scanned, n, count, cap)
  {
  }

  // The budget after a deletion, before the shrink that may be due.
  predicate Owing(ops: nat, scanned: nat, n: nat, count: nat, cap: nat) {
    if n > cap && count <= ShrinkAt(n)
    then Budget(ops, scanned + n, n / 2, count, cap)
    else Budget(ops, scanned, n, count, cap)
  }

  lemma DeleteIsPaid(ops: nat, scanned: nat, n: nat, count: nat, cap: nat)
    requires PowerOfTwo(n) && n >= 16 && count > 0 && Budget(ops, scanned, n, count, cap)
    requires PowerOfTwo(cap) && 16 <= cap <= n
    ensures Owing(ops + 1, scanned, n, count - 1, cap)
  {
    AtLeastSixteen(n);
  }

  lemma ClearIsPaid(ops: nat, scanned: nat, n: nat, count: nat, cap: nat)
    requires Budget(ops, scanned, n, count, cap)
    ensures Budget(ops, scanned, n, 0, n) && Budget(ops, scanned, cap, 0, cap)
  {
  }

  const SIZE_LIMIT: nat := 0x4000_0000  // `int ncap` doubles without overflow up to here

  // The sizes kept by a map fit together.
  predicate Fit(nbuckets: nat, cap: nat, mask: nat, growat: nat, shrinkat: nat) {
    && PowerOfTwo(nbuckets) && PowerOfTwo(cap)
    && 16 <= cap <= nbuckets <= SIZE_LIMIT
    && mask == nbuckets - 1 && growat == GrowAt(nbuckets) && shrinkat == ShrinkAt(nbuckets)
  }

  lemma FitBounds(nbuckets: nat, cap: nat, mask: nat, growat: nat, shrinkat: nat)
    requires Fit(nbuckets, cap, mask, growat, shrinkat)
    ensures mask + 1 == nbuckets && growat == GrowAt(nbuckets) < nbuckets && shrinkat == ShrinkAt(nbuckets)
    ensures 16 <= cap <= nbuckets <= SIZE_LIMIT && PowerOfTwo(nbuckets) && PowerOfTwo(cap)
  {
  }

  lemma FitAlone(n: nat)
    requires PowerOfTwo(n) && 16 <= n <= SIZE_LIMIT
    ensures Fit(n, n, n - 1, GrowAt(n), ShrinkAt(n))
  {
  }

  // The thresholds are three quarters and a tenth of the buckets.
  lemma Thresholds(nbuckets: nat, cap: nat, mask: nat, growat: nat, shrinkat: nat)
    requires Fit(nbuckets, cap, mask, growat, shrinkat)
    ensures 4 * growat == 3 * nbuckets
    ensures forall c: nat :: c <= shrinkat <==> 10 * c <= nbuckets
  {
    AtLeastSixteen(nbuckets);
  }

  // A full table may double, and then has room...
  lemma MayDouble(nbuckets: nat, cap: nat, mask: nat, growat: nat, shrinkat: nat, count: nat)
    requires Fit(nbuckets, cap, mask, growat, shrinkat) && count == growat < 0x1_0000
    ensures PowerOfTwo(nbuckets * 2) && cap <= nbuckets * 2 <= SIZE_LIMIT && count < GrowAt(nbuckets * 2)
  {
    TimesTwo(nbuckets);
  }

  // ... and one that is due to shrink may be halved, and still has room.
  lemma MayHalve(nbuckets: nat, cap: nat, mask: nat, growat: nat, shrinkat: nat, count: nat)
    requires Fit(nbuckets, cap, mask, growat, shrinkat) && nbuckets > cap && count <= shrinkat
    ensures PowerOfTwo(nbuckets / 2) && cap <= nbuckets / 2 <= SIZE_LIMIT && count <= GrowAt(nbuckets / 2)
    ensures count < nbuckets / 2
  {
    DoubleFits(cap, nbuckets);
  }

  // A map keeps its own cap when it takes over the sizes of another.
  lemma FitSwap(nbuckets: nat, mask: nat, growat: nat, shrinkat: nat, nbuckets2: nat, cap2: nat, mask2: nat,
          growat2: nat, shrinkat2: nat, cap: nat)
    requires Fit(nbuckets, cap, mask, growat, shrinkat) && Fit(nbuckets2, cap2, mask2, growat2, shrinkat2)
    requires cap <= nbuckets2
    ensures Fit(nbuckets2, cap, mask2, growat2, shrinkat2)
  {
  }

  lemma LimitIsPower()
    ensures PowerOfTwo(SIZE_LIMIT)
  {
    PowerUpTo(30);
    assert Power(10) == 1024;
    assert Power(20) == 0x10_0000 by { PowerSum(10, 10); }
    PowerSum(20, 10);
  }

  function Power(k: nat): nat {
    if k == 0 then 1 else 2 * Power(k - 1)
  }

  lemma {:induction false} PowerSum(i: nat, j: nat)
    ensures Power(i + j) == Power(i) * Power(j)
  {
    if j > 0 {
      PowerSum(i, j - 1);
      assert Power(i + j) == 2 * Power(i + j - 1);
    }
  }

  lemma {:induction false} PowerUpTo(k: nat)
    ensures PowerOfTwo(Power(k))
  {
    if k > 0 {
      PowerUpTo(k - 1);
      TimesTwo(Power(k - 1));
    }
  }
}
