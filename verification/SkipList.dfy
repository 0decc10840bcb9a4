/** The heights skip pointers name, and how many hops a walk along them takes. */
module SkipList {
  function Pow2(n: nat): (p: nat)
    ensures p > 0
  {
    if n == 0 then 1 else 2 * Pow2(n - 1)
  }

  /** `n & (n - 1)`: `n` without its lowest set bit. */
  function FlipLow(n: nat): (r: nat)
    ensures n > 0 ==> r < n
  {
    if n == 0 then 0 else if n % 2 == 1 then n - 1 else 2 * FlipLow(n / 2)
  }

  function GetSkipHeight(height: nat): (r: nat)
    ensures height > 0 ==> r < height
  {
    if height < 2 then 0
    else if height % 2 == 1 then FlipLow(FlipLow(height - 1) + 1)
    else FlipLow(height)
  }

  /** The height after one hop of the walk from `height` down to `target`. */
  function NextHeight(height: nat, target: nat): (r: nat)
    requires target < height
    ensures target <= r < height
  {
    if TakesSkip(height, target) then GetSkipHeight(height) else height - 1
  }

  predicate TakesSkip(height: nat, target: nat)
  {
    var skip, prev := GetSkipHeight(height), GetSkipHeight(height + 1);
    var skipBetter := skip > target;
    var prevBetter := prev < skip - 2 && prev >= target;
    skip == target || (skipBetter && !prevBetter)
  }

  function Hops(height: nat, target: nat): nat
    requires target <= height
    decreases height
  {
    if height == target then 0 else 1 + Hops(NextHeight(height, target), target)
  }

  /** The skip height of an odd height is that of the even height below it. */
  lemma OddSkip(height: nat)
    requires height % 2 == 1
    ensures GetSkipHeight(height) == FlipLow(height - 1)
  {
    FlipLowIsEven(height - 1);
  }

  lemma {:induction false} FlipLowIsEven(n: nat)
    ensures FlipLow(n) % 2 == 0
  {
  }

  /** Clearing the lowest bit: `(2q + 1) * 2^j` becomes `2q * 2^j`. */
  lemma FlipLowAt(n: nat, q: nat, j: nat)
    requires n == (2 * q + 1) * Pow2(j)
    ensures FlipLow(n) == 2 * q * Pow2(j) == n - Pow2(j)
  {
    FlipLowScales(2 * q + 1, j);
    Distribute(2 * q, Pow2(j));
  }

  lemma {:induction false} FlipLowScales(m: nat, j: nat)
    ensures FlipLow(m * Pow2(j)) == FlipLow(m) * Pow2(j)
  {
    if j > 0 {
      FlipLowScales(m, j - 1);
      Associate(m, 2, Pow2(j - 1));
      Associate(FlipLow(m), 2, Pow2(j - 1));
      FlipLowDouble(m * Pow2(j - 1));
    } else {
      Once(m);
      Once(FlipLow(m));
    }
  }

  lemma Once(m: nat)
    ensures Pow2(0) == 1 && m * Pow2(0) == m
  {
  }

  lemma FlipLowDouble(half: nat)
    ensures FlipLow(2 * half) == 2 * FlipLow(half)
  {
  }

  /** Where skip pointers lead: an even height loses its lowest set bit, an odd one goes where the even
      one below it goes. */
  lemma SkipHeightIs(height: nat, q: nat, j: nat)
    requires height >= 2 && j > 0 && height - height % 2 == (2 * q + 1) * Pow2(j)
    ensures GetSkipHeight(height) == 2 * q * Pow2(j) == height - height % 2 - Pow2(j)
  {
    FlipLowAt(height - height % 2, q, j);
    if height % 2 == 1 {
      OddSkip(height);
    }
  }

  lemma Associate(a: nat, b: nat, c: nat)
    ensures a * (b * c) == b * (a * c)
  {
  }

  lemma Distribute(a: nat, p: nat)
    ensures (a + 1) * p == a * p + p
  {
  }

  /** From an even height the walk clears the lowest bit as long as that does not overshoot. */
  lemma EvenHop(n: nat, target: nat)
    requires n % 2 == 0 && target < n
    ensures NextHeight(n, target) == if FlipLow(n) >= target then FlipLow(n) else n - 1
  {
    OddSkip(n + 1);
  }

  /** From an odd height one hop leads to an even one, or to the target. */
  lemma OddHop(n: nat, target: nat)
    requires n % 2 == 1 && target < n
    ensures NextHeight(n, target) % 2 == 0
    ensures FlipLow(n - 1) < target ==> NextHeight(n, target) == n - 1
    ensures FlipLow(n - 1) >= target && FlipLow(n + 1) < target ==> NextHeight(n, target) == FlipLow(n - 1)
  {
    OddSkip(n);
    FlipLowIsEven(n - 1);
  }

  /** The triangular number that bounds the hops below a height whose lowest bit is bit `k`. */
  function Triangle(k: nat): nat {
    if k == 0 then 0 else Triangle(k - 1) + k
  }

  /** `n` ends in a one and `k` zeros, and clearing that one would overshoot the target: from
      here the walk takes at most `1 + 2 + ... + k` hops. */
  lemma {:induction false} HopsWithin(n: nat, q: nat, k: nat, target: nat)
    requires n == (2 * q + 1) * Pow2(k) && n - Pow2(k) < target <= n
    ensures Hops(n, target) <= Triangle(k)
    decreases k, k
  {
    if target < n {
      FlipLowAt(n, q, k);
      assert k > 0;
      EvenMultiple(n, 2 * q + 1, k);
      EvenHop(n, target);
      if target < n - 1 {
        BitsBelow(n, q, k, 1);
        OddHop(n - 1, target);
        if n - 4 < target {
          var r := BitsBelowFactor(n, q, k, 1);
          HopsWithin(n - 2, r, 1, target);
          TriangleMonotone(2, k);
        } else {
          HopsAcrossOnes(n, q, k, 2, target);
        }
      } else {
        TriangleMonotone(1, k);
      }
    }
  }

  lemma EvenMultiple(n: nat, odd: nat, k: nat)
    requires n == odd * Pow2(k) && k > 0
    ensures n % 2 == 0
  {
    Associate(odd, 2, Pow2(k - 1));
  }

  /** `(2q + 1) * 2^k - 2^j` is an odd multiple of `2^j`. */
  lemma BitsBelowFactor(n: nat, q: nat, k: nat, j: nat) returns (r: nat)
    requires n == (2 * q + 1) * Pow2(k) && j < k
    ensures n >= Pow2(j) && n - Pow2(j) == (2 * r + 1) * Pow2(j)
  {
    PowSplits(k, j);
    var odd := (2 * q + 1) * Pow2(k - j);
    assert n == odd * Pow2(j) by { assert (2 * q + 1) * (Pow2(k - j) * Pow2(j)) ==
                                  ((2 * q + 1) * Pow2(k - j)) * Pow2(j); }
    assert odd == 2 * ((2 * q + 1) * Pow2(k - j - 1)) by { Associate(2 * q + 1, 2, Pow2(k - j - 1)); }
    var half := (2 * q + 1) * Pow2(k - j - 1);
    assert half > 0;
    r := half - 1;
    assert odd == 2 * r + 2;
    Distribute(2 * r + 1, Pow2(j));
  }

  lemma {:induction false} PowSplits(k: nat, j: nat)
    requires j <= k
    ensures Pow2(k) == Pow2(k - j) * Pow2(j)
  {
    if j > 0 {
      PowSplits(k - 1, j - 1);
      Associate(Pow2(k - j), 2, Pow2(j - 1));
    }
  }

  lemma BitsBelow(n: nat, q: nat, k: nat, j: nat)
    requires n == (2 * q + 1) * Pow2(k) && j < k
    ensures n >= Pow2(j + 1) && FlipLow(n - Pow2(j)) == n - Pow2(j + 1)
  {
    var r := BitsBelowFactor(n, q, k, j);
    FlipLowAt(n - Pow2(j), r, j);
  }

  /** From `n - 2^j`, whose bits `k-1` down to `j` are set, the walk clears them one by one
      until the next would overshoot. */
  lemma {:induction false} HopsAcrossOnes(n: nat, q: nat, k: nat, j: nat, target: nat)
    requires 2 <= j < k && n == (2 * q + 1) * Pow2(k) && n - Pow2(k) < target
    requires n >= Pow2(j) && target <= n - Pow2(j)
    ensures Hops(n - Pow2(j), target) <= k - 1 - j + Triangle(k - 1)
    decreases k, k - j
  {
    var m := n - Pow2(j);
    var r := BitsBelowFactor(n, q, k, j);
    BitsBelow(n, q, k, j);
    if target > n - Pow2(j + 1) {
      HopsWithin(m, r, j, target);
      TriangleMonotone(j, k - 1);
    } else {
      assert j + 1 < k;
      EvenMultiple(m, 2 * r + 1, j);
      EvenHop(m, target);
      HopsAcrossOnes(n, q, k, j + 1, target);
    }
  }

  lemma TriangleMonotone(a: nat, b: nat)
    requires a <= b
    ensures Triangle(a) <= Triangle(b)
    decreases b
  {
  }

  /** The lowest set bit of `n > 0`. */
  lemma {:induction false} LowestBit(n: nat) returns (q: nat, k: nat)
    requires n > 0
    ensures n == (2 * q + 1) * Pow2(k)
  {
    if n % 2 == 1 {
      q, k := n / 2, 0;
    } else {
      q, k := LowestBit(n / 2);
      Associate(2 * q + 1, 2, Pow2(k));
      k := k + 1;
    }
  }

  lemma {:induction false} BitFits(n: nat, q: nat, k: nat, bits: nat)
    requires n == (2 * q + 1) * Pow2(k) && n < Pow2(bits)
    ensures k < bits
  {
    assert n >= Pow2(k) by { Distribute(2 * q, Pow2(k)); }
    if bits <= k {
      PowGrows(bits, k);
    }
  }

  lemma PowGrows(a: nat, b: nat)
    requires a <= b
    ensures Pow2(a) <= Pow2(b)
    decreases b
  {
  }

  /** The number of set bits. */
  function Ones(n: nat): nat {
    if n == 0 then 0 else n % 2 + Ones(n / 2)
  }

  lemma {:induction false} FlipLowDropsOne(n: nat)
    requires n > 0
    ensures Ones(FlipLow(n)) == Ones(n) - 1
  {
    if n % 2 == 0 {
      FlipLowDropsOne(n / 2);
    }
  }

  lemma {:induction false} OnesFit(n: nat, bits: nat)
    requires n < Pow2(bits)
    ensures Ones(n) <= bits
  {
    if n > 0 {
      OnesFit(n / 2, bits - 1);
    }
  }

  /** From an even height of `bits` bits: at most one hop per set bit, then one triangle. */
  lemma {:induction false} EvenHops(n: nat, bits: nat, target: nat)
    requires n % 2 == 0 && n < Pow2(bits) && target <= n
    ensures Hops(n, target) <= Ones(n) + Triangle(bits)
    decreases n
  {
    if target < n {
      EvenHop(n, target);
      if FlipLow(n) >= target {
        FlipLowIsEven(n);
        FlipLowDropsOne(n);
        EvenHops(FlipLow(n), bits, target);
      } else {
        var q, k := LowestBit(n);
        FlipLowAt(n, q, k);
        HopsWithin(n, q, k, target);
        BitFits(n, q, k, bits);
        TriangleMonotone(k, bits);
      }
    }
  }

  /** The walk from any height of `bits` bits takes at most quadratically many hops in `bits`. */
  lemma HopsAreFew(height: nat, bits: nat, target: nat)
    requires height < Pow2(bits) && target <= height
    ensures Hops(height, target) <= Triangle(bits + 1)
    ensures 2 * Triangle(bits + 1) == (bits + 1) * (bits + 2)
  {
    TriangleClosed(bits + 1);
    if target < height {
      if height % 2 == 0 {
        EvenHops(height, bits, target);
        OnesFit(height, bits);
      } else {
        OddHop(height, target);
        var next := NextHeight(height, target);
        EvenHops(next, bits, target);
        OnesFit(next, bits);
      }
    }
  }

  lemma {:induction false} TriangleClosed(k: nat)
    ensures 2 * Triangle(k) == k * (k + 1)
  {
    if k > 0 {
      TriangleClosed(k - 1);
    }
  }
}
