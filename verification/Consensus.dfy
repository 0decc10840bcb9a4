/** The money constants, the block subsidy, and the bound they put on all the money there can be. */
module Consensus {
  import opened SkipList

  const COIN: nat := 100_000_000
  const BASE_REWARD: nat := 50 * COIN
  const MAX_MONEY: nat := 21_000_000 * COIN
  const COINBASE_MATURITY: nat := 100
  const MEDIAN_TIMESPAN: nat := 11
  const BIP34_IMPLIES_BIP30_LIMIT: nat := 1_983_702
  const MAX_BLOCK_WEIGHT: nat := 4_000_000
  const WITNESS_SCALE_FACTOR: nat := 4
  const MAINNET_HALVING_INTERVAL: nat := 210_000

  /** `v` shifted right by `n` bits. */
  function ShiftRight(v: nat, n: nat): nat {
    if n == 0 then v else ShiftRight(v, n - 1) / 2
  }

  function GetBlockSubsidy(height: nat, interval: nat): nat
    requires interval > 0
  {
    var halvings := height / interval;
    if halvings >= 64 then 0 else ShiftRight(BASE_REWARD, halvings)
  }

  // ---- What the subsidy is --------------------------------------------------------------------

  lemma HalfOfQuotient(v: nat, p: nat)
    requires p > 0
    ensures (v / p) / 2 == v / (2 * p)
  {
    var q, r := Divide(v, p);
    var h, odd := Divide(q, 2);
    Spread(h, odd, p);
    MulLe(odd, 1, p);
    DivisionIsUnique(v, 2 * p, h, odd * p + r);
    DivisionIsUnique(v, p, q, r);
    DivisionIsUnique(q, 2, h, odd);
  }

  lemma Spread(h: nat, odd: nat, p: nat)
    ensures (h * 2 + odd) * p == h * (2 * p) + odd * p && p * odd == odd * p && p * 1 == p
  {
  }

  lemma {:induction false} ShiftingDivides(v: nat, n: nat)
    ensures ShiftRight(v, n) == v / Pow2(n)
  {
    if n > 0 {
      ShiftingDivides(v, n - 1);
      HalfOfQuotient(v, Pow2(n - 1));
    } else {
      assert Pow2(0) == 1;
    }
  }

  /** The reward fits 33 bits, so the cut at 64 halvings cuts nothing off. */
  lemma NothingAfterManyHalvings(n: nat)
    requires n >= 33
    ensures BASE_REWARD / Pow2(n) == 0
  {
    PowGrows(33, n);
    PowSplits(33, 22);
    PowSplits(22, 11);
    assert Pow2(11) == 2048;
    assert Pow2(33) == 2048 * 2048 * 2048;
    DivisionIsUnique(BASE_REWARD, Pow2(n), 0, BASE_REWARD);
  }

  /** 50 coins, divided by two for every whole halving interval. */
  lemma SubsidyIs(height: nat, interval: nat)
    requires interval > 0
    ensures GetBlockSubsidy(height, interval) == (50 * COIN) / Pow2(height / interval)
  {
    var halvings := height / interval;
    ShiftingDivides(BASE_REWARD, halvings);
    if halvings >= 64 {
      NothingAfterManyHalvings(halvings);
    }
  }

  /** The first blocks get 50 coins, and every block half of what one an interval before gets. */
  lemma SubsidyHalves(height: nat, interval: nat)
    requires interval > 0
    ensures height < interval ==> GetBlockSubsidy(height, interval) == 50 * COIN
    ensures GetBlockSubsidy(height + interval, interval) == GetBlockSubsidy(height, interval) / 2
  {
    var q, r := Divide(height, interval);
    DivisionIsUnique(height, interval, q, r);
    DivisionIsUnique(height + interval, interval, q + 1, r);
    SubsidyIs(height, interval);
    SubsidyIs(height + interval, interval);
    HalfOfQuotient(50 * COIN, Pow2(q));
    assert Pow2(0) == 1;
    if height < interval {
      DivisionIsUnique(height, interval, 0, height);
    }
  }

  // ---- What all of them come to -----------------------------------------------------------------

  /** Everything the subsidies of heights 1 to `height` may create. */
  ghost function SubsidyUpTo(height: nat, interval: nat): nat
    requires interval > 0
  {
    if height == 0 then 0 else SubsidyUpTo(height - 1, interval) + GetBlockSubsidy(height, interval)
  }

  /** What `q` whole halving periods create when every one of their blocks claims its subsidy. */
  ghost function PeriodsTotal(q: nat, interval: nat): nat {
    if q == 0 then 0 else PeriodsTotal(q - 1, interval) + interval * ShiftRight(BASE_REWARD, q - 1)
  }

  /** The geometric series 1 + 1/2 + 1/4 + ... stays below 2. */
  lemma {:induction false} PeriodsAreGeometric(q: nat, interval: nat)
    ensures PeriodsTotal(q, interval) + interval * (2 * ShiftRight(BASE_REWARD, q)) <= interval * (2 * BASE_REWARD)
  {
    if q > 0 {
      PeriodsAreGeometric(q - 1, interval);
      var s, t := ShiftRight(BASE_REWARD, q), ShiftRight(BASE_REWARD, q - 1);
      MulLe(2 * s, t, interval);
      assert interval * (2 * t) == interval * t + interval * t;
    }
  }

  /** `q` whole periods and `r` further blocks create what those periods and blocks may claim. */
  lemma {:induction false} SubsidyWithinPeriods(height: nat, interval: nat, q: nat, r: nat)
    requires interval > 0 && height == q * interval + r && r < interval
    ensures SubsidyUpTo(height, interval) <= PeriodsTotal(q, interval) + (r + 1) * ShiftRight(BASE_REWARD, q)
    decreases height
  {
    var s := ShiftRight(BASE_REWARD, q);
    if height > 0 {
      DivisionIsUnique(height, interval, q, r);
      assert GetBlockSubsidy(height, interval) <= s;
      if r > 0 {
        SubsidyWithinPeriods(height - 1, interval, q, r - 1);
        assert (r + 1) * s == r * s + s;
      } else {
        assert q > 0;
        assert height - 1 == (q - 1) * interval + (interval - 1);
        SubsidyWithinPeriods(height - 1, interval, q - 1, interval - 1);
      }
    }
  }

  lemma MulLe(a: nat, b: nat, c: nat)
    requires a <= b
    ensures c * a <= c * b
  {
  }

  lemma DivisionIsUnique(n: nat, d: nat, q: nat, r: nat)
    requires d > 0 && n == q * d + r && r < d
    ensures n / d == q && n % d == r
  {
    var q' := n / d;
    assert n == d * q' + n % d;
    if q' > q {
      MulLe(q + 1, q', d);
    } else if q > q' {
      MulLe(q' + 1, q, d);
    }
  }

  lemma Divide(n: nat, d: nat) returns (q: nat, r: nat)
    requires d > 0
    ensures n == q * d + r && r < d
  {
    q, r := n / d, n % d;
  }

  /** However long the chain, no more than two initial rewards per block of one period are created... */
  lemma SupplyIsBounded(height: nat, interval: nat)
    requires interval > 0
    ensures SubsidyUpTo(height, interval) <= interval * (2 * BASE_REWARD)
  {
    var q, r := Divide(height, interval);
    var s := ShiftRight(BASE_REWARD, q);
    SubsidyWithinPeriods(height, interval, q, r);
    PeriodsAreGeometric(q, interval);
    assert (r + 1) * s <= interval * (2 * s) by {
      MulLe(r + 1, interval, s);
      MulLe(s, 2 * s, interval);
    }
  }

  /** ...which on the main network is 21 million coins. */
  lemma SupplyIsCapped(height: nat)
    ensures SubsidyUpTo(height, MAINNET_HALVING_INTERVAL) <= MAX_MONEY
  {
    SupplyIsBounded(height, MAINNET_HALVING_INTERVAL);
  }
}
