/** Soft-fork deployments: the state machine of BIP 9 as a recursion over the periods of a chain. */
module Deployments {
  import opened Primitives
  import opened Headers
  import opened MedianTime
  import SkipList
  import Consensus

  datatype ThresholdState = Defined | Started | LockedIn | Active | Failed

  datatype StartTime = AlwaysActive | StartTime(start: nat)

  datatype Timeout = NoTimeout | Timeout(timeout: nat)

  datatype Deployment = Deployment(bit: nat, startTime: StartTime, timeout: Timeout, minActivationHeight: nat)

  datatype Params = Params(window: nat, threshold: nat)

  const VERSIONBITS_TOP_BITS: int := 0x2000_0000

  /** The top three bits of the version are 001 and bit `bit` is set. */
  predicate HasBit(version: int, bit: nat) {
    && VERSIONBITS_TOP_BITS <= version < 2 * VERSIONBITS_TOP_BITS
    && (version / SkipList.Pow2(bit)) % 2 == 1
  }

  /** The number with bit `bit` set, `high` above it and `low` below. */
  function WithBit(high: nat, low: nat, bit: nat): nat {
    high * SkipList.Pow2(bit + 1) + SkipList.Pow2(bit) + low
  }

  /** Behind the three top bits 001 come 29 bits, and bit `bit` of them is set. */
  ghost predicate Signalling(version: int, bit: nat) {
    exists high: nat, low: nat {:trigger WithBit(high, low, bit)} ::
      low < SkipList.Pow2(bit) && version == 0x2000_0000 + WithBit(high, low, bit) && version < 0x4000_0000
  }

  lemma TopBits()
    ensures SkipList.Pow2(29) == 0x2000_0000
  {
    SkipList.PowSplits(29, 14);
    SkipList.PowSplits(15, 7);
    SkipList.PowSplits(14, 7);
    assert SkipList.Pow2(7) == 128 && SkipList.Pow2(8) == 256;
  }

  /** Below the top bits `n` is an odd multiple of `p` and a rest exactly when its quotient is odd; what
      the top bits add is an even multiple. */
  lemma OddQuotient(n: nat, p: nat, even: nat, q: nat, r: nat)
    requires p > 0 && n == q * p + r && r < p
    ensures ((2 * even * p + n) / p) % 2 == q % 2
  {
    assert 2 * even * p + n == (2 * even + q) * p + r;
    Consensus.DivisionIsUnique(2 * even * p + n, p, 2 * even + q, r);
  }

  lemma BitIsSet(version: int, bit: nat)
    requires bit < 29
    ensures HasBit(version, bit) <==> Signalling(version, bit)
  {
    if 0x2000_0000 <= version < 0x4000_0000 {
      var n, p := version - 0x2000_0000, SkipList.Pow2(bit);
      var even := SkipList.Pow2(28 - bit);
      TopBits();
      SkipList.PowSplits(29, bit);
      assert 2 * even * p == 0x2000_0000;
      var q, r := Consensus.Divide(n, p);
      OddQuotient(n, p, even, q, r);
      if q % 2 == 1 {
        OddMultiple(q / 2, r, bit);
        assert version == 0x2000_0000 + WithBit(q / 2, r, bit);
      }
      forall high: nat, low: nat | low < p && n == WithBit(high, low, bit)
        ensures q % 2 == 1
      {
        OddMultiple(high, low, bit);
        Consensus.DivisionIsUnique(n, p, 2 * high + 1, low);
        Consensus.DivisionIsUnique(n, p, q, r);
      }
    }
  }

  lemma OddMultiple(high: nat, low: nat, bit: nat)
    ensures WithBit(high, low, bit) == (2 * high + 1) * SkipList.Pow2(bit) + low
  {
    var p := SkipList.Pow2(bit);
    assert high * (2 * p) + p == (2 * high + 1) * p;
  }

  /** The heights of the signalling blocks among `h` and its parents, `n` entries in all. */
  ghost function SignallingHeights(t: Entries, h: BlockHash, n: nat, bit: nat): set<nat>
    requires h in t
  {
    set k: nat | k <= t[h].height < k + n && SignalsAt(t, h, k, bit)
  }

  ghost predicate SignalsAt(t: Entries, h: BlockHash, k: nat, bit: nat) {
    var g := AncestorAt(t, h, k);
    g in t && Signalling(t[g].version, bit)
  }

  /** The count of signals is the number of signalling blocks. */
  lemma {:induction false} SignalsAreCounted(t: Entries, genesis: BlockHash, h: BlockHash, n: nat, bit: nat)
    requires TreeOk(t, genesis) && h in t && bit < 29
    ensures Signals(t, h, n, bit) == |SignallingHeights(t, h, n, bit)|
    decreases n
  {
    if n == 0 {
      assert SignallingHeights(t, h, n, bit) == {};
    } else {
      assert Placed(t, genesis, h);
      BitIsSet(t[h].version, bit);
      assert AncestorAt(t, h, t[h].height) == h;
      var height, here := t[h].height, SignalsAt(t, h, t[h].height, bit);
      if h == genesis {
        assert Signals(t, t[h].prevBlock, n - 1, bit) == 0;
        assert SignallingHeights(t, h, n, bit) == {} + if here then {height} else {};
        OneMoreHeight({}, height, here);
      } else {
        SignalsAreCounted(t, genesis, t[h].prevBlock, n - 1, bit);
        SignalsBelow(t, genesis, h, n, bit);
        OneMoreHeight(SignallingHeights(t, t[h].prevBlock, n - 1, bit), height, here);
      }
    }
  }

  lemma OneMoreHeight(below: set<nat>, height: nat, here: bool)
    requires height !in below
    ensures |below + if here then {height} else {}| == |below| + if here then 1 else 0
  {
  }

  /** Where no version has the top bits and the bit, whatever else it has, nothing is counted. */
  lemma QuietVersionsCountNothing(t: Entries, genesis: BlockHash, h: BlockHash, n: nat, bit: nat)
    requires TreeOk(t, genesis) && h in t && bit < 29
    requires forall k: nat :: k <= t[h].height < k + n ==> !SignalsAt(t, h, k, bit)
    ensures Signals(t, h, n, bit) == 0
  {
    SignalsAreCounted(t, genesis, h, n, bit);
    assert SignallingHeights(t, h, n, bit) == {};
  }

  lemma SignalsBelow(t: Entries, genesis: BlockHash, h: BlockHash, n: nat, bit: nat)
    requires TreeOk(t, genesis) && h in t && h != genesis && n > 0
    ensures t[h].prevBlock in t && t[h].height !in SignallingHeights(t, t[h].prevBlock, n - 1, bit)
    ensures SignallingHeights(t, h, n, bit) == SignallingHeights(t, t[h].prevBlock, n - 1, bit)
              + if SignalsAt(t, h, t[h].height, bit) then {t[h].height} else {}
  {
    assert Placed(t, genesis, h);
    var p := t[h].prevBlock;
    forall k: nat | k < t[h].height
      ensures SignalsAt(t, h, k, bit) <==> SignalsAt(t, p, k, bit)
    {
      assert AncestorAt(t, h, k) == AncestorAt(t, p, k);
    }
  }

  /** How many of `h` and its parents, `n` entries in all, signal for `bit`. */
  function Signals(t: Entries, h: BlockHash, n: nat, bit: nat): nat
    decreases n
  {
    if n == 0 || h !in t then 0
    else (if HasBit(t[h].version, bit) then 1 else 0) + Signals(t, t[h].prevBlock, n - 1, bit)
  }

  /** All the state machine looks at in the period that ends with one block; `first` if no block
      lies below the period. */
  datatype Period = Period(time: nat, signalled: bool, height: nat, first: bool)

  function PeriodOf(t: Entries, h: BlockHash, d: Deployment, params: Params): Period
    requires h in t
  {
    Period(MedianTimePast(t, h), Signals(t, h, params.window, d.bit) >= params.threshold, t[h].height,
           t[h].height < params.window)
  }

  predicate TimedOut(d: Deployment, time: nat) {
    match d.timeout case Timeout(timeout) => time >= timeout case NoTimeout => false
  }

  predicate HasStarted(d: Deployment, time: nat) {
    match d.startTime case StartTime(start) => time >= start case AlwaysActive => true
  }

  /** One step of the state machine of section 'State transitions' of BIP 9, with a minimum
      activation height compared with the last block of the period. */
  function Transition(state: ThresholdState, p: Period, d: Deployment): ThresholdState {
    match state
    case Defined => if TimedOut(d, p.time) then Failed else if HasStarted(d, p.time) then Started else Defined
    case Started => if TimedOut(d, p.time) then Failed else if p.signalled then LockedIn else Started
    case LockedIn => if p.height >= d.minActivationHeight then Active else LockedIn
    case Active => Active
    case Failed => Failed
  }

  /** The table of section 'State transitions' of BIP 9 in numbers, for a deployment with both times. */
  lemma Transitions(bit: nat, start: nat, timeout: nat, minHeight: nat, p: Period)
    ensures var d := Deployment(bit, StartTime(start), Timeout(timeout), minHeight);
            && Transition(Defined, p, d) ==
                 (if p.time >= timeout then Failed else if p.time < start then Defined else Started)
            && (p.time >= timeout ==> Transition(Started, p, d) == Failed)
            && (p.time < timeout && p.signalled ==> Transition(Started, p, d) == LockedIn)
            && (p.time < timeout && !p.signalled ==> Transition(Started, p, d) == Started)
            && Transition(LockedIn, p, d) == (if p.height < minHeight then LockedIn else Active)
            && Transition(Active, p, d) == Active && Transition(Failed, p, d) == Failed
  {
  }

  /** The state after the period ending at `h`: from the genesis block, period by period. */
  function StateAt(t: Entries, h: BlockHash, d: Deployment, params: Params): ThresholdState
    decreases if h in t then t[h].height else 0
  {
    if h !in t || params.window == 0 then Defined
    else
      var before :=
        if t[h].height < params.window then Defined
        else
          var e := AncestorAt(t, h, t[h].height - params.window);
          if e in t && t[e].height < t[h].height then StateAt(t, e, d, params) else Defined;
      Transition(before, PeriodOf(t, h, d, params), d)
  }

  lemma StateOfFirst(t: Entries, h: BlockHash, d: Deployment, params: Params)
    requires h in t && params.window > t[h].height
    ensures StateAt(t, h, d, params) == Transition(Defined, PeriodOf(t, h, d, params), d)
  {
  }

  lemma StateOfLater(t: Entries, h: BlockHash, e: BlockHash, d: Deployment, params: Params)
    requires h in t && 0 < params.window <= t[h].height && e == AncestorAt(t, h, t[h].height - params.window)
    requires e in t && t[e].height < t[h].height
    ensures StateAt(t, h, d, params) == Transition(StateAt(t, e, d, params), PeriodOf(t, h, d, params), d)
  {
  }

  lemma FinalIsKept(state: ThresholdState, p: Period, d: Deployment)
    ensures state in {Active, Failed} ==> Transition(state, p, d) == state
  {
  }

  /** The last entry at or below `h` that ends a period. */
  function LastPeriodEnd(t: Entries, h: BlockHash, window: nat): Option<BlockHash>
    requires h in t && window > 0
  {
    var over := (t[h].height + 1) % window;
    if t[h].height < over then None else Some(AncestorAt(t, h, t[h].height - over))
  }

  /** The state of the block that follows `h`: that of the last period ending at or before `h`. */
  function StatusAfter(t: Entries, h: BlockHash, d: Deployment, params: Params): ThresholdState
    requires h in t && params.window > 0
  {
    if d.startTime.AlwaysActive? then Active
    else
      match LastPeriodEnd(t, h, params.window)
      case None => Defined
      case Some(e) => StateAt(t, e, d, params)
  }

  /** All blocks that follow entries of one period have the same state. */
  lemma OneStatePerPeriod(t: Entries, genesis: BlockHash, h: BlockHash, k: nat, d: Deployment, params: Params)
    requires TreeOk(t, genesis) && h in t && k <= t[h].height && params.window > 0
    requires t[h].height - (t[h].height + 1) % params.window <= k
    ensures AncestorAt(t, h, k) in t && StatusAfter(t, AncestorAt(t, h, k), d, params) == StatusAfter(t, h, d, params)
  {
    AncestorExists(t, genesis, h, k);
    OneEndPerPeriod(t, genesis, h, k, params.window);
  }

  lemma OneEndPerPeriod(t: Entries, genesis: BlockHash, h: BlockHash, k: nat, w: nat)
    requires TreeOk(t, genesis) && h in t && k <= t[h].height && w > 0
    requires t[h].height - (t[h].height + 1) % w <= k
    ensures AncestorAt(t, h, k) in t && LastPeriodEnd(t, AncestorAt(t, h, k), w) == LastPeriodEnd(t, h, w)
  {
    AncestorExists(t, genesis, h, k);
    var over := (t[h].height + 1) % w;
    SamePeriod(t[h].height + 1, k + 1, w);
    assert t[h].height - over == k - (k + 1) % w;
    if t[h].height >= over {
      AncestorOfAncestor(t, genesis, h, k, t[h].height - over);
    }
  }

  lemma SamePeriod(n: nat, m: nat, w: nat)
    requires w > 0 && n - n % w <= m <= n
    ensures n - n % w == m - m % w
  {
    var q, r := Consensus.Divide(n, w);
    Consensus.DivisionIsUnique(n, w, q, r);
    Consensus.DivisionIsUnique(m, w, q, m - q * w);
  }

  /** The end of the period `n` periods before the one that ends at `h`. */
  function PeriodBack(t: Entries, h: BlockHash, window: nat, n: nat): BlockHash
    decreases n
  {
    if n == 0 || h !in t || t[h].height < window then h
    else PeriodBack(t, AncestorAt(t, h, t[h].height - window), window, n - 1)
  }

  /** Once active or failed, always so. */
  lemma {:induction false} FinalStatesStay(t: Entries, genesis: BlockHash, h: BlockHash, n: nat, d: Deployment,
                                           params: Params)
    requires TreeOk(t, genesis) && h in t && params.window > 0
    requires StateAt(t, PeriodBack(t, h, params.window, n), d, params) in {Active, Failed}
    ensures StateAt(t, h, d, params) == StateAt(t, PeriodBack(t, h, params.window, n), d, params)
    decreases n
  {
    if n > 0 && t[h].height >= params.window {
      var e := FinalStateStays(t, genesis, h, d, params);
      FinalStatesStay(t, genesis, e, n - 1, d, params);
    }
  }

  lemma FinalStateStays(t: Entries, genesis: BlockHash, h: BlockHash, d: Deployment, params: Params)
    returns (e: BlockHash)
    requires TreeOk(t, genesis) && h in t && params.window > 0 && t[h].height >= params.window
    ensures e in t && e == AncestorAt(t, h, t[h].height - params.window)
    ensures StateAt(t, e, d, params) in {Active, Failed} ==> StateAt(t, h, d, params) == StateAt(t, e, d, params)
  {
    e := AncestorAt(t, h, t[h].height - params.window);
    AncestorExists(t, genesis, h, t[h].height - params.window);
    StateOfLater(t, h, e, d, params);
    FinalIsKept(StateAt(t, e, d, params), PeriodOf(t, h, d, params), d);
  }

  /** Start no later than timeout, as every deployment declares. */
  predicate Sensible(d: Deployment) {
    match (d.startTime, d.timeout)
    case (StartTime(start), Timeout(timeout)) => start <= timeout
    case _ => true
  }

  /** Before its start time a deployment is defined, because no earlier median time is later. */
  lemma {:induction false} DefinedBeforeStart(t: Entries, genesis: BlockHash, h: BlockHash, d: Deployment,
                                              params: Params)
    requires TreeOk(t, genesis) && TimesOk(t) && h in t && params.window > 0 && Sensible(d)
    requires !HasStarted(d, MedianTimePast(t, h))
    ensures StateAt(t, h, d, params) == Defined
    decreases t[h].height
  {
    if t[h].height >= params.window {
      var k := t[h].height - params.window;
      AncestorExists(t, genesis, h, k);
      MedianNeverDecreases(t, genesis, h, k);
      DefinedBeforeStart(t, genesis, AncestorAt(t, h, k), d, params);
    }
  }
}
