/** Chains on which the loop goes wrong: the exact number of periods it can be trusted with. */
module DeploymentWitness {
  import opened Primitives
  import opened Headers
  import opened MedianTime
  import opened Deployments
  import opened DeploymentLoop
  import opened DeploymentOrder
  import SkipList
  import Consensus

  /** The deployment that regtest and signet declare under bit 28: always started, never timed out. */
  const DUMMY := Deployment(28, StartTime(0), NoTimeout, 0)

  const SIGNAL: int := 0x3000_0000

  // ---- A chain without forks --------------------------------------------------------------------

  /** The entry at height `h - 1`; those above `quiet` blocks signal for bit 28. */
  function LineEntry(h: nat, quiet: nat): ChainEntry
    requires h > 0
  {
    ChainEntry(h, if h > quiet then SIGNAL else 0, h - 1, h - 1, h - 1, h, if h == 1 then ZERO_HASH
               else SkipList.GetSkipHeight(h - 1) + 1)
  }

  function Line(n: nat, quiet: nat): Entries {
    map h: nat | 1 <= h <= n :: LineEntry(h, quiet)
  }

  function LineHeights(n: nat): map<nat, BlockHash> {
    if n == 0 then map[] else LineHeights(n - 1)[n - 1 := n]
  }

  lemma {:induction false} LineHeightAt(n: nat, i: nat)
    ensures i in LineHeights(n) <==> i < n
    ensures i < n ==> LineHeights(n)[i] == i + 1
  {
    if n > 0 {
      LineHeightAt(n - 1, i);
    }
  }

  function LineIndex(n: nat, quiet: nat): Index {
    Index(Line(n, quiet), LineHeights(n))
  }

  lemma LineTree(n: nat, quiet: nat)
    requires 0 < n < HEIGHT_LIMIT
    ensures TreeOk(Line(n, quiet), 1)
  {
    var t := Line(n, quiet);
    forall h | h in t
      ensures Placed(t, 1, h)
    {
    }
  }

  lemma {:induction false} LineAncestor(n: nat, quiet: nat, h: nat, k: nat)
    requires 1 <= h <= n && k < h
    ensures AncestorAt(Line(n, quiet), h, k) == k + 1
    decreases h
  {
    if k < h - 1 {
      LineAncestor(n, quiet, h - 1, k);
    }
  }

  lemma LineIsIndexed(n: nat, quiet: nat)
    requires 0 < n < HEIGHT_LIMIT
    ensures IndexOk(LineIndex(n, quiet), 1, n)
  {
    var t := Line(n, quiet);
    LineTree(n, quiet);
    forall h | h in t
      ensures SkipOk(t, h)
    {
      if h > 1 {
        LineAncestor(n, quiet, h, SkipList.GetSkipHeight(h - 1));
      }
    }
    forall i
      ensures i in LineHeights(n) <==> 0 <= i < n
      ensures i in LineHeights(n) ==> LineHeights(n)[i] == AncestorAt(t, n, i)
    {
      if i >= 0 {
        LineHeightAt(n, i);
        if i < n {
          LineAncestor(n, quiet, n, i);
        }
      }
    }
  }

  lemma {:induction false} LineTimesBack(n: nat, quiet: nat, h: nat, k: nat)
    requires 1 <= h <= n
    ensures forall i :: 0 <= i < |TimesBack(Line(n, quiet), h, k)| ==> TimesBack(Line(n, quiet), h, k)[i] < h
    decreases k
  {
    if k > 0 && h > 1 {
      LineTimesBack(n, quiet, h - 1, k - 1);
    }
  }

  lemma LineIsTimed(n: nat, quiet: nat)
    requires 0 < n < HEIGHT_LIMIT
    ensures TimesOk(Line(n, quiet))
  {
    var t := Line(n, quiet);
    forall h | h in t
      ensures TimeOk(t, h)
    {
      if h > 1 {
        var times := TimesBack(t, h - 1, Consensus.MEDIAN_TIMESPAN);
        LineTimesBack(n, quiet, h - 1, Consensus.MEDIAN_TIMESPAN);
        AllBelow(times, h - 1);
        MedianSplits(times, h - 1);
      }
    }
  }

  lemma BitOfSignal()
    ensures HasBit(SIGNAL, DUMMY.bit) && !HasBit(0, DUMMY.bit)
  {
    assert SkipList.Pow2(7) == 128;
    SkipList.PowSplits(14, 7);
    SkipList.PowSplits(28, 14);
  }

  /** None of the quiet blocks signals, each one above them does. */
  lemma {:induction false} LineSignals(n: nat, quiet: nat, h: nat, k: nat)
    requires h <= n
    ensures h <= quiet ==> Signals(Line(n, quiet), h, k, DUMMY.bit) == 0
    ensures quiet + k <= h ==> Signals(Line(n, quiet), h, k, DUMMY.bit) == k
    decreases k
  {
    BitOfSignal();
    if k > 0 && h > 0 {
      LineSignals(n, quiet, h - 1, k - 1);
    }
  }

  // ---- Whole periods --------------------------------------------------------------------------------

  /** The hash of the last block of the `j`-th period, counted from one. */
  function End(j: nat, w: nat): nat {
    if j == 0 then 0 else End(j - 1, w) + w
  }

  lemma {:induction false} EndIsTimes(j: nat, w: nat)
    ensures End(j, w) == j * w
  {
    if j > 0 {
      EndIsTimes(j - 1, w);
    }
  }

  lemma {:induction false} EndGrows(i: nat, j: nat, w: nat)
    requires i <= j
    ensures End(i, w) <= End(j, w) && (i < j ==> End(i, w) + w <= End(j, w))
  {
    if i < j {
      EndGrows(i, j - 1, w);
    }
  }

  lemma OverEnd(h: nat, e: nat, j: nat, w: nat)
    requires 0 < j && e == End(j, w) <= h < e + w
    ensures 0 < e && h % w == h - e
  {
    EndGrows(1, j, w);
    EndIsTimes(j, w);
    Consensus.DivisionIsUnique(h, w, j, h - e);
    assert End(1, w) == End(0, w) + w;
  }

  /** The end of a period is the last period end for the blocks of the next period. */
  lemma EndsPeriod(n: nat, quiet: nat, h: nat, e: nat, j: nat, w: nat)
    requires 0 < j && e == End(j, w) <= h < e + w && h <= n
    ensures LastPeriodEnd(Line(n, quiet), h, w) == Some(e)
  {
    OverEnd(h, e, j, w);
    LineAncestor(n, quiet, h, e - 1);
  }

  /** One period below the end of a period is the end of the one before. */
  lemma EndBefore(n: nat, quiet: nat, j: nat, w: nat)
    requires 1 < j && w > 0 && End(j, w) <= n < HEIGHT_LIMIT
    ensures var t := Line(n, quiet);
            && End(j, w) in t && End(j - 1, w) in t && End(j, w) > w
            && t[End(j, w)].height >= w && AncestorAt(t, End(j, w), t[End(j, w)].height - w) == End(j - 1, w)
  {
    EndGrows(1, j, w);
    EndGrows(2, j, w);
    EndGrows(1, j - 1, w);
    LineAncestor(n, quiet, End(j, w), End(j, w) - 1 - w);
  }

  lemma StepOverLine(n: nat, quiet: nat, j: nat, cache: StateCache, params: Params)
    requires 1 < j && params.window > 0 && End(j, params.window) <= n < HEIGHT_LIMIT
    requires cache.Keys <= {params.window}
    ensures var t, w := Line(n, quiet), params.window;
            && Uncached(t, End(j, w), cache, DUMMY, params) ==
                 [End(j, w)] + Uncached(t, End(j - 1, w), cache, DUMMY, params)
            && Base(t, End(j, w), cache, DUMMY, params) == Base(t, End(j - 1, w), cache, DUMMY, params)
  {
    LineTree(n, quiet);
    EndBefore(n, quiet, j, params.window);
    WalkStepTo(Line(n, quiet), 1, End(j, params.window), End(j - 1, params.window), cache, DUMMY, params);
  }

  lemma StartOfLine(n: nat, quiet: nat, cache: StateCache, params: Params)
    requires 0 < params.window <= n < HEIGHT_LIMIT && cache.Keys <= {params.window}
    ensures var t, w := Line(n, quiet), params.window;
            && End(1, w) == w
            && Uncached(t, w, cache, DUMMY, params) == (if w in cache then [] else [w])
            && Base(t, w, cache, DUMMY, params) == (if w in cache then cache[w] else Defined)
  {
    assert End(1, params.window) == End(0, params.window) + params.window;
    LineTree(n, quiet);
    WalkStep(Line(n, quiet), 1, params.window, cache, DUMMY, params);
  }

  /** The ends of the periods from the `j`-th one down, without those the cache has. */
  function EndsFrom(j: nat, w: nat, cached: bool): (ends: seq<BlockHash>)
    ensures |ends| == if cached && j > 0 then j - 1 else j
  {
    if j == 0 || (cached && j == 1) then [] else [End(j, w)] + EndsFrom(j - 1, w, cached)
  }

  lemma {:induction false} EndsAt(j: nat, w: nat, cached: bool, i: nat)
    requires i < |EndsFrom(j, w, cached)|
    ensures i < j && EndsFrom(j, w, cached)[i] == End(j - i, w)
  {
    if i > 0 {
      EndsAt(j - 1, w, cached, i - 1);
    }
  }

  /** From the end of the `j`-th period the walk collects every period down to the first one or to
      the cached first one. */
  lemma {:induction false} WalkOverLine(n: nat, quiet: nat, j: nat, cache: StateCache, params: Params)
    requires 0 < j && params.window > 0 && End(j, params.window) <= n < HEIGHT_LIMIT
    requires cache.Keys <= {params.window}
    ensures var t, w := Line(n, quiet), params.window;
            && Uncached(t, End(j, w), cache, DUMMY, params) == EndsFrom(j, w, w in cache)
            && Base(t, End(j, w), cache, DUMMY, params) == if w in cache then cache[w] else Defined
  {
    EndGrows(1, j, params.window);
    if j > 1 {
      StepOverLine(n, quiet, j, cache, params);
      EndGrows(j - 1, j, params.window);
      WalkOverLine(n, quiet, j - 1, cache, params);
    } else {
      StartOfLine(n, quiet, cache, params);
      assert EndsFrom(0, params.window, false) == [];
    }
  }

  // ---- A fresh cache: the loop halts ------------------------------------------------------------------

  /** What a status is asked for: `h` on the chain, with what is cached. */
  datatype Setting = Setting(index: Index, genesis: BlockHash, tip: BlockHash, h: BlockHash, cache: StateCache,
                             d: Deployment, params: Params)

  /** A chain that can be, a cache that is right, and a deployment as they are declared. */
  ghost predicate Proper(s: Setting) {
    && IndexOk(s.index, s.genesis, s.tip) && TimesOk(s.index.entries) && s.h in s.index.entries
    && 0 < s.params.threshold <= s.params.window && Sensible(s.d) && s.d.startTime.StartTime?
    && CacheOk(s.index.entries, s.cache, s.d, s.params)
  }

  /** How many periods are to be computed. */
  ghost function ToCompute(s: Setting): nat
    requires Proper(s)
  {
    match LastPeriodEnd(s.index.entries, s.h, s.params.window)
    case None => 0
    case Some(e) => |Uncached(s.index.entries, e, s.cache, s.d, s.params)|
  }

  /** The loop gives the status BIP 9 gives. */
  ghost predicate IsRight(s: Setting)
    requires Proper(s)
  {
    LoopStatus(s.index.entries, s.h, s.cache, s.d, s.params) == Some(StatusAfter(s.index.entries, s.h, s.d, s.params))
  }

  lemma StatusOfPeriod(s: Setting, e: BlockHash)
    requires Proper(s) && LastPeriodEnd(s.index.entries, s.h, s.params.window) == Some(e)
    ensures ToCompute(s) == |Uncached(s.index.entries, e, s.cache, s.d, s.params)|
    ensures LoopStatus(s.index.entries, s.h, s.cache, s.d, s.params) ==
              LoopState(s.index.entries, e, s.cache, s.d, s.params)
    ensures StatusAfter(s.index.entries, s.h, s.d, s.params) == StateAt(s.index.entries, e, s.d, s.params)
  {
  }

  /** A chain of `j` periods and `more` blocks, none of which signals, and nothing cached. */
  function Fresh(j: nat, more: nat, params: Params): Setting {
    var n := End(j, params.window) + more;
    Setting(LineIndex(n, n), 1, n, n, map[], DUMMY, params)
  }

  /** With a fresh cache, as after every start, a deployment that started at once and that nobody
      has signalled for halts the loop after every block from the end of the second period on. */
  lemma FreshCacheHalts(j: nat, more: nat, params: Params)
    requires 0 < params.threshold <= params.window && j > 1 && more < params.window
             && End(j, params.window) + more < HEIGHT_LIMIT
    ensures Proper(Fresh(j, more, params)) && ToCompute(Fresh(j, more, params)) == j
    ensures var s := Fresh(j, more, params); LoopStatus(s.index.entries, s.h, s.cache, s.d, s.params) == None
  {
    var e, n := End(j, params.window), End(j, params.window) + more;
    OverEnd(e, e, j, params.window);
    LineIsIndexed(n, n);
    LineIsTimed(n, n);
    EndsPeriod(n, n, n, e, j, params.window);
    FreshLoopHalts(n, e, j, params);
    StatusOfPeriod(Fresh(j, more, params), e);
  }

  lemma FreshLoopHalts(n: nat, e: nat, j: nat, params: Params)
    requires 0 < params.threshold <= params.window && j > 1 && 0 < e == End(j, params.window) <= n < HEIGHT_LIMIT
    ensures LoopState(Line(n, n), e, map[], DUMMY, params) == None
            && |Uncached(Line(n, n), e, map[], DUMMY, params)| == j
  {
    LineTree(n, n);
    LineIsTimed(n, n);
    WalkOverLine(n, n, j, map[], params);
    FreshPeriods(n, j, params);
    QuietWalkHalts(Line(n, n), e, EndsFrom(j, params.window, false), params);
  }

  lemma QuietWalkHalts(t: Entries, h: BlockHash, ends: seq<BlockHash>, params: Params)
    requires TreeOk(t, 1) && TimesOk(t) && h in t && params.window > 0
    requires ends == Uncached(t, h, map[], DUMMY, params) && |ends| > 1
    requires var ps := PeriodsOf(t, ends, DUMMY, params);
             ps[|ends| - 1].first && forall i :: 0 <= i < |ends| ==> !ps[i].signalled
    ensures LoopState(t, h, map[], DUMMY, params) == None
  {
    HaltsExactlyWhen(t, 1, h, map[], DUMMY, params);
  }

  lemma FreshPeriods(n: nat, j: nat, params: Params)
    requires 0 < params.threshold <= params.window && j > 0 && End(j, params.window) <= n
    ensures var ps := PeriodsOf(Line(n, n), EndsFrom(j, params.window, false), DUMMY, params);
            |ps| == j && ps[j - 1].first && forall i :: 0 <= i < j ==> !ps[i].signalled
  {
    var ends := EndsFrom(j, params.window, false);
    forall i | 0 <= i < j
      ensures 0 < ends[i] <= n && (i == j - 1 ==> ends[i] == params.window)
    {
      FreshEnd(n, j, i, params.window);
    }
    forall i | 0 <= i < j
      ensures ends[i] in Line(n, n) && !PeriodOf(Line(n, n), ends[i], DUMMY, params).signalled
    {
      QuietPeriod(n, ends[i], params);
    }
  }

  lemma FreshEnd(n: nat, j: nat, i: nat, w: nat)
    requires w > 0 && i < j && End(j, w) <= n
    ensures 0 < EndsFrom(j, w, false)[i] <= n && (i == j - 1 ==> EndsFrom(j, w, false)[i] == w)
  {
    EndsAt(j, w, false, i);
    EndGrows(1, j - i, w);
    EndGrows(j - i, j, w);
    assert End(1, w) == End(0, w) + w;
  }

  lemma QuietPeriod(n: nat, h: nat, params: Params)
    requires 0 < h <= n && 0 < params.threshold
    ensures h in Line(n, n) && !PeriodOf(Line(n, n), h, DUMMY, params).signalled
  {
    LineSignals(n, n, h, params.window);
  }

  // ---- A right cache: the loop is wrong ----------------------------------------------------------------

  /** A chain of `j + 1` periods and `more` blocks that signals from the newest period on, with the
      first period cached. */
  function Late(j: nat, more: nat, params: Params): Setting {
    var n := End(j + 1, params.window) + more;
    Setting(LineIndex(n, End(j, params.window)), 1, n, n, map[params.window := Started], DUMMY, params)
  }

  /** The state machine of a deployment that started at once, has no timeout and no minimum height. */
  function DummyNext(state: ThresholdState, signalled: bool): ThresholdState {
    match state
    case Defined => Started
    case Started => if signalled then LockedIn else Started
    case LockedIn => Active
    case Active => Active
    case Failed => Failed
  }

  lemma DummySteps(state: ThresholdState, p: Period)
    ensures Transition(state, p, DUMMY) == DummyNext(state, p.signalled)
  {
  }

  lemma LineState(n: nat, quiet: nat, j: nat, params: Params)
    requires 1 < j && params.window > 0 && End(j, params.window) <= n < HEIGHT_LIMIT
    ensures var t, w := Line(n, quiet), params.window;
            StateAt(t, End(j, w), DUMMY, params) ==
              DummyNext(StateAt(t, End(j - 1, w), DUMMY, params),
                        Signals(t, End(j, w), w, DUMMY.bit) >= params.threshold)
  {
    var t, w := Line(n, quiet), params.window;
    LineTree(n, quiet);
    EndBefore(n, quiet, j, w);
    StateStepTo(t, 1, End(j, w), End(j - 1, w), DUMMY, params);
    DummySteps(StateAt(t, End(j - 1, w), DUMMY, params), PeriodOf(t, End(j, w), DUMMY, params));
  }

  lemma FirstLineState(n: nat, quiet: nat, params: Params)
    requires 0 < params.window <= n < HEIGHT_LIMIT
    ensures End(1, params.window) == params.window && StateAt(Line(n, quiet), params.window, DUMMY, params) == Started
  {
    assert End(1, params.window) == End(0, params.window) + params.window;
    LineTree(n, quiet);
    StateStep(Line(n, quiet), 1, params.window, DUMMY, params);
    DummySteps(Defined, PeriodOf(Line(n, quiet), params.window, DUMMY, params));
  }

  lemma {:induction false} StartedOnLine(n: nat, quiet: nat, j: nat, params: Params)
    requires 0 < params.threshold <= params.window && 0 < j && End(j, params.window) <= quiet <= n < HEIGHT_LIMIT
    ensures StateAt(Line(n, quiet), End(j, params.window), DUMMY, params) == Started
  {
    EndGrows(1, j, params.window);
    FirstLineState(n, quiet, params);
    if j > 1 {
      LineState(n, quiet, j, params);
      LineSignals(n, quiet, End(j, params.window), params.window);
      EndGrows(j - 1, j, params.window);
      StartedOnLine(n, quiet, j - 1, params);
    }
  }

  lemma LateCacheIsRight(n: nat, j: nat, params: Params)
    requires 0 < params.threshold <= params.window && j > 0 && End(j, params.window) <= n < HEIGHT_LIMIT
    ensures CacheOk(Line(n, End(j, params.window)), map[params.window := Started], DUMMY, params)
  {
    var quiet, w := End(j, params.window), params.window;
    EndGrows(1, j, w);
    StartedOnLine(n, quiet, 1, params);
    assert End(1, w) == End(0, w) + w;
    assert w in Line(n, quiet);
  }

  lemma {:induction false} ActiveStays(ps: seq<Period>, d: Deployment)
    ensures NewestFirst(Active, ps, d) == Some(Active)
    decreases |ps|
  {
    if ps != [] {
      ActiveStays(ps[1..], d);
    }
  }

  /** Signalled for in the newest of several uncached periods, the deployment is locked in; the
      loop, going on to older ones, has it active at once. */
  lemma LateIsWrong(j: nat, more: nat, params: Params)
    requires 0 < params.threshold <= params.window && j > 1 && more < params.window
             && End(j + 1, params.window) + more < HEIGHT_LIMIT
    ensures Proper(Late(j, more, params)) && ToCompute(Late(j, more, params)) == j
    ensures var s := Late(j, more, params);
            && LoopStatus(s.index.entries, s.h, s.cache, s.d, s.params) == Some(Active)
            && StatusAfter(s.index.entries, s.h, s.d, s.params) == LockedIn
  {
    var e, n, quiet := End(j + 1, params.window), End(j + 1, params.window) + more, End(j, params.window);
    OverEnd(e, e, j + 1, params.window);
    LineIsIndexed(n, quiet);
    LineIsTimed(n, quiet);
    LateCacheIsRight(n, j, params);
    EndsPeriod(n, quiet, n, e, j + 1, params.window);
    LateLoop(n, e, j, params);
    LateState(n, j, params);
    StatusOfPeriod(Late(j, more, params), e);
  }

  lemma LateLoop(n: nat, e: nat, j: nat, params: Params)
    requires 0 < params.threshold <= params.window && j > 1 && 0 < e == End(j + 1, params.window) <= n < HEIGHT_LIMIT
    ensures var t, cache := Line(n, End(j, params.window)), map[params.window := Started];
            LoopState(t, e, cache, DUMMY, params) == Some(Active) && |Uncached(t, e, cache, DUMMY, params)| == j
  {
    var quiet, w := End(j, params.window), params.window;
    LatePeriods(n, j, params);
    WalkOverLine(n, quiet, j + 1, map[w := Started], params);
    LateFold(PeriodsOf(Line(n, quiet), EndsFrom(j + 1, w, true), DUMMY, params));
  }

  lemma LateFold(ps: seq<Period>)
    requires |ps| > 1 && ps[0].signalled
    ensures NewestFirst(Started, ps, DUMMY) == Some(Active)
  {
    assert ps[1..][0] == ps[1];
    ActiveStays(ps[1..][1..], DUMMY);
  }

  lemma LateState(n: nat, j: nat, params: Params)
    requires 0 < params.threshold <= params.window && j > 0 && End(j + 1, params.window) <= n < HEIGHT_LIMIT
    ensures StateAt(Line(n, End(j, params.window)), End(j + 1, params.window), DUMMY, params) == LockedIn
  {
    LateStep(n, j, End(j, params.window), End(j + 1, params.window), params);
  }

  lemma LateStep(n: nat, j: nat, e: nat, h: nat, params: Params)
    requires 0 < params.threshold <= params.window && j > 0 && e == End(j, params.window)
    requires h == End(j + 1, params.window) && h <= n < HEIGHT_LIMIT
    ensures StateAt(Line(n, e), h, DUMMY, params) == LockedIn
  {
    var t, w := Line(n, e), params.window;
    assert h == e + w;
    LineSignals(n, e, h, w);
    StartedOnLine(n, e, j, params);
    assert StateAt(t, e, DUMMY, params) == Started && Signals(t, h, w, DUMMY.bit) >= params.threshold;
    LineState(n, e, j + 1, params);
  }

  lemma LatePeriods(n: nat, j: nat, params: Params)
    requires 0 < params.threshold <= params.window && j > 1 && End(j + 1, params.window) <= n
    ensures var ps := PeriodsOf(Line(n, End(j, params.window)), EndsFrom(j + 1, params.window, true), DUMMY, params);
            |ps| == j && ps[0].signalled
  {
    var quiet, w := End(j, params.window), params.window;
    EndsAt(j + 1, w, true, 0);
    EndGrows(1, j + 1, w);
    LineSignals(n, quiet, End(j + 1, w), w);
  }

  // ---- How many periods the loop can be trusted with ------------------------------------------------------

  /** The number of periods alone vouches for the status of BIP 9, whatever chain, right cache and
      declared deployment, exactly when it is at most one.  (Heights end at `HEIGHT_LIMIT`,
      and with them the number of periods there can be.) */
  lemma RightExactlyWithOnePeriod(n: nat, params: Params)
    requires 0 < params.threshold <= params.window && End(n + 1, params.window) < HEIGHT_LIMIT
    ensures (forall s {:trigger IsRight(s)} :: Proper(s) && s.params == params && ToCompute(s) == n ==> IsRight(s)) <==>
              n <= 1
  {
    if n <= 1 {
      forall s | Proper(s) && s.params == params && ToCompute(s) == n
        ensures IsRight(s)
      {
        StatusRightExactlyWhen(s.index.entries, s.genesis, s.h, s.cache, s.d, s.params);
      }
    } else {
      LateIsWrong(n, 0, params);
      assert !IsRight(Late(n, 0, params));
    }
  }
}
