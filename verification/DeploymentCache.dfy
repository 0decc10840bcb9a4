/** What the loop leaves in the cache, and when that is right. */
module DeploymentCache {
  import opened Primitives
  import opened Headers
  import opened MedianTime
  import opened Deployments
  import opened DeploymentLoop
  import opened DeploymentOrder

  /** What is cached when the walk is over: a period it stopped at before the start is noted. */
  function Noted(cache: StateCache, stop: Option<BlockHash>): StateCache {
    match stop case None => cache case Some(h) => Remember(cache, h, Defined)
  }

  predicate NotStarted(t: Entries, stop: Option<BlockHash>, d: Deployment) {
    stop.Some? ==> stop.value in t && !HasStarted(d, MedianTimePast(t, stop.value))
  }

  /** The cache after the fold over `periods` with the period ends `ends`. */
  function AfterFold(cache: StateCache, ends: seq<BlockHash>, state: ThresholdState, periods: seq<Period>,
                     d: Deployment): StateCache
    requires |ends| == |periods|
    decreases |ends|
  {
    if ends == [] then cache
    else
      match Step(state, periods[0], d)
      case None => cache
      case Some(next) => AfterFold(Remember(cache, ends[0], next), ends[1..], next, periods[1..], d)
  }

  lemma NotingKeepsRight(t: Entries, genesis: BlockHash, cache: StateCache, stop: Option<BlockHash>, d: Deployment,
                         params: Params)
    requires TreeOk(t, genesis) && TimesOk(t) && params.window > 0 && Sensible(d)
    requires CacheOk(t, cache, d, params) && NotStarted(t, stop, d)
    ensures CacheOk(t, Noted(cache, stop), d, params)
  {
    match stop
    case None =>
    case Some(h) =>
      DefinedBeforeStart(t, genesis, h, d, params);
      RememberKeeps(t, cache, h, Defined, d, params);
  }

  // ---- Entry by entry ------------------------------------------------------------------------

  lemma {:induction false} FoldLeavesOthers(cache: StateCache, ends: seq<BlockHash>, base: ThresholdState,
                                            ps: seq<Period>, d: Deployment, h: BlockHash)
    requires |ends| == |ps| && h !in ends
    ensures var now := AfterFold(cache, ends, base, ps, d);
            (h in now <==> h in cache) && (h in now ==> now[h] == cache[h])
    decreases |ends|
  {
    if ends != [] {
      match Step(base, ps[0], d)
      case None =>
      case Some(next) => FoldLeavesOthers(Remember(cache, ends[0], next), ends[1..], next, ps[1..], d, h);
    }
  }

  lemma {:induction false} FoldRemembers(cache: StateCache, ends: seq<BlockHash>, base: ThresholdState, ps: seq<Period>,
                                         d: Deployment, i: nat)
    requires |ends| == |ps| && Distinct(ends) && i < |ends| && NewestFirst(base, ps, d).Some?
    ensures var now := AfterFold(cache, ends, base, ps, d);
            ends[i] in now && Some(now[ends[i]]) == NewestFirst(base, ps[..i + 1], d)
    decreases i
  {
    var next := Step(base, ps[0], d).value;
    var cache' := Remember(cache, ends[0], next);
    if i == 0 {
      FoldLeavesOthers(cache', ends[1..], next, ps[1..], d, ends[0]);
      assert ps[..0 + 1] == [ps[0]];
      OnePeriod(base, ps[0], d);
    } else {
      FoldRemembers(cache', ends[1..], next, ps[1..], d, i - 1);
      assert ps[..i + 1][1..] == ps[1..][..i];
    }
  }

  /** From every period of a walk on, the walk is the rest of it. */
  lemma {:induction false} WalkFrom(t: Entries, genesis: BlockHash, h: BlockHash, cache: StateCache, d: Deployment,
                                    params: Params, i: nat)
    requires TreeOk(t, genesis) && h in t && params.window > 0 && i < |Uncached(t, h, cache, d, params)|
    ensures var ends := Uncached(t, h, cache, d, params);
            && ends[i] in t && Uncached(t, ends[i], cache, d, params) == ends[i..]
            && Base(t, ends[i], cache, d, params) == Base(t, h, cache, d, params)
    decreases i
  {
    WalkStep(t, genesis, h, cache, d, params);
    var ends := Uncached(t, h, cache, d, params);
    if i == 0 {
      assert ends[0..] == ends;
    } else {
      var e := AncestorAt(t, h, t[h].height - params.window);
      assert ends == [h] + Uncached(t, e, cache, d, params);
      TailOf(h, Uncached(t, e, cache, d, params), i);
      WalkFrom(t, genesis, e, cache, d, params, i - 1);
    }
  }

  lemma TailOf(h: BlockHash, rest: seq<BlockHash>, i: nat)
    requires 0 < i <= |rest|
    ensures ([h] + rest)[i] == rest[i - 1] && ([h] + rest)[i..] == rest[i - 1..]
  {
  }

  /** What BIP 9 gives for each period of a walk. */
  lemma StateOnWalk(t: Entries, genesis: BlockHash, h: BlockHash, cache: StateCache, d: Deployment, params: Params,
                    i: nat)
    requires TreeOk(t, genesis) && TimesOk(t) && h in t && params.window > 0 && Sensible(d)
             && CacheOk(t, cache, d, params)
    requires i < |Uncached(t, h, cache, d, params)|
    ensures var ends := Uncached(t, h, cache, d, params);
            && ends[i] in t && ends[i] !in cache
            && StateAt(t, ends[i], d, params) ==
                 OldestFirst(Base(t, h, cache, d, params), PeriodsOf(t, ends, d, params)[i..], d)
  {
    var ends := Uncached(t, h, cache, d, params);
    WalkFrom(t, genesis, h, cache, d, params, i);
    RecursionIsOldestFirst(t, genesis, ends[i], cache, d, params);
    forall k | 0 <= k < |ends| - i
      ensures ends[i..][k] in t && PeriodsOf(t, ends[i..], d, params)[k] == PeriodsOf(t, ends, d, params)[i..][k]
    {
      WalkFrom(t, genesis, h, cache, d, params, i + k);
    }
    assert PeriodsOf(t, ends[i..], d, params) == PeriodsOf(t, ends, d, params)[i..];
  }

  lemma WalkIsDistinct(t: Entries, genesis: BlockHash, h: BlockHash, cache: StateCache, d: Deployment, params: Params)
    requires TreeOk(t, genesis) && TimesOk(t) && h in t && params.window > 0
    ensures Distinct(Uncached(t, h, cache, d, params))
  {
    var ends := Uncached(t, h, cache, d, params);
    var ps := PeriodsOf(t, ends, d, params);
    WalkIsOrdered(t, genesis, h, cache, d, params);
    forall i, j | 0 <= i < j < |ends|
      ensures ends[i] != ends[j]
    {
      WalkFrom(t, genesis, h, cache, d, params, i);
      WalkFrom(t, genesis, h, cache, d, params, j);
      assert ps[j].height < ps[i].height;
    }
  }

  // ---- The cache as a whole ------------------------------------------------------------------

  /** What the cache holds when the status of the block after the period ending at `h` is computed. */
  function CacheAfter(t: Entries, h: BlockHash, was: StateCache, stop: Option<BlockHash>, d: Deployment,
                      params: Params): StateCache {
    var ends := Uncached(t, h, was, d, params);
    AfterFold(Noted(was, stop), ends, Base(t, h, was, d, params), PeriodsOf(t, ends, d, params), d)
  }

  /** A right cache stays right exactly when all that is computed comes to one state. */
  lemma CacheStaysRightExactlyWhen(t: Entries, genesis: BlockHash, h: BlockHash, was: StateCache,
                                   stop: Option<BlockHash>, d: Deployment, params: Params)
    requires TreeOk(t, genesis) && TimesOk(t) && h in t && params.window > 0 && Sensible(d) && d.startTime.StartTime?
    requires CacheOk(t, was, d, params) && NotStarted(t, stop, d)
    ensures LoopState(t, h, was, d, params).Some? ==>
              (CacheOk(t, CacheAfter(t, h, was, stop, d, params), d, params) <==>
               Uniform(Base(t, h, was, d, params), PeriodsOf(t, Uncached(t, h, was, d, params), d, params), d))
  {
    if LoopState(t, h, was, d, params).Some? {
      var base, ps := Base(t, h, was, d, params), PeriodsOf(t, Uncached(t, h, was, d, params), d, params);
      WalkedPeriods(t, genesis, h, was, d, params);
      WalkIsOrdered(t, genesis, h, was, d, params);
      RemembersExactlyWhen(base, ps, d);
      NotingKeepsRight(t, genesis, was, stop, d, params);
      if RemembersRight(base, ps, d) {
        RightIsKept(t, genesis, h, was, stop, d, params);
      }
      if CacheOk(t, CacheAfter(t, h, was, stop, d, params), d, params) {
        KeptIsRight(t, genesis, h, was, stop, d, params);
      }
    }
  }

  /** What is cached for the `i`-th period of the walk is right exactly when the loop was there. */
  lemma CachedAt(t: Entries, genesis: BlockHash, h: BlockHash, was: StateCache, stop: Option<BlockHash>, d: Deployment,
                 params: Params, i: nat)
    requires TreeOk(t, genesis) && TimesOk(t) && h in t && params.window > 0 && Sensible(d)
    requires CacheOk(t, was, d, params) && LoopState(t, h, was, d, params).Some? && i < |Uncached(t, h, was, d, params)|
    ensures var ends, now := Uncached(t, h, was, d, params), CacheAfter(t, h, was, stop, d, params);
            && ends[i] in now
            && (Matches(t, now, ends[i], d, params) <==>
                  RightAt(Base(t, h, was, d, params), PeriodsOf(t, ends, d, params), i, d))
  {
    var ends := Uncached(t, h, was, d, params);
    WalkIsDistinct(t, genesis, h, was, d, params);
    StateOnWalk(t, genesis, h, was, d, params, i);
    FoldRemembers(Noted(was, stop), ends, Base(t, h, was, d, params), PeriodsOf(t, ends, d, params), d, i);
  }

  lemma RightIsKept(t: Entries, genesis: BlockHash, h: BlockHash, was: StateCache, stop: Option<BlockHash>,
                    d: Deployment, params: Params)
    requires TreeOk(t, genesis) && TimesOk(t) && h in t && params.window > 0 && Sensible(d)
    requires CacheOk(t, was, d, params) && CacheOk(t, Noted(was, stop), d, params)
             && LoopState(t, h, was, d, params).Some?
    requires RemembersRight(Base(t, h, was, d, params), PeriodsOf(t, Uncached(t, h, was, d, params), d, params), d)
    ensures CacheOk(t, CacheAfter(t, h, was, stop, d, params), d, params)
  {
    var ends, base := Uncached(t, h, was, d, params), Base(t, h, was, d, params);
    var ps, now := PeriodsOf(t, ends, d, params), CacheAfter(t, h, was, stop, d, params);
    forall g | g in now
      ensures Matches(t, now, g, d, params)
    {
      if g in ends {
        var i :| 0 <= i < |ends| && ends[i] == g;
        assert RightAt(base, ps, i, d);
        CachedAt(t, genesis, h, was, stop, d, params, i);
      } else {
        FoldLeavesOthers(Noted(was, stop), ends, base, ps, d, g);
        assert Matches(t, Noted(was, stop), g, d, params);
      }
    }
  }

  lemma KeptIsRight(t: Entries, genesis: BlockHash, h: BlockHash, was: StateCache, stop: Option<BlockHash>,
                    d: Deployment, params: Params)
    requires TreeOk(t, genesis) && TimesOk(t) && h in t && params.window > 0 && Sensible(d)
    requires CacheOk(t, was, d, params) && LoopState(t, h, was, d, params).Some?
    requires CacheOk(t, CacheAfter(t, h, was, stop, d, params), d, params)
    ensures RemembersRight(Base(t, h, was, d, params), PeriodsOf(t, Uncached(t, h, was, d, params), d, params), d)
  {
    var ends, base := Uncached(t, h, was, d, params), Base(t, h, was, d, params);
    var ps, now := PeriodsOf(t, ends, d, params), CacheAfter(t, h, was, stop, d, params);
    forall i | 0 <= i < |ps|
      ensures RightAt(base, ps, i, d)
    {
      CachedAt(t, genesis, h, was, stop, d, params, i);
      assert Matches(t, now, ends[i], d, params);
    }
  }

  // ---- For the block that follows `h` --------------------------------------------------------

  /** All the periods to compute come to one state. */
  predicate StatesAreUniform(t: Entries, h: BlockHash, cache: StateCache, d: Deployment, params: Params)
    requires h in t && params.window > 0
  {
    d.startTime.AlwaysActive? ||
    match LastPeriodEnd(t, h, params.window)
    case None => true
    case Some(e) => Uniform(Base(t, e, cache, d, params), PeriodsOf(t, Uncached(t, e, cache, d, params), d, params), d)
  }

  /** Status and cache are right exactly when the periods allow it. */
  ghost predicate RightWhenItCanBe(t: Entries, h: BlockHash, was: StateCache, state: Option<ThresholdState>,
                                   now: StateCache, d: Deployment, params: Params)
    requires h in t && params.window > 0
  {
    && (state == Some(StatusAfter(t, h, d, params)) <==> OrderIsNoMatter(t, h, was, d, params))
    && (state.Some? ==> (CacheOk(t, now, d, params) <==> StatesAreUniform(t, h, was, d, params)))
  }

  lemma ComputedRight(t: Entries, genesis: BlockHash, h: BlockHash, e: BlockHash, was: StateCache,
                      stop: Option<BlockHash>, d: Deployment, params: Params)
    requires TreeOk(t, genesis) && TimesOk(t) && h in t && params.window > 0 && d.startTime.StartTime?
    requires LastPeriodEnd(t, h, params.window) == Some(e) && NotStarted(t, stop, d)
    ensures Sensible(d) && CacheOk(t, was, d, params) ==>
              RightWhenItCanBe(t, h, was, LoopStatus(t, h, was, d, params), CacheAfter(t, e, was, stop, d, params), d,
                               params)
  {
    if Sensible(d) && CacheOk(t, was, d, params) {
      AncestorExists(t, genesis, h, t[h].height - (t[h].height + 1) % params.window);
      StatusRightExactlyWhen(t, genesis, h, was, d, params);
      CacheStaysRightExactlyWhen(t, genesis, e, was, stop, d, params);
    }
  }
}
