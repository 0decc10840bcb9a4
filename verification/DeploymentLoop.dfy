/** The loop that computes a deployment's state from a cache: what it gives, when it halts, and
    when it agrees with BIP 9. */
module DeploymentLoop {
  import opened Primitives
  import opened Headers
  import opened MedianTime
  import opened Deployments

  type StateCache = map<BlockHash, ThresholdState>

  // ---- The fold -----------------------------------------------------------------------------

  /** Counting signals in the first period steps past the genesis block unless it may stop before. */
  predicate StepsPastGenesis(state: ThresholdState, p: Period, d: Deployment) {
    state == Started && !TimedOut(d, p.time) && !p.signalled && p.first
  }

  function Step(state: ThresholdState, p: Period, d: Deployment): Option<ThresholdState> {
    if StepsPastGenesis(state, p, d) then None else Some(Transition(state, p, d))
  }

  /** The loop takes the periods in the order they were collected; `None` when it halts. */
  function NewestFirst(state: ThresholdState, newestFirst: seq<Period>, d: Deployment): Option<ThresholdState>
    decreases |newestFirst|
  {
    if newestFirst == [] then Some(state)
    else
      match Step(state, newestFirst[0], d)
      case None => None
      case Some(next) => NewestFirst(next, newestFirst[1..], d)
  }

  /** BIP 9 takes them in the order they happened. */
  function OldestFirst(state: ThresholdState, newestFirst: seq<Period>, d: Deployment): ThresholdState {
    if newestFirst == [] then state else Transition(OldestFirst(state, newestFirst[1..], d), newestFirst[0], d)
  }

  /** Outside Started nothing is counted, and Started is not entered again. */
  lemma {:induction false} SettledNeverHalts(state: ThresholdState, ps: seq<Period>, d: Deployment)
    requires state in {LockedIn, Active, Failed}
    ensures NewestFirst(state, ps, d).Some? && NewestFirst(state, ps, d).value in {LockedIn, Active, Failed}
    decreases |ps|
  {
    if ps != [] {
      SettledNeverHalts(Transition(state, ps[0], d), ps[1..], d);
    }
  }

  /** In Started the loop halts exactly when it comes to the first period with no signals on the way. */
  lemma {:induction false} StartedHaltsWhen(ps: seq<Period>, d: Deployment)
    requires forall i :: 0 <= i < |ps| ==> !TimedOut(d, ps[i].time) && (ps[i].first ==> i == |ps| - 1)
    ensures NewestFirst(Started, ps, d).None? <==>
            ps != [] && ps[|ps| - 1].first && forall i :: 0 <= i < |ps| ==> !ps[i].signalled
    decreases |ps|
  {
    if ps != [] {
      if ps[0].signalled {
        SettledNeverHalts(LockedIn, ps[1..], d);
      } else if |ps| > 1 {
        StartedHaltsWhen(ps[1..], d);
        assert forall i :: 0 < i < |ps| ==> ps[i] == ps[1..][i - 1];
      } else {
        assert ps[1..] == [];
      }
    }
  }

  // ---- The cached walk -------------------------------------------------------------------------

  /** The period ends from `h` back that the walk has to compute, newest first. */
  function Uncached(t: Entries, h: BlockHash, cache: StateCache, d: Deployment, params: Params): seq<BlockHash>
    decreases if h in t then t[h].height else 0
  {
    if h !in t || params.window == 0 || h in cache || !HasStarted(d, MedianTimePast(t, h)) then []
    else if t[h].height < params.window then [h]
    else
      var e := AncestorAt(t, h, t[h].height - params.window);
      if e in t && t[e].height < t[h].height then [h] + Uncached(t, e, cache, d, params) else [h]
  }

  /** The state the walk ends on. */
  function Base(t: Entries, h: BlockHash, cache: StateCache, d: Deployment, params: Params): ThresholdState
    decreases if h in t then t[h].height else 0
  {
    if h !in t || params.window == 0 then Defined
    else if h in cache then cache[h]
    else if !HasStarted(d, MedianTimePast(t, h)) || t[h].height < params.window then Defined
    else
      var e := AncestorAt(t, h, t[h].height - params.window);
      if e in t && t[e].height < t[h].height then Base(t, e, cache, d, params) else Defined
  }

  function PeriodsOf(t: Entries, ends: seq<BlockHash>, d: Deployment, params: Params): (periods: seq<Period>)
    ensures |periods| == |ends|
    ensures forall i :: 0 <= i < |ends| && ends[i] in t ==> periods[i] == PeriodOf(t, ends[i], d, params)
  {
    seq(|ends|, i requires 0 <= i < |ends| => if ends[i] in t then PeriodOf(t, ends[i], d, params)
        else Period(0, false, 0, false))
  }

  /** What the loop gives for the period that ends at `h`. */
  function LoopState(t: Entries, h: BlockHash, cache: StateCache, d: Deployment,
                     params: Params): Option<ThresholdState> {
    NewestFirst(Base(t, h, cache, d, params), PeriodsOf(t, Uncached(t, h, cache, d, params), d, params), d)
  }

  /** What the code gives for the block that follows `h`; `None` when it halts. */
  function LoopStatus(t: Entries, h: BlockHash, cache: StateCache, d: Deployment,
                      params: Params): Option<ThresholdState>
    requires h in t && params.window > 0
  {
    if d.startTime.AlwaysActive? then Some(Active)
    else
      match LastPeriodEnd(t, h, params.window)
      case None => Some(Defined)
      case Some(e) => LoopState(t, e, cache, d, params)
  }

  /** Every cached state is the one the recursion over all periods gives. */
  ghost predicate CacheOk(t: Entries, cache: StateCache, d: Deployment, params: Params) {
    forall h {:trigger Matches(t, cache, h, d, params)} :: h in cache ==> Matches(t, cache, h, d, params)
  }

  predicate Matches(t: Entries, cache: StateCache, h: BlockHash, d: Deployment, params: Params)
    requires h in cache
  {
    h in t && cache[h] == StateAt(t, h, d, params)
  }

  lemma RememberKeeps(t: Entries, cache: StateCache, h: BlockHash, state: ThresholdState, d: Deployment, params: Params)
    requires CacheOk(t, cache, d, params) && h in t && state == StateAt(t, h, d, params)
    ensures CacheOk(t, Remember(cache, h, state), d, params)
  {
    forall g | g in Remember(cache, h, state)
      ensures Matches(t, Remember(cache, h, state), g, d, params)
    {
      assert g in cache ==> Matches(t, cache, g, d, params);
    }
  }

  function Remember(cache: StateCache, hash: BlockHash, state: ThresholdState): (now: StateCache)
    ensures hash in now && now[hash] == state
    ensures forall h :: h != hash ==> (h in now <==> h in cache) && (h in now ==> now[h] == cache[h])
  {
    cache[hash := state]
  }

  predicate Stops(t: Entries, h: BlockHash, cache: StateCache, d: Deployment) {
    h in t && (h in cache || !HasStarted(d, MedianTimePast(t, h)))
  }

  /** One turn of the walk. */
  lemma WalkStep(t: Entries, genesis: BlockHash, h: BlockHash, cache: StateCache, d: Deployment, params: Params)
    requires TreeOk(t, genesis) && h in t && params.window > 0
    ensures Stops(t, h, cache, d) ==> Uncached(t, h, cache, d, params) == []
    ensures !Stops(t, h, cache, d) && t[h].height < params.window ==>
              Uncached(t, h, cache, d, params) == [h] && Base(t, h, cache, d, params) == Defined
    ensures t[h].height >= params.window ==>
              var e := AncestorAt(t, h, t[h].height - params.window);
              && e in t && t[e].hash == e && t[e].height == t[h].height - params.window && t[e].height < t[h].height
              && (!Stops(t, h, cache, d) ==>
                    && Uncached(t, h, cache, d, params) == [h] + Uncached(t, e, cache, d, params)
                    && Base(t, h, cache, d, params) == Base(t, e, cache, d, params))
  {
    if t[h].height >= params.window {
      AncestorExists(t, genesis, h, t[h].height - params.window);
    }
  }

  /** One turn of a walk that goes on to `e`. */
  lemma WalkStepTo(t: Entries, genesis: BlockHash, h: BlockHash, e: BlockHash, cache: StateCache, d: Deployment,
                   params: Params)
    requires TreeOk(t, genesis) && h in t && 0 < params.window <= t[h].height
             && e == AncestorAt(t, h, t[h].height - params.window)
    requires h !in cache && HasStarted(d, MedianTimePast(t, h))
    ensures Uncached(t, h, cache, d, params) == [h] + Uncached(t, e, cache, d, params)
    ensures Base(t, h, cache, d, params) == Base(t, e, cache, d, params)
  {
    WalkStep(t, genesis, h, cache, d, params);
  }

  predicate StartedBy(t: Entries, e: BlockHash, d: Deployment, time: nat) {
    e in t && HasStarted(d, MedianTimePast(t, e)) && MedianTimePast(t, e) <= time
  }

  predicate NotFirst(t: Entries, e: BlockHash, params: Params) {
    e in t && t[e].height >= params.window
  }

  /** The walk's periods are stored and have started, none is later than `time`, and only the last
      may be the first of the chain. */
  ghost predicate Walked(t: Entries, ends: seq<BlockHash>, d: Deployment, params: Params, time: nat) {
    && (forall e {:trigger StartedBy(t, e, d, time)} :: e in ends ==> StartedBy(t, e, d, time))
    && (ends != [] ==> forall e {:trigger NotFirst(t, e, params)} :: e in ends[..|ends| - 1] ==> NotFirst(t, e, params))
  }

  lemma {:induction false} WalkIsWalked(t: Entries, genesis: BlockHash, h: BlockHash, cache: StateCache, d: Deployment,
                                        params: Params)
    requires TreeOk(t, genesis) && TimesOk(t) && h in t && params.window > 0
    ensures Walked(t, Uncached(t, h, cache, d, params), d, params, MedianTimePast(t, h))
    ensures Uncached(t, h, cache, d, params) != [] ==> Uncached(t, h, cache, d, params)[0] == h
    decreases t[h].height
  {
    WalkStep(t, genesis, h, cache, d, params);
    if !Stops(t, h, cache, d) && t[h].height >= params.window {
      var e := AncestorAt(t, h, t[h].height - params.window);
      WalkIsWalked(t, genesis, e, cache, d, params);
      MedianNeverDecreases(t, genesis, h, t[h].height - params.window);
      WalkedOneMore(t, h, Uncached(t, e, cache, d, params), d, params, MedianTimePast(t, e), MedianTimePast(t, h));
    } else if !Stops(t, h, cache, d) {
      assert StartedBy(t, h, d, MedianTimePast(t, h));
    }
  }

  lemma WalkedOneMore(t: Entries, h: BlockHash, rest: seq<BlockHash>, d: Deployment, params: Params, time: nat,
                      time': nat)
    requires Walked(t, rest, d, params, time) && time <= time'
    requires StartedBy(t, h, d, time') && NotFirst(t, h, params)
    ensures Walked(t, [h] + rest, d, params, time')
  {
    var ends := [h] + rest;
    forall e | e in ends
      ensures StartedBy(t, e, d, time')
    {
      assert e in rest ==> StartedBy(t, e, d, time);
    }
    if rest != [] {
      assert ends[..|ends| - 1] == [h] + rest[..|rest| - 1];
    } else {
      assert ends[..|ends| - 1] == [];
    }
  }

  /** A walk that reaches the first period ends on Defined. */
  lemma {:induction false} FirstPeriodMeansDefined(t: Entries, genesis: BlockHash, h: BlockHash, cache: StateCache,
                                                   d: Deployment, params: Params)
    requires TreeOk(t, genesis) && h in t && params.window > 0
    requires var ends := Uncached(t, h, cache, d, params);
             ends != [] && ends[|ends| - 1] in t && t[ends[|ends| - 1]].height < params.window
    ensures Base(t, h, cache, d, params) == Defined
    decreases t[h].height
  {
    WalkStep(t, genesis, h, cache, d, params);
    if t[h].height >= params.window {
      var e := AncestorAt(t, h, t[h].height - params.window);
      var ends, rest := Uncached(t, h, cache, d, params), Uncached(t, e, cache, d, params);
      assert ends == [h] + rest;
      LastOf(h, rest);
      FirstPeriodMeansDefined(t, genesis, e, cache, d, params);
    }
  }

  lemma LastOf(h: BlockHash, rest: seq<BlockHash>)
    ensures rest != [] ==> ([h] + rest)[|rest|] == rest[|rest| - 1]
  {
  }

  lemma {:induction false} NoFirstNeverHalts(state: ThresholdState, ps: seq<Period>, d: Deployment)
    requires forall i :: 0 <= i < |ps| ==> !ps[i].first
    ensures NewestFirst(state, ps, d).Some?
    decreases |ps|
  {
    if ps != [] {
      NoFirstNeverHalts(Transition(state, ps[0], d), ps[1..], d);
    }
  }

  /** From Defined the newest period decides whether anything is counted at all. */
  lemma DefinedHaltsWhen(ps: seq<Period>, d: Deployment)
    requires ps != [] && ps[|ps| - 1].first && HasStarted(d, ps[0].time)
    requires forall i :: 0 <= i < |ps| ==> ps[i].time <= ps[0].time && (ps[i].first ==> i == |ps| - 1)
    ensures NewestFirst(Defined, ps, d).None? <==>
            |ps| > 1 && !TimedOut(d, ps[0].time) && forall i :: 0 < i < |ps| ==> !ps[i].signalled
  {
    var rest := ps[1..];
    assert forall i :: 0 < i < |ps| ==> ps[i] == rest[i - 1];
    if TimedOut(d, ps[0].time) {
      SettledNeverHalts(Failed, rest, d);
    } else {
      StartedHaltsWhen(rest, d);
    }
  }

  /** The loop halts exactly when it walks back to the first period, over at least one other, the
      newest has not timed out, and no period but perhaps the newest is signalled. */
  lemma HaltsExactlyWhen(t: Entries, genesis: BlockHash, h: BlockHash, cache: StateCache, d: Deployment, params: Params)
    requires TreeOk(t, genesis) && TimesOk(t) && h in t && params.window > 0 && d.startTime.StartTime?
    ensures var ps := PeriodsOf(t, Uncached(t, h, cache, d, params), d, params);
            LoopState(t, h, cache, d, params).None? <==>
            && |ps| > 1 && ps[|ps| - 1].first && !TimedOut(d, ps[0].time)
            && forall i :: 0 < i < |ps| ==> !ps[i].signalled
  {
    WalkedPeriods(t, genesis, h, cache, d, params);
    FoldHaltsWhen(Base(t, h, cache, d, params), PeriodsOf(t, Uncached(t, h, cache, d, params), d, params), d);
  }

  /** The periods of a walk that ends on `base`: started, none later than the newest, the first of
      the chain only at the end and then on top of Defined. */
  ghost predicate FromWalk(base: ThresholdState, ps: seq<Period>, d: Deployment) {
    && (forall i :: 0 <= i < |ps| ==> ps[i].time <= ps[0].time && (ps[i].first ==> i == |ps| - 1))
    && (ps != [] ==> HasStarted(d, ps[0].time))
    && (ps != [] && ps[|ps| - 1].first ==> base == Defined)
  }

  lemma FoldHaltsWhen(base: ThresholdState, ps: seq<Period>, d: Deployment)
    requires FromWalk(base, ps, d)
    ensures NewestFirst(base, ps, d).None? <==>
            && |ps| > 1 && ps[|ps| - 1].first && !TimedOut(d, ps[0].time)
            && forall i :: 0 < i < |ps| ==> !ps[i].signalled
  {
    if ps == [] || !ps[|ps| - 1].first {
      NoFirstNeverHalts(base, ps, d);
    } else {
      DefinedHaltsWhen(ps, d);
    }
  }

  lemma WalkedPeriods(t: Entries, genesis: BlockHash, h: BlockHash, cache: StateCache, d: Deployment, params: Params)
    requires TreeOk(t, genesis) && TimesOk(t) && h in t && params.window > 0
    ensures FromWalk(Base(t, h, cache, d, params), PeriodsOf(t, Uncached(t, h, cache, d, params), d, params), d)
  {
    var ends := Uncached(t, h, cache, d, params);
    WalkIsWalked(t, genesis, h, cache, d, params);
    var ps := PeriodsOf(t, ends, d, params);
    forall i | 0 <= i < |ps|
      ensures ends[i] in t && ps[i].time <= ps[0].time && HasStarted(d, ps[0].time) && (ps[i].first ==> i == |ps| - 1)
    {
      assert StartedBy(t, ends[i], d, MedianTimePast(t, h)) && StartedBy(t, ends[0], d, MedianTimePast(t, h));
      if i < |ps| - 1 {
        assert ends[i] == ends[..|ends| - 1][i];
        assert NotFirst(t, ends[i], params);
      }
    }
    if ends != [] && t[ends[|ends| - 1]].height < params.window {
      FirstPeriodMeansDefined(t, genesis, h, cache, d, params);
    }
  }

  // ---- Agreement with BIP 9 --------------------------------------------------------------------

  /** The recursion of BIP 9 is the oldest-first fold over what the walk collects. */
  lemma {:induction false} RecursionIsOldestFirst(t: Entries, genesis: BlockHash, h: BlockHash, cache: StateCache,
                                                  d: Deployment, params: Params)
    requires TreeOk(t, genesis) && TimesOk(t) && h in t && params.window > 0 && Sensible(d)
    requires CacheOk(t, cache, d, params)
    ensures StateAt(t, h, d, params) ==
              OldestFirst(Base(t, h, cache, d, params), PeriodsOf(t, Uncached(t, h, cache, d, params), d, params), d)
    decreases t[h].height
  {
    WalkStep(t, genesis, h, cache, d, params);
    if Stops(t, h, cache, d) {
      StopIsRight(t, genesis, h, cache, d, params);
    } else {
      StateStep(t, genesis, h, d, params);
      if t[h].height >= params.window {
        var e := AncestorAt(t, h, t[h].height - params.window);
        RecursionIsOldestFirst(t, genesis, e, cache, d, params);
        FoldOneMore(t, h, Uncached(t, e, cache, d, params), Base(t, e, cache, d, params), d, params);
      } else {
        assert [h] + [] == [h];
        FoldOneMore(t, h, [], Defined, d, params);
      }
    }
  }

  lemma StopIsRight(t: Entries, genesis: BlockHash, h: BlockHash, cache: StateCache, d: Deployment, params: Params)
    requires TreeOk(t, genesis) && TimesOk(t) && h in t && params.window > 0 && Sensible(d)
    requires CacheOk(t, cache, d, params) && Stops(t, h, cache, d)
    ensures StateAt(t, h, d, params) == Base(t, h, cache, d, params)
  {
    if h in cache {
      assert Matches(t, cache, h, d, params);
    } else {
      DefinedBeforeStart(t, genesis, h, d, params);
    }
  }

  lemma StateStepTo(t: Entries, genesis: BlockHash, h: BlockHash, e: BlockHash, d: Deployment, params: Params)
    requires TreeOk(t, genesis) && h in t && 0 < params.window <= t[h].height
             && e == AncestorAt(t, h, t[h].height - params.window)
    ensures StateAt(t, h, d, params) == Transition(StateAt(t, e, d, params), PeriodOf(t, h, d, params), d)
  {
    StateStep(t, genesis, h, d, params);
  }

  lemma StateStep(t: Entries, genesis: BlockHash, h: BlockHash, d: Deployment, params: Params)
    requires TreeOk(t, genesis) && h in t && params.window > 0
    ensures StateAt(t, h, d, params) == Transition(
              if t[h].height < params.window then Defined
                else StateAt(t, AncestorAt(t, h, t[h].height - params.window), d, params),
              PeriodOf(t, h, d, params), d)
  {
    if t[h].height >= params.window {
      AncestorExists(t, genesis, h, t[h].height - params.window);
      StateOfLater(t, h, AncestorAt(t, h, t[h].height - params.window), d, params);
    } else {
      StateOfFirst(t, h, d, params);
    }
  }

  lemma FoldOneMore(t: Entries, h: BlockHash, rest: seq<BlockHash>, base: ThresholdState, d: Deployment, params: Params)
    requires h in t
    ensures OldestFirst(base, PeriodsOf(t, [h] + rest, d, params), d) ==
              Transition(OldestFirst(base, PeriodsOf(t, rest, d, params), d), PeriodOf(t, h, d, params), d)
  {
    var ends := [h] + rest;
    assert forall i :: 0 < i < |ends| ==> ends[i] == rest[i - 1];
    assert PeriodsOf(t, ends, d, params)[1..] == PeriodsOf(t, rest, d, params);
    assert [h] + [] == [h];
  }

  lemma OneIsOneStep(state: ThresholdState, ps: seq<Period>, d: Deployment)
    requires |ps| <= 1 && NewestFirst(state, ps, d).Some?
    ensures NewestFirst(state, ps, d) == Some(OldestFirst(state, ps, d))
  {
    if |ps| == 1 {
      assert ps[1..] == [];
    }
  }

  /** With at most one period to compute the loop never halts and gives the state of BIP 9. */
  lemma FewAreRight(t: Entries, genesis: BlockHash, h: BlockHash, cache: StateCache, d: Deployment, params: Params)
    requires TreeOk(t, genesis) && TimesOk(t) && h in t && params.window > 0 && Sensible(d) && d.startTime.StartTime?
    requires CacheOk(t, cache, d, params) && |Uncached(t, h, cache, d, params)| <= 1
    ensures LoopState(t, h, cache, d, params) == Some(StateAt(t, h, d, params))
  {
    HaltsExactlyWhen(t, genesis, h, cache, d, params);
    OneIsOneStep(Base(t, h, cache, d, params), PeriodsOf(t, Uncached(t, h, cache, d, params), d, params), d);
    RecursionIsOldestFirst(t, genesis, h, cache, d, params);
  }
}
