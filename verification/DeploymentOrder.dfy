/** When the order of the periods matters: exactly when the loop agrees with BIP 9. */
module DeploymentOrder {
  import opened Primitives
  import opened Headers
  import opened MedianTime
  import opened Deployments
  import opened DeploymentLoop

  /** Newest first: heights fall, times do not rise, and all have started. */
  predicate Ordered(ps: seq<Period>, d: Deployment) {
    && (forall i, j :: 0 <= i < j < |ps| ==> ps[j].height < ps[i].height && ps[j].time <= ps[i].time)
    && (forall i :: 0 <= i < |ps| ==> HasStarted(d, ps[i].time))
  }

  predicate Reached(p: Period, d: Deployment) {
    p.height >= d.minActivationHeight
  }

  /** Signalled for while there was time. */
  predicate Timely(p: Period, d: Deployment) {
    p.signalled && !TimedOut(d, p.time)
  }

  function NewestSignal(ps: seq<Period>): (i: Option<nat>)
    ensures i.None? ==> forall k :: 0 <= k < |ps| ==> !ps[k].signalled
    ensures i.Some? ==> i.value < |ps| && ps[i.value].signalled && forall k :: 0 <= k < i.value ==> !ps[k].signalled
  {
    if ps == [] then None
    else if ps[0].signalled then Some(0)
    else match NewestSignal(ps[1..]) case None => None case Some(i) => Some(i + 1)
  }

  function OldestSignal(ps: seq<Period>): (i: Option<nat>)
    ensures i.None? ==> forall k :: 0 <= k < |ps| ==> !ps[k].signalled
    ensures i.Some? ==> i.value < |ps| && ps[i.value].signalled && forall k :: i.value < k < |ps| ==> !ps[k].signalled
  {
    if ps == [] then None
    else if ps[|ps| - 1].signalled then Some(|ps| - 1)
    else OldestSignal(ps[..|ps| - 1])
  }

  /** The periods whose signals the loop looks at: from Defined it uses up the newest one. */
  function Seen(base: ThresholdState, ps: seq<Period>): seq<Period> {
    if base == Defined && ps != [] then ps[1..] else ps
  }

  /** The periods whose signals count: from Defined BIP 9 uses up the oldest one. */
  function Counted(base: ThresholdState, ps: seq<Period>): seq<Period> {
    if base == Defined && ps != [] then ps[..|ps| - 1] else ps
  }

  /** The loop comes to Active if the period before the newest signal it sees reached the height,
      BIP 9 if the newest period did after the oldest signal that counts. */
  predicate SignalsAgree(seen: seq<Period>, counted: seq<Period>, d: Deployment) {
    match (NewestSignal(seen), OldestSignal(counted))
    case (None, None) => seen == [] || !seen[|seen| - 1].first
    case (Some(i), Some(j)) => (i + 1 < |seen| && Reached(seen[i + 1], d)) <==> (j > 0 && Reached(counted[0], d))
    case _ => false
  }

  /** Newest first or oldest first, the state on top of `base` is the same. */
  predicate OrderDoesNotMatter(base: ThresholdState, ps: seq<Period>, d: Deployment) {
    || |ps| <= 1
    || base in {LockedIn, Active, Failed}
    || if TimedOut(d, ps[0].time) then forall p :: p in Counted(base, ps) ==> !Timely(p, d)
       else SignalsAgree(Seen(base, ps), Counted(base, ps), d)
  }

  // ---- The two folds -------------------------------------------------------------------------

  lemma {:induction false} FinalStays(state: ThresholdState, ps: seq<Period>, d: Deployment)
    requires state in {Active, Failed}
    ensures NewestFirst(state, ps, d) == Some(state) && OldestFirst(state, ps, d) == state
    decreases |ps|
  {
    if ps != [] {
      FinalStays(state, ps[1..], d);
    }
  }

  /** From LockedIn both orders ask whether the newest period reached the height. */
  lemma {:induction false} FromLockedIn(ps: seq<Period>, d: Deployment)
    requires Ordered(ps, d)
    ensures OldestFirst(LockedIn, ps, d) == (if ps != [] && Reached(ps[0], d) then Active else LockedIn)
    ensures NewestFirst(LockedIn, ps, d) == Some(OldestFirst(LockedIn, ps, d))
    decreases |ps|
  {
    if ps != [] {
      FromLockedIn(ps[1..], d);
      FinalStays(Active, ps[1..], d);
      assert |ps| > 1 ==> ps[1..][0] == ps[1];
    }
  }

  /** The loop locks in with the newest signal and goes on to older periods. */
  lemma {:induction false} NewestFromStarted(ps: seq<Period>, d: Deployment)
    requires Ordered(ps, d) && ps != [] && !TimedOut(d, ps[0].time)
    requires forall i :: 0 <= i < |ps| ==> (ps[i].first ==> i == |ps| - 1)
    ensures NewestFirst(Started, ps, d) == match NewestSignal(ps)
              case None => if ps[|ps| - 1].first then None else Some(Started)
              case Some(i) => Some(if i + 1 < |ps| && Reached(ps[i + 1], d) then Active else LockedIn)
    decreases |ps|
  {
    var rest := ps[1..];
    assert forall i :: 0 < i < |ps| ==> ps[i] == rest[i - 1];
    if ps[0].signalled {
      FromLockedIn(rest, d);
    } else if rest != [] {
      NewestFromStarted(rest, d);
    }
  }

  /** BIP 9 locks in with the oldest signal that is in time. */
  lemma {:induction false} OldestFromStarted(ps: seq<Period>, d: Deployment)
    requires Ordered(ps, d)
    ensures (exists p :: p in ps && Timely(p, d)) ==> OldestFirst(Started, ps, d) in {LockedIn, Active}
    ensures (forall p :: p in ps ==> !Timely(p, d)) ==>
              OldestFirst(Started, ps, d) == if ps != [] && TimedOut(d, ps[0].time) then Failed else Started
    decreases |ps|
  {
    if ps != [] {
      var rest := ps[1..];
      assert forall p :: p in ps <==> p == ps[0] || p in rest;
      assert |ps| > 1 ==> rest[0] == ps[1];
      OldestFromStarted(rest, d);
      assert ps[0] in ps && (Timely(ps[0], d) <==> ps[0].signalled && !TimedOut(d, ps[0].time));
    }
  }

  /** With no timeout yet, the newest period decides what the oldest signal comes to. */
  lemma {:induction false} OldestLocksIn(ps: seq<Period>, j: nat, d: Deployment)
    requires Ordered(ps, d) && j < |ps| && !TimedOut(d, ps[0].time)
    requires ps[j].signalled && forall k :: j < k < |ps| ==> !ps[k].signalled
    ensures OldestFirst(Started, ps, d) == if j > 0 && Reached(ps[0], d) then Active else LockedIn
    decreases |ps|
  {
    var rest := ps[1..];
    assert forall i :: 0 < i < |ps| ==> ps[i] == rest[i - 1];
    if j > 0 {
      OldestLocksIn(rest, j - 1, d);
    } else {
      OldestFromStarted(rest, d);
    }
  }

  /** The oldest period is taken first. */
  lemma {:induction false} OldestIsFirst(base: ThresholdState, ps: seq<Period>, d: Deployment)
    requires ps != []
    ensures OldestFirst(base, ps, d) == OldestFirst(Transition(base, ps[|ps| - 1], d), ps[..|ps| - 1], d)
    decreases |ps|
  {
    if |ps| > 1 {
      OldestIsFirst(base, ps[1..], d);
      assert ps[1..][..|ps| - 2] == ps[..|ps| - 1][1..];
    }
  }

  /** From Defined the newest period starts the loop, the oldest one BIP 9. */
  lemma FromDefined(ps: seq<Period>, d: Deployment)
    requires Ordered(ps, d) && |ps| > 1
    ensures !TimedOut(d, ps[0].time) ==> NewestFirst(Defined, ps, d) == NewestFirst(Started, Seen(Defined, ps), d)
    ensures TimedOut(d, ps[0].time) ==> NewestFirst(Defined, ps, d) == Some(Failed)
    ensures OldestFirst(Defined, ps, d) == OldestFirst(Started, Counted(Defined, ps), d)
  {
    var n := |ps| - 1;
    OldestIsFirst(Defined, ps, d);
    if TimedOut(d, ps[n].time) {
      FinalStays(Failed, ps[..n], d);
      OldestFromStarted(ps[..n], d);
    }
    if TimedOut(d, ps[0].time) {
      FinalStays(Failed, ps[1..], d);
    }
  }

  lemma FromStarted(ps: seq<Period>, d: Deployment)
    requires Ordered(ps, d) && ps != [] && TimedOut(d, ps[0].time)
    ensures NewestFirst(Started, ps, d) == Some(Failed)
  {
    FinalStays(Failed, ps[1..], d);
  }

  /** The loop over `seen` and BIP 9 over `counted`, both from Started. */
  lemma StartedAgree(seen: seq<Period>, counted: seq<Period>, d: Deployment)
    requires Ordered(seen, d) && Ordered(counted, d) && seen != [] && counted != []
    requires !TimedOut(d, seen[0].time) && !TimedOut(d, counted[0].time)
    requires forall i :: 0 <= i < |seen| ==> (seen[i].first ==> i == |seen| - 1)
    ensures NewestFirst(Started, seen, d) == Some(OldestFirst(Started, counted, d)) <==> SignalsAgree(seen, counted, d)
  {
    NewestFromStarted(seen, d);
    match OldestSignal(counted)
    case None => OldestFromStarted(counted, d);
    case Some(j) => OldestLocksIn(counted, j, d);
  }

  /** The exact condition, for all lists of periods that a walk collects. */
  lemma OrdersAgreeExactlyWhen(base: ThresholdState, ps: seq<Period>, d: Deployment)
    requires FromWalk(base, ps, d) && Ordered(ps, d)
    ensures NewestFirst(base, ps, d) == Some(OldestFirst(base, ps, d)) <==> OrderDoesNotMatter(base, ps, d)
  {
    if |ps| <= 1 {
      FoldHaltsWhen(base, ps, d);
      OneIsOneStep(base, ps, d);
    } else if base == LockedIn {
      FromLockedIn(ps, d);
    } else if base in {Active, Failed} {
      FinalStays(base, ps, d);
    } else {
      UnsettledAgree(base, ps, d);
    }
  }

  lemma UnsettledAgree(base: ThresholdState, ps: seq<Period>, d: Deployment)
    requires FromWalk(base, ps, d) && Ordered(ps, d) && |ps| > 1 && base in {Defined, Started}
    ensures NewestFirst(base, ps, d) == Some(OldestFirst(base, ps, d)) <==> OrderDoesNotMatter(base, ps, d)
  {
    var seen, counted := Seen(base, ps), Counted(base, ps);
    if base == Defined {
      FromDefined(ps, d);
    } else if TimedOut(d, ps[0].time) {
      FromStarted(ps, d);
    }
    if TimedOut(d, ps[0].time) {
      OldestFromStarted(counted, d);
    } else {
      StartedAgree(seen, counted, d);
    }
  }

  // ---- What is remembered ----------------------------------------------------------------------

  /** Every state the loop comes to on its way is the one BIP 9 gives for that period. */
  ghost predicate RemembersRight(base: ThresholdState, ps: seq<Period>, d: Deployment) {
    forall i {:trigger RightAt(base, ps, i, d)} :: 0 <= i < |ps| ==> RightAt(base, ps, i, d)
  }

  predicate RightAt(base: ThresholdState, ps: seq<Period>, i: nat, d: Deployment)
    requires i < |ps|
  {
    NewestFirst(base, ps[..i + 1], d) == Some(OldestFirst(base, ps[i..], d))
  }

  predicate Quiet(ps: seq<Period>) {
    forall i :: 0 <= i < |ps| ==> !ps[i].signalled
  }

  predicate NoneFirst(ps: seq<Period>) {
    forall i :: 0 <= i < |ps| ==> !ps[i].first
  }

  /** All periods come to one state, whichever is taken first. */
  predicate Uniform(base: ThresholdState, ps: seq<Period>, d: Deployment) {
    || |ps| <= 1
    || var newest, oldest := ps[0], ps[|ps| - 1];
       match base
       case Active => true
       case Failed => true
       case LockedIn => Reached(oldest, d) || !Reached(newest, d)
       case Defined => TimedOut(d, oldest.time) || (!TimedOut(d, newest.time) && Quiet(ps))
       case Started =>
         || TimedOut(d, oldest.time)
         || (!TimedOut(d, newest.time) && (Quiet(ps) || (newest.signalled && oldest.signalled && !Reached(newest, d))))
  }

  /** The exact condition for all the loop remembers to be right, if it does not halt. */
  lemma RemembersExactlyWhen(base: ThresholdState, ps: seq<Period>, d: Deployment)
    requires FromWalk(base, ps, d) && Ordered(ps, d) && NewestFirst(base, ps, d).Some?
    ensures RemembersRight(base, ps, d) <==> Uniform(base, ps, d)
  {
    if |ps| > 1 {
      if Uniform(base, ps, d) {
        forall i | 0 <= i < |ps|
          ensures RightAt(base, ps, i, d)
        {
          UniformIsRight(base, ps, i, d);
        }
      } else if RemembersRight(base, ps, d) {
        assert RightAt(base, ps, 0, d) && RightAt(base, ps, |ps| - 1, d);
        EndsRightIsUniform(base, ps, d);
      }
    } else if |ps| == 1 {
      assert ps[..1] == ps && ps[0..] == ps;
      OneIsOneStep(base, ps, d);
    }
  }

  lemma UniformIsRight(base: ThresholdState, ps: seq<Period>, i: nat, d: Deployment)
    requires FromWalk(base, ps, d) && Ordered(ps, d) && NewestFirst(base, ps, d).Some?
    requires |ps| > 1 && i < |ps| && Uniform(base, ps, d)
    ensures RightAt(base, ps, i, d)
  {
    var newer, older := ps[..i + 1], ps[i..];
    PartsAreOrdered(ps, i, d);
    match base
    case Active => FinalStays(base, newer, d); FinalStays(base, older, d);
    case Failed => FinalStays(base, newer, d); FinalStays(base, older, d);
    case LockedIn => FromLockedIn(newer, d); FromLockedIn(older, d);
    case _ =>
      if TimedOut(d, ps[|ps| - 1].time) {
        AllTimedOut(base, newer, d);
        AllTimedOut(base, older, d);
      } else if Quiet(ps) {
        QuietIsRight(base, ps, i, d);
      } else {
        LockedInThroughout(ps, i, d);
      }
  }

  lemma PartsAreOrdered(ps: seq<Period>, i: nat, d: Deployment)
    requires Ordered(ps, d) && i < |ps|
    ensures Ordered(ps[..i + 1], d) && Ordered(ps[i..], d)
    ensures ps[..i + 1][0] == ps[0] && ps[i..][|ps| - 1 - i] == ps[|ps| - 1]
    ensures TimedOut(d, ps[|ps| - 1].time) ==> TimedOut(d, ps[..i + 1][i].time)
  {
  }

  lemma PartsAreQuiet(ps: seq<Period>, i: nat)
    requires i < |ps| && Quiet(ps) && NoneFirst(ps)
    ensures Quiet(ps[..i + 1]) && Quiet(ps[i..]) && NoneFirst(ps[..i + 1]) && NoneFirst(ps[i..])
    ensures ps[i..][0] == ps[i]
  {
  }

  lemma QuietIsRight(base: ThresholdState, ps: seq<Period>, i: nat, d: Deployment)
    requires FromWalk(base, ps, d) && Ordered(ps, d) && NewestFirst(base, ps, d).Some? && |ps| > 1 && i < |ps|
    requires base in {Defined, Started} && !TimedOut(d, ps[0].time) && Quiet(ps)
    ensures RightAt(base, ps, i, d)
  {
    FoldHaltsWhen(base, ps, d);
    PartsAreOrdered(ps, i, d);
    PartsAreQuiet(ps, i);
    QuietStaysStarted(base, ps[..i + 1], d);
    QuietStaysStarted(base, ps[i..], d);
  }

  lemma LockedInThroughout(ps: seq<Period>, i: nat, d: Deployment)
    requires FromWalk(Started, ps, d) && Ordered(ps, d) && |ps| > 1 && i < |ps| && !TimedOut(d, ps[0].time)
    requires ps[0].signalled && ps[|ps| - 1].signalled && !Reached(ps[0], d)
    ensures RightAt(Started, ps, i, d)
  {
    PartsAreOrdered(ps, i, d);
    NewestFromStarted(ps[..i + 1], d);
    OldestLocksIn(ps[i..], |ps| - 1 - i, d);
  }

  lemma AllTimedOut(base: ThresholdState, ps: seq<Period>, d: Deployment)
    requires Ordered(ps, d) && ps != [] && base in {Defined, Started} && TimedOut(d, ps[|ps| - 1].time)
    ensures NewestFirst(base, ps, d) == Some(Failed) && OldestFirst(base, ps, d) == Failed
  {
    OldestIsFirst(base, ps, d);
    FinalStays(Failed, ps[1..], d);
    FinalStays(Failed, ps[..|ps| - 1], d);
  }

  lemma {:induction false} QuietStaysStarted(base: ThresholdState, ps: seq<Period>, d: Deployment)
    requires Ordered(ps, d) && ps != [] && base in {Defined, Started} && !TimedOut(d, ps[0].time) && Quiet(ps)
    requires NoneFirst(ps)
    ensures NewestFirst(base, ps, d) == Some(Started) && OldestFirst(base, ps, d) == Started
    decreases |ps|
  {
    if |ps| > 1 {
      PartsAreQuiet(ps, 1);
      PartsAreOrdered(ps, 1, d);
      QuietStaysStarted(base, ps[1..], d);
      QuietStaysStarted(Started, ps[1..], d);
    } else {
      assert ps == [ps[0]];
      OnePeriod(base, ps[0], d);
    }
  }

  lemma EndsRightIsUniform(base: ThresholdState, ps: seq<Period>, d: Deployment)
    requires FromWalk(base, ps, d) && Ordered(ps, d) && NewestFirst(base, ps, d).Some?
    requires |ps| > 1 && RightAt(base, ps, 0, d) && RightAt(base, ps, |ps| - 1, d)
    ensures Uniform(base, ps, d)
  {
    EndsOfRight(base, ps, d);
    match base
    case Active =>
    case Failed =>
    case LockedIn => FromLockedIn(ps, d);
    case Defined => DefinedEndsRight(ps, d);
    case Started => StartedEndsRight(ps, d);
  }

  lemma EndsOfRight(base: ThresholdState, ps: seq<Period>, d: Deployment)
    requires |ps| > 1 && RightAt(base, ps, 0, d) && RightAt(base, ps, |ps| - 1, d)
    ensures Step(base, ps[0], d) == Some(OldestFirst(base, ps, d))
    ensures NewestFirst(base, ps, d) == Some(Transition(base, ps[|ps| - 1], d))
  {
    var n := |ps| - 1;
    OnePeriod(base, ps[0], d);
    OnePeriod(base, ps[n], d);
    assert ps[..0 + 1] == [ps[0]] && ps[n..] == [ps[n]];
    assert ps[0..] == ps && ps[..n + 1] == ps;
  }

  lemma OnePeriod(base: ThresholdState, p: Period, d: Deployment)
    ensures NewestFirst(base, [p], d) == Step(base, p, d) && OldestFirst(base, [p], d) == Transition(base, p, d)
  {
    assert [p][1..] == [];
  }

  lemma DefinedEndsRight(ps: seq<Period>, d: Deployment)
    requires FromWalk(Defined, ps, d) && Ordered(ps, d) && |ps| > 1
    requires Step(Defined, ps[0], d) == Some(OldestFirst(Defined, ps, d))
    requires NewestFirst(Defined, ps, d) == Some(Transition(Defined, ps[|ps| - 1], d))
    ensures Uniform(Defined, ps, d)
  {
    FromDefined(ps, d);
    if !TimedOut(d, ps[0].time) {
      NewestFromStarted(Seen(Defined, ps), d);
      OldestFromStarted(Counted(Defined, ps), d);
      QuietAtBothEnds(ps, d);
    }
  }

  lemma StartedEndsRight(ps: seq<Period>, d: Deployment)
    requires FromWalk(Started, ps, d) && Ordered(ps, d) && |ps| > 1
    requires Step(Started, ps[0], d) == Some(OldestFirst(Started, ps, d))
    requires NewestFirst(Started, ps, d) == Some(Transition(Started, ps[|ps| - 1], d))
    ensures Uniform(Started, ps, d)
  {
    if TimedOut(d, ps[0].time) {
      FromStarted(ps, d);
    } else {
      NewestFromStarted(ps, d);
      match OldestSignal(ps)
      case None =>
      case Some(j) => OldestLocksIn(ps, j, d);
    }
  }

  lemma QuietAtBothEnds(ps: seq<Period>, d: Deployment)
    requires |ps| > 1 && !TimedOut(d, ps[0].time) && Ordered(ps, d)
    requires NewestSignal(Seen(Defined, ps)).None? && forall p :: p in Counted(Defined, ps) ==> !Timely(p, d)
    ensures Quiet(ps)
  {
    forall i | 0 <= i < |ps|
      ensures !ps[i].signalled
    {
      if i > 0 {
        assert ps[i] == Seen(Defined, ps)[i - 1];
      } else {
        assert Counted(Defined, ps)[0] == ps[0];
        assert ps[0] in Counted(Defined, ps) && !Timely(ps[0], d);
      }
    }
  }

  // ---- On chains -----------------------------------------------------------------------------

  /** What a walk collects is in order. */
  lemma {:induction false} WalkIsOrdered(t: Entries, genesis: BlockHash, h: BlockHash, cache: StateCache, d: Deployment,
                                         params: Params)
    requires TreeOk(t, genesis) && TimesOk(t) && h in t && params.window > 0
    ensures Ordered(PeriodsOf(t, Uncached(t, h, cache, d, params), d, params), d)
    decreases t[h].height
  {
    WalkStep(t, genesis, h, cache, d, params);
    if !Stops(t, h, cache, d) && t[h].height >= params.window {
      var e := AncestorAt(t, h, t[h].height - params.window);
      WalkIsOrdered(t, genesis, e, cache, d, params);
      MedianNeverDecreases(t, genesis, h, t[h].height - params.window);
      WalkIsWalked(t, genesis, e, cache, d, params);
      OrderedOneMore(t, h, e, Uncached(t, e, cache, d, params), d, params);
    }
  }

  lemma OrderedOneMore(t: Entries, h: BlockHash, e: BlockHash, rest: seq<BlockHash>, d: Deployment, params: Params)
    requires h in t && e in t && t[e].height < t[h].height && MedianTimePast(t, e) <= MedianTimePast(t, h)
    requires HasStarted(d, MedianTimePast(t, h)) && Ordered(PeriodsOf(t, rest, d, params), d)
    requires rest != [] ==> rest[0] == e
    ensures Ordered(PeriodsOf(t, [h] + rest, d, params), d)
  {
    var ends := [h] + rest;
    var older := PeriodsOf(t, rest, d, params);
    var ps := PeriodsOf(t, ends, d, params);
    assert forall i :: 0 < i < |ends| ==> ends[i] == rest[i - 1];
    assert ps[1..] == older;
    assert forall i :: 0 < i < |ps| ==> ps[i] == older[i - 1];
  }

  /** On any chain, for any right cache and any number of periods to compute, the loop gives the
      state of BIP 9 exactly when the order of what it collected does not matter. */
  lemma RightExactlyWhen(t: Entries, genesis: BlockHash, h: BlockHash, cache: StateCache, d: Deployment, params: Params)
    requires TreeOk(t, genesis) && TimesOk(t) && h in t && params.window > 0 && Sensible(d) && d.startTime.StartTime?
    requires CacheOk(t, cache, d, params)
    ensures LoopState(t, h, cache, d, params) == Some(StateAt(t, h, d, params)) <==>
            OrderDoesNotMatter(Base(t, h, cache, d, params), PeriodsOf(t, Uncached(t, h, cache, d, params), d, params),
                               d)
  {
    WalkedPeriods(t, genesis, h, cache, d, params);
    WalkIsOrdered(t, genesis, h, cache, d, params);
    RecursionIsOldestFirst(t, genesis, h, cache, d, params);
    OrdersAgreeExactlyWhen(Base(t, h, cache, d, params), PeriodsOf(t, Uncached(t, h, cache, d, params), d, params), d);
  }

  /** Once the newest of several periods has timed out the loop has the deployment failed, also where
      it was locked in before its timeout. */
  lemma TimedOutIsForgotten(t: Entries, genesis: BlockHash, h: BlockHash, cache: StateCache, d: Deployment,
                            params: Params)
    requires TreeOk(t, genesis) && TimesOk(t) && h in t && params.window > 0
    requires Sensible(d) && CacheOk(t, cache, d, params)
    requires |Uncached(t, h, cache, d, params)| > 1 && Base(t, h, cache, d, params) in {Defined, Started}
    requires TimedOut(d, MedianTimePast(t, h))
    ensures LoopState(t, h, cache, d, params) == Some(Failed)
    ensures var ps := PeriodsOf(t, Uncached(t, h, cache, d, params), d, params);
            StateAt(t, h, d, params) == Failed <==>
              forall p :: p in Counted(Base(t, h, cache, d, params), ps) ==> !Timely(p, d)
  {
    var base, ps := Base(t, h, cache, d, params), PeriodsOf(t, Uncached(t, h, cache, d, params), d, params);
    WalkIsWalked(t, genesis, h, cache, d, params);
    WalkIsOrdered(t, genesis, h, cache, d, params);
    RecursionIsOldestFirst(t, genesis, h, cache, d, params);
    if base == Defined {
      FromDefined(ps, d);
    } else {
      FromStarted(ps, d);
    }
    OldestFromStarted(Counted(base, ps), d);
  }

  /** The order of the periods to compute does not matter for the status. */
  predicate OrderIsNoMatter(t: Entries, h: BlockHash, cache: StateCache, d: Deployment, params: Params)
    requires h in t && params.window > 0
  {
    d.startTime.AlwaysActive? ||
    match LastPeriodEnd(t, h, params.window)
    case None => true
    case Some(e) => OrderDoesNotMatter(Base(t, e, cache, d, params),
                                       PeriodsOf(t, Uncached(t, e, cache, d, params), d, params), d)
  }

  lemma StatusRightExactlyWhen(t: Entries, genesis: BlockHash, h: BlockHash, cache: StateCache, d: Deployment,
                               params: Params)
    requires TreeOk(t, genesis) && TimesOk(t) && h in t && params.window > 0 && Sensible(d)
             && CacheOk(t, cache, d, params)
    ensures LoopStatus(t, h, cache, d, params) == Some(StatusAfter(t, h, d, params)) <==>
              OrderIsNoMatter(t, h, cache, d, params)
  {
    if d.startTime.StartTime? {
      match LastPeriodEnd(t, h, params.window)
      case None =>
      case Some(e) =>
        AncestorExists(t, genesis, h, t[h].height - (t[h].height + 1) % params.window);
        RightExactlyWhen(t, genesis, e, cache, d, params);
    }
  }
}
