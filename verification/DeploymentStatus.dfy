/** Computing a deployment's status on a chain with a cache, and that cache. */
module DeploymentStatus {
  import opened Primitives
  import opened Headers
  import opened MedianTime
  import opened Deployments
  import opened DeploymentLoop
  import opened DeploymentOrder
  import opened DeploymentCache

  class VersionBitsCache {
    var bits: map<nat, StateCache>
    var updates: seq<(nat, BlockHash)>

    constructor (deploymentBits: set<nat>)
      ensures bits.Keys == deploymentBits && updates == []
      ensures forall b :: b in bits ==> bits[b] == map[]
    {
      bits := map b | b in deploymentBits :: map[];
      updates := [];
    }

    method Set(bit: nat, hash: BlockHash, state: ThresholdState)
      requires bit in bits
      modifies this
      ensures bits == old(bits)[bit := Remember(old(bits)[bit], hash, state)]
      ensures updates == if hash in old(bits)[bit] && old(bits)[bit][hash] == state then old(updates)
              else old(updates) + [(bit, hash)]
    {
      var cache := bits[bit];
      if hash !in cache || cache[hash] != state {
        bits := bits[bit := Remember(cache, hash, state)];
        updates := updates + [(bit, hash)];
      } else {
        assert Remember(cache, hash, state) == cache;
        assert bits[bit := Remember(cache, hash, state)] == bits;
      }
    }

    method Commit()
      modifies this`updates
      ensures updates == []
    {
      updates := [];
    }

    /** Forgets what was cached since the last commit; what stays was cached before. */
    method Drop()
      requires forall i :: 0 <= i < |updates| ==> updates[i].0 in bits
      modifies this
      ensures updates == [] && bits.Keys == old(bits.Keys)
      ensures forall b, h :: b in bits && h in bits[b] ==>
                h in old(bits)[b] && bits[b][h] == old(bits)[b][h] && (b, h) !in old(updates)
      ensures forall b, h :: b in bits && h in old(bits)[b] && (b, h) !in old(updates) ==> h in bits[b]
    {
      var i := 0;
      while i < |updates|
        invariant i <= |updates| && updates == old(updates) && bits.Keys == old(bits.Keys)
        invariant forall b, h :: b in bits && h in bits[b] ==>
                    h in old(bits)[b] && bits[b][h] == old(bits)[b][h] && (b, h) !in updates[..i]
        invariant forall b, h :: b in bits && h in old(bits)[b] && (b, h) !in updates[..i] ==> h in bits[b]
      {
        var (bit, hash) := updates[i];
        assert updates[..i + 1] == updates[..i] + [(bit, hash)];
        bits := bits[bit := bits[bit] - {hash}];
        i := i + 1;
      }
      assert updates[..i] == updates;
      updates := [];
    }
  }

  /** Whether `threshold` of the `window` entries down from `entry` signal.  It halts, and gives
      `None`, exactly when it steps past the genesis block before it can tell.  `SignallingHeights`
      says of the versions themselves which blocks signal. */
  method CountSignals(index: Index, entry: ChainEntry, bit: nat, params: Params, ghost genesis: BlockHash)
    returns (reached: Option<bool>)
    requires TreeOk(index.entries, genesis) && entry.hash in index.entries && index.entries[entry.hash] == entry
    requires params.window > 0
    ensures reached.None? <==>
              entry.height < params.window && Signals(index.entries, entry.hash, params.window, bit) < params.threshold
    ensures reached.Some? ==>
              (reached.value <==> Signals(index.entries, entry.hash, params.window, bit) >= params.threshold)
    ensures bit < 29 ==>
              Signals(index.entries, entry.hash, params.window, bit) ==
              |SignallingHeights(index.entries, entry.hash, params.window, bit)|
  {
    if bit < 29 {
      SignalsAreCounted(index.entries, genesis, entry.hash, params.window, bit);
    }
    var block := entry;
    var count := 0;
    for i := 0 to params.window
      invariant block.hash in index.entries && index.entries[block.hash] == block && block.height + i == entry.height
      invariant i > 0 ==> count < params.threshold
      invariant count + Signals(index.entries, block.hash, params.window - i, bit) ==
                  Signals(index.entries, entry.hash, params.window, bit)
    {
      assert Placed(index.entries, genesis, block.hash);
      if HasBit(block.version, bit) {
        count := count + 1;
      }
      if count >= params.threshold {
        return Some(true);
      }
      if block.prevBlock !in index.entries {
        return None;
      }
      assert Placed(index.entries, genesis, block.prevBlock);
      block := index.entries[block.prevBlock];
    }
    return Some(false);
  }

  /** The state of the block after `prev`, or `None` when the loop halts.  On top of a right cache it
      is the one BIP 9 gives exactly when the order of the periods does not matter, and the cache
      stays right exactly when they all come to one state. */
  method GetDeploymentStatus(index: Index, cache: VersionBitsCache, prev: ChainEntry, d: Deployment, params: Params,
                             ghost genesis: BlockHash, ghost tip: BlockHash)
    returns (state: Option<ThresholdState>)
    requires IndexOk(index, genesis, tip) && TimesOk(index.entries)
    requires prev.hash in index.entries && index.entries[prev.hash] == prev
    requires params.window > 0 && d.bit in cache.bits
    modifies cache
    ensures state == LoopStatus(index.entries, prev.hash, old(cache.bits[d.bit]), d, params)
    ensures cache.bits.Keys == old(cache.bits.Keys) && forall b :: b in cache.bits && b != d.bit ==>
              cache.bits[b] == old(cache.bits)[b]
    ensures Sensible(d) && CacheOk(index.entries, old(cache.bits[d.bit]), d, params) ==>
              RightWhenItCanBe(index.entries, prev.hash, old(cache.bits[d.bit]), state, cache.bits[d.bit], d, params)
  {
    if d.startTime.AlwaysActive? {
      return Some(Active);
    }
    var end := AlignToPeriod(index, prev, params.window, genesis, tip);
    match end
    case None =>
      return Some(Defined);
    case Some(entry) =>
      ghost var was := cache.bits[d.bit];
      var compute, base, stop := CollectPeriods(index, cache, entry, d, params, genesis, tip);
      state := ComputePeriods(index, cache, compute, base, d, params, genesis);
      ComputedRight(index.entries, genesis, prev.hash, entry.hash, was, stop, d, params);
  }

  method AlignToPeriod(index: Index, prev: ChainEntry, window: nat, ghost genesis: BlockHash, ghost tip: BlockHash)
    returns (end: Option<ChainEntry>)
    requires IndexOk(index, genesis, tip) && window > 0
    requires prev.hash in index.entries && index.entries[prev.hash] == prev
    ensures match LastPeriodEnd(index.entries, prev.hash, window)
            case None => end.None?
            case Some(e) => e in index.entries && end == Some(index.entries[e]) && index.entries[e].hash == e
  {
    var over := (prev.height + 1) % window;
    if over != 0 {
      if prev.height < over {
        return None;
      }
      var entry;
      ghost var hops;
      entry, hops := GetAncestor(index, prev, prev.height - over, index.entries, genesis, tip);
      return Some(entry);
    }
    return Some(prev);
  }

  function HashesOf(entries: seq<ChainEntry>): (hashes: seq<BlockHash>)
    ensures |hashes| == |entries| && forall i :: 0 <= i < |entries| ==> hashes[i] == entries[i].hash
  {
    seq(|entries|, i requires 0 <= i < |entries| => entries[i].hash)
  }

  lemma OneMoreHash(entries: seq<ChainEntry>, entry: ChainEntry)
    ensures HashesOf(entries + [entry]) == HashesOf(entries) + [entry.hash]
  {
  }

  ghost predicate AtEntry(h: BlockHash) {
    true
  }

  /** What there is to do from `h` on, behind the period ends `ends`, comes to `all` and `base`.
      The quantifier keeps it folded in the loop; `OnWalkMeans` opens it. */
  ghost predicate OnWalk(t: Entries, h: BlockHash, ends: seq<BlockHash>, cache: StateCache, d: Deployment,
                         params: Params,
                         all: seq<BlockHash>, base: ThresholdState) {
    forall g {:trigger AtEntry(g)} :: AtEntry(g) && g == h ==>
      ends + Uncached(t, g, cache, d, params) == all && Base(t, g, cache, d, params) == base
  }

  lemma OnWalkMeans(t: Entries, h: BlockHash, ends: seq<BlockHash>, cache: StateCache, d: Deployment, params: Params,
                    all: seq<BlockHash>, base: ThresholdState)
    ensures OnWalk(t, h, ends, cache, d, params, all, base) <==>
            ends + Uncached(t, h, cache, d, params) == all && Base(t, h, cache, d, params) == base
  {
    assert AtEntry(h);
  }

  lemma WalkStops(t: Entries, genesis: BlockHash, h: BlockHash, ends: seq<BlockHash>, cache: StateCache, d: Deployment,
                  params: Params,
                  all: seq<BlockHash>, base: ThresholdState)
    requires TreeOk(t, genesis) && h in t && params.window > 0 && OnWalk(t, h, ends, cache, d, params, all, base)
    ensures Stops(t, h, cache, d) ==> all == ends && base == (if h in cache then cache[h] else Defined)
    ensures !Stops(t, h, cache, d) && t[h].height < params.window ==> all == ends + [h] && base == Defined
  {
    OnWalkMeans(t, h, ends, cache, d, params, all, base);
    WalkStep(t, genesis, h, cache, d, params);
    assert ends + [] == ends;
  }

  lemma WalkGoesOn(t: Entries, genesis: BlockHash, h: BlockHash, e: BlockHash, ends: seq<BlockHash>, cache: StateCache,
                   d: Deployment, params: Params,
                   all: seq<BlockHash>, base: ThresholdState)
    requires TreeOk(t, genesis) && h in t && params.window > 0 && OnWalk(t, h, ends, cache, d, params, all, base)
    requires !Stops(t, h, cache, d) && t[h].height >= params.window
             && e == AncestorAt(t, h, t[h].height - params.window)
    ensures OnWalk(t, e, ends + [h], cache, d, params, all, base)
  {
    OnWalkMeans(t, h, ends, cache, d, params, all, base);
    OnWalkMeans(t, e, ends + [h], cache, d, params, all, base);
    WalkStepTo(t, genesis, h, e, cache, d, params);
    Regroup(ends, h, Uncached(t, e, cache, d, params));
  }

  lemma Regroup(a: seq<BlockHash>, h: BlockHash, b: seq<BlockHash>)
    ensures a + ([h] + b) == a + [h] + b
  {
  }

  /** Walks back to a cached or not yet started period: `compute` is what remains to be
      computed on top of `state`. */
  method CollectPeriods(index: Index, cache: VersionBitsCache, last: ChainEntry, d: Deployment, params: Params,
                        ghost genesis: BlockHash, ghost tip: BlockHash)
    returns (compute: seq<ChainEntry>, state: ThresholdState, ghost stop: Option<BlockHash>)
    requires IndexOk(index, genesis, tip) && TimesOk(index.entries)
    requires last.hash in index.entries && index.entries[last.hash] == last
    requires params.window > 0 && d.startTime.StartTime? && d.bit in cache.bits
    modifies cache
    ensures HashesOf(compute) == Uncached(index.entries, last.hash, old(cache.bits[d.bit]), d, params)
    ensures Stored(index.entries, compute)
    ensures state == Base(index.entries, last.hash, old(cache.bits[d.bit]), d, params)
    ensures NotStarted(index.entries, stop, d)
            && cache.bits == old(cache.bits)[d.bit := Noted(old(cache.bits[d.bit]), stop)]
  {
    ghost var t := index.entries;
    ghost var was := cache.bits[d.bit];
    ghost var all, base := Uncached(t, last.hash, was, d, params), Base(t, last.hash, was, d, params);
    var entry := last;
    state := Defined;
    compute := [];
    stop := None;
    OnWalkMeans(t, last.hash, [], was, d, params, all, base);
    while true
      invariant cache.bits == old(cache.bits) && state == Defined && stop == None
      invariant entry.hash in t && t[entry.hash] == entry && Stored(t, compute)
      invariant OnWalk(t, entry.hash, HashesOf(compute), was, d, params, all, base)
      decreases entry.height
    {
      ghost var ends := HashesOf(compute);
      WalkStops(t, genesis, entry.hash, ends, was, d, params, all, base);
      if entry.hash in cache.bits[d.bit] {
        state := cache.bits[d.bit][entry.hash];
        break;
      }
      var time := GetMedianTime(index.entries, entry);
      if time < d.startTime.start {
        stop := Some(entry.hash);
        cache.Set(d.bit, entry.hash, Defined);
        break;
      }
      OneMoreHash(compute, entry);
      compute := compute + [entry];
      if entry.height < params.window {
        break;
      }
      var below, hops := GetAncestor(index, entry, entry.height - params.window, t, genesis, tip);
      WalkGoesOn(t, genesis, entry.hash, below.hash, ends, was, d, params, all, base);
      entry := below;
    }
  }

  ghost predicate Stored(t: Entries, entries: seq<ChainEntry>) {
    forall i :: 0 <= i < |entries| ==> entries[i].hash in t && t[entries[i].hash] == entries[i]
  }

  /** One step of the state machine, looking at the chain only where the state asks for it. */
  method StepPeriod(index: Index, entry: ChainEntry, before: ThresholdState, d: Deployment, params: Params,
                    ghost genesis: BlockHash)
    returns (state: Option<ThresholdState>)
    requires TreeOk(index.entries, genesis) && entry.hash in index.entries && index.entries[entry.hash] == entry
    requires params.window > 0 && d.startTime.StartTime?
    ensures state == Step(before, PeriodOf(index.entries, entry.hash, d, params), d)
  {
    match before {
      case Defined =>
        var time := GetMedianTime(index.entries, entry);
        if d.timeout.Timeout? && time >= d.timeout.timeout {
          return Some(Failed);
        }
        state := Some(if time >= d.startTime.start then Started else Defined);
      case Started =>
        var time := GetMedianTime(index.entries, entry);
        if d.timeout.Timeout? && time >= d.timeout.timeout {
          return Some(Failed);
        }
        var reached := CountSignals(index, entry, d.bit, params, genesis);
        state := match reached case None => None case Some(enough) => Some(if enough then LockedIn else Started);
      case LockedIn =>
        state := Some(if entry.height >= d.minActivationHeight then Active else LockedIn);
      case Failed =>
        state := Some(Failed);
      case Active =>
        state := Some(Active);
    }
  }

  /** Takes one step per collected period, newest first, and caches each result. */
  method ComputePeriods(index: Index, cache: VersionBitsCache, compute: seq<ChainEntry>, base: ThresholdState,
                        d: Deployment, params: Params, ghost genesis: BlockHash)
    returns (state: Option<ThresholdState>)
    requires TreeOk(index.entries, genesis) && params.window > 0 && d.startTime.StartTime?
    requires Stored(index.entries, compute) && d.bit in cache.bits
    modifies cache
    ensures var periods := PeriodsOf(index.entries, HashesOf(compute), d, params);
            && state == NewestFirst(base, periods, d)
            && cache.bits == old(cache.bits)[d.bit := AfterFold(old(cache.bits[d.bit]), HashesOf(compute), base,
                 periods, d)]
  {
    ghost var t := index.entries;
    ghost var ends := HashesOf(compute);
    ghost var periods := PeriodsOf(t, ends, d, params);
    var now := base;
    for i := 0 to |compute|
      invariant NewestFirst(now, periods[i..], d) == NewestFirst(base, periods, d)
      invariant d.bit in cache.bits && cache.bits == old(cache.bits)[d.bit := cache.bits[d.bit]]
      invariant AfterFold(cache.bits[d.bit], ends[i..], now, periods[i..], d) ==
                  AfterFold(old(cache.bits[d.bit]), ends, base, periods, d)
    {
      var entry := compute[i];
      assert periods[i..][1..] == periods[i + 1..] && ends[i..][1..] == ends[i + 1..];
      var next := StepPeriod(index, entry, now, d, params, genesis);
      if next.None? {
        return None;
      }
      now := next.value;
      cache.Set(d.bit, entry.hash, now);
    }
    assert periods[|compute|..] == [] && ends[|compute|..] == [];
    state := Some(now);
  }

}
