/** The median of the last eleven block times, and why it never moves backwards. */
module MedianTime {
  import opened Primitives
  import opened Headers
  import opened Consensus

  /** The times of `h` and its parents, newest first, at most `n` of them. */
  function TimesBack(t: Entries, h: BlockHash, n: nat): (times: seq<nat>)
    ensures |times| <= n
    ensures n > 0 && h in t ==> |times| > 0
    decreases n
  {
    if n == 0 || h !in t then [] else [t[h].time] + TimesBack(t, t[h].prevBlock, n - 1)
  }

  function Insert(x: nat, s: seq<nat>): (r: seq<nat>)
    ensures |r| == |s| + 1
  {
    if s == [] || x <= s[0] then [x] + s else [s[0]] + Insert(x, s[1..])
  }

  function Sort(s: seq<nat>): (r: seq<nat>)
    ensures |r| == |s|
  {
    if s == [] then [] else Insert(s[0], Sort(s[1..]))
  }

  function Median(window: seq<nat>): nat
    requires window != []
  {
    Sort(window)[|window| / 2]
  }

  function MedianTimePast(t: Entries, h: BlockHash): nat
    requires h in t
  {
    Median(TimesBack(t, h, 11))
  }

  method GetMedianTime(entries: Entries, prev: ChainEntry) returns (m: nat)
    requires prev.hash in entries && entries[prev.hash] == prev
    ensures m == MedianTimePast(entries, prev.hash)
  {
    var median: seq<nat> := [];
    var entry := Some(prev);
    ghost var next := prev.hash;
    for i := 0 to MEDIAN_TIMESPAN
      invariant median + TimesBack(entries, next, MEDIAN_TIMESPAN - i) == TimesBack(entries, prev.hash, MEDIAN_TIMESPAN)
      invariant entry == if next in entries then Some(entries[next]) else None
    {
      match entry
      case Some(chainEntry) =>
        median := median + [chainEntry.time];
        next := chainEntry.prevBlock;
        entry := if chainEntry.prevBlock in entries then Some(entries[chainEntry.prevBlock]) else None;
      case None =>
        break;
    }
    assert median == TimesBack(entries, prev.hash, MEDIAN_TIMESPAN);
    m := Median(median);
  }

  // ---- What a median is -----------------------------------------------------------------

  function CountBelow(s: seq<nat>, m: nat): (c: nat)
    ensures c <= |s|
  {
    if s == [] then 0 else (if s[0] < m then 1 else 0) + CountBelow(s[1..], m)
  }

  ghost predicate Ascending(s: seq<nat>) {
    forall i, j :: 0 <= i < j < |s| ==> s[i] <= s[j]
  }

  lemma {:induction false} InsertKeeps(x: nat, s: seq<nat>, m: nat)
    ensures CountBelow(Insert(x, s), m) == CountBelow([x] + s, m)
    ensures Ascending(s) ==> Ascending(Insert(x, s))
    ensures forall v :: v in Insert(x, s) ==> v == x || v in s
  {
    assert ([x] + s)[1..] == s;
    if s != [] && x > s[0] {
      InsertKeeps(x, s[1..], m);
      assert ([x] + s[1..])[1..] == s[1..];
      var r := Insert(x, s[1..]);
      assert ([s[0]] + r)[1..] == r;
    }
  }

  lemma {:induction false} SortKeeps(s: seq<nat>, m: nat)
    ensures Ascending(Sort(s)) && CountBelow(Sort(s), m) == CountBelow(s, m)
  {
    if s != [] {
      SortKeeps(s[1..], m);
      InsertKeeps(s[0], Sort(s[1..]), m);
      assert ([s[0]] + Sort(s[1..]))[1..] == Sort(s[1..]);
    }
  }

  lemma {:induction false} AscendingAt(s: seq<nat>, i: nat, m: nat)
    requires Ascending(s) && i < |s|
    ensures s[i] >= m <==> CountBelow(s, m) <= i
  {
    if s[0] >= m {
      NoneBelow(s, m);
    } else if i > 0 {
      AscendingAt(s[1..], i - 1, m);
    }
  }

  lemma {:induction false} NoneBelow(s: seq<nat>, m: nat)
    requires forall i :: 0 <= i < |s| ==> s[i] >= m
    ensures CountBelow(s, m) == 0
  {
    if s != [] {
      NoneBelow(s[1..], m);
    }
  }

  /** The median is at least `m` exactly when at most half of the window lies below `m`. */
  lemma MedianSplits(window: seq<nat>, m: nat)
    requires window != []
    ensures Median(window) >= m <==> CountBelow(window, m) <= |window| / 2
  {
    SortKeeps(window, m);
    AscendingAt(Sort(window), |window| / 2, m);
  }

  // ---- It never decreases ---------------------------------------------------------------

  lemma {:induction false} AllBelow(s: seq<nat>, m: nat)
    requires forall i :: 0 <= i < |s| ==> s[i] < m
    ensures CountBelow(s, m) == |s|
  {
    if s != [] {
      AllBelow(s[1..], m);
    }
  }

  lemma {:induction false} TimesBelow(t: Entries, h: BlockHash, n: nat, m: nat)
    requires forall g :: g in t ==> t[g].time < m
    ensures forall i :: 0 <= i < |TimesBack(t, h, n)| ==> TimesBack(t, h, n)[i] < m
    decreases n
  {
    if n > 0 && h in t {
      TimesBelow(t, t[h].prevBlock, n - 1, m);
    }
  }

  /** The median is below what all times are below. */
  lemma MedianBelow(t: Entries, h: BlockHash, m: nat)
    requires h in t && forall g :: g in t ==> t[g].time < m
    ensures MedianTimePast(t, h) < m
  {
    TimesBelow(t, h, MEDIAN_TIMESPAN, m);
    AllBelow(TimesBack(t, h, MEDIAN_TIMESPAN), m);
    MedianSplits(TimesBack(t, h, MEDIAN_TIMESPAN), m);
  }

  lemma {:induction false} CountBelowPrefix(s: seq<nat>, n: nat, m: nat)
    requires n <= |s|
    ensures CountBelow(s[..n], m) <= CountBelow(s, m)
  {
    if n > 0 {
      CountBelowPrefix(s[1..], n - 1, m);
      assert s[..n][1..] == s[1..][..n - 1];
    }
  }

  lemma {:induction false} TimesBackPrefix(t: Entries, h: BlockHash, n: nat)
    ensures var longer, shorter := TimesBack(t, h, n + 1), TimesBack(t, h, n);
            |shorter| <= |longer| && shorter == longer[..|shorter|]
            && |shorter| == (if |longer| <= n then |longer| else n)
    decreases n
  {
    if n > 0 && h in t {
      TimesBackPrefix(t, t[h].prevBlock, n - 1);
    }
  }

  /** Sliding a window by one time above its median does not lower the median, whether the
      window is full and loses its oldest time or still grows. */
  lemma SlidingKeeps(t: Entries, h: BlockHash)
    requires h in t && t[h].prevBlock in t
    requires t[h].time > MedianTimePast(t, t[h].prevBlock)
    ensures MedianTimePast(t, h) >= MedianTimePast(t, t[h].prevBlock)
  {
    var p := t[h].prevBlock;
    var window, kept := TimesBack(t, p, MEDIAN_TIMESPAN), TimesBack(t, p, MEDIAN_TIMESPAN - 1);
    var m := Median(window);
    TimesBackPrefix(t, p, MEDIAN_TIMESPAN - 1);
    MedianSplits(window, m);
    CountBelowPrefix(window, |kept|, m);
    assert |kept| == if |window| == MEDIAN_TIMESPAN then MEDIAN_TIMESPAN - 1 else |window|;
    var slid := TimesBack(t, h, MEDIAN_TIMESPAN);
    assert slid == [t[h].time] + kept && slid[1..] == kept;
    MedianSplits(slid, m);
  }

  predicate TimeOk(t: Entries, h: BlockHash)
    requires h in t
  {
    t[h].prevBlock in t ==> t[h].time > MedianTimePast(t, t[h].prevBlock)
  }

  /** Every accepted header is later than the median time before it. */
  ghost predicate TimesOk(t: Entries) {
    forall h {:trigger TimeOk(t, h)} :: h in t ==> TimeOk(t, h)
  }

  lemma {:induction false} MedianNeverDecreases(t: Entries, genesis: BlockHash, h: BlockHash, k: nat)
    requires TreeOk(t, genesis) && TimesOk(t) && h in t && k <= t[h].height
    ensures AncestorAt(t, h, k) in t && MedianTimePast(t, AncestorAt(t, h, k)) <= MedianTimePast(t, h)
    decreases t[h].height
  {
    assert Placed(t, genesis, h) && TimeOk(t, h);
    if k < t[h].height {
      MedianNeverDecreases(t, genesis, t[h].prevBlock, k);
      SlidingKeeps(t, h);
    }
  }

  lemma {:induction false} TimesBackFrame(t: Entries, t': Entries, genesis: BlockHash, h: BlockHash, n: nat)
    requires TreeOk(t, genesis) && Extends(t, t') && h in t && ZERO_HASH !in t'
    ensures TimesBack(t', h, n) == TimesBack(t, h, n)
    decreases n
  {
    assert Placed(t, genesis, h);
    if n > 0 && t[h].prevBlock in t {
      TimesBackFrame(t, t', genesis, t[h].prevBlock, n - 1);
    }
  }
}
