/** Rebuilding a block from short transaction ids, the memory pool and what is then still missing. */
module CompactBlock {
  import opened Primitives

  type ShortId = nat

  /** A transaction sent along, and how many positions lie between it and the one before. */
  datatype PrefilledTx = PrefilledTx(index: nat, tx: Tx)

  type Slots = seq<Option<Tx>>

  // ---- Slots ------------------------------------------------------------------------------------

  /** The empty slots among the first `n`, lowest first. */
  function Free(slots: Slots, n: nat): (free: seq<nat>)
    requires n <= |slots|
    ensures |free| <= n
    ensures forall k :: 0 <= k < |free| ==> free[k] < n && slots[free[k]].None?
  {
    if n == 0 then [] else Free(slots, n - 1) + if slots[n - 1].None? then [n - 1] else []
  }

  function Filled(slots: Slots, n: nat): (count: nat)
    requires n <= |slots|
    ensures count == n - |Free(slots, n)|
  {
    if n == 0 then 0 else Filled(slots, n - 1) + if slots[n - 1].None? then 0 else 1
  }

  /** A slot that is empty is one of the free ones. */
  lemma {:induction false} FreeHas(slots: Slots, n: nat, i: nat)
    requires i < n <= |slots| && slots[i].None?
    ensures i in Free(slots, n)
  {
    if i < n - 1 {
      FreeHas(slots, n - 1, i);
    }
  }

  lemma {:induction false} FreeAscends(slots: Slots, n: nat)
    requires n <= |slots|
    ensures forall a, b :: 0 <= a < b < |Free(slots, n)| ==> Free(slots, n)[a] < Free(slots, n)[b]
  {
    if n > 0 {
      FreeAscends(slots, n - 1);
    }
  }

  /** Changing one slot changes the count by that slot. */
  lemma {:induction false} FillingCounts(slots: Slots, n: nat, i: nat, s: Option<Tx>)
    requires i < |slots| && n <= |slots|
    ensures Filled(slots[i := s], n) == Filled(slots, n)
              + if i < n && slots[i].None? && s.Some? then 1 else if i < n && slots[i].Some? && s.None? then -1 else 0
  {
    if n > 0 {
      FillingCounts(slots, n - 1, i, s);
    }
  }

  lemma {:induction false} FreeGrows(slots: Slots, m: nat, n: nat)
    requires m <= n <= |slots|
    ensures |Free(slots, m)| <= |Free(slots, n)| && Free(slots, m) == Free(slots, n)[..|Free(slots, m)|]
    decreases n
  {
    if m < n {
      FreeGrows(slots, m, n - 1);
      var shorter, longer := Free(slots, n - 1), Free(slots, n);
      assert longer[..|shorter|] == shorter;
      assert longer[..|Free(slots, m)|] == shorter[..|Free(slots, m)|];
    } else {
      assert Free(slots, n)[..|Free(slots, n)|] == Free(slots, n);
    }
  }

  // ---- What is sent ------------------------------------------------------------------------------

  /** Where the first `n` prefilled transactions go: each index counts from behind the one before. */
  function Position(pre: seq<PrefilledTx>, k: nat): nat
    requires k < |pre|
  {
    pre[k].index + if k == 0 then 0 else Position(pre, k - 1) + 1
  }

  /** What the receiver asserts of a position, with `n` short ids. */
  predicate AssertionsHold(pre: seq<PrefilledTx>, n: nat, k: nat)
    requires k < |pre|
  {
    Position(pre, k) < 0xffff && Position(pre, k) <= n + 1
  }

  predicate AssertionsPass(pre: seq<PrefilledTx>, n: nat) {
    forall k {:trigger AssertionsHold(pre, n, k)} :: 0 <= k < |pre| ==> AssertionsHold(pre, n, k)
  }

  predicate HasSlot(pre: seq<PrefilledTx>, n: nat, k: nat)
    requires k < |pre|
  {
    Position(pre, k) < |pre| + n
  }

  /** Every position has a slot. */
  predicate InBounds(pre: seq<PrefilledTx>, n: nat) {
    forall k {:trigger HasSlot(pre, n, k)} :: 0 <= k < |pre| ==> HasSlot(pre, n, k)
  }

  /** The assertions do not keep the index in bounds exactly when a single prefilled transaction is
      placed right behind the last slot. */
  lemma AssertionsProtectUnless(pre: seq<PrefilledTx>, n: nat)
    ensures AssertionsPass(pre, n) && !InBounds(pre, n) <==> |pre| == 1 && pre[0].index == n + 1 < 0xffff
  {
    if |pre| == 1 {
      assert Position(pre, 0) == pre[0].index;
      assert AssertionsHold(pre, n, 0) ==> pre[0].index <= n + 1;
      assert HasSlot(pre, n, 0) <==> pre[0].index < 1 + n;
    }
    if |pre| > 1 && AssertionsPass(pre, n) {
      var last := |pre| - 1;
      assert AssertionsHold(pre, n, last);
      forall k | 0 <= k < |pre|
        ensures HasSlot(pre, n, k)
      {
        if k < last {
          PositionsAscend(pre, k, last);
        }
      }
    }
  }

  /** The slots once the first `k` prefilled transactions are in. */
  function Prefilled(pre: seq<PrefilledTx>, k: nat, total: nat): (slots: Slots)
    requires k <= |pre|
    ensures |slots| == total
  {
    if k == 0 then seq(total, _ => None)
    else if Position(pre, k - 1) < total then Prefilled(pre, k - 1, total)[Position(pre, k - 1) := Some(pre[k - 1].tx)]
    else Prefilled(pre, k - 1, total)
  }

  lemma {:induction false} PositionsAscend(pre: seq<PrefilledTx>, j: nat, k: nat)
    requires j < k < |pre|
    ensures Position(pre, j) < Position(pre, k)
  {
    if j < k - 1 {
      PositionsAscend(pre, j, k - 1);
    }
  }

  lemma {:induction false} PrefilledBelow(pre: seq<PrefilledTx>, k: nat, total: nat, i: nat)
    requires k <= |pre| && i < total && forall j :: 0 <= j < k ==> Position(pre, j) != i
    ensures Prefilled(pre, k, total)[i].None?
  {
    if k > 0 {
      PrefilledBelow(pre, k - 1, total, i);
    }
  }

  lemma {:induction false} PrefilledCounts(pre: seq<PrefilledTx>, k: nat, total: nat)
    requires k <= |pre| && forall j :: 0 <= j < k ==> Position(pre, j) < total
    ensures Filled(Prefilled(pre, k, total), total) == k
  {
    if k == 0 {
      NoneFilled(total, total);
    } else {
      PrefilledCounts(pre, k - 1, total);
      var i := Position(pre, k - 1);
      forall j | 0 <= j < k - 1
        ensures Position(pre, j) != i
      {
        PositionsAscend(pre, j, k - 1);
      }
      PrefilledBelow(pre, k - 1, total, i);
      FillingCounts(Prefilled(pre, k - 1, total), total, i, Some(pre[k - 1].tx));
    }
  }

  lemma {:induction false} NoneFilled(total: nat, n: nat)
    requires n <= total
    ensures Filled(seq(total, _ => None), n) == 0
  {
    if n > 0 {
      NoneFilled(total, n - 1);
    }
  }

  // ---- Matches in the memory pool ------------------------------------------------------------------

  type ShortOf = Txid -> ShortId

  /** How many of the first `n` transactions have the short id `id`. */
  function Hits(pool: seq<Tx>, n: nat, shortOf: ShortOf, id: ShortId): (hits: nat)
    requires n <= |pool|
    ensures hits <= n
  {
    if n == 0 then 0 else Hits(pool, n - 1, shortOf, id) + if shortOf(pool[n - 1].txid) == id then 1 else 0
  }

  /** What the slot for `id` holds: the transaction that matches, as long as it is the only one. */
  function SlotFor(pool: seq<Tx>, n: nat, shortOf: ShortOf, id: ShortId): Option<Tx>
    requires n <= |pool|
  {
    if n == 0 then None
    else if shortOf(pool[n - 1].txid) != id then SlotFor(pool, n - 1, shortOf, id)
    else if Hits(pool, n - 1, shortOf, id) == 0 then Some(pool[n - 1])
    else None
  }

  /** How many of the first `n` transactions match a short id that two before them matched. */
  function Excess(pool: seq<Tx>, n: nat, shortOf: ShortOf, ids: set<ShortId>): nat
    requires n <= |pool|
  {
    if n == 0 then 0
    else
      var id := shortOf(pool[n - 1].txid);
      Excess(pool, n - 1, shortOf, ids) + if id in ids && Hits(pool, n - 1, shortOf, id) >= 2 then 1 else 0
  }

  function IdSet(ids: seq<ShortId>): set<ShortId> {
    set id | id in ids
  }

  /** The count after `n` transactions of the pool: up with the first match of a short id, down with
      every further one. */
  function CountAfter(start: int, ids: set<ShortId>, pool: seq<Tx>, n: nat, shortOf: ShortOf): int
    requires n <= |pool|
  {
    if n == 0 then start
    else
      var id := shortOf(pool[n - 1].txid);
      CountAfter(start, ids, pool, n - 1, shortOf) + if id !in ids then 0
      else if Hits(pool, n - 1, shortOf, id) == 0 then 1 else -1
  }

  /** The count goes below zero before it ever comes to `total`. */
  ghost predicate Underflows(total: nat, start: nat, ids: set<ShortId>, pool: seq<Tx>, shortOf: ShortOf) {
    exists n: nat :: n <= |pool| && CountAfter(start, ids, pool, n, shortOf) < 0
                     && forall k :: 0 <= k < n ==> CountAfter(start, ids, pool, k, shortOf) != total
  }

  /** Up to `n` transactions the count has not come to `total`, nor gone below zero. */
  predicate Undecided(total: nat, start: nat, ids: set<ShortId>, pool: seq<Tx>, n: nat, shortOf: ShortOf, checked: bool)
    requires n <= |pool|
  {
    forall k :: 0 <= k <= n ==>
      CountAfter(start, ids, pool, k, shortOf) != total && (!checked || CountAfter(start, ids, pool, k, shortOf) >= 0)
  }

  lemma FirstDecides(total: nat, start: nat, ids: set<ShortId>, pool: seq<Tx>, shortOf: ShortOf, checked: bool)
    ensures if start == total then !Underflows(total, start, ids, pool, shortOf)
            else Undecided(total, start, ids, pool, 0, shortOf, checked)
  {
    assert CountAfter(start, ids, pool, 0, shortOf) == start;
  }

  /** The next transaction decides: the count comes to `total`, goes below zero, or neither. */
  lemma NextDecides(total: nat, start: nat, ids: set<ShortId>, pool: seq<Tx>, n: nat, shortOf: ShortOf, checked: bool)
    requires n < |pool| && Undecided(total, start, ids, pool, n, shortOf, checked)
    ensures var count := CountAfter(start, ids, pool, n + 1, shortOf);
            if count == total then !(checked && Underflows(total, start, ids, pool, shortOf))
            else if checked && count < 0 then Underflows(total, start, ids, pool, shortOf)
            else Undecided(total, start, ids, pool, n + 1, shortOf, checked)
  {
  }

  lemma NeverDecided(total: nat, start: nat, ids: set<ShortId>, pool: seq<Tx>, shortOf: ShortOf, checked: bool)
    requires Undecided(total, start, ids, pool, |pool|, shortOf, checked)
    ensures !(checked && Underflows(total, start, ids, pool, shortOf))
  {
  }

  /** With nothing prefilled, three matches of one short id are enough. */
  lemma ThreeMatchesUnderflow(total: nat, ids: set<ShortId>, pool: seq<Tx>, shortOf: ShortOf)
    requires total > 1 && |pool| == 3 && shortOf(pool[0].txid) in ids
    requires shortOf(pool[0].txid) == shortOf(pool[1].txid) == shortOf(pool[2].txid)
    ensures Underflows(total, 0, ids, pool, shortOf)
  {
    var id := shortOf(pool[0].txid);
    assert Hits(pool, 1, shortOf, id) == Hits(pool, 0, shortOf, id) + 1 && Hits(pool, 2, shortOf, id) == 2;
    assert CountAfter(0, ids, pool, 0, shortOf) == 0 && CountAfter(0, ids, pool, 1, shortOf) == 1;
    assert CountAfter(0, ids, pool, 2, shortOf) == 0 && CountAfter(0, ids, pool, 3, shortOf) == -1;
  }

  /** Short ids matched at most once only count up. */
  lemma {:induction false} SingleMatchesCountUp(start: int, ids: set<ShortId>, pool: seq<Tx>, n: nat, shortOf: ShortOf)
    requires n <= |pool| && forall id :: id in ids ==> Hits(pool, n, shortOf, id) <= 1
    ensures CountAfter(start, ids, pool, n, shortOf) >= start
  {
    if n > 0 {
      SingleMatchesCountUp(start, ids, pool, n - 1, shortOf);
    }
  }

  lemma {:induction false} HitsGrow(pool: seq<Tx>, m: nat, n: nat, shortOf: ShortOf, id: ShortId)
    requires m <= n <= |pool|
    ensures Hits(pool, m, shortOf, id) <= Hits(pool, n, shortOf, id)
  {
    if m < n {
      HitsGrow(pool, m, n - 1, shortOf, id);
    }
  }

  lemma {:induction false} OneHit(pool: seq<Tx>, n: nat, shortOf: ShortOf, id: ShortId) returns (t: nat)
    requires n <= |pool| && Hits(pool, n, shortOf, id) > 0
    ensures t < n && shortOf(pool[t].txid) == id
  {
    t := n - 1;
    if shortOf(pool[t].txid) != id {
      t := OneHit(pool, n - 1, shortOf, id);
    }
  }

  lemma NeverUnderflows(total: nat, start: nat, ids: set<ShortId>, pool: seq<Tx>, shortOf: ShortOf)
    requires forall id :: id in ids ==> Hits(pool, |pool|, shortOf, id) <= 1
    ensures !Underflows(total, start, ids, pool, shortOf)
  {
    forall n: nat | n <= |pool|
      ensures CountAfter(start, ids, pool, n, shortOf) >= 0
    {
      forall id | id in ids
        ensures Hits(pool, n, shortOf, id) <= 1
      {
        HitsGrow(pool, n, |pool|, shortOf, id);
      }
      SingleMatchesCountUp(start, ids, pool, n, shortOf);
    }
  }

  lemma {:induction false} NoExcess(pool: seq<Tx>, n: nat, shortOf: ShortOf, ids: set<ShortId>)
    requires n <= |pool|
    ensures Excess(pool, n, shortOf, ids) == 0 <==> forall id :: id in ids ==> Hits(pool, n, shortOf, id) <= 2
  {
    if n > 0 {
      NoExcess(pool, n - 1, shortOf, ids);
      var last := shortOf(pool[n - 1].txid);
      assert Hits(pool, n, shortOf, last) == Hits(pool, n - 1, shortOf, last) + 1;
      forall id
        ensures id != last ==> Hits(pool, n, shortOf, id) == Hits(pool, n - 1, shortOf, id)
      {
      }
    }
  }

  lemma {:induction false} SlotHolds(pool: seq<Tx>, n: nat, shortOf: ShortOf, id: ShortId)
    requires n <= |pool|
    ensures SlotFor(pool, n, shortOf, id).Some? <==> Hits(pool, n, shortOf, id) == 1
    ensures SlotFor(pool, n, shortOf, id).Some? ==>
              SlotFor(pool, n, shortOf, id).value in pool[..n]
              && shortOf(SlotFor(pool, n, shortOf, id).value.txid) == id
  {
    if n > 0 {
      SlotHolds(pool, n - 1, shortOf, id);
      assert pool[..n] == pool[..n - 1] + [pool[n - 1]];
    }
  }

  // ---- The slots after the pool was searched -------------------------------------------------------

  predicate SlotAt(now: Slots, idMap: map<ShortId, nat>, pool: seq<Tx>, n: nat, shortOf: ShortOf, id: ShortId)
    requires n <= |pool| && id in idMap
  {
    idMap[id] < |now| && now[idMap[id]] == SlotFor(pool, n, shortOf, id)
  }

  /** The slots after the first `n` transactions of the pool: those of the short ids by their
      matches, all others as they were. */
  ghost predicate Searched(was: Slots, now: Slots, idMap: map<ShortId, nat>, pool: seq<Tx>, n: nat, shortOf: ShortOf)
    requires n <= |pool|
  {
    && |now| == |was|
    && (forall i :: 0 <= i < |was| && i !in idMap.Values ==> now[i] == was[i])
    && (forall id {:trigger SlotAt(now, idMap, pool, n, shortOf, id)} :: id in idMap ==>
          SlotAt(now, idMap, pool, n, shortOf, id))
  }

  /** Each short id has an empty slot of its own. */
  ghost predicate IdsHaveSlots(slots: Slots, idMap: map<ShortId, nat>) {
    && (forall id :: id in idMap ==> idMap[id] < |slots| && slots[idMap[id]].None?)
    && (forall a, b :: a in idMap && b in idMap && idMap[a] == idMap[b] ==> a == b)
  }

  lemma SearchOneMore(was: Slots, now: Slots, idMap: map<ShortId, nat>, pool: seq<Tx>, n: nat, shortOf: ShortOf)
    requires n < |pool| && Searched(was, now, idMap, pool, n, shortOf) && IdsHaveSlots(was, idMap)
    ensures var id := shortOf(pool[n].txid);
            if id !in idMap then Searched(was, now, idMap, pool, n + 1, shortOf)
            else idMap[id] < |now| && Searched(was, now[idMap[id] := SlotFor(pool, n + 1, shortOf, id)], idMap, pool,
                                               n + 1, shortOf)
  {
    var id := shortOf(pool[n].txid);
    var after := if id !in idMap then now
      else (assert SlotAt(now, idMap, pool, n, shortOf, id); now[idMap[id] := SlotFor(pool, n + 1, shortOf, id)]);
    forall other | other in idMap
      ensures SlotAt(after, idMap, pool, n + 1, shortOf, other)
    {
      assert SlotAt(now, idMap, pool, n, shortOf, other);
    }
  }

  /** Slots, count and the set of slots matched so far, after `n` transactions of the pool. */
  ghost predicate Searching(was: Slots, now: Slots, count: int, seen: set<nat>, idMap: map<ShortId, nat>, pool: seq<Tx>,
                            n: nat, shortOf: ShortOf)
    requires n <= |pool|
  {
    && IdsHaveSlots(was, idMap) && Searched(was, now, idMap, pool, n, shortOf)
    && count == Filled(now, |now|) - Excess(pool, n, shortOf, idMap.Keys)
    && count == CountAfter(Filled(was, |was|), idMap.Keys, pool, n, shortOf)
    && (forall id :: id in idMap ==> (idMap[id] in seen <==> Hits(pool, n, shortOf, id) > 0))
  }

  lemma SearchStep(was: Slots, now: Slots, count: int, seen: set<nat>, idMap: map<ShortId, nat>, pool: seq<Tx>, n: nat,
                   shortOf: ShortOf)
    requires n < |pool| && Searching(was, now, count, seen, idMap, pool, n, shortOf)
    ensures var id := shortOf(pool[n].txid);
            if id !in idMap then Searching(was, now, count, seen, idMap, pool, n + 1, shortOf)
            else
              var index := idMap[id];
              && index < |now|
              && (index in seen ==>
                    count <= |now| && Searching(was, now[index := None], count - 1, seen, idMap, pool, n + 1, shortOf))
              && (index !in seen ==>
                    Searching(was, now[index := Some(pool[n])], count + 1, seen + {index}, idMap, pool, n + 1, shortOf))
  {
    var id := shortOf(pool[n].txid);
    SearchOneMore(was, now, idMap, pool, n, shortOf);
    if id in idMap {
      assert SlotAt(now, idMap, pool, n, shortOf, id);
      SlotHolds(pool, n, shortOf, id);
      FillingCounts(now, |now|, idMap[id], SlotFor(pool, n + 1, shortOf, id));
    }
  }

  lemma NothingSearched(slots: Slots, idMap: map<ShortId, nat>, pool: seq<Tx>, shortOf: ShortOf)
    requires IdsHaveSlots(slots, idMap)
    ensures Searched(slots, slots, idMap, pool, 0, shortOf)
  {
    forall id | id in idMap
      ensures SlotAt(slots, idMap, pool, 0, shortOf, id)
    {
    }
  }

  datatype Search = AllThere | SomeMissing | Underflow

  /** How a search of the pool ends: `n` transactions were taken into account. */
  ghost predicate SearchEnds(was: Slots, now: Slots, count: int, idMap: map<ShortId, nat>, pool: seq<Tx>, n: nat,
                             shortOf: ShortOf, checked: bool, found: Search) {
    && (found == Underflow <==> checked && Underflows(|was|, Filled(was, |was|), idMap.Keys, pool, shortOf))
    && (if found == Underflow then n < |pool| && Excess(pool, n + 1, shortOf, idMap.Keys) > 0
        else
          && n <= |pool| && Searched(was, now, idMap, pool, n, shortOf)
          && count == Filled(now, |now|) - Excess(pool, n, shortOf, idMap.Keys))
    && (found == AllThere ==> count == |now| && Free(now, |now|) == [])
    && (found == SomeMissing ==> count != |now| && n == |pool|)
  }

  ghost predicate LookedAt(n: nat) {
    true
  }

  /** A search under way that has not ended.  The quantifier keeps it folded in the loop;
      `InSearchMeans` opens it. */
  ghost predicate InSearch(was: Slots, now: Slots, count: int, seen: set<nat>, idMap: map<ShortId, nat>, pool: seq<Tx>,
                           n: nat, shortOf: ShortOf, checked: bool) {
    forall m: nat {:trigger LookedAt(m)} :: LookedAt(m) && m == n ==>
      && m <= |pool| && Searching(was, now, count, seen, idMap, pool, m, shortOf)
      && Undecided(|was|, Filled(was, |was|), idMap.Keys, pool, m, shortOf, checked)
  }

  lemma InSearchMeans(was: Slots, now: Slots, count: int, seen: set<nat>, idMap: map<ShortId, nat>, pool: seq<Tx>,
                      n: nat, shortOf: ShortOf, checked: bool)
    ensures InSearch(was, now, count, seen, idMap, pool, n, shortOf, checked) <==>
            && n <= |pool| && Searching(was, now, count, seen, idMap, pool, n, shortOf)
            && Undecided(|was|, Filled(was, |was|), idMap.Keys, pool, n, shortOf, checked)
  {
    assert LookedAt(n);
  }

  lemma SearchStarts(slots: Slots, count: nat, idMap: map<ShortId, nat>, pool: seq<Tx>, shortOf: ShortOf, checked: bool)
    requires IdsHaveSlots(slots, idMap) && count == Filled(slots, |slots|)
    ensures if count == |slots| then SearchEnds(slots, slots, count, idMap, pool, 0, shortOf, checked, AllThere)
            else InSearch(slots, slots, count, {}, idMap, pool, 0, shortOf, checked)
  {
    InSearchMeans(slots, slots, count, {}, idMap, pool, 0, shortOf, checked);
    NothingSearched(slots, idMap, pool, shortOf);
    FirstDecides(|slots|, count, idMap.Keys, pool, shortOf, checked);
  }

  lemma SearchGoesOn(was: Slots, now: Slots, count: int, seen: set<nat>, idMap: map<ShortId, nat>, pool: seq<Tx>,
                     n: nat, shortOf: ShortOf, checked: bool)
    requires n < |pool| && InSearch(was, now, count, seen, idMap, pool, n, shortOf, checked)
    ensures var id := shortOf(pool[n].txid);
            if id !in idMap then InSearch(was, now, count, seen, idMap, pool, n + 1, shortOf, checked)
            else
              var index := idMap[id];
              && index < |now|
              && if index in seen then
                   var less := now[index := None];
                   if checked && count == 0 then SearchEnds(was, less, count, idMap, pool, n, shortOf, checked,
                                                            Underflow)
                   else InSearch(was, less, count - 1, seen, idMap, pool, n + 1, shortOf, checked)
                 else
                   var more := now[index := Some(pool[n])];
                   if count + 1 == |was| then SearchEnds(was, more, count + 1, idMap, pool, n + 1, shortOf, checked,
                                                         AllThere)
                   else InSearch(was, more, count + 1, seen + {index}, idMap, pool, n + 1, shortOf, checked)
  {
    InSearchMeans(was, now, count, seen, idMap, pool, n, shortOf, checked);
    SearchStep(was, now, count, seen, idMap, pool, n, shortOf);
    NextDecides(|was|, Filled(was, |was|), idMap.Keys, pool, n, shortOf, checked);
    InSearchMeans(was, now, count, seen, idMap, pool, n + 1, shortOf, checked);
    if shortOf(pool[n].txid) in idMap {
      var index := idMap[shortOf(pool[n].txid)];
      InSearchMeans(was, now[index := None], count - 1, seen, idMap, pool, n + 1, shortOf, checked);
      InSearchMeans(was, now[index := Some(pool[n])], count + 1, seen + {index}, idMap, pool, n + 1, shortOf, checked);
    }
  }

  lemma SearchIsOver(was: Slots, now: Slots, count: int, seen: set<nat>, idMap: map<ShortId, nat>, pool: seq<Tx>,
                     shortOf: ShortOf, checked: bool)
    requires InSearch(was, now, count, seen, idMap, pool, |pool|, shortOf, checked)
    ensures SearchEnds(was, now, count, idMap, pool, |pool|, shortOf, checked, SomeMissing)
  {
    InSearchMeans(was, now, count, seen, idMap, pool, |pool|, shortOf, checked);
    NeverDecided(|was|, Filled(was, |was|), idMap.Keys, pool, shortOf, checked);
  }

  // ---- The compact block -----------------------------------------------------------------------------

  /** The short ids go to the empty slots in order. */
  ghost predicate IdsInOrder(slots: Slots, idMap: map<ShortId, nat>, ids: seq<ShortId>) {
    var free := Free(slots, |slots|);
    && |free| == |ids|
    && (forall id :: id in idMap <==> id in ids)
    && (forall j :: 0 <= j < |ids| ==> ids[j] in idMap && idMap[ids[j]] == free[j])
  }

  lemma OrderedIdsHaveSlots(slots: Slots, idMap: map<ShortId, nat>, ids: seq<ShortId>)
    requires IdsInOrder(slots, idMap, ids)
    ensures IdsHaveSlots(slots, idMap)
    ensures forall i :: 0 <= i < |slots| && slots[i].None? ==> i in idMap.Values
  {
    var free := Free(slots, |slots|);
    FreeAscends(slots, |slots|);
    forall id | id in idMap
      ensures exists j :: 0 <= j < |ids| && ids[j] == id && idMap[id] == free[j]
    {
      var j :| 0 <= j < |ids| && ids[j] == id;
    }
    forall i | 0 <= i < |slots| && slots[i].None?
      ensures i in idMap.Values
    {
      FreeHas(slots, |slots|, i);
      var j :| 0 <= j < |free| && free[j] == i;
      assert idMap[ids[j]] == i;
    }
  }

  /** Finds the slot for the next short id: the next empty one, which is there to be found. */
  method NextSlot(slots: Slots, from: nat, ghost taken: nat) returns (slot: nat)
    requires from <= |slots| && |Free(slots, from)| == taken < |Free(slots, |slots|)|
    ensures from <= slot < |slots| && slots[slot].None? && |Free(slots, slot + 1)| == taken + 1
    ensures Free(slots, |slots|)[taken] == slot
  {
    slot := from;
    while slot < |slots| && slots[slot].Some?
      invariant from <= slot <= |slots|
      invariant |Free(slots, slot)| == taken
    {
      slot := slot + 1;
    }
    FreeGrows(slots, slot + 1, |slots|);
    assert Free(slots, slot + 1)[taken] == slot;
  }

  class CompactBlock {
    var available: Slots
    var count: int
    const header: Header
    const totalTx: nat
    const idMap: map<ShortId, nat>
    const shortOf: ShortOf

    constructor Make(header: Header, available: Slots, count: nat, idMap: map<ShortId, nat>, shortOf: ShortOf)
      ensures this.header == header && this.available == available && this.count == count
      ensures this.idMap == idMap && this.shortOf == shortOf && totalTx == |available|
    {
      this.header, this.available, this.count, this.idMap, this.shortOf := header, available, count, idMap, shortOf;
      totalTx := |available|;
    }

    /** Searches the pool for the missing transactions.  When it says so, nothing is missing; the
        count it keeps falls short exactly when some short id is matched more than twice.  It halts
        exactly when arithmetic is checked for overflow and the count goes below zero; unchecked,
        the wrapped count compares as the one below zero does. */
    method FillMempool(pool: seq<Tx>, checked: bool) returns (found: Search, ghost n: nat)
      requires totalTx == |available| && IdsHaveSlots(available, idMap) && count == Filled(available, totalTx)
      modifies this`available, this`count
      ensures SearchEnds(old(available), available, count, idMap, pool, n, shortOf, checked, found)
    {
      ghost var was := available;
      SearchStarts(was, count, idMap, pool, shortOf, checked);
      if count == totalTx {
        return AllThere, 0;
      }
      var seen: set<nat> := {};
      for i := 0 to |pool|
        invariant InSearch(was, available, count, seen, idMap, pool, i, shortOf, checked)
      {
        var id := shortOf(pool[i].txid);
        SearchGoesOn(was, available, count, seen, idMap, pool, i, shortOf, checked);
        if id !in idMap {
          continue;
        }
        var index := idMap[id];
        if index in seen {
          available := available[index := None];
          if checked && count == 0 {
            return Underflow, i;
          }
          count := count - 1;
          continue;
        }
        available := available[index := Some(pool[i])];
        seen := seen + {index};
        count := count + 1;
        if count == totalTx {
          return AllThere, i + 1;
        }
      }
      SearchIsOver(was, available, count, seen, idMap, pool, shortOf, checked);
      return SomeMissing, |pool|;
    }

    /** Fills what is missing in order.  It succeeds exactly when as many come as are missing. */
    method FillMissing(transactions: seq<Tx>) returns (ok: bool)
      modifies this`available
      ensures ok <==> |transactions| == |Free(old(available), |old(available)|)|
      ensures |available| == |old(available)|
      ensures forall k :: 0 <= k < |available| && old(available)[k].Some? ==> available[k] == old(available)[k]
      ensures ok ==> HasInOrder(available, Free(old(available), |available|), transactions)
    {
      ghost var was := available;
      var next, slot := 0, 0;
      while slot < |available|
        invariant slot <= |was| && FilledUpTo(was, available, transactions, slot, next)
      {
        FreeGrows(was, slot + 1, |was|);
        FillOneMore(was, available, transactions, slot, next);
        if available[slot].None? {
          if next == |transactions| {
            return false;
          }
          available := available[slot := Some(transactions[next])];
          next := next + 1;
        }
        slot := slot + 1;
      }
      ok := next == |transactions|;
    }

    /** The indexes of what is missing, lowest first. */
    method BlockTransactionsRequest() returns (indexes: seq<nat>)
      ensures indexes == Free(available, |available|)
    {
      indexes := [];
      for i := 0 to |available|
        invariant indexes == Free(available, i)
      {
        if available[i].None? {
          indexes := indexes + [i];
        }
      }
    }

    /** The block, once nothing is missing. */
    method ToBlock() returns (block: Block)
      requires Free(available, |available|) == []
      ensures block.header == header && |block.txs| == |available|
      ensures forall i :: 0 <= i < |available| ==> available[i] == Some(block.txs[i])
    {
      var txs: seq<Tx> := [];
      for i := 0 to |available|
        invariant |txs| == i && forall k :: 0 <= k < i ==> available[k] == Some(txs[k])
      {
        if available[i].None? {
          FreeHas(available, |available|, i);
        }
        txs := txs + [available[i].value];
      }
      block := Block(header, txs);
    }
  }

  /** The empty ones among the first `slot` slots have the first `next` transactions. */
  ghost predicate FilledUpTo(was: Slots, now: Slots, transactions: seq<Tx>, slot: nat, next: nat) {
    && slot <= |was| == |now| && next == |Free(was, slot)|
    && (forall k :: slot <= k < |was| ==> now[k] == was[k])
    && (forall k :: 0 <= k < |was| && was[k].Some? ==> now[k] == was[k])
    && HasInOrder(now, Free(was, slot), transactions)
  }

  /** The slots `at` have the transactions in order. */
  predicate HasInOrder(slots: Slots, at: seq<nat>, transactions: seq<Tx>) {
    |at| <= |transactions| &&
    forall k :: 0 <= k < |at| ==> at[k] < |slots| && slots[at[k]] == Some(transactions[k])
  }

  lemma FillOneMore(was: Slots, now: Slots, transactions: seq<Tx>, slot: nat, next: nat)
    requires slot < |was| && FilledUpTo(was, now, transactions, slot, next)
    ensures now[slot].Some? ==> FilledUpTo(was, now, transactions, slot + 1, next)
    ensures now[slot].None? && next < |transactions| ==>
              FilledUpTo(was, now[slot := Some(transactions[next])], transactions, slot + 1, next + 1)
  {
    var free := Free(was, slot);
    assert forall k :: 0 <= k < |free| ==> free[k] < slot;
  }

  lemma {:induction false} AllFilled(slots: Slots, n: nat)
    requires n <= |slots| && forall i :: 0 <= i < n ==> slots[i].Some?
    ensures Free(slots, n) == []
  {
    if n > 0 {
      AllFilled(slots, n - 1);
    }
  }

  /** What laying out gives: the block, or that a short id occurs twice, or a halt. */
  datatype Layout = Laid(block: CompactBlock) | TwiceTheSame | LayoutHalted

  /** Lays out what was sent.  It halts exactly when an assertion fails or an index is out of bounds,
      and refuses exactly those others in which a short id occurs twice.  Wherever the sender's positions
      are, each prefilled transaction has the slot at its own, and the short ids have the others in order. */
  method New(header: Header, pre: seq<PrefilledTx>, ids: seq<ShortId>, shortOf: ShortOf) returns (r: Layout)
    ensures r.LayoutHalted? <==> !(AssertionsPass(pre, |ids|) && InBounds(pre, |ids|))
    ensures r.TwiceTheSame? <==> AssertionsPass(pre, |ids|) && InBounds(pre, |ids|) && !Distinct(ids)
    ensures r.Laid? ==>
              var cb := r.block; var total := |pre| + |ids|;
              && fresh(cb) && cb.header == header && cb.shortOf == shortOf && cb.totalTx == total
              && cb.available == Prefilled(pre, |pre|, total) && cb.count == |pre| == Filled(cb.available, total)
              && IdsInOrder(cb.available, cb.idMap, ids)
    ensures r.Laid? ==>
              forall at {:trigger Spaced(pre, at)} :: Spaced(pre, at) ==>
                LaidOutAt(r.block.available, r.block.idMap, pre, ids, at)
  {
    var available, count := Place(pre, |ids|);
    if available.None? {
      return LayoutHalted;
    }
    AllHaveSlots(pre, |ids|);
    SlotsAreWhereSent(pre, |pre| + |ids|);
    PrefilledCounts(pre, |pre|, |pre| + |ids|);
    var idMap := AssignIds(available.value, ids);
    if idMap.None? {
      return TwiceTheSame;
    }
    var cb := new CompactBlock.Make(header, available.value, count, idMap.value, shortOf);
    r := Laid(cb);
  }

  lemma AllHaveSlots(pre: seq<PrefilledTx>, n: nat)
    requires InBounds(pre, n)
    ensures forall j :: 0 <= j < |pre| ==> Position(pre, j) < |pre| + n
  {
    forall j | 0 <= j < |pre|
      ensures Position(pre, j) < |pre| + n
    {
      assert HasSlot(pre, n, j);
    }
  }

  /** The first `count` positions pass the assertions and have a slot. */
  ghost predicate AllPlaced(pre: seq<PrefilledTx>, n: nat, count: nat)
    requires count <= |pre|
  {
    forall k {:trigger AssertionsHold(pre, n, k)} {:trigger HasSlot(pre, n, k)} :: 0 <= k < count ==>
        AssertionsHold(pre, n, k) && HasSlot(pre, n, k)
  }

  lemma PlacedAll(pre: seq<PrefilledTx>, n: nat)
    ensures AllPlaced(pre, n, |pre|) <==> AssertionsPass(pre, n) && InBounds(pre, n)
  {
  }

  /** Puts the prefilled transactions into their slots; `None` when it halts. */
  method Place(pre: seq<PrefilledTx>, n: nat) returns (slots: Option<Slots>, count: nat)
    ensures slots.None? <==> !(AssertionsPass(pre, n) && InBounds(pre, n))
    ensures slots.Some? ==> slots.value == Prefilled(pre, |pre|, |pre| + n) && count == |pre|
  {
    var total := |pre| + n;
    var available: Slots := seq(total, _ => None);
    var last := -1;
    count := 0;
    PlacedAll(pre, n);
    while count < |pre|
      invariant count <= |pre| && last == (if count == 0 then -1 else Position(pre, count - 1))
      invariant available == Prefilled(pre, count, total)
      invariant AllPlaced(pre, n, count)
    {
      last := last + pre[count].index + 1;
      assert last == Position(pre, count);
      assert AssertionsHold(pre, n, count) <==> last < 0xffff && last <= n + 1;
      assert HasSlot(pre, n, count) <==> last < total;
      if !(last < 0xffff) || !(last <= n + 1) || !(last < total) {
        return None, count;
      }
      available := available[last := Some(pre[count].tx)];
      count := count + 1;
    }
    slots := Some(available);
  }

  /** Gives each short id the next empty slot. */
  method AssignIds(slots: Slots, ids: seq<ShortId>) returns (r: Option<map<ShortId, nat>>)
    requires |Free(slots, |slots|)| == |ids|
    ensures r.Some? <==> Distinct(ids)
    ensures r.Some? ==> IdsInOrder(slots, r.value, ids)
  {
    ghost var free := Free(slots, |slots|);
    var from := 0;
    var idMap: map<ShortId, nat> := map[];
    for i := 0 to |ids|
      invariant from <= |slots| && |Free(slots, from)| == i
      invariant forall id :: id in idMap <==> id in ids[..i]
      invariant forall j :: 0 <= j < i ==> idMap[ids[j]] == free[j]
      invariant Distinct(ids[..i])
    {
      var slot := NextSlot(slots, from, i);
      if ids[i] in idMap {
        return None;
      }
      assert ids[..i + 1] == ids[..i] + [ids[i]];
      idMap := idMap[ids[i] := slot];
      from := slot + 1;
    }
    assert ids[..|ids|] == ids;
    r := Some(idMap);
  }

  // ---- The sender's positions ------------------------------------------------------------------------

  /** Positions in ascending order, below `n`. */
  predicate Ascending(at: seq<nat>, n: nat) {
    && (forall k :: 0 <= k < |at| ==> at[k] < n)
    && (forall j, k :: 0 <= j < k < |at| ==> at[j] < at[k])
  }

  /** How many positions lie between the `k`-th and the one before it. */
  function Gap(at: seq<nat>, k: nat): int
    requires k < |at|
  {
    if k == 0 then at[0] else (at[k] as int) - (at[k - 1] as int) - 1
  }

  /** Each index says how many positions lie between the transaction and the one sent before it
      (section 'PrefilledTransaction' of BIP 152). */
  predicate Spaced(pre: seq<PrefilledTx>, at: seq<nat>) {
    |at| == |pre| && forall k {:trigger Gap(at, k)} :: 0 <= k < |at| ==> pre[k].index == Gap(at, k)
  }

  /** The positions below `n` that are not among `at`, lowest first. */
  function Others(at: seq<nat>, n: nat): (others: seq<nat>)
    ensures forall k :: 0 <= k < |others| ==> others[k] < n && others[k] !in at
  {
    if n == 0 then [] else Others(at, n - 1) + if n - 1 in at then [] else [n - 1]
  }

  lemma {:induction false} OthersHave(at: seq<nat>, n: nat, i: nat)
    requires i < n && i !in at
    ensures i in Others(at, n)
  {
    if i < n - 1 {
      OthersHave(at, n - 1, i);
    }
  }

  ghost predicate LaidOutAt(slots: Slots, idMap: map<ShortId, nat>, pre: seq<PrefilledTx>, ids: seq<ShortId>,
                            at: seq<nat>)
    requires Spaced(pre, at)
  {
    && PlacedUpTo(slots, pre, at, |at|)
    && |Others(at, |slots|)| == |ids|
    && (forall j :: 0 <= j < |ids| ==> ids[j] in idMap && idMap[ids[j]] == Others(at, |slots|)[j])
  }

  lemma {:induction false} PositionIsSent(pre: seq<PrefilledTx>, at: seq<nat>, k: nat)
    requires Spaced(pre, at) && k < |pre|
    ensures Position(pre, k) == at[k]
  {
    assert pre[k].index == Gap(at, k);
    if k > 0 {
      PositionIsSent(pre, at, k - 1);
    }
  }

  lemma {:induction false} PrefilledAt(pre: seq<PrefilledTx>, at: seq<nat>, k: nat, total: nat)
    requires Spaced(pre, at) && Ascending(at, total) && k <= |pre|
    ensures PlacedUpTo(Prefilled(pre, k, total), pre, at, k)
  {
    if k > 0 {
      PrefilledAt(pre, at, k - 1, total);
      PositionIsSent(pre, at, k - 1);
      PlacedOneMore(Prefilled(pre, k - 1, total), pre, at, k - 1);
    }
  }

  /** The first `k` are at their positions, and nothing is where none was sent. */
  ghost predicate PlacedUpTo(slots: Slots, pre: seq<PrefilledTx>, at: seq<nat>, k: nat)
    requires |pre| == |at| && k <= |pre|
  {
    && (forall j :: 0 <= j < k ==> at[j] < |slots| && slots[at[j]] == Some(pre[j].tx))
    && (forall i :: 0 <= i < |slots| && i !in at ==> slots[i].None?)
  }

  lemma PlacedOneMore(slots: Slots, pre: seq<PrefilledTx>, at: seq<nat>, k: nat)
    requires |pre| == |at| && k < |pre| && Ascending(at, |slots|) && PlacedUpTo(slots, pre, at, k)
    ensures PlacedUpTo(slots[at[k] := Some(pre[k].tx)], pre, at, k + 1)
  {
  }

  lemma {:induction false} FreeAreOthers(slots: Slots, at: seq<nat>, n: nat)
    requires n <= |slots| && forall i :: 0 <= i < n ==> (slots[i].Some? <==> i in at)
    ensures Free(slots, n) == Others(at, n)
  {
    if n > 0 {
      FreeAreOthers(slots, at, n - 1);
    }
  }

  lemma SentIsAscending(pre: seq<PrefilledTx>, at: seq<nat>, total: nat)
    requires Spaced(pre, at) && forall k :: 0 <= k < |pre| ==> Position(pre, k) < total
    ensures Ascending(at, total)
  {
    forall k | 0 <= k < |at|
      ensures at[k] == Position(pre, k)
    {
      PositionIsSent(pre, at, k);
    }
    forall j, k | 0 <= j < k < |at|
      ensures at[j] < at[k]
    {
      PositionsAscend(pre, j, k);
    }
  }

  lemma SlotsAreWhereSent(pre: seq<PrefilledTx>, total: nat)
    requires forall k :: 0 <= k < |pre| ==> Position(pre, k) < total
    ensures forall at {:trigger Spaced(pre, at)} :: Spaced(pre, at) ==>
              PlacedUpTo(Prefilled(pre, |pre|, total), pre, at, |at|)
              && Free(Prefilled(pre, |pre|, total), total) == Others(at, total)
  {
    forall at | Spaced(pre, at)
      ensures PlacedUpTo(Prefilled(pre, |pre|, total), pre, at, |at|)
      ensures Free(Prefilled(pre, |pre|, total), total) == Others(at, total)
    {
      SentIsAscending(pre, at, total);
      PrefilledAt(pre, at, |pre|, total);
      FreeAreOthers(Prefilled(pre, |pre|, total), at, total);
    }
  }

  // ---- The round trip ----------------------------------------------------------------------------------

  /** What is sent for `txs` when those at the positions `at` are sent along and the others by short id. */
  ghost predicate Encodes(txs: seq<Tx>, pre: seq<PrefilledTx>, ids: seq<ShortId>, shortOf: ShortOf, at: seq<nat>) {
    var others := Others(at, |txs|);
    && Ascending(at, |txs|) && Spaced(pre, at) && |ids| == |others|
    && (forall k :: 0 <= k < |at| ==> pre[k].tx == txs[at[k]])
    && (forall j :: 0 <= j < |ids| ==> ids[j] == shortOf(txs[others[j]].txid))
  }

  /** What encodes a block is laid out so that it is decoded. */
  lemma EncodingLaysOut(txs: seq<Tx>, pre: seq<PrefilledTx>, ids: seq<ShortId>, shortOf: ShortOf, at: seq<nat>)
    requires Encodes(txs, pre, ids, shortOf, at)
    ensures |pre| + |ids| == |txs| && LaysOut(txs, pre, ids, shortOf)
    ensures Free(Prefilled(pre, |pre|, |txs|), |txs|) == Others(at, |txs|)
    ensures InBounds(pre, |ids|)
    ensures AssertionsPass(pre, |ids|) <==> LastIsLow(at, |ids|)
  {
    SlotsOfEncoding(txs, pre, ids, shortOf, at);
    LastDecides(txs, pre, ids, shortOf);
    LastIsSent(pre, at, |ids|);
  }

  lemma LastIsSent(pre: seq<PrefilledTx>, at: seq<nat>, n: nat)
    requires Spaced(pre, at)
    ensures (pre == [] || AssertionsHold(pre, n, |pre| - 1)) <==> LastIsLow(at, n)
  {
    if pre != [] {
      PositionIsSent(pre, at, |pre| - 1);
    }
  }

  lemma SlotsOfEncoding(txs: seq<Tx>, pre: seq<PrefilledTx>, ids: seq<ShortId>, shortOf: ShortOf, at: seq<nat>)
    requires Encodes(txs, pre, ids, shortOf, at)
    ensures |pre| + |ids| == |txs| && LaysOut(txs, pre, ids, shortOf)
    ensures Free(Prefilled(pre, |pre|, |txs|), |txs|) == Others(at, |txs|)
  {
    var total := |txs|;
    forall k | 0 <= k < |pre|
      ensures Position(pre, k) == at[k]
    {
      PositionIsSent(pre, at, k);
    }
    PrefilledAt(pre, at, |pre|, total);
    FreeAreOthers(Prefilled(pre, |pre|, total), at, total);
    PrefilledCounts(pre, |pre|, total);
  }

  /** The last position sent is no more than one behind the number of short ids. */
  predicate LastIsLow(at: seq<nat>, n: nat) {
    at == [] || (at[|at| - 1] < 0xffff && at[|at| - 1] <= n + 1)
  }

  /** What encodes a block passes the receiver's assertions exactly when its last position is low. */
  lemma AssertionsPassWhen(txs: seq<Tx>, pre: seq<PrefilledTx>, ids: seq<ShortId>, shortOf: ShortOf, at: seq<nat>)
    requires Encodes(txs, pre, ids, shortOf, at)
    ensures InBounds(pre, |ids|)
    ensures AssertionsPass(pre, |ids|) <==> LastIsLow(at, |ids|)
  {
    EncodingLaysOut(txs, pre, ids, shortOf, at);
  }

  /** What was sent, laid out, has the transactions `txs` in their places. */
  ghost predicate LaysOut(txs: seq<Tx>, pre: seq<PrefilledTx>, ids: seq<ShortId>, shortOf: ShortOf) {
    var total := |pre| + |ids|;
    var free := Free(Prefilled(pre, |pre|, total), total);
    && |txs| == total && |free| == |ids|
    && (forall k {:trigger Position(pre, k)} :: 0 <= k < |pre| ==>
          Position(pre, k) < total && txs[Position(pre, k)] == pre[k].tx)
    && (forall j :: 0 <= j < |ids| ==> shortOf(txs[free[j]].txid) == ids[j])
  }

  lemma LastDecides(txs: seq<Tx>, pre: seq<PrefilledTx>, ids: seq<ShortId>, shortOf: ShortOf)
    requires LaysOut(txs, pre, ids, shortOf)
    ensures InBounds(pre, |ids|)
    ensures AssertionsPass(pre, |ids|) <==> pre == [] || AssertionsHold(pre, |ids|, |pre| - 1)
  {
    if pre != [] {
      var last := |pre| - 1;
      forall k | 0 <= k < |pre|
        ensures Position(pre, k) <= Position(pre, last)
      {
        if k < last {
          PositionsAscend(pre, k, last);
        }
      }
      if AssertionsHold(pre, |ids|, last) {
        forall k | 0 <= k < |pre|
          ensures AssertionsHold(pre, |ids|, k)
        {
          assert Position(pre, k) <= Position(pre, last);
        }
      }
    }
  }

  /** All the transactions of a block, none by short id. */
  function SentWhole(txs: seq<Tx>): (pre: seq<PrefilledTx>)
    ensures |pre| == |txs|
  {
    seq(|txs|, i requires 0 <= i < |txs| => PrefilledTx(0, txs[i]))
  }

  lemma {:induction false} WholePosition(txs: seq<Tx>, k: nat)
    requires k < |txs|
    ensures Position(SentWhole(txs), k) == k
  {
    if k > 0 {
      WholePosition(txs, k - 1);
    }
  }

  /** A block sent whole is a proper encoding, but passes the assertions only with at most two transactions. */
  lemma SentWholePassesWhen(txs: seq<Tx>, shortOf: ShortOf)
    ensures Encodes(txs, SentWhole(txs), [], shortOf, AllOf(|txs|))
    ensures AssertionsPass(SentWhole(txs), 0) <==> |txs| <= 2
  {
    NoOthers(|txs|, |txs|);
    EncodingLaysOut(txs, SentWhole(txs), [], shortOf, AllOf(|txs|));
  }

  function AllOf(n: nat): (at: seq<nat>)
    ensures |at| == n && forall i :: 0 <= i < n ==> at[i] == i
  {
    seq(n, i requires 0 <= i < n => i)
  }

  lemma {:induction false} NoOthers(total: nat, n: nat)
    requires n <= total
    ensures Others(AllOf(total), n) == []
  {
    if n > 0 {
      NoOthers(total, n - 1);
      assert AllOf(total)[n - 1] == n - 1;
    }
  }

  /** Every filled slot has the right transaction. */
  predicate Right(slots: Slots, txs: seq<Tx>) {
    |slots| == |txs| && forall i :: 0 <= i < |slots| && slots[i].Some? ==> slots[i].value == txs[i]
  }

  lemma {:induction false} PrefilledIsRight(txs: seq<Tx>, pre: seq<PrefilledTx>, k: nat, ids: seq<ShortId>,
                                            shortOf: ShortOf)
    requires LaysOut(txs, pre, ids, shortOf) && k <= |pre|
    ensures Right(Prefilled(pre, k, |txs|), txs)
  {
    if k > 0 {
      PrefilledIsRight(txs, pre, k - 1, ids, shortOf);
      assert txs[Position(pre, k - 1)] == pre[k - 1].tx;
    }
  }

  /** No transaction in the pool has the short id of another one that was not sent along. */
  ghost predicate NoFalseMatch(pool: seq<Tx>, txs: seq<Tx>, shortOf: ShortOf, at: seq<nat>) {
    forall t, i {:trigger pool[t], txs[i]} ::
      0 <= t < |pool| && 0 <= i < |txs| && i !in at && shortOf(pool[t].txid) == shortOf(txs[i].txid) ==>
        pool[t] == txs[i]
  }

  lemma MatchesAreRight(txs: seq<Tx>, pre: seq<PrefilledTx>, ids: seq<ShortId>, shortOf: ShortOf, at: seq<nat>,
                        pool: seq<Tx>)
    requires Encodes(txs, pre, ids, shortOf, at) && NoFalseMatch(pool, txs, shortOf, at)
    ensures RightMatches(pool, txs, ids, Prefilled(pre, |pre|, |txs|), shortOf)
  {
    EncodingLaysOut(txs, pre, ids, shortOf, at);
  }

  /** Whatever matches a short id is the transaction for its slot. */
  ghost predicate RightMatches(pool: seq<Tx>, txs: seq<Tx>, ids: seq<ShortId>, slots: Slots, shortOf: ShortOf) {
    var free := Free(slots, |slots|);
    forall t, j {:trigger shortOf(pool[t].txid), ids[j]} ::
      0 <= t < |pool| && 0 <= j < |ids| && j < |free| && free[j] < |txs| && shortOf(pool[t].txid) == ids[j] ==>
        pool[t] == txs[free[j]]
  }

  lemma SearchedIsRight(txs: seq<Tx>, ids: seq<ShortId>, was: Slots, now: Slots, idMap: map<ShortId, nat>,
                        pool: seq<Tx>, n: nat, shortOf: ShortOf)
    requires n <= |pool| && Right(was, txs) && IdsInOrder(was, idMap, ids)
             && Searched(was, now, idMap, pool, n, shortOf)
    requires RightMatches(pool, txs, ids, was, shortOf)
    ensures Right(now, txs)
  {
    var free := Free(was, |was|);
    forall i | 0 <= i < |now| && now[i].Some?
      ensures now[i].value == txs[i]
    {
      if i in idMap.Values {
        var id :| id in idMap && idMap[id] == i;
        var j :| 0 <= j < |ids| && ids[j] == id;
        assert SlotAt(now, idMap, pool, n, shortOf, id);
        SlotHolds(pool, n, shortOf, id);
        var t :| 0 <= t < n && pool[t] == now[i].value;
        assert shortOf(pool[t].txid) == ids[j] && free[j] == i;
      }
    }
  }

  /** A block that was encoded comes back: from the pool, and from the sender for what it lacks;
      unless a short id occurs twice, the receiver's assertions do not pass, or its count underflows
      where that is checked. */
  method Rebuild(block: Block, pre: seq<PrefilledTx>, ids: seq<ShortId>, shortOf: ShortOf, pool: seq<Tx>, checked: bool,
                 ghost at: seq<nat>)
    returns (r: Option<Block>)
    requires Encodes(block.txs, pre, ids, shortOf, at)
    requires NoFalseMatch(pool, block.txs, shortOf, at)
    ensures r.Some? <==>
              && Distinct(ids) && LastIsLow(at, |ids|)
              && !(checked && Underflows(|block.txs|, |at|, IdSet(ids), pool, shortOf))
    ensures r.Some? ==> r.value == block
  {
    EncodingLaysOut(block.txs, pre, ids, shortOf, at);
    MatchesAreRight(block.txs, pre, ids, shortOf, at, pool);
    var laid := New(block.header, pre, ids, shortOf);
    if !laid.Laid? {
      return None;
    }
    var cb := laid.block;
    PrefilledIsRight(block.txs, pre, |pre|, ids, shortOf);
    OrderedIdsHaveSlots(cb.available, cb.idMap, ids);
    ghost var was := cb.available;
    assert cb.idMap.Keys == IdSet(ids);
    var found, n := cb.FillMempool(pool, checked);
    if found == Underflow {
      return None;
    }
    SearchedIsRight(block.txs, ids, was, cb.available, cb.idMap, pool, n, shortOf);
    if found == SomeMissing {
      RequestMissing(cb, block.txs);
    }
    var rebuilt := cb.ToBlock();
    RightIsAll(cb.available, rebuilt.txs, block.txs);
    r := Some(rebuilt);
  }

  /** A pool of distinct transactions without false matches never makes the count underflow. */
  lemma HonestPoolNeverUnderflows(txs: seq<Tx>, pre: seq<PrefilledTx>, ids: seq<ShortId>, shortOf: ShortOf,
                                  at: seq<nat>, pool: seq<Tx>)
    requires Encodes(txs, pre, ids, shortOf, at) && Distinct(pool) && NoFalseMatch(pool, txs, shortOf, at)
    ensures !Underflows(|txs|, |at|, IdSet(ids), pool, shortOf)
  {
    EncodingLaysOut(txs, pre, ids, shortOf, at);
    MatchesAreRight(txs, pre, ids, shortOf, at, pool);
    MatchesAreOne(txs, Prefilled(pre, |pre|, |txs|), ids, shortOf, pool);
    DistinctMatchesDiffer(pool, shortOf, IdSet(ids));
    forall id | id in IdSet(ids)
      ensures Hits(pool, |pool|, shortOf, id) <= 1
    {
      OneHitEach(pool, |pool|, shortOf, IdSet(ids), id);
    }
    NeverUnderflows(|txs|, |at|, IdSet(ids), pool, shortOf);
  }

  /** Two transactions of the pool with one wanted short id. */
  predicate BothMatch(pool: seq<Tx>, shortOf: ShortOf, ids: set<ShortId>, s: nat, t: nat) {
    s < t < |pool| && shortOf(pool[s].txid) in ids && shortOf(pool[s].txid) == shortOf(pool[t].txid)
  }

  lemma MatchesAreOne(txs: seq<Tx>, slots: Slots, ids: seq<ShortId>, shortOf: ShortOf, pool: seq<Tx>)
    requires |slots| == |txs| && |Free(slots, |slots|)| == |ids| && RightMatches(pool, txs, ids, slots, shortOf)
    ensures forall s: nat, t: nat :: BothMatch(pool, shortOf, IdSet(ids), s, t) ==> pool[s] == pool[t]
  {
    forall s: nat, t: nat | BothMatch(pool, shortOf, IdSet(ids), s, t)
      ensures pool[s] == pool[t]
    {
      var j :| 0 <= j < |ids| && ids[j] == shortOf(pool[s].txid);
    }
  }

  lemma DistinctMatchesDiffer(pool: seq<Tx>, shortOf: ShortOf, ids: set<ShortId>)
    requires Distinct(pool) && forall s: nat, t: nat :: BothMatch(pool, shortOf, ids, s, t) ==> pool[s] == pool[t]
    ensures forall s: nat, t: nat :: !BothMatch(pool, shortOf, ids, s, t)
  {
  }

  lemma NotBoth(pool: seq<Tx>, shortOf: ShortOf, ids: set<ShortId>, s: nat, t: nat)
    requires s < t < |pool| && shortOf(pool[s].txid) in ids
             && forall i: nat, j: nat :: !BothMatch(pool, shortOf, ids, i, j)
    ensures shortOf(pool[s].txid) != shortOf(pool[t].txid)
  {
    assert !BothMatch(pool, shortOf, ids, s, t);
  }

  lemma {:induction false} OneHitEach(pool: seq<Tx>, n: nat, shortOf: ShortOf, ids: set<ShortId>, id: ShortId)
    requires n <= |pool| && id in ids && forall s: nat, t: nat :: !BothMatch(pool, shortOf, ids, s, t)
    ensures Hits(pool, n, shortOf, id) <= 1
  {
    if n > 0 {
      OneHitEach(pool, n - 1, shortOf, ids, id);
      if shortOf(pool[n - 1].txid) == id && Hits(pool, n - 1, shortOf, id) > 0 {
        var t := OneHit(pool, n - 1, shortOf, id);
        NotBoth(pool, shortOf, ids, t, n - 1);
      }
    }
  }

  lemma RightIsAll(slots: Slots, rebuilt: seq<Tx>, txs: seq<Tx>)
    requires Right(slots, txs) && |rebuilt| == |slots| && forall i :: 0 <= i < |slots| ==> slots[i] == Some(rebuilt[i])
    ensures rebuilt == txs
  {
  }

  /** The sender's part: it answers a request with the transactions at the indexes asked for. */
  method RequestMissing(cb: CompactBlock, txs: seq<Tx>)
    requires Right(cb.available, txs)
    modifies cb`available
    ensures Right(cb.available, txs) && Free(cb.available, |cb.available|) == []
  {
    var request := cb.BlockTransactionsRequest();
    var answer := seq(|request|, i requires 0 <= i < |request| => txs[request[i]]);
    var ok := FillAll(cb, txs, answer);
  }

  method FillAll(cb: CompactBlock, txs: seq<Tx>, answer: seq<Tx>) returns (ok: bool)
    requires Right(cb.available, txs)
    requires var free := Free(cb.available, |cb.available|);
             |answer| == |free| && forall i :: 0 <= i < |answer| ==> answer[i] == txs[free[i]]
    modifies cb`available
    ensures ok && Right(cb.available, txs) && Free(cb.available, |cb.available|) == []
  {
    ghost var was := cb.available;
    ghost var free := Free(was, |was|);
    ok := cb.FillMissing(answer);
    forall i | 0 <= i < |was|
      ensures cb.available[i] == Some(txs[i])
    {
      if was[i].None? {
        FreeHas(was, |was|, i);
      }
    }
    AllFilled(cb.available, |cb.available|);
  }
}
