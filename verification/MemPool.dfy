/** The memory pool: transactions that wait for a block, and who spends which output. */
module MemPool {
  import opened Primitives
  import opened Coins
  import opened Ledger
  import opened Checks

  datatype MemPoolEntry = MemPoolEntry(tx: Tx, height: nat, coinbase: bool)

  type Pool = map<Txid, MemPoolEntry>
  type Spents = map<OutPoint, Txid>

  // ---- Spending ---------------------------------------------------------------------------

  function Outputs(x: Tx): (ps: seq<OutPoint>)
    ensures |ps| == |x.outputs| && forall i :: 0 <= i < |ps| ==> ps[i] == OutPoint(x.txid, i)
  {
    seq(|x.outputs|, i requires 0 <= i => OutPoint(x.txid, i))
  }

  /** `y` spends one of `ps`. */
  predicate Spends(y: Tx, ps: seq<OutPoint>) {
    exists p :: p in ps && p in y.inputs
  }

  /** Each transaction of `path` is in the pool and spends an output of the one before it. */
  ghost predicate Leads(pool: Pool, path: seq<Txid>) {
    && path != []
    && (forall i :: 0 <= i < |path| ==> path[i] in pool)
    && (forall i {:trigger path[i]} :: 0 < i < |path| ==> Spends(pool[path[i]].tx, Outputs(pool[path[i - 1]].tx)))
  }

  /** `t` spends one of `ps`, or descends in the pool from a transaction that does. */
  ghost predicate Reached(pool: Pool, ps: seq<OutPoint>, t: Txid) {
    exists path {:trigger Leads(pool, path)} :: Leads(pool, path) && path[|path| - 1] == t
      && Spends(pool[path[0]].tx, ps)
  }

  // ---- The index of spent outputs ------------------------------------------------------------

  predicate IsIndexed(txOf: TxOf, pool: Pool, spents: Spents, t: Txid)
    requires t in pool
  {
    && pool[t].tx == txOf(t) && pool[t].tx.txid == t && !pool[t].tx.IsCoinbase()
    && forall p :: p in pool[t].tx.inputs ==> p in spents && spents[p] == t
  }

  predicate IsInput(txOf: TxOf, t: Txid, p: OutPoint) {
    p in txOf(t).inputs
  }

  /** Every input of every pooled transaction is indexed under it.  Keys of transactions that
      are gone may be left over, but each was an input of the transaction it names. */
  ghost predicate PoolIndexed(txOf: TxOf, pool: Pool, spents: Spents) {
    && (forall t {:trigger IsIndexed(txOf, pool, spents, t)} :: t in pool ==> IsIndexed(txOf, pool, spents, t))
    && (forall p :: p in spents ==> IsInput(txOf, spents[p], p))
  }

  /** An index leaves no room for two transactions that spend the same. */
  lemma NoSharedInputs(txOf: TxOf, pool: Pool, spents: Spents, a: Txid, b: Txid)
    requires PoolIndexed(txOf, pool, spents) && a in pool && b in pool && a != b
    ensures !Spends(pool[a].tx, pool[b].tx.inputs)
  {
    assert IsIndexed(txOf, pool, spents, a) && IsIndexed(txOf, pool, spents, b);
  }

  // ---- What removal does ---------------------------------------------------------------------

  predicate Keeps(before: Pool, t: Txid, e: MemPoolEntry) {
    t in before && before[t] == e
  }

  ghost predicate Shrinks(before: Pool, after: Pool) {
    forall t {:trigger t in after} :: t in after ==> Keeps(before, t, after[t])
  }

  ghost predicate NoneSpends(after: Pool, ps: seq<OutPoint>) {
    forall t {:trigger t in after} :: t in after ==> !Spends(after[t].tx, ps)
  }

  predicate Gone(before: Pool, after: Pool, r: Txid) {
    r in before && r !in after
  }

  /** Whatever is gone was reached from `ps`, and whoever spent its outputs is gone too. */
  ghost predicate Removed(before: Pool, after: Pool, ps: seq<OutPoint>) {
    && Shrinks(before, after)
    && (forall r {:trigger Gone(before, after, r)} :: Gone(before, after, r) ==>
          Reached(before, ps, r) && NoneSpends(after, Outputs(before[r].tx)))
  }

  /** When in addition no one is left who spends one of `ps`, exactly those reached are gone. */
  lemma {:induction false} ExactlyReached(before: Pool, after: Pool, ps: seq<OutPoint>)
    requires Removed(before, after, ps) && NoneSpends(after, ps)
    ensures forall t :: t in after <==> t in before && !Reached(before, ps, t)
  {
    forall t
      ensures t in after <==> t in before && !Reached(before, ps, t)
    {
      if Reached(before, ps, t) {
        var path :| Leads(before, path) && path[|path| - 1] == t && Spends(before[path[0]].tx, ps);
        PathIsGone(before, after, ps, path, |path| - 1);
      }
      assert Gone(before, after, t) || t in after || t !in before;
      assert t in after ==> Keeps(before, t, after[t]);
    }
  }

  lemma {:induction false} PathIsGone(before: Pool, after: Pool, ps: seq<OutPoint>, path: seq<Txid>, n: nat)
    requires Removed(before, after, ps) && NoneSpends(after, ps)
    requires Leads(before, path) && Spends(before[path[0]].tx, ps) && n < |path|
    ensures path[n] !in after
  {
    if n > 0 {
      PathIsGone(before, after, ps, path, n - 1);
      assert Gone(before, after, path[n - 1]);
    }
    assert path[n] in after ==> Keeps(before, path[n], after[path[n]]);
  }

  /** A descendant of `s` in a smaller pool is reached in the bigger one when `s` is. */
  lemma ReachedThrough(before: Pool, mid: Pool, ps: seq<OutPoint>, s: Txid, r: Txid)
    requires Shrinks(before, mid) && s in before && Spends(before[s].tx, ps)
    requires Reached(mid, Outputs(before[s].tx), r)
    ensures Reached(before, ps, r)
  {
    var path :| Leads(mid, path) && path[|path| - 1] == r && Spends(mid[path[0]].tx, Outputs(before[s].tx));
    var longer := [s] + path;
    forall i | 0 <= i < |path|
      ensures Keeps(before, path[i], mid[path[i]])
    {
    }
    forall i | 0 < i < |longer|
      ensures Spends(before[longer[i]].tx, Outputs(before[longer[i - 1]].tx))
    {
      assert longer[i] == path[i - 1] && Keeps(before, path[i - 1], mid[path[i - 1]]);
      assert i > 1 ==> longer[i - 1] == path[i - 2] && Keeps(before, path[i - 2], mid[path[i - 2]]);
    }
    assert Leads(before, longer) && longer[|longer| - 1] == r && longer[0] == s;
  }

  lemma ReachedAtOnce(pool: Pool, ps: seq<OutPoint>, s: Txid)
    requires s in pool && Spends(pool[s].tx, ps)
    ensures Reached(pool, ps, s)
  {
    assert Leads(pool, [s]);
  }

  /** Removing one spender, and then whatever descends from it. */
  lemma RemovedOneMore(before: Pool, now: Pool, mid: Pool, after: Pool, ps: seq<OutPoint>, s: Txid)
    requires Removed(before, now, ps) && s in now && Spends(now[s].tx, ps) && mid == now - {s}
    requires Removed(mid, after, Outputs(now[s].tx)) && NoneSpends(after, Outputs(now[s].tx))
    ensures Removed(before, after, ps)
  {
    assert Keeps(before, s, now[s]);
    forall t | t in after
      ensures Keeps(before, t, after[t])
    {
      assert Keeps(mid, t, after[t]) && t in now;
    }
    assert Shrinks(before, mid) by {
      forall t | t in mid
        ensures Keeps(before, t, mid[t])
      {
        assert t in now;
      }
    }
    forall r | Gone(before, after, r)
      ensures Reached(before, ps, r) && NoneSpends(after, Outputs(before[r].tx))
    {
      if r == s {
        ReachedAtOnce(before, ps, s);
      } else if r in now {
        assert Gone(mid, after, r) && Keeps(before, r, now[r]);
        ReachedThrough(before, mid, ps, s, r);
      } else {
        assert Gone(before, now, r);
        forall t | t in after
          ensures !Spends(after[t].tx, Outputs(before[r].tx))
        {
          assert Keeps(mid, t, after[t]) && t in now;
        }
      }
    }
  }

  lemma NoneSpendsOneMore(before: Pool, after: Pool, ps: seq<OutPoint>, n: nat)
    requires n < |ps| && Shrinks(before, after) && NoneSpends(before, ps[..n])
    requires NoneSpendsOne(before, ps[n])
    ensures NoneSpends(after, ps[..n + 1])
  {
    forall t | t in after
      ensures !Spends(after[t].tx, ps[..n + 1])
    {
      assert Keeps(before, t, after[t]) && t in before;
      assert forall p :: p in ps[..n + 1] ==> p in ps[..n] || p == ps[n];
    }
  }

  /** One turn of the removal loops: whoever spends point `n` goes, with all that descends from it. */
  lemma OneMoreRemoved(before: Pool, now: Pool, mid: Pool, after: Pool, ps: seq<OutPoint>, n: nat,
                       spender: Option<MemPoolEntry>)
    requires n < |ps| && Removed(before, now, ps) && NoneSpends(now, ps[..n]) && NoneSpendsOne(mid, ps[n])
    requires spender.None? ==> after == mid == now
    requires spender.Some? ==>
               var s := spender.value.tx.txid;
               && s in now && spender.value == now[s] && ps[n] in spender.value.tx.inputs && mid == now - {s}
               && Removed(mid, after, Outputs(spender.value.tx)) && NoneSpends(after, Outputs(spender.value.tx))
    ensures Removed(before, after, ps) && NoneSpends(after, ps[..n + 1])
  {
    if spender.Some? {
      RemovedOneMore(before, now, mid, after, ps, spender.value.tx.txid);
    }
    assert NoneSpends(mid, ps[..n]);
    assert Shrinks(mid, after);
    NoneSpendsOneMore(mid, after, ps, n);
  }

  datatype PoolError = Insane(e: TxError) | CoinbaseTx | AgainstPolicy | Duplicate | ReplaceByFee | DoubleSpend | Orphan
    | Refused

  /** Whether `p` is an output in the pool that nothing there is known to spend. */
  predicate PoolHasCoin(pool: Pool, spents: Spents, p: OutPoint) {
    p.txid in pool && p !in spents && p.vout < |pool[p.txid].tx.outputs|
  }

  /** Whether the pool, or the chain where the pool has no such transaction, offers `p`. */
  predicate Offered(pool: Pool, spents: Spents, coins: CoinMap, p: OutPoint) {
    if p.txid in pool then PoolHasCoin(pool, spents, p) else p in coins
  }

  /** The coin that is offered for `p`: one of unknown height when it comes from the pool. */
  function OfferedCoin(pool: Pool, coins: CoinMap, p: OutPoint): CoinEntry {
    if p.txid in pool && p.vout < |pool[p.txid].tx.outputs| then
      CoinEntry(pool[p.txid].tx.version, None, pool[p.txid].tx.IsCoinbase(), pool[p.txid].tx.outputs[p.vout], false)
    else if p in coins then coins[p]
    else CoinEntry(0, None, false, TxOut(0, 0, false), false)
  }

  predicate ViewAt(view: CoinMap, pool: Pool, spents: Spents, coins: CoinMap, ps: seq<OutPoint>, p: OutPoint) {
    && (p in view <==> p in ps && Offered(pool, spents, coins, p))
    && (p in view ==> view[p] == OfferedCoin(pool, coins, p))
  }

  ghost predicate IsViewOf(view: CoinMap, pool: Pool, spents: Spents, coins: CoinMap, ps: seq<OutPoint>) {
    forall p {:trigger ViewAt(view, pool, spents, coins, ps, p)} :: ViewAt(view, pool, spents, coins, ps, p)
  }

  function OfferedCoins(pool: Pool, coins: CoinMap, ps: seq<OutPoint>): seq<CoinEntry> {
    seq(|ps|, i requires 0 <= i < |ps| => OfferedCoin(pool, coins, ps[i]))
  }

  predicate AllOffered(pool: Pool, spents: Spents, coins: CoinMap, ps: seq<OutPoint>) {
    forall i :: 0 <= i < |ps| ==> Offered(pool, spents, coins, ps[i])
  }

  /** Exactly the transactions that may enter the pool. */
  ghost predicate Admissible(pool: Pool, spents: Spents, coins: CoinMap, tx: Tx, height: nat, policy: bool,
                             accepted: bool) {
    && Sane(tx) && !tx.IsCoinbase() && policy && accepted
    && tx.txid !in pool && !HasCoins(coins, tx)
    && (forall i :: 0 <= i < |tx.inputs| ==> tx.inputs[i] !in spents)
    && AllOffered(pool, spents, coins, tx.inputs)
    && TakesEnough(OfferedCoins(pool, coins, tx.inputs), tx, height + 1)
  }

  /** What is admitted on top of the chain alone passes in the next block. */
  lemma AdmissiblePassesNext(txOf: TxOf, pool: Pool, spents: Spents, coins: CoinMap, tx: Tx, height: nat, policy: bool,
                             accepted: bool)
    requires PoolIndexed(txOf, pool, spents) && Admissible(pool, spents, coins, tx, height, policy, accepted)
    requires forall i :: 0 <= i < |tx.inputs| ==> tx.inputs[i].txid !in pool
    ensures TxPasses(coins, tx, height + 1) && 0 <= Fee(coins, tx)
  {
    forall i | 0 <= i < |tx.inputs|
      ensures tx.inputs[i] in coins && OfferedCoin(pool, coins, tx.inputs[i]) == coins[tx.inputs[i]]
    {
      assert Offered(pool, spents, coins, tx.inputs[i]);
    }
    assert OfferedCoins(pool, coins, tx.inputs) == CoinsAt(coins, tx.inputs);
  }

  predicate SpendsCoinbase(pool: Pool, coins: CoinMap, ps: seq<OutPoint>) {
    exists i :: 0 <= i < |ps| && OfferedCoin(pool, coins, ps[i]).coinbase
  }

  function NewEntry(pool: Pool, coins: CoinMap, tx: Tx, height: nat): MemPoolEntry {
    MemPoolEntry(tx, height, SpendsCoinbase(pool, coins, tx.inputs))
  }

  /** What library code decides about a transaction that is put back. */
  datatype Verdicts = Verdicts(policy: Txid -> bool, signalled: Txid -> bool, accepted: Txid -> bool)

  /** Pool and index after `tx` was put back, if it is not there and is admissible. */
  ghost function WithBack(pool: Pool, spents: Spents, tx: Tx, coins: CoinMap, height: nat, v: Verdicts)
    : (Pool, Spents)
  {
    if tx.txid !in pool && Admissible(pool, spents, coins, tx, height, v.policy(tx.txid), v.accepted(tx.txid))
    then (pool[tx.txid := NewEntry(pool, coins, tx, height)], IndexedUnder(spents, tx, |tx.inputs|))
    else (pool, spents)
  }

  /** Pool and index after the transactions up to the `n`-th were put back in order, but never the coinbase. */
  ghost function PutBack(pool: Pool, spents: Spents, txs: seq<Tx>, n: nat, coins: CoinMap, height: nat,
                         v: Verdicts): (Pool, Spents)
    requires n <= |txs|
  {
    if n <= 1 then (pool, spents)
    else
      var (p, s) := PutBack(pool, spents, txs, n - 1, coins, height, v);
      WithBack(p, s, txs[n - 1], coins, height, v)
  }

  lemma PutBackOneMore(pool: Pool, spents: Spents, txs: seq<Tx>, n: nat, coins: CoinMap, height: nat, v: Verdicts)
    requires 0 < n < |txs|
    ensures var now := PutBack(pool, spents, txs, n, coins, height, v);
            PutBack(pool, spents, txs, n + 1, coins, height, v) == WithBack(now.0, now.1, txs[n], coins, height, v)
  {
  }

  lemma ViewOneMore(view: CoinMap, pool: Pool, spents: Spents, coins: CoinMap, ps: seq<OutPoint>, i: nat)
    requires i < |ps| && IsViewOf(view, pool, spents, coins, ps[..i])
    ensures IsViewOf(if Offered(pool, spents, coins, ps[i]) then view[ps[i] := OfferedCoin(pool, coins, ps[i])]
                     else view, pool, spents, coins, ps[..i + 1])
  {
    var more := if Offered(pool, spents, coins, ps[i]) then view[ps[i] := OfferedCoin(pool, coins, ps[i])] else view;
    var first := ps[..i + 1];
    forall q
      ensures ViewAt(more, pool, spents, coins, first, q)
    {
      assert ViewAt(view, pool, spents, coins, ps[..i], q);
      assert q in first <==> q in ps[..i] || q == ps[i];
    }
  }

  lemma MissingIsNotOffered(view: CoinMap, pool: Pool, spents: Spents, coins: CoinMap, ps: seq<OutPoint>)
    requires IsViewOf(view, pool, spents, coins, ps) && !AllPresent(view, ps)
    ensures exists i :: 0 <= i < |ps| && !Offered(pool, spents, coins, ps[i])
  {
    var i :| 0 <= i < |ps| && ps[i] !in view;
    assert ViewAt(view, pool, spents, coins, ps, ps[i]);
  }

  lemma ViewIsOffered(txOf: TxOf, pool: Pool, spents: Spents, coins: CoinMap, ps: seq<OutPoint>, view: CoinMap)
    requires PoolIndexed(txOf, pool, spents) && KnownHeights(coins) && IsViewOf(view, pool, spents, coins, ps)
             && AllPresent(view, ps)
    ensures CoinsAt(view, ps) == OfferedCoins(pool, coins, ps)
    ensures forall i :: 0 <= i < |ps| ==>
              Offered(pool, spents, coins, ps[i]) && view[ps[i]] == OfferedCoin(pool, coins, ps[i])
    ensures forall p :: p in view && view[p].coinbase ==> view[p].height.Some?
  {
    forall p | p in view
      ensures view[p].coinbase ==> view[p].height.Some?
    {
      assert ViewAt(view, pool, spents, coins, ps, p);
      if p.txid in pool {
        assert IsIndexed(txOf, pool, spents, p.txid);
      }
    }
    forall i | 0 <= i < |ps|
      ensures Offered(pool, spents, coins, ps[i]) && view[ps[i]] == OfferedCoin(pool, coins, ps[i])
    {
      assert ViewAt(view, pool, spents, coins, ps, ps[i]);
    }
  }

  function IndexedUnder(spents: Spents, tx: Tx, n: nat): Spents
    requires n <= |tx.inputs|
  {
    if n == 0 then spents else IndexedUnder(spents, tx, n - 1)[tx.inputs[n - 1] := tx.txid]
  }

  class MemPool {
    var transactions: Pool
    var spents: Spents
    ghost const txOf: TxOf

    constructor (ghost f: TxOf)
      ensures transactions == map[] && spents == map[] && txOf == f && Indexed()
    {
      transactions, spents, txOf := map[], map[], f;
    }

    ghost predicate Indexed()
      reads this
    {
      PoolIndexed(txOf, transactions, spents)
    }

    /** Removes the transaction that spends `p`, if there is one in the pool. */
    method RemoveSpent(p: OutPoint) returns (r: Option<MemPoolEntry>)
      requires Indexed()
      modifies this
      ensures Indexed()
      ensures r.None? ==> transactions == old(transactions)
      ensures r.Some? ==>
                var s := r.value.tx.txid;
                s in old(transactions) && r.value == old(transactions)[s] && p in r.value.tx.inputs
                && transactions == old(transactions) - {s}
      ensures NoneSpendsOne(transactions, p) && spents == old(spents) - {p}
    {
      r := None;
      assert p !in spents ==> spents - {p} == spents;
      RemovalKeepsIndex(txOf, transactions, spents, p);
      if p in spents {
        var txid := spents[p];
        spents := spents - {p};
        if txid in transactions {
          r := Some(transactions[txid]);
          transactions := transactions - {txid};
        }
      }
    }

    /** Removes everything that descends from an entry that is already out of the pool. */
    method RemoveSpenders(entry: MemPoolEntry)
      requires Indexed()
      modifies this
      ensures Indexed()
      ensures Removed(old(transactions), transactions, Outputs(entry.tx)) && NoneSpends(transactions, Outputs(entry.tx))
      ensures |transactions| <= |old(transactions)|
      decreases |transactions|
    {
      ghost var before := transactions;
      var outputs := Outputs(entry.tx);
      for i := 0 to |outputs|
        invariant Indexed()
        invariant Removed(before, transactions, outputs) && NoneSpends(transactions, outputs[..i])
        invariant |transactions| <= |before|
      {
        ghost var now := transactions;
        var spender := RemoveSpent(outputs[i]);
        ghost var mid := transactions;
        if spender.Some? {
          assert |transactions| < |now|;
          RemoveSpenders(spender.value);
        }
        OneMoreRemoved(before, now, mid, transactions, outputs, i, spender);
      }
      assert outputs[..|outputs|] == outputs;
    }

    /** Removes exactly the transactions that share an input with `tx` and all their descendants. */
    method RemoveDoubleSpends(tx: Tx)
      requires Indexed()
      modifies this
      ensures Indexed() && Shrinks(old(transactions), transactions) && NoneSpends(transactions, tx.inputs)
      ensures RemovedWithSpenders(old(transactions), transactions)
      ensures forall t :: t in transactions <==> t in old(transactions) && !Reached(old(transactions), tx.inputs, t)
    {
      ghost var before := transactions;
      for i := 0 to |tx.inputs|
        invariant Indexed()
        invariant Removed(before, transactions, tx.inputs) && NoneSpends(transactions, tx.inputs[..i])
      {
        ghost var now := transactions;
        var spender := RemoveSpent(tx.inputs[i]);
        ghost var mid := transactions;
        if spender.Some? {
          RemoveSpenders(spender.value);
        }
        OneMoreRemoved(before, now, mid, transactions, tx.inputs, i, spender);
      }
      assert tx.inputs[..|tx.inputs|] == tx.inputs;
      ExactlyReached(before, transactions, tx.inputs);
    }

    /** Takes the transactions of a connected block out, and whatever they make impossible. */
    method AddBlock(txs: seq<Tx>, ghost coins: CoinMap, ghost height: nat)
      requires Indexed() && Closed(transactions, coins)
      requires forall i :: 0 <= i < |txs| ==> txOf(txs[i].txid) == txs[i]
      modifies this
      ensures Indexed() && Shrinks(old(transactions), transactions)
      ensures Closed(transactions, ApplyBlock(coins, txs, height))
      ensures forall i :: 0 <= i < |txs| ==> txs[i].txid !in transactions && NoneSpends(transactions, txs[i].inputs)
    {
      if transactions == map[] {
        return;
      }
      for n := 0 to |txs|
        invariant Indexed() && Shrinks(old(transactions), transactions)
        invariant Closed(transactions, CoinsAfter(coins, txs, n, height))
        invariant forall i :: 0 <= i < n ==> txs[i].txid !in transactions && NoneSpends(transactions, txs[i].inputs)
      {
        ghost var before := transactions;
        if txs[n].txid in transactions {
          Confirm(txs[n]);
          ConfirmedKeepsClosed(before, transactions, CoinsAfter(coins, txs, n, height), txs[n], height);
        } else {
          RemoveDoubleSpends(txs[n]);
          ConflictKeepsClosed(before, transactions, CoinsAfter(coins, txs, n, height), txs[n], height);
        }
        StillGone(txs, n, before, transactions);
      }
    }

    /** Takes a pooled transaction that was confirmed out of the pool and the index. */
    method Confirm(tx: Tx)
      requires Indexed() && tx.txid in transactions && txOf(tx.txid) == tx
      modifies this
      ensures Indexed() && transactions == old(transactions) - {tx.txid} && old(transactions)[tx.txid].tx == tx
      ensures NoneSpends(transactions, tx.inputs) && spents == old(spents) - InputSet(tx.inputs)
    {
      var entry := transactions[tx.txid];
      transactions := transactions - {tx.txid};
      ConfirmingKeepsIndex(txOf, old(transactions), spents, tx);
      for i := 0 to |entry.tx.inputs|
        invariant Indexed()
        invariant transactions == old(transactions) - {tx.txid}
        invariant spents == old(spents) - InputSet(tx.inputs[..i])
      {
        UnspendingKeepsIndex(txOf, transactions, spents, entry.tx.inputs, i);
        TakeOneMore(tx.inputs, i);
        spents := spents - {entry.tx.inputs[i]};
      }
      assert tx.inputs[..|tx.inputs|] == tx.inputs;
    }

    /** The coins for the inputs of `tx`, as far as pool and chain offer them. */
    method GetCoinView(coins: CoinMap, tx: Tx) returns (view: CoinMap)
      ensures IsViewOf(view, transactions, spents, coins, tx.inputs)
    {
      view := map[];
      for i := 0 to |tx.inputs|
        invariant IsViewOf(view, transactions, spents, coins, tx.inputs[..i])
      {
        var p := tx.inputs[i];
        ViewOneMore(view, transactions, spents, coins, tx.inputs, i);
        if p.txid in transactions {
          var parent := transactions[p.txid].tx;
          if p !in spents && p.vout < |parent.outputs| {
            view := view[p := CoinEntry(parent.version, None, parent.IsCoinbase(), parent.outputs[p.vout], false)];
          }
        } else if p in coins {
          view := view[p := coins[p]];
        }
      }
      assert tx.inputs[..|tx.inputs|] == tx.inputs;
    }

    /** Whether `tx` may enter the pool, and whether it spends a coinbase. */
    method Check(coins: CoinMap, tx: Tx, height: nat, policy: bool, signalled: bool, accepted: bool)
      returns (r: Result<bool, PoolError>)
      requires Indexed() && KnownHeights(coins)
      ensures r.Ok? <==> Admissible(transactions, spents, coins, tx, height, policy, accepted)
      ensures r.Ok? ==> (r.value <==> SpendsCoinbase(transactions, coins, tx.inputs))
    {
      var insane := CheckSanity(tx);
      if insane.Some? {
        return Err(Insane(insane.value));
      }
      if tx.IsCoinbase() {
        return Err(CoinbaseTx);
      }
      if !policy {
        return Err(AgainstPolicy);
      }
      if tx.txid in transactions {
        return Err(Duplicate);
      }
      var there := LookForCoins(coins, tx);
      if there {
        return Err(Duplicate);
      }
      if exists i :: 0 <= i < |tx.inputs| && tx.inputs[i] in spents {
        return Err(if signalled then ReplaceByFee else DoubleSpend);
      }
      r := CheckSpending(coins, tx, height, accepted);
    }

    /** Whether pool and chain offer what `tx` spends, and enough of it. */
    method CheckSpending(coins: CoinMap, tx: Tx, height: nat, accepted: bool) returns (r: Result<bool, PoolError>)
      requires Indexed() && KnownHeights(coins)
      ensures r.Ok? <==>
                accepted && AllOffered(transactions, spents, coins, tx.inputs)
                && TakesEnough(OfferedCoins(transactions, coins, tx.inputs), tx, height + 1)
      ensures r.Ok? ==> (r.value <==> SpendsCoinbase(transactions, coins, tx.inputs))
    {
      var view := GetCoinView(coins, tx);
      if exists i :: 0 <= i < |tx.inputs| && tx.inputs[i] !in view {
        MissingIsNotOffered(view, transactions, spents, coins, tx.inputs);
        return Err(Orphan);
      }
      var coinbase := exists i :: 0 <= i < |tx.inputs| && view[tx.inputs[i]].coinbase;
      ViewIsOffered(txOf, transactions, spents, coins, tx.inputs, view);
      var checked := CheckInputs(view, tx, height + 1);
      r := if checked.Ok? && accepted then Ok(coinbase) else Err(Refused);
    }

    /** Admits a transaction to the pool, or leaves the pool as it is.  `policy` stands for version,
        witness and finality checks, `accepted` for locks and scripts, `signalled` for the
        replacement signal. */
    method AddTx(coins: CoinMap, tx: Tx, height: nat, policy: bool, signalled: bool, accepted: bool)
      returns (error: Option<PoolError>)
      requires Indexed() && KnownHeights(coins) && txOf(tx.txid) == tx
      modifies this
      ensures Indexed()
      ensures error.None? <==> Admissible(old(transactions), old(spents), coins, tx, height, policy, accepted)
      ensures error.None? ==>
                transactions == old(transactions)[tx.txid := NewEntry(old(transactions), coins, tx, height)]
      ensures error.None? ==> spents == IndexedUnder(old(spents), tx, |tx.inputs|)
      ensures error.Some? ==> transactions == old(transactions) && spents == old(spents)
      ensures error.None? && NoDeadOutputs(old(transactions), tx) && old(Closed(transactions, coins)) ==>
                Closed(transactions, coins)
    {
      var checked := Check(coins, tx, height, policy, signalled, accepted);
      match checked
      case Err(e) =>
        return Some(e);
      case Ok(coinbase) =>
        Insert(tx, height, coinbase);
        AddingKeepsClosed(old(transactions), transactions, old(spents), coins, tx);
        return None;
    }

    /** Puts the transactions of a disconnected block back, as far as the pool admits them. */
    method RemoveBlock(txs: seq<Tx>, coins: CoinMap, height: nat, v: Verdicts)
      requires Indexed() && KnownHeights(coins)
      requires forall i :: 0 <= i < |txs| ==> txOf(txs[i].txid) == txs[i]
      modifies this
      ensures Indexed()
      ensures (transactions, spents) == if old(transactions) == map[] then old((transactions, spents))
              else PutBack(old(transactions), old(spents), txs, |txs|, coins, height, v)
    {
      if transactions == map[] {
        return;
      }
      ghost var pool, index := transactions, spents;
      var i := if |txs| > 1 then 1 else |txs|;
      while i < |txs|
        invariant i <= |txs| && (i == 0 ==> |txs| == 0)
        invariant Indexed() && (transactions, spents) == PutBack(pool, index, txs, i, coins, height, v)
      {
        ReAdd(txs[i], coins, height, v);
        PutBackOneMore(pool, index, txs, i, coins, height, v);
        i := i + 1;
      }
    }

    method ReAdd(tx: Tx, coins: CoinMap, height: nat, v: Verdicts)
      requires Indexed() && KnownHeights(coins) && txOf(tx.txid) == tx
      modifies this
      ensures Indexed() && (transactions, spents) == WithBack(old(transactions), old(spents), tx, coins, height, v)
    {
      if tx.txid in transactions {
        return;
      }
      var error := AddTx(coins, tx, height, v.policy(tx.txid), v.signalled(tx.txid), v.accepted(tx.txid));
    }

    method Insert(tx: Tx, height: nat, coinbase: bool)
      requires Indexed() && txOf(tx.txid) == tx && !tx.IsCoinbase() && tx.txid !in transactions
      requires forall p :: p in tx.inputs ==> p !in spents
      modifies this
      ensures Indexed() && transactions == old(transactions)[tx.txid := MemPoolEntry(tx, height, coinbase)]
      ensures spents == IndexedUnder(old(spents), tx, |tx.inputs|)
    {
      for i := 0 to |tx.inputs|
        invariant transactions == old(transactions)
        invariant spents == IndexedUnder(old(spents), tx, i)
      {
        spents := spents[tx.inputs[i] := tx.txid];
      }
      transactions := transactions[tx.txid := MemPoolEntry(tx, height, coinbase)];
      AddingKeepsIndex(txOf, old(transactions), old(spents), MemPoolEntry(tx, height, coinbase));
    }
  }

  ghost predicate RemovedWithSpenders(before: Pool, after: Pool) {
    forall r {:trigger Gone(before, after, r)} :: Gone(before, after, r) ==> NoneSpends(after, Outputs(before[r].tx))
  }

  /** Where an input comes from: a spendable output in the pool, or a coin on the chain. */
  predicate Funded(pool: Pool, coins: CoinMap, p: OutPoint) {
    (p.txid in pool && pool[p.txid].tx.IsSpendable(p.vout)) || p in coins
  }

  predicate IsFunded(pool: Pool, coins: CoinMap, t: Txid)
    requires t in pool
  {
    pool[t].tx.txid == t && forall p :: p in pool[t].tx.inputs ==> Funded(pool, coins, p)
  }

  /** Every input of every pooled transaction can be spent from the pool or the chain. */
  ghost predicate Closed(pool: Pool, coins: CoinMap) {
    forall t {:trigger IsFunded(pool, coins, t)} :: t in pool ==> IsFunded(pool, coins, t)
  }

  ghost predicate NoneSpendsOne(pool: Pool, p: OutPoint) {
    forall t {:trigger t in pool} :: t in pool ==> p !in pool[t].tx.inputs
  }

  lemma RemovalKeepsIndex(txOf: TxOf, pool: Pool, spents: Spents, p: OutPoint)
    requires PoolIndexed(txOf, pool, spents)
    ensures p !in spents ==> NoneSpendsOne(pool, p)
    ensures p in spents && spents[p] !in pool ==> NoneSpendsOne(pool, p) && PoolIndexed(txOf, pool, spents - {p})
    ensures p in spents && spents[p] in pool ==>
              && NoneSpendsOne(pool - {spents[p]}, p) && PoolIndexed(txOf, pool - {spents[p]}, spents - {p})
              && pool[spents[p]].tx.txid == spents[p] && p in pool[spents[p]].tx.inputs
  {
    forall t | t in pool
      ensures p in pool[t].tx.inputs ==> p in spents && spents[p] == t
    {
      assert IsIndexed(txOf, pool, spents, t);
    }
    if p in spents {
      assert IsInput(txOf, spents[p], p);
      var less := pool - {spents[p]};
      forall t | t in less
        ensures IsIndexed(txOf, less, spents - {p}, t)
      {
        assert IsIndexed(txOf, pool, spents, t);
      }
      if spents[p] in pool {
        assert IsIndexed(txOf, pool, spents, spents[p]);
      } else {
        assert less == pool;
      }
    }
  }

  /** Every key of the index names a pooled transaction. */
  ghost predicate NoStaleKeys(pool: Pool, spents: Spents) {
    forall q {:trigger q in spents} :: q in spents ==> spents[q] in pool
  }

  /** Removing the spender of `p` keeps the index free of stale keys exactly when `p` is all it spends. */
  lemma StaleKeysRemainUnless(txOf: TxOf, pool: Pool, spents: Spents, p: OutPoint)
    requires PoolIndexed(txOf, pool, spents) && NoStaleKeys(pool, spents) && p in spents
    ensures NoStaleKeys(pool - {spents[p]}, spents - {p}) <==> forall q :: q in pool[spents[p]].tx.inputs ==> q == p
  {
    var s := spents[p];
    assert IsIndexed(txOf, pool, spents, s);
    if q :| q in pool[s].tx.inputs && q != p {
      assert q in spents - {p} && (spents - {p})[q] == s;
    } else {
      forall q | q in spents - {p}
        ensures (spents - {p})[q] in pool - {s}
      {
        assert IsInput(txOf, spents[q], q);
      }
    }
  }

  /** Where no stale keys are around, the pool offers an output of one of its transactions exactly when
      none of the others spends it. */
  lemma OfferedUnlessSpent(txOf: TxOf, pool: Pool, spents: Spents, coins: CoinMap, p: OutPoint)
    requires PoolIndexed(txOf, pool, spents) && NoStaleKeys(pool, spents) && p.txid in pool
    ensures Offered(pool, spents, coins, p) <==> p.vout < |pool[p.txid].tx.outputs| && NoneSpendsOne(pool, p)
  {
    if p in spents {
      assert IsInput(txOf, spents[p], p) && IsIndexed(txOf, pool, spents, spents[p]);
    } else {
      forall t | t in pool
        ensures p !in pool[t].tx.inputs
      {
        assert IsIndexed(txOf, pool, spents, t);
      }
    }
  }

  /** A transaction that has just entered offers its outputs, as coins without a height. */
  lemma NewParentOffers(txOf: TxOf, pool: Pool, spents: Spents, coins: CoinMap, entry: MemPoolEntry, vout: nat)
    requires PoolIndexed(txOf, pool, spents) && vout < |entry.tx.outputs|
    requires var p := OutPoint(entry.tx.txid, vout); p !in spents && p !in entry.tx.inputs
    ensures var p, after := OutPoint(entry.tx.txid, vout), pool[entry.tx.txid := entry];
            && Offered(after, IndexedUnder(spents, entry.tx, |entry.tx.inputs|), coins, p)
            && OfferedCoin(after, coins, p) ==
                 CoinEntry(entry.tx.version, None, entry.tx.IsCoinbase(), entry.tx.outputs[vout], false)
  {
    var p := OutPoint(entry.tx.txid, vout);
    IndexedUnderAt(spents, entry.tx, |entry.tx.inputs|, p);
    assert entry.tx.inputs[..|entry.tx.inputs|] == entry.tx.inputs;
  }

  lemma ConfirmingKeepsIndex(txOf: TxOf, pool: Pool, spents: Spents, tx: Tx)
    requires PoolIndexed(txOf, pool, spents) && tx.txid in pool && txOf(tx.txid) == tx
    ensures pool[tx.txid].tx == tx
    ensures PoolIndexed(txOf, pool - {tx.txid}, spents) && NoneSpends(pool - {tx.txid}, tx.inputs)
  {
    var less := pool - {tx.txid};
    assert IsIndexed(txOf, pool, spents, tx.txid);
    forall t | t in less
      ensures IsIndexed(txOf, less, spents, t) && !Spends(less[t].tx, tx.inputs)
    {
      assert IsIndexed(txOf, pool, spents, t);
      NoSharedInputs(txOf, pool, spents, t, tx.txid);
    }
  }

  lemma UnspendingKeepsIndex(txOf: TxOf, pool: Pool, spents: Spents, ps: seq<OutPoint>, i: nat)
    requires PoolIndexed(txOf, pool, spents) && i < |ps| && NoneSpends(pool, ps)
    ensures PoolIndexed(txOf, pool, spents - {ps[i]})
  {
    forall t | t in pool
      ensures IsIndexed(txOf, pool, spents - {ps[i]}, t)
    {
      assert IsIndexed(txOf, pool, spents, t) && !Spends(pool[t].tx, ps);
    }
    forall p | p in spents - {ps[i]}
      ensures IsInput(txOf, (spents - {ps[i]})[p], p)
    {
      assert IsInput(txOf, spents[p], p);
    }
  }

  /** A confirmed transaction's outputs become coins, so what spends them stays funded. */
  lemma ConfirmedKeepsClosed(before: Pool, after: Pool, coins: CoinMap, tx: Tx, height: nat)
    requires Closed(before, coins) && tx.txid in before && before[tx.txid].tx == tx && after == before - {tx.txid}
    requires NoneSpends(after, tx.inputs)
    ensures Closed(after, ApplyTx(coins, tx, height))
  {
    forall t | t in after
      ensures IsFunded(after, ApplyTx(coins, tx, height), t)
    {
      assert IsFunded(before, coins, t) && !Spends(after[t].tx, tx.inputs);
      forall p | p in after[t].tx.inputs
        ensures Funded(after, ApplyTx(coins, tx, height), p)
      {
        assert Funded(before, coins, p);
        AppliedAt(coins, tx, height, p);
      }
    }
  }

  /** What still stands after a foreign transaction was confirmed lost neither coin nor parent. */
  lemma ConflictKeepsClosed(before: Pool, after: Pool, coins: CoinMap, tx: Tx, height: nat)
    requires Closed(before, coins) && Shrinks(before, after) && RemovedWithSpenders(before, after)
    requires NoneSpends(after, tx.inputs)
    ensures Closed(after, ApplyTx(coins, tx, height))
  {
    forall t | t in after
      ensures IsFunded(after, ApplyTx(coins, tx, height), t)
    {
      assert Keeps(before, t, after[t]);
      assert IsFunded(before, coins, t) && !Spends(after[t].tx, tx.inputs);
      forall p | p in after[t].tx.inputs
        ensures Funded(after, ApplyTx(coins, tx, height), p)
      {
        assert Funded(before, coins, p);
        AppliedAt(coins, tx, height, p);
        if p.txid in before && before[p.txid].tx.IsSpendable(p.vout) {
          assert IsFunded(before, coins, p.txid);
          ParentStays(before, after, t, p);
        }
      }
    }
  }

  lemma ParentStays(before: Pool, after: Pool, t: Txid, p: OutPoint)
    requires Shrinks(before, after) && RemovedWithSpenders(before, after) && t in after && p in after[t].tx.inputs
    requires p.txid in before && before[p.txid].tx.txid == p.txid && before[p.txid].tx.IsSpendable(p.vout)
    ensures p.txid in after && after[p.txid] == before[p.txid]
  {
    if p.txid in after {
      assert Keeps(before, p.txid, after[p.txid]);
    } else {
      assert Gone(before, after, p.txid);
      assert Outputs(before[p.txid].tx)[p.vout] == p;
      assert Spends(after[t].tx, Outputs(before[p.txid].tx));
    }
  }

  lemma StillGone(txs: seq<Tx>, n: nat, before: Pool, after: Pool)
    requires n < |txs| && Shrinks(before, after)
    requires forall i :: 0 <= i < n ==> txs[i].txid !in before && NoneSpends(before, txs[i].inputs)
    ensures forall i :: 0 <= i < n ==> txs[i].txid !in after && NoneSpends(after, txs[i].inputs)
  {
    forall i | 0 <= i < n
      ensures txs[i].txid !in after && NoneSpends(after, txs[i].inputs)
    {
      forall t | t in after
        ensures t in before && !Spends(after[t].tx, txs[i].inputs)
      {
        assert Keeps(before, t, after[t]);
      }
    }
  }

  lemma {:induction false} IndexedUnderAt(spents: Spents, tx: Tx, n: nat, p: OutPoint)
    requires n <= |tx.inputs|
    ensures p in IndexedUnder(spents, tx, n) <==> p in spents || p in tx.inputs[..n]
    ensures p in tx.inputs[..n] ==> IndexedUnder(spents, tx, n)[p] == tx.txid
    ensures p in spents && p !in tx.inputs[..n] ==> IndexedUnder(spents, tx, n)[p] == spents[p]
  {
    if n > 0 {
      IndexedUnderAt(spents, tx, n - 1, p);
      assert tx.inputs[..n] == tx.inputs[..n - 1] + [tx.inputs[n - 1]];
    }
  }

  lemma AddingKeepsIndex(txOf: TxOf, pool: Pool, spents: Spents, entry: MemPoolEntry)
    requires PoolIndexed(txOf, pool, spents) && txOf(entry.tx.txid) == entry.tx && !entry.tx.IsCoinbase()
    requires entry.tx.txid !in pool && forall p :: p in entry.tx.inputs ==> p !in spents
    ensures PoolIndexed(txOf, pool[entry.tx.txid := entry], IndexedUnder(spents, entry.tx, |entry.tx.inputs|))
  {
    var tx := entry.tx;
    var after := pool[tx.txid := entry];
    var index := IndexedUnder(spents, tx, |tx.inputs|);
    assert tx.inputs[..|tx.inputs|] == tx.inputs;
    forall t | t in after
      ensures IsIndexed(txOf, after, index, t)
    {
      if t != tx.txid {
        assert IsIndexed(txOf, pool, spents, t);
      }
      forall p | p in after[t].tx.inputs
        ensures p in index && index[p] == t
      {
        IndexedUnderAt(spents, tx, |tx.inputs|, p);
      }
    }
    forall p | p in index
      ensures IsInput(txOf, index[p], p)
    {
      IndexedUnderAt(spents, tx, |tx.inputs|, p);
      assert p in spents ==> IsInput(txOf, spents[p], p);
    }
  }

  /** No input of `tx` is an output in the pool whose script can never be satisfied: what running
      the scripts makes sure of. */
  predicate NoDeadOutputs(pool: Pool, tx: Tx) {
    forall p :: p in tx.inputs && p.txid in pool && p.vout < |pool[p.txid].tx.outputs| ==>
        pool[p.txid].tx.IsSpendable(p.vout)
  }

  lemma AddingKeepsClosed(before: Pool, after: Pool, spents: Spents, coins: CoinMap, tx: Tx)
    requires tx.txid in after && after[tx.txid].tx == tx && tx.txid !in before
             && after == before[tx.txid := after[tx.txid]]
    requires forall i :: 0 <= i < |tx.inputs| ==> Offered(before, spents, coins, tx.inputs[i])
    ensures Closed(before, coins) && NoDeadOutputs(before, tx) ==> Closed(after, coins)
  {
    if Closed(before, coins) && NoDeadOutputs(before, tx) {
      forall t | t in after
        ensures IsFunded(after, coins, t)
      {
        assert t != tx.txid ==> IsFunded(before, coins, t);
        forall p | p in after[t].tx.inputs
          ensures Funded(after, coins, p)
        {
          assert t != tx.txid ==> Funded(before, coins, p);
        }
      }
    }
  }
}
