/** The pool beside a growing chain: what holds after any additions and block connects. */
module MemPoolRun {
  import opened Primitives
  import opened Coins
  import opened Ledger
  import opened Checks
  import opened History
  import opened Undo
  import opened MemPool

  datatype Event =
    | Enters(tx: Tx, policy: bool, signalled: bool, accepted: bool)
    | Connects(txs: seq<Tx>)

  /** The coins, the height they are those of, and every outpoint that existed so far. */
  datatype ChainView = ChainView(coins: CoinMap, height: nat, ever: set<OutPoint>)

  function Next(c: ChainView, e: Event): ChainView {
    match e
    case Enters(_, _, _, _) => c
    case Connects(txs) => ChainView(ApplyBlock(c.coins, txs, c.height + 1), c.height + 1, EverWith(c.ever, txs, |txs|))
  }

  function Over(c: ChainView, events: seq<Event>): ChainView
    decreases |events|
  {
    if events == [] then c else Over(Next(c, events[0]), events[1..])
  }

  /** What was spent on the chain is gone for good. */
  ghost predicate ChainOk(txOf: TxOf, c: ChainView) {
    SpentForGood(txOf, c.coins, c.ever) && Normal(c.coins) && KnownHeights(c.coins) && c.height < MAX_HEIGHT
  }

  /** Transactions are what their txids say, and a block is one that may be connected, with a coinbase
      that is new to the chain. */
  ghost predicate MayHappen(txOf: TxOf, c: ChainView, e: Event) {
    match e
    case Enters(tx, _, _, _) => IsKnown(txOf, tx)
    case Connects(txs) =>
      && c.height + 1 < MAX_HEIGHT && AllKnown(txOf, txs) && WellShaped(txs) && NoneExisted(c.ever, txs[0])
      && AllSpendable(c.coins, txs, |txs|, c.height + 1)
  }

  ghost predicate MayAllHappen(txOf: TxOf, c: ChainView, events: seq<Event>)
    decreases |events|
  {
    events != [] ==> MayHappen(txOf, c, events[0]) && MayAllHappen(txOf, Next(c, events[0]), events[1..])
  }

  predicate IsNew(pool: Pool, ever: set<OutPoint>, t: Txid)
    requires t in pool
  {
    forall p :: p in ever ==> !Creates(pool[t].tx, |pool[t].tx.outputs|, p)
  }

  /** No output of a pooled transaction ever was a coin on the chain. */
  ghost predicate NoneCreated(pool: Pool, ever: set<OutPoint>) {
    forall t {:trigger IsNew(pool, ever, t)} :: t in pool ==> IsNew(pool, ever, t)
  }

  ghost predicate PoolSafe(txOf: TxOf, pool: Pool, spents: Spents, c: ChainView) {
    ChainOk(txOf, c) && PoolIndexed(txOf, pool, spents) && Closed(pool, c.coins) && NoneCreated(pool, c.ever)
  }

  /** What a pooled transaction spends is a coin, or was never one: nothing spent on the chain is
      spent again, and no two transactions spend the same. */
  lemma NothingIsSpentAgain(txOf: TxOf, pool: Pool, spents: Spents, c: ChainView, t: Txid, p: OutPoint)
    requires PoolSafe(txOf, pool, spents, c) && t in pool && p in pool[t].tx.inputs
    ensures p in c.ever ==> p in c.coins
    ensures forall s :: s in pool && s != t ==> p !in pool[s].tx.inputs
  {
    assert IsFunded(pool, c.coins, t) && Funded(pool, c.coins, p);
    if p.txid in pool && p in c.ever {
      assert IsNew(pool, c.ever, p.txid) && IsFunded(pool, c.coins, p.txid);
    }
    forall s | s in pool && s != t
      ensures p !in pool[s].tx.inputs
    {
      NoSharedInputs(txOf, pool, spents, s, t);
    }
  }

  /** No output of what may enter the pool ever was a coin: its inputs would be gone. */
  lemma AdmissibleIsNew(txOf: TxOf, pool: Pool, spents: Spents, c: ChainView, tx: Tx)
    requires PoolSafe(txOf, pool, spents, c) && IsKnown(txOf, tx) && tx.inputs != [] && !tx.IsCoinbase()
    requires AllOffered(pool, spents, c.coins, tx.inputs) && NoDeadOutputs(pool, tx)
    ensures NoneExisted(c.ever, tx)
  {
    forall p | p in c.ever
      ensures !Creates(tx, |tx.outputs|, p)
    {
      assert InputsGone(txOf, c.coins, c.ever, p);
      var q := tx.inputs[0];
      assert Offered(pool, spents, c.coins, q);
      if q.txid in pool {
        assert IsNew(pool, c.ever, q.txid) && IsFunded(pool, c.coins, q.txid);
      }
    }
  }

  lemma EnteringIsSafe(txOf: TxOf, pool: Pool, spents: Spents, after: Pool, index: Spents, c: ChainView, tx: Tx)
    requires PoolSafe(txOf, pool, spents, c) && PoolIndexed(txOf, after, index) && Closed(after, c.coins)
    requires tx.txid in after && after[tx.txid].tx == tx && after == pool[tx.txid := after[tx.txid]]
             && NoneExisted(c.ever, tx)
    ensures PoolSafe(txOf, after, index, c)
  {
    forall t | t in after
      ensures IsNew(after, c.ever, t)
    {
      assert t != tx.txid ==> IsNew(pool, c.ever, t);
    }
  }

  lemma {:induction false} EverHas(ever: set<OutPoint>, txs: seq<Tx>, n: nat, p: OutPoint)
    requires n <= |txs|
    ensures p in EverWith(ever, txs, n) ==> p in ever || exists i :: 0 <= i < n && Creates(txs[i], |txs[i].outputs|, p)
  {
    if n > 0 {
      EverHas(ever, txs, n - 1, p);
    }
  }

  lemma ConnectingIsSafe(txOf: TxOf, pool: Pool, after: Pool, index: Spents, c: ChainView, txs: seq<Tx>)
    requires ChainOk(txOf, c) && NoneCreated(pool, c.ever) && MayHappen(txOf, c, Connects(txs))
             && Shrinks(pool, after)
    requires PoolIndexed(txOf, after, index) && Closed(after, Next(c, Connects(txs)).coins)
    requires forall i :: 0 <= i < |txs| ==> txs[i].txid !in after
    ensures PoolSafe(txOf, after, index, Next(c, Connects(txs)))
  {
    ChainGrows(txOf, c, txs);
    forall t | t in after
      ensures after[t].tx.txid == t
    {
      assert IsIndexed(txOf, after, index, t);
    }
    StaysUncreated(pool, after, c.ever, txs);
  }

  lemma ChainGrows(txOf: TxOf, c: ChainView, txs: seq<Tx>)
    requires ChainOk(txOf, c) && MayHappen(txOf, c, Connects(txs))
    ensures ChainOk(txOf, Next(c, Connects(txs)))
  {
    BlockKeepsSpent(txOf, c.coins, c.ever, txs, |txs|, c.height + 1);
    StaysNormal(c.coins, txs, |txs|, c.height + 1);
  }

  lemma StaysUncreated(pool: Pool, after: Pool, ever: set<OutPoint>, txs: seq<Tx>)
    requires NoneCreated(pool, ever) && Shrinks(pool, after)
    requires forall t :: t in after ==> after[t].tx.txid == t
    requires forall i :: 0 <= i < |txs| ==> txs[i].txid !in after
    ensures NoneCreated(after, EverWith(ever, txs, |txs|))
  {
    forall t | t in after
      ensures IsNew(after, EverWith(ever, txs, |txs|), t)
    {
      assert Keeps(pool, t, after[t]) && IsNew(pool, ever, t);
      forall p | p in EverWith(ever, txs, |txs|)
        ensures !Creates(after[t].tx, |after[t].tx.outputs|, p)
      {
        EverHas(ever, txs, |txs|, p);
      }
    }
  }

  /** Handles one event; the verdict of the scripts is that they pass, which none does that spends
      an output with a script that can never be satisfied. */
  method Handle(m: MemPool, c: ChainView, e: Event)
    requires PoolSafe(m.txOf, m.transactions, m.spents, c) && MayHappen(m.txOf, c, e)
    modifies m
    ensures PoolSafe(m.txOf, m.transactions, m.spents, Next(c, e))
  {
    ghost var pool, spents := m.transactions, m.spents;
    match e {
      case Enters(tx, policy, signalled, accepted) =>
        var scripts := accepted && NoDeadOutputs(m.transactions, tx);
        var error := m.AddTx(c.coins, tx, c.height, policy, signalled, scripts);
        if error.None? {
          AdmissibleIsNew(m.txOf, pool, spents, c, tx);
          EnteringIsSafe(m.txOf, pool, spents, m.transactions, m.spents, c, tx);
        }
      case Connects(txs) =>
        m.AddBlock(txs, c.coins, c.height + 1);
        ConnectingIsSafe(m.txOf, pool, m.transactions, m.spents, c, txs);
    }
  }

  /** Any run of additions and block connects keeps the pool safe beside the chain it ends on. */
  method Run(m: MemPool, c: ChainView, events: seq<Event>)
    requires PoolSafe(m.txOf, m.transactions, m.spents, c) && MayAllHappen(m.txOf, c, events)
    modifies m
    ensures PoolSafe(m.txOf, m.transactions, m.spents, Over(c, events))
    decreases |events|
  {
    if events != [] {
      Handle(m, c, events[0]);
      Run(m, Next(c, events[0]), events[1..]);
    }
  }

  /** An empty pool beside an empty chain is where every run can start. */
  lemma StartIsSafe(txOf: TxOf)
    ensures PoolSafe(txOf, map[], map[], ChainView(map[], 0, {}))
  {
  }
}
