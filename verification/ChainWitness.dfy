/** Runs from an empty database that end where the chain promises less: at a halt, and with a tip
    that is not the best. */
module ChainWitness {
  import opened Primitives
  import opened Coins
  import opened Ledger
  import opened Checks
  import opened Consensus
  import opened Headers
  import opened MedianTime
  import opened ChainDb
  import opened Replay
  import opened BestChain
  import opened ChainInvariant
  import opened ChainSteps
  import opened History
  import opened Chain

  /** How high the common part of the chain is; the first coin is mature for the block above it. */
  const COMMON: nat := 100

  /** The block above the common part that spends, and its rival, whose coinbase claims too much. */
  const SPENDER: BlockHash := 102
  const RIVAL: BlockHash := 200

  /** A block that competes with the first one above the genesis block. */
  const FORK: BlockHash := 300

  const SPEND: Tx := Tx(1000, 1, [OutPoint(2, 0)], [TxOut(0, 0, false)], 10, 2)

  /** Coinbases claim nothing, but that of the rival one more than the subsidy. */
  function Coinbase(txid: Txid): Tx {
    Tx(txid, 1, [NULL_OUTPOINT], [TxOut(if txid == RIVAL then BASE_REWARD + 1 else 0, 0, false)], 10, 2)
  }

  function KnownTx(txid: Txid): Tx {
    if txid == 1000 then SPEND else Coinbase(txid)
  }

  function PrevHash(h: BlockHash): BlockHash {
    if h == RIVAL then COMMON + 1 else if h == FORK then 1 else if 2 <= h <= SPENDER then h - 1 else 0
  }

  function Txs(h: BlockHash): seq<Tx> {
    if h == SPENDER then [Coinbase(h), SPEND] else if h <= SPENDER || h == RIVAL || h == FORK then [Coinbase(h)] else []
  }

  function BlockAt(h: BlockHash): Block {
    Block(Header(h, 0, PrevHash(h), h, if h == RIVAL || h == FORK then 2 else 1), Txs(h))
  }

  /** Duplicates are looked for at every height, and nothing is wrong with scripts and locks. */
  const RULES: Rules := Rules(MAINNET_HALVING_INTERVAL, BIP34_IMPLIES_BIP30_LIMIT, (h: BlockHash) => true,
                              (h: BlockHash, t: Txid) => true)

  ghost function TheWorld(): World {
    World((h: BlockHash) => BlockAt(h), (t: Txid) => KnownTx(t), RULES, 1)
  }

  lemma TheWorldIsOk()
    ensures WorldOk(TheWorld())
  {
    var w := TheWorld();
    forall h
      ensures BlockFine(w, h)
    {
      assert w.blockOf(h) == BlockAt(h);
      forall i | 0 <= i < |Txs(h)|
        ensures IsKnown(w.txOf, Txs(h)[i])
      {
      }
    }
  }

  // ---- The blocks pass -----------------------------------------------------------------------------

  lemma BodiesAreOk(h: BlockHash)
    requires 2 <= h <= SPENDER || h == RIVAL || h == FORK
    ensures BodyOk(BlockAt(h).txs)
  {
    var txs := Txs(h);
    SizeOfOne(Coinbase(h));
    SaneTx(Coinbase(h));
    SaneTx(SPEND);
    if h == SPENDER {
      assert txs[..1] == [Coinbase(h)];
      assert TxsSize(txs) == TxsSize([Coinbase(h)]) + SPEND.StrippedSize();
    }
  }

  lemma SizeOfOne(tx: Tx)
    ensures TxsSize([tx]) == tx.StrippedSize()
  {
    assert [tx][..0] == [];
  }

  lemma SaneTx(tx: Tx)
    requires |tx.inputs| == |tx.outputs| == 1 && tx.outputs[0].value <= MAX_MONEY && tx.otherSize == 10
             && tx.scriptSigLen == 2
    requires tx.IsCoinbase() || tx.inputs[0] != NULL_OUTPOINT
    ensures Sane(tx) && OutputValue(tx, 1) == tx.outputs[0].value
  {
    assert OutputValue(tx, 1) == OutputValue(tx, 0) + tx.outputs[0].value;
  }

  /** The coins of the common chain are coinbases, and the first is among them. */
  lemma {:induction false} CommonCoins(k: nat, p: OutPoint)
    requires 0 < k <= COMMON
    ensures var w, coins := TheWorld(), Replayed(TheWorld(), k + 1, k);
            && (p in coins ==> 2 <= p.txid <= k + 1)
            && OutPoint(2, 0) in coins && coins[OutPoint(2, 0)] ==
                 CoinEntry(1, Some(1), true, TxOut(0, 0, false), false)
    decreases k
  {
    var w := TheWorld();
    assert w.blockOf(k + 1) == BlockAt(k + 1) && PrevOf(w, k + 1) == k;
    var before := Replayed(w, k, k - 1);
    assert ApplyBlock(before, [Coinbase(k + 1)], k) ==
             ApplyTx(CoinsAfter(before, [Coinbase(k + 1)], 0, k), Coinbase(k + 1), k);
    AppliedAt(before, Coinbase(k + 1), k, p);
    AppliedAt(before, Coinbase(k + 1), k, OutPoint(2, 0));
    if k > 1 {
      CommonCoins(k - 1, p);
    }
  }

  // ---- Which of them are fit ---------------------------------------------------------------------------

  lemma NoFeesOnOne(coins: CoinMap, tx: Tx, height: nat)
    requires tx.IsCoinbase()
    ensures Fees(coins, [tx], 1, height) == 0
  {
    assert Fees(coins, [tx], 0, height) == 0;
  }

  /** A block with nothing but a new coinbase is fit. */
  lemma CoinbaseAloneIsFit(coins: CoinMap, h: BlockHash, height: nat)
    requires Txs(h) == [Coinbase(h)] && (2 <= h <= SPENDER || h == FORK)
    requires forall p :: p in coins ==> p.txid != h
    ensures Fit(coins, BlockAt(h), height, RULES)
  {
    var block := BlockAt(h);
    BodiesAreOk(h);
    SaneTx(Coinbase(h));
    NoFeesOnOne(coins, Coinbase(h), height);
    forall i | 0 <= i < 1
      ensures PassesAt(coins, block, i, height, RULES)
    {
    }
  }

  lemma CommonIsFit(k: nat, e: ChainEntry)
    requires 0 < k <= COMMON && e.hash == k + 1 && e.height == k
    ensures FitAt(TheWorld(), e)
  {
    var w := TheWorld();
    assert w.blockOf(k + 1) == BlockAt(k + 1) && PrevOf(w, k + 1) == k;
    forall p | p in Replayed(w, k, k - 1)
      ensures p.txid != k + 1
    {
      if k > 1 {
        CommonCoins(k - 1, p);
      }
    }
    CoinbaseAloneIsFit(Replayed(w, k, k - 1), k + 1, k);
  }

  lemma RivalIsNotFit(e: ChainEntry)
    requires e.hash == RIVAL && e.height == COMMON + 1
    ensures !FitAt(TheWorld(), e)
  {
    var w := TheWorld();
    assert w.blockOf(RIVAL) == BlockAt(RIVAL);
    RivalClaimsTooMuch(Before(w, RIVAL, COMMON + 1));
  }

  lemma RivalClaimsTooMuch(coins: CoinMap)
    ensures !InputsAccepted(coins, BlockAt(RIVAL), COMMON + 1, RULES)
  {
    SaneTx(Coinbase(RIVAL));
    NoFeesOnOne(coins, Coinbase(RIVAL), COMMON + 1);
    assert Txs(RIVAL) == [Coinbase(RIVAL)];
  }

  /** The spender takes the first coin, which has just matured. */
  lemma SpenderIsFit(e: ChainEntry)
    requires e.hash == SPENDER && e.height == COMMON + 1
    ensures FitAt(TheWorld(), e)
  {
    var w := TheWorld();
    assert w.blockOf(SPENDER) == BlockAt(SPENDER) && PrevOf(w, SPENDER) == COMMON + 1;
    BodiesAreOk(SPENDER);
    var coins := Replayed(w, COMMON + 1, COMMON);
    CommonCoins(COMMON, OutPoint(2, 0));
    forall p | p in coins
      ensures 2 <= p.txid <= COMMON + 1
    {
      CommonCoins(COMMON, p);
    }
    SpenderIsNew(coins);
    SpenderPasses(coins);
  }

  lemma SpenderIsNew(coins: CoinMap)
    requires forall p :: p in coins ==> 2 <= p.txid <= COMMON + 1
    ensures forall i :: 0 <= i < 2 ==> !HasCoins(coins, Txs(SPENDER)[i])
  {
    NoneThere(coins, Coinbase(SPENDER));
    NoneThere(coins, SPEND);
  }

  lemma NoneThere(coins: CoinMap, tx: Tx)
    requires forall p :: p in coins ==> p.txid != tx.txid
    ensures !HasCoins(coins, tx)
  {
  }

  lemma SpenderPasses(coins: CoinMap)
    requires OutPoint(2, 0) in coins && coins[OutPoint(2, 0)] == CoinEntry(1, Some(1), true, TxOut(0, 0, false), false)
    ensures InputsAccepted(coins, BlockAt(SPENDER), COMMON + 1, RULES)
  {
    var block, p, height := BlockAt(SPENDER), OutPoint(2, 0), COMMON + 1;
    var txs := block.txs;
    var now := CoinsAfter(coins, txs, 1, height);
    assert CoinsAfter(coins, txs, 0, height) == coins;
    AppliedAt(coins, Coinbase(SPENDER), height, p);
    assert p in now && now[p] == coins[p];
    SaneTx(Coinbase(SPENDER));
    SaneTx(SPEND);
    SpendTakesOne(now);
    SpenderHasNoFees(coins, block, height);
  }

  lemma SpenderHasNoFees(coins: CoinMap, block: Block, height: nat)
    requires block == BlockAt(SPENDER) && block.txs == [Coinbase(SPENDER), SPEND]
    requires OutputValue(Coinbase(SPENDER), 1) == 0
    requires var now := CoinsAfter(coins, block.txs, 1, height); TxPasses(now, SPEND, height) && Fee(now, SPEND) == 0
    ensures InputsAccepted(coins, block, height, RULES)
  {
    forall i | 0 <= i < 2
      ensures PassesAt(coins, block, i, height, RULES)
    {
    }
    assert Fees(coins, block.txs, 0, height) == 0 && Fees(coins, block.txs, 1, height) == 0;
    assert Fees(coins, block.txs, 2, height) == 0;
  }

  lemma SpendTakesOne(coins: CoinMap)
    requires OutPoint(2, 0) in coins && coins[OutPoint(2, 0)] == CoinEntry(1, Some(1), true, TxOut(0, 0, false), false)
    ensures TxPasses(coins, SPEND, COMMON + 1) && Fee(coins, SPEND) == 0
  {
    SaneTx(SPEND);
    var taken := CoinsAt(coins, SPEND.inputs);
    assert taken == [coins[OutPoint(2, 0)]];
    assert taken[..0] == [] && ValueOf(taken) == 0;
  }

  // ---- The runs ------------------------------------------------------------------------------------------

  /** Block `h` can come next: its header is new, and with it the chain has more work than before. */
  ghost predicate ComesNext(x: Snapshot, h: BlockHash) {
    && (2 <= h <= SPENDER || h == RIVAL || h == FORK)
    && MayAdd(TheWorld(), x.d.entries, BlockAt(h).header) && h !in x.downloaded && x.invalid == {}
    && Below(x.d.entries, x.tip.hash, PrevHash(h))
    && x.d.entries[PrevHash(h)].chainwork + BlockAt(h).header.work > x.tip.chainwork
    && forall g :: g in x.d.entries ==> x.d.entries[g].time < h
  }

  function EntryOf(x: Snapshot, h: BlockHash): ChainEntry
    requires PrevHash(h) in x.d.entries
  {
    NewEntry(x.d.entries, BlockAt(h).header, x.d.entries[PrevHash(h)])
  }

  function Arrived(x: Snapshot, h: BlockHash): Snapshot
    requires PrevHash(h) in x.d.entries
  {
    Received(WithHeader(x, BlockAt(h).header), h, BlockAt(h))
  }

  /** Adds block `h`, which is queued alone. */
  method Put(chain: Chain, h: BlockHash) returns (r: Added)
    requires chain.Valid() && chain.w == TheWorld() && chain.OnBest() && ComesNext(chain.Snap(), h)
    modifies chain`tip, chain`height, chain.db, chain.db.cache
    ensures PutEnds(old(chain.Snap()), chain.Snap(), h, r)
    ensures r == Accepted ==> chain.Valid() && chain.OnBest()
    ensures r == ConnectFailed ==> chain.Valid() && (chain.tip.chainwork < old(chain.tip.chainwork) ==> !chain.OnBest())
  {
    ghost var x, w := chain.Snap(), TheWorld();
    assert w.blockOf(h) == BlockAt(h);
    MedianBelow(x.d.entries, PrevHash(h), h);
    BodiesAreOk(h);
    ghost var queue;
    r, queue := chain.Add(BlockAt(h), 1000, true);
    ComesAlone(x, chain.Snap(), h, r, queue);
  }

  ghost predicate OfBlock(h: BlockHash) {
    true
  }

  /** What comes of a block that is queued alone; folded, so that only the three lemmas below open it. */
  ghost predicate PutEnds(x: Snapshot, x': Snapshot, h: BlockHash, r: Added)
    requires PrevHash(h) in x.d.entries
  {
    forall g: BlockHash {:trigger OfBlock(g)} :: OfBlock(g) && g == h ==>
      && r in {Accepted, ConnectFailed, AddHalted}
      && OutcomeOf(TheWorld(), Arrived(x, g), [EntryOf(x, g)], AsOutcome(r))
      && (r == Accepted ==> Moved(Arrived(x, g), x') && x'.tip == EntryOf(x, g))
      && (r == ConnectFailed ==> x'.tip == x.d.entries[PrevHash(g)])
  }

  lemma HaltsForIt(x: Snapshot, x': Snapshot, h: BlockHash, r: Added)
    requires PrevHash(h) in x.d.entries && PutEnds(x, x', h, r)
    requires EmptyBlockAbove(TheWorld(), Arrived(x, h), PrevHash(h))
    ensures r == AddHalted
  {
    assert OfBlock(h) && EntryOf(x, h).prevBlock == PrevHash(h);
  }

  lemma TakesIt(x: Snapshot, x': Snapshot, h: BlockHash, r: Added)
    requires PrevHash(h) in x.d.entries && PutEnds(x, x', h, r)
    requires !EmptyBlockAbove(TheWorld(), Arrived(x, h), PrevHash(h)) && AllFit(TheWorld(), [EntryOf(x, h)])
    ensures r == Accepted && Moved(Arrived(x, h), x') && x'.tip == EntryOf(x, h)
  {
    assert OfBlock(h) && EntryOf(x, h).prevBlock == PrevHash(h);
  }

  lemma RefusesIt(x: Snapshot, x': Snapshot, h: BlockHash, r: Added)
    requires PrevHash(h) in x.d.entries && PutEnds(x, x', h, r)
    requires !EmptyBlockAbove(TheWorld(), Arrived(x, h), PrevHash(h)) && !FitAt(TheWorld(), EntryOf(x, h))
    ensures r == ConnectFailed && x'.tip == x.d.entries[PrevHash(h)]
  {
    assert OfBlock(h) && EntryOf(x, h).prevBlock == PrevHash(h) && [EntryOf(x, h)][0] == EntryOf(x, h);
  }

  /** What comes of the block says the same of the queue with nothing but its entry. */
  lemma ComesAlone(x: Snapshot, x': Snapshot, h: BlockHash, r: Added, queue: seq<ChainEntry>)
    requires WorldOk(TheWorld()) && Good(TheWorld(), x) && ComesNext(x, h) && BodyOk(BlockAt(h).txs)
    requires r != HeaderRejected && ComesOf(TheWorld(), WithHeader(x, BlockAt(h).header), BlockAt(h), r, queue, x')
    requires r == ConnectFailed ==> Good(TheWorld(), x')
    ensures PutEnds(x, x', h, r) && queue == [EntryOf(x, h)]
    ensures r == ConnectFailed && x'.tip.chainwork < x.tip.chainwork ==>
              !Best(x'.d.entries, x'.Ready(), x'.tip.chainwork)
  {
    ChildIsQueuedAlone(TheWorld(), x, BlockAt(h), queue);
    if r == ConnectFailed {
      StoppedOnOne(x, x', h);
      RuleAfterFailure(TheWorld(), Arrived(x, h), x', EntryOf(x, h), queue);
    }
  }

  lemma StoppedOnOne(x: Snapshot, x': Snapshot, h: BlockHash)
    requires PrevHash(h) in x.d.entries && h !in x.d.entries && PrevHash(h) != h && Good(TheWorld(), x')
    requires Stopped(Arrived(x, h), x', [EntryOf(x, h)], TheWorld())
    ensures x'.tip == x.d.entries[PrevHash(h)]
  {
    var k: nat :| StoppedAt(Arrived(x, h), x', [EntryOf(x, h)], k, TheWorld());
    GoodMeans(TheWorld(), x');
  }

  /** The common part has grown to height `k`: nothing else is there. */
  ghost predicate Grown(x: Snapshot, k: nat) {
    && x.tip.hash == k + 1 && x.tip.height == k && x.tip.chainwork == k + 1
    && (forall h :: h in x.d.entries <==> 1 <= h <= k + 1)
    && (forall h :: h in x.d.entries ==>
          x.d.entries[h].time == h && x.d.entries[h].chainwork == h && x.d.entries[h].height == h - 1)
    && x.downloaded == x.d.entries.Keys && x.invalid == {}
  }

  lemma NextComesNext(x: Snapshot, k: nat)
    requires Good(TheWorld(), x) && Grown(x, k) && k <= COMMON
    ensures ComesNext(x, k + 2) && EntryOf(x, k + 2).height == k + 1
  {
    TipIsBelowItself(TheWorld(), x);
    assert TheWorld().blockOf(k + 2) == BlockAt(k + 2);
  }

  /** Nothing above the parent has to go when the parent is the tip. */
  lemma NothingHasToGo(x: Snapshot, k: nat)
    requires Good(TheWorld(), x) && Grown(x, k) && k <= COMMON
    ensures PrevHash(k + 2) in x.d.entries && !EmptyBlockAbove(TheWorld(), Arrived(x, k + 2), PrevHash(k + 2))
  {
    TipIsBelowItself(TheWorld(), x);
  }

  method Start() returns (chain: Chain)
    ensures fresh(chain) && fresh(chain.db) && fresh(chain.db.cache)
    ensures chain.Valid() && chain.w == TheWorld() && chain.OnBest() && Grown(chain.Snap(), 0)
  {
    TheWorldIsOk();
    FirstIsGood(TheWorld());
    assert TheWorld().blockOf(1) == BlockAt(1);
    chain := new Chain.Create(BlockAt(1), RULES, TheWorld());
    assert chain.Snap().d.entries == map[1 := GenesisEntry(TheWorld())];
  }

  lemma NextIsFit(k: nat, e: ChainEntry)
    requires k <= COMMON && e.hash == k + 2 && e.height == k + 1
    ensures AllFit(TheWorld(), [e])
  {
    if k < COMMON {
      CommonIsFit(k + 1, e);
    } else {
      SpenderIsFit(e);
    }
  }

  lemma GrownOn(x: Snapshot, x': Snapshot, k: nat)
    requires Grown(x, k) && k <= COMMON && k + 1 in x.d.entries && k + 2 !in x.d.entries
    requires Moved(Arrived(x, k + 2), x') && x'.tip == EntryOf(x, k + 2)
    ensures Grown(x', k + 1)
  {
  }

  /** Adds the next block of the common part, or the spender on top of it. */
  method GrowOne(chain: Chain, k: nat)
    requires chain.Valid() && chain.w == TheWorld() && chain.OnBest() && Grown(chain.Snap(), k) && k <= COMMON
    modifies chain`tip, chain`height, chain.db, chain.db.cache
    ensures chain.Valid() && chain.OnBest() && Grown(chain.Snap(), k + 1)
  {
    ghost var x := chain.Snap();
    NextComesNext(x, k);
    NothingHasToGo(x, k);
    NextIsFit(k, EntryOf(x, k + 2));
    var r := Put(chain, k + 2);
    TakesIt(x, chain.Snap(), k + 2, r);
    GrownOn(x, chain.Snap(), k);
  }

  /** A chain of one block with only its coinbase, and a heavier rival block: the chain halts. */
  method HaltsOnAnEmptyBlock() returns (r: Added)
    ensures r == AddHalted
  {
    var chain := Start();
    GrowOne(chain, 0);
    ghost var x := chain.Snap();
    BesideTip(x, 1, FORK);
    r := Put(chain, FORK);
    HaltsForIt(x, chain.Snap(), FORK, r);
  }

  /** From the tip one goes down to the block before it. */
  lemma DownFromTip(x: Snapshot, k: nat)
    requires Good(TheWorld(), x) && Grown(x, k) && 0 < k <= COMMON + 1
    ensures TreeOk(x.d.entries, 1) && Below(x.d.entries, k + 1, k)
  {
    var w := TheWorld();
    GoodMeans(w, x);
    assert w.blockOf(k + 1) == BlockAt(k + 1);
    assert x.d.entries[k + 1].prevBlock == PrevOf(w, k + 1) == k;
    assert AncestorAt(x.d.entries, k + 1, k - 1) == AncestorAt(x.d.entries, k, k - 1) == k;
  }

  /** A block beside the tip comes next when it has more work; only the tip has to go for it. */
  lemma BesideTip(x: Snapshot, k: nat, h: BlockHash)
    requires Good(TheWorld(), x) && Grown(x, k) && 0 < k <= COMMON + 1
    requires (h == FORK && k == 1) || (h == RIVAL && k == COMMON + 1)
    ensures ComesNext(x, h) && EntryOf(x, h).height == k
    ensures EmptyBlockAbove(TheWorld(), Arrived(x, h), k) <==> |Txs(k + 1)| == 1
  {
    var w := TheWorld();
    DownFromTip(x, k);
    assert w.blockOf(h) == BlockAt(h) && w.blockOf(k + 1) == BlockAt(k + 1);
    OnlyTipAbove(w, Arrived(x, h), k);
  }

  lemma OnlyTipAbove(w: World, y: Snapshot, target: BlockHash)
    requires y.tip.hash in y.d.entries && target in y.d.entries
             && y.d.entries[target].height + 1 == y.d.entries[y.tip.hash].height
    ensures EmptyBlockAbove(w, y, target) <==> |w.blockOf(y.tip.hash).txs| == 1
  {
    assert AncestorAt(y.d.entries, y.tip.hash, y.d.entries[y.tip.hash].height) == y.tip.hash;
  }

  /** A tip that can be disconnected, and a heavier rival block that is not fit: the tip ends below
      where it was, and is not the best any more. */
  method LosesTheBestChain() returns (chain: Chain, r: Added)
    ensures fresh(chain) && chain.Valid() && r == ConnectFailed && !chain.OnBest()
  {
    chain := Start();
    for k := 0 to COMMON + 1
      invariant fresh(chain) && fresh(chain.db) && fresh(chain.db.cache)
      invariant chain.Valid() && chain.w == TheWorld() && chain.OnBest() && Grown(chain.Snap(), k)
    {
      GrowOne(chain, k);
    }
    ghost var x := chain.Snap();
    BesideTip(x, COMMON + 1, RIVAL);
    RivalIsNotFit(EntryOf(x, RIVAL));
    r := Put(chain, RIVAL);
    RefusesIt(x, chain.Snap(), RIVAL, r);
  }
}
