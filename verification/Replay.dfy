/** What the chain's state should be, computed from scratch: the replay of its blocks from the
    genesis block.  Connecting and disconnecting are measured against it. */
module Replay {
  import opened Primitives
  import opened Coins
  import opened Ledger
  import opened History
  import opened Checks
  import opened Consensus
  import opened Headers
  import opened Undo
  import opened Columns
  import opened BlockRuns
  import opened ChainDb

  /** A block hash determines the block and a txid the transaction; the rules are fixed. */
  datatype World = World(blockOf: BlockHash -> Block, txOf: TxOf, rules: Rules, genesis: BlockHash)

  function PrevOf(w: World, h: BlockHash): BlockHash {
    w.blockOf(h).header.prev
  }

  /** Block `h` is `k` blocks above the genesis block. */
  predicate Reaches(w: World, h: BlockHash, k: nat)
    decreases k
  {
    if k == 0 then h == w.genesis else Reaches(w, PrevOf(w, h), k - 1)
  }

  /** The coins there are once `h`, `k` blocks above the genesis block, and all below it are applied. */
  function Replayed(w: World, h: BlockHash, k: nat): CoinMap
    decreases k
  {
    if k == 0 then map[] else ApplyBlock(Replayed(w, PrevOf(w, h), k - 1), w.blockOf(h).txs, k)
  }

  /** The work of all headers from the genesis block up to `h`. */
  function WorkTo(w: World, h: BlockHash, k: nat): nat
    decreases k
  {
    w.blockOf(h).header.work + if k == 0 then 0 else WorkTo(w, PrevOf(w, h), k - 1)
  }

  function TxTotal(w: World, h: BlockHash, k: nat): nat
    decreases k
  {
    |w.blockOf(h).txs| + if k == 0 then 0 else TxTotal(w, PrevOf(w, h), k - 1)
  }

  function Before(w: World, h: BlockHash, k: nat): CoinMap
    requires k > 0
  {
    Replayed(w, PrevOf(w, h), k - 1)
  }

  function UndoAt(w: World, h: BlockHash, k: nat): seq<CoinEntry>
    requires k > 0
  {
    UndoOf(Before(w, h, k), w.blockOf(h).txs, k)
  }

  /** A block is as its hash says, and its transactions are as their txids say. */
  ghost predicate BlockFine(w: World, h: BlockHash) {
    w.blockOf(h).header.hash == h && AllKnown(w.txOf, w.blockOf(h).txs)
  }

  /** At these heights duplicates are not looked for: the height in the coinbase excludes them. */
  predicate SkipsDuplicateCheck(rules: Rules, height: nat) {
    height >= rules.bip34Height && height < 1_983_702
  }

  /** Some block from above the genesis block up to `h` has the coinbase `txid`. */
  predicate CoinbaseIn(w: World, h: BlockHash, k: nat, txid: Txid)
    decreases k
  {
    k > 0 && ((w.blockOf(h).txs != [] && w.blockOf(h).txs[0].txid == txid) || CoinbaseIn(w, PrevOf(w, h), k - 1, txid))
  }

  /** No two blocks from above the genesis block up to `h` have one coinbase. */
  predicate CoinbasesDiffer(w: World, h: BlockHash, k: nat)
    decreases k
  {
    k > 0 ==>
      && (w.blockOf(h).txs != [] ==> !CoinbaseIn(w, PrevOf(w, h), k - 1, w.blockOf(h).txs[0].txid))
      && CoinbasesDiffer(w, PrevOf(w, h), k - 1)
  }

  /** Where duplicates are not looked for, a block that passes on its own, with its height in the
      coinbase, is on a chain whose coinbases differ. */
  predicate CoinbaseRule(w: World, h: BlockHash, k: nat) {
    Reaches(w, h, k) && SkipsDuplicateCheck(w.rules, k) && w.rules.bodyAccepted(h) ==> CoinbasesDiffer(w, h, k)
  }

  ghost predicate WorldOk(w: World) {
    && w.rules.interval > 0
    && w.genesis != ZERO_HASH && PrevOf(w, w.genesis) == ZERO_HASH
    && (forall h {:trigger BlockFine(w, h)} :: BlockFine(w, h))
    && (forall h, k {:trigger CoinbaseRule(w, h, k)} :: CoinbaseRule(w, h, k))
  }

  // ---- Soundness ----------------------------------------------------------------------------

  /** Some block from above the genesis block up to `h` made the coin `c` under `p`. */
  predicate MadeUpTo(w: World, h: BlockHash, k: nat, p: OutPoint, c: CoinEntry)
    decreases k
  {
    k > 0 &&
    ((exists i :: 0 <= i < |w.blockOf(h).txs| && MadeBy(w.blockOf(h).txs[i], k, p, c)) ||
     MadeUpTo(w, PrevOf(w, h), k - 1, p, c))
  }

  /** Every coin of a chain was made by one of its blocks, and says which transaction, at which height,
      and whether it was the coinbase. */
  lemma {:induction false} CoinsHaveOrigins(w: World, h: BlockHash, k: nat, p: OutPoint)
    requires k < MAX_HEIGHT
    ensures p in Replayed(w, h, k) ==> MadeUpTo(w, h, k, p, Replayed(w, h, k)[p])
    decreases k
  {
    if k > 0 {
      CoinsHaveOrigins(w, PrevOf(w, h), k - 1, p);
      CoinsComeFrom(Before(w, h, k), w.blockOf(h).txs, |w.blockOf(h).txs|, k, p);
    }
  }

  /** Every block from above the genesis block up to `h` was fit to be connected where it is, and
      its undo record, if it needs one, was kept. */
  ghost predicate Sound(w: World, undos: UndoStore, h: BlockHash, k: nat)
    decreases k
  {
    k > 0 ==>
      && Connectable(Before(w, h, k), w.blockOf(h).txs, k, w.rules.interval)
      && (UndoAt(w, h, k) != [] ==> h in undos)
      && Sound(w, undos, PrevOf(w, h), k - 1)
  }

  lemma {:induction false} SoundGrows(w: World, undos: UndoStore, more: UndoStore, h: BlockHash, k: nat)
    requires Sound(w, undos, h, k) && undos.Keys <= more.Keys
    ensures Sound(w, more, h, k)
    decreases k
  {
    if k > 0 {
      SoundGrows(w, undos, more, PrevOf(w, h), k - 1);
    }
  }

  lemma {:induction false} ReplayIsNormal(w: World, h: BlockHash, k: nat)
    requires k < MAX_HEIGHT
    ensures Normal(Replayed(w, h, k)) && KnownHeights(Replayed(w, h, k))
    decreases k
  {
    if k > 0 {
      ReplayIsNormal(w, PrevOf(w, h), k - 1);
      StaysNormal(Before(w, h, k), w.blockOf(h).txs, |w.blockOf(h).txs|, k);
    }
  }

  /** There are never more coins than subsidies. */
  lemma {:induction false} SupplyWithinSubsidies(w: World, undos: UndoStore, h: BlockHash, k: nat)
    requires Sound(w, undos, h, k) && w.rules.interval > 0
    ensures Supply(Replayed(w, h, k)) <= SubsidyUpTo(k, w.rules.interval)
    decreases k
  {
    if k > 0 {
      SupplyWithinSubsidies(w, undos, PrevOf(w, h), k - 1);
      BlockSupply(Before(w, h, k), w.blockOf(h).txs, k, w.rules.interval);
    }
  }

  // ---- Nothing comes a second time ------------------------------------------------------------

  /** The outpoints that existed at some point on the chain up to `h`. */
  function EverOn(w: World, h: BlockHash, k: nat): set<OutPoint>
    decreases k
  {
    if k == 0 then {} else EverWith(EverOn(w, PrevOf(w, h), k - 1), w.blockOf(h).txs, |w.blockOf(h).txs|)
  }

  lemma {:induction false} EverIsCreated(ever: set<OutPoint>, txs: seq<Tx>, n: nat, p: OutPoint) returns (i: nat)
    requires n <= |txs| && p in EverWith(ever, txs, n) && p !in ever
    ensures i < n && Creates(txs[i], |txs[i].outputs|, p)
  {
    if p in CreatedBy(txs[n - 1]) {
      i := n - 1;
    } else {
      i := EverIsCreated(ever, txs, n - 1, p);
    }
  }

  /** What a coinbase created, a block of the chain has as its coinbase. */
  lemma {:induction false} CoinbaseWasIn(w: World, undos: UndoStore, h: BlockHash, k: nat, p: OutPoint)
    requires WorldOk(w) && Sound(w, undos, h, k) && p in EverOn(w, h, k) && w.txOf(p.txid).IsCoinbase()
    ensures CoinbaseIn(w, h, k, p.txid)
    decreases k
  {
    var below, txs := EverOn(w, PrevOf(w, h), k - 1), w.blockOf(h).txs;
    if p in below {
      CoinbaseWasIn(w, undos, PrevOf(w, h), k - 1, p);
    } else {
      var i := EverIsCreated(below, txs, |txs|, p);
      assert BlockFine(w, h) && IsKnown(w.txOf, txs[i]);
    }
  }

  /** The coinbase of a block on a chain whose coinbases differ creates nothing that existed. */
  lemma CoinbaseIsNew(w: World, undos: UndoStore, h: BlockHash, k: nat)
    requires WorldOk(w) && k > 0 && Sound(w, undos, PrevOf(w, h), k - 1) && CoinbasesDiffer(w, h, k)
             && WellShaped(w.blockOf(h).txs)
    ensures NoneExisted(EverOn(w, PrevOf(w, h), k - 1), w.blockOf(h).txs[0])
  {
    var tx := w.blockOf(h).txs[0];
    assert BlockFine(w, h) && IsKnown(w.txOf, tx);
    forall p | p in EverOn(w, PrevOf(w, h), k - 1)
      ensures !Creates(tx, |tx.outputs|, p)
    {
      if p.txid == tx.txid {
        CoinbaseWasIn(w, undos, PrevOf(w, h), k - 1, p);
      }
    }
  }

  lemma {:induction false} ChainSpendsForGood(w: World, undos: UndoStore, h: BlockHash, k: nat)
    requires WorldOk(w) && Sound(w, undos, h, k) && CoinbasesDiffer(w, h, k)
    ensures SpentForGood(w.txOf, Replayed(w, h, k), EverOn(w, h, k))
    decreases k
  {
    if k > 0 {
      var txs := w.blockOf(h).txs;
      ChainSpendsForGood(w, undos, PrevOf(w, h), k - 1);
      CoinbaseIsNew(w, undos, h, k);
      assert BlockFine(w, h);
      BlockKeepsSpent(w.txOf, Before(w, h, k), EverOn(w, PrevOf(w, h), k - 1), txs, |txs|, k);
    }
  }

  /** Where duplicates are not looked for, a block recreates nothing as far as its inputs can be
      spent, whatever transactions it copies. */
  lemma UncheckedIsUnrepeatable(w: World, undos: UndoStore, h: BlockHash, k: nat)
    requires WorldOk(w) && k > 0 && Reaches(w, h, k) && SkipsDuplicateCheck(w.rules, k) && w.rules.bodyAccepted(h)
    requires Sound(w, undos, PrevOf(w, h), k - 1) && WellShaped(w.blockOf(h).txs)
    ensures Unrepeatable(Before(w, h, k), w.blockOf(h).txs, k)
  {
    var coins, txs := Before(w, h, k), w.blockOf(h).txs;
    assert CoinbaseRule(w, h, k) && BlockFine(w, h);
    ChainSpendsForGood(w, undos, PrevOf(w, h), k - 1);
    CoinbaseIsNew(w, undos, h, k);
    forall n: nat | n <= |txs| && AllSpendable(coins, txs, n, k)
      ensures NeverRecreated(coins, txs, n, k)
    {
      BlockKeepsSpent(w.txOf, coins, EverOn(w, PrevOf(w, h), k - 1), txs, n, k);
    }
  }

  // ---- Undo records -------------------------------------------------------------------------

  /** The record under `h` is what undoing the block of `h` takes, on any chain it is part of. */
  ghost predicate RecordOk(w: World, t: Entries, undos: UndoStore, h: BlockHash)
    requires h in undos
  {
    && h in t && t[h].height > 0
    && DecodedUndo(undos[h]) == Some(UndoAt(w, h, t[h].height))
    && UndoAt(w, h, t[h].height) != []
  }

  ghost predicate RecordsOk(w: World, t: Entries, undos: UndoStore) {
    forall h {:trigger RecordOk(w, t, undos, h)} :: h in undos ==> RecordOk(w, t, undos, h)
  }

  /** Parents in the tree are parents in the blocks. */
  ghost predicate TreeMatches(w: World, t: Entries) {
    forall h {:trigger PrevOf(w, h)} :: h in t ==> t[h].prevBlock == PrevOf(w, h)
  }

  /** The entry says of the header what the header says, and its chainwork is all the work up to it. */
  ghost predicate SaysItsHeader(w: World, t: Entries, h: BlockHash)
    requires h in t
  {
    var header := w.blockOf(h).header;
    t[h].version == header.version && t[h].time == header.time && t[h].chainwork == WorkTo(w, h, t[h].height)
  }

  ghost predicate EntriesSayHeaders(w: World, t: Entries) {
    forall h {:trigger SaysItsHeader(w, t, h)} :: h in t ==> SaysItsHeader(w, t, h)
  }

  lemma {:induction false} TreeReaches(w: World, t: Entries, h: BlockHash)
    requires TreeOk(t, w.genesis) && TreeMatches(w, t) && h in t
    ensures Reaches(w, h, t[h].height)
    decreases t[h].height
  {
    assert Placed(t, w.genesis, h);
    assert t[h].prevBlock == PrevOf(w, h);
    if h != w.genesis {
      TreeReaches(w, t, t[h].prevBlock);
    }
  }

  // ---- The state ----------------------------------------------------------------------------

  /** Coins, counters and undo records are those of the chain that ends in `tip`. */
  ghost predicate Faithful(w: World, d: Columns, s: ChainState, undos: UndoStore, tip: ChainEntry) {
    && d.coins == Replayed(w, tip.hash, tip.height)
    && Counts(s, d.coins)
    && s.tip == tip.hash
    && s.tx == TxTotal(w, tip.hash, tip.height)
    && Sound(w, undos, tip.hash, tip.height)
    && RecordsOk(w, d.entries, undos)
  }

  /** A record that is written when a block is connected is the right one. */
  lemma WritingKeepsRecords(w: World, t: Entries, undos: UndoStore, h: BlockHash, items: seq<CoinEntry>)
    requires RecordsOk(w, t, undos) && h in t && t[h].height > 0 && InputCount(w.blockOf(h).txs) < UNDO_LENGTHS
    requires StoredAll(items) == UndoAt(w, h, t[h].height) && items != []
    ensures RecordsOk(w, t, UndoWritten(undos, h, items))
  {
    var after := UndoWritten(undos, h, items);
    var txs := w.blockOf(h).txs;
    UndoIsShort(Before(w, h, t[h].height), txs, |txs|, t[h].height);
    assert txs[..|txs|] == txs;
    UndoReadsBack(items);
    forall g | g in after
      ensures RecordOk(w, t, after, g)
    {
      if g in undos {
        assert RecordOk(w, t, undos, g);
      }
    }
  }

  lemma ConnectingKeepsFaith(w: World, d: Columns, s: ChainState, undos: UndoStore, tip: ChainEntry,
                             d': Columns, s': ChainState, undos': UndoStore, entry: ChainEntry)
    requires Faithful(w, d, s, undos, tip)
    requires entry.height == tip.height + 1 && PrevOf(w, entry.hash) == tip.hash
    requires Connectable(d.coins, w.blockOf(entry.hash).txs, entry.height, w.rules.interval)
    requires PutOn(d, s, d', s', entry, w.blockOf(entry.hash)) && Counts(s', d'.coins)
    requires undos.Keys <= undos'.Keys && RecordsOk(w, d.entries, undos')
    requires UndoAt(w, entry.hash, entry.height) != [] ==> entry.hash in undos'
    ensures Faithful(w, d', s', undos', entry)
  {
    SoundOneMore(w, undos, undos', entry.hash, entry.height);
    ReplayOneMore(w, entry.hash, entry.height);
  }

  lemma SoundOneMore(w: World, undos: UndoStore, more: UndoStore, h: BlockHash, k: nat)
    requires k > 0 && Sound(w, undos, PrevOf(w, h), k - 1) && undos.Keys <= more.Keys
    requires Connectable(Before(w, h, k), w.blockOf(h).txs, k, w.rules.interval)
             && (UndoAt(w, h, k) != [] ==> h in more)
    ensures Sound(w, more, h, k)
  {
    SoundGrows(w, undos, more, PrevOf(w, h), k - 1);
  }

  lemma ReplayOneMore(w: World, h: BlockHash, k: nat)
    requires k > 0
    ensures Replayed(w, h, k) == ApplyBlock(Before(w, h, k), w.blockOf(h).txs, k)
    ensures TxTotal(w, h, k) == TxTotal(w, PrevOf(w, h), k - 1) + |w.blockOf(h).txs|
  {
  }

  /** What disconnecting the tip needs: its block is there to be undone, and its record is right. */
  lemma TipCanBeUndone(w: World, d: Columns, s: ChainState, undos: UndoStore, tip: ChainEntry)
    requires Faithful(w, d, s, undos, tip) && IsStored(d, tip) && 0 < tip.height < MAX_HEIGHT
    ensures var before := Before(w, tip.hash, tip.height); var txs := w.blockOf(tip.hash).txs;
            && Undoable(before, txs, tip.height) && d.coins == ApplyBlock(before, txs, tip.height)
            && UndoRecorded(undos, tip.hash, UndoOf(before, txs, tip.height))
            && |txs| <= s.tx
  {
    ReplayIsNormal(w, PrevOf(w, tip.hash), tip.height - 1);
    ConnectableIsUndoable(Before(w, tip.hash, tip.height), w.blockOf(tip.hash).txs, tip.height, w.rules.interval);
    if tip.hash in undos {
      assert RecordOk(w, d.entries, undos, tip.hash);
    }
  }

  lemma DisconnectingKeepsFaith(w: World, d: Columns, s: ChainState, undos: UndoStore, tip: ChainEntry,
                                d': Columns, s': ChainState, prev: ChainEntry)
    requires Faithful(w, d, s, undos, tip) && tip.height > 0
    requires prev.height == tip.height - 1 && prev.hash == PrevOf(w, tip.hash) == tip.prevBlock
    requires TookOff(d, s, d', s', tip, w.blockOf(tip.hash), Before(w, tip.hash, tip.height)) && Counts(s', d'.coins)
    ensures Faithful(w, d', s', undos, prev)
  {
  }

  /** The tip's block cannot be disconnected exactly when it has no transaction but its coinbase. */
  lemma HaltsExactlyOnEmptyBlocks(w: World, d: Columns, s: ChainState, undos: UndoStore, tip: ChainEntry)
    requires Faithful(w, d, s, undos, tip) && IsStored(d, tip) && 0 < tip.height
    ensures tip.hash !in undos <==> |w.blockOf(tip.hash).txs| == 1
  {
    var txs := w.blockOf(tip.hash).txs;
    UndoIsEmpty(Before(w, tip.hash, tip.height), txs, |txs|, tip.height);
    if tip.hash in undos {
      assert RecordOk(w, d.entries, undos, tip.hash);
    }
  }

  /** The counters: as many coins as there are, worth no more than all subsidies so far. */
  lemma CountersAreBounded(w: World, d: Columns, s: ChainState, undos: UndoStore, tip: ChainEntry)
    requires Faithful(w, d, s, undos, tip) && w.rules.interval > 0
    ensures s.coin == |d.coins| && s.value == Supply(d.coins) <= SubsidyUpTo(tip.height, w.rules.interval)
    ensures w.rules.interval == 210_000 ==> s.value <= MAX_MONEY
  {
    CountsMeans(s, d.coins);
    SupplyWithinSubsidies(w, undos, tip.hash, tip.height);
    if w.rules.interval == 210_000 {
      SupplyIsCapped(tip.height);
    }
  }
}
