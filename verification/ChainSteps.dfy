/** The pieces of the chain's steps: verification, the search for the best branch, the queue to
    connect and what comes of it. */
module ChainSteps {
  import opened Primitives
  import opened Coins
  import opened Ledger
  import opened Checks
  import opened Consensus
  import opened Headers
  import opened Columns
  import opened ChainDb
  import opened HeaderColumns
  import opened Replay
  import opened BestChain
  import opened ChainInvariant
  import opened History
  import opened BlockRuns

  // ---- Verification -----------------------------------------------------------------------

  /** Exactly the blocks that verification lets onto `coins` at `height`. */
  ghost predicate Fit(coins: CoinMap, block: Block, height: nat, rules: Rules) {
    && rules.bodyAccepted(block.header.hash) && BodyOk(block.txs)
    && (SkipsDuplicateCheck(rules, height) || forall i :: 0 <= i < |block.txs| ==> !HasCoins(coins, block.txs[i]))
    && InputsAccepted(coins, block, height, rules)
  }

  /** Where the height in the coinbase does not exclude it, a block with an output that is on disk is not
      fit; where it does, what is on disk does not count. */
  lemma DuplicatesAreUnfit(coins: CoinMap, block: Block, height: nat, rules: Rules)
    ensures forall p, i :: p in coins && 0 <= i < |block.txs| && p.txid == block.txs[i].txid
                           && p.vout < |block.txs[i].outputs|
                           && (height < rules.bip34Height || height >= 1_983_702) ==>
              !Fit(coins, block, height, rules)
    ensures rules.bip34Height <= height < 1_983_702 ==>
              (Fit(coins, block, height, rules) <==>
                rules.bodyAccepted(block.header.hash) && BodyOk(block.txs)
                && InputsAccepted(coins, block, height, rules))
  {
    forall p, i | p in coins && 0 <= i < |block.txs| && p.txid == block.txs[i].txid && p.vout < |block.txs[i].outputs|
      ensures HasCoins(coins, block.txs[i])
    {
      assert p == OutPoint(block.txs[i].txid, p.vout);
    }
  }

  /** What is known of the coins and the block before it is verified.  The quantifier keeps it folded
      where it is only passed on; `VerifiableMeans` opens it. */
  ghost predicate Verifiable(coins: CoinMap, block: Block, height: nat, rules: Rules) {
    forall h: nat {:trigger AtHeight(h)} :: AtHeight(h) && h == height ==>
      && Normal(coins) && KnownHeights(coins) && h < MAX_HEIGHT && rules.interval > 0 && TxidsDetermine(block.txs)
      && (SkipsDuplicateCheck(rules, h) && rules.bodyAccepted(block.header.hash) && WellShaped(block.txs) ==>
            Unrepeatable(coins, block.txs, h))
  }

  ghost predicate AtHeight(h: nat) {
    true
  }

  lemma VerifiableMeans(coins: CoinMap, block: Block, height: nat, rules: Rules)
    ensures Verifiable(coins, block, height, rules) <==>
            && Normal(coins) && KnownHeights(coins) && height < MAX_HEIGHT && rules.interval > 0
            && TxidsDetermine(block.txs)
            && (SkipsDuplicateCheck(rules, height) && rules.bodyAccepted(block.header.hash) && WellShaped(block.txs) ==>
                  Unrepeatable(coins, block.txs, height))
  {
    assert AtHeight(height);
  }

  method VerifyContext(coins: CoinMap, block: Block, height: nat, rules: Rules) returns (ok: bool, view: CoinView)
    requires Verifiable(coins, block, height, rules)
    ensures fresh(view) && fresh(view.undo)
    ensures ok <==> Fit(coins, block, height, rules)
    ensures ok ==> Prepared(view.coins, view.undo.items, coins, block, height, rules.interval)
  {
    VerifiableMeans(coins, block, height, rules);
    view := new CoinView();
    ok := CheckBody(block.txs, rules.bodyAccepted(block.header.hash));
    if !ok {
      return;
    }
    if height < rules.bip34Height || height >= BIP34_IMPLIES_BIP30_LIMIT {
      ok := VerifyDuplicates(coins, block.txs);
      if !ok {
        return;
      }
      FreshIsUnrepeatable(coins, block.txs, height);
    }
    ok, view := VerifyInputs(coins, block, height, rules);
    if ok {
      AcceptedIsConnectable(coins, block, height, rules);
      PreparedMeans(view.coins, view.undo.items, coins, block, height, rules.interval);
    }
  }

  // ---- The best branch ----------------------------------------------------------------------

  ghost function Higher(t: Entries, height: nat): set<BlockHash> {
    set h | h in t && t[h].height > height
  }

  /** The heaviest path of ready blocks from `entry` on, `entry` first; empty when it is not ready. */
  method NextBest(d: Columns, ready: set<BlockHash>, entry: ChainEntry, ghost genesis: BlockHash)
    returns (path: seq<ChainEntry>)
    requires TreeOk(d.entries, genesis) && ChildrenOk(d) && IsStored(d, entry)
    ensures path == [] <==> entry.hash !in ready
    ensures path != [] ==> path[0] == entry && IsPath(d.entries, ready, path)
    ensures Heaviest(d.entries, ready, entry.hash, if path == [] then 0 else path[|path| - 1].chainwork)
    decreases Higher(d.entries, entry.height)
  {
    ghost var t := d.entries;
    path := [];
    if entry.hash !in ready {
      UnreadyReachesNothing(t, genesis, ready, entry.hash);
      return;
    }
    var maxWork := 0;
    var nexts := NextHashes(d, entry.hash);
    assert ListsChildren(d, entry.hash) && Placed(t, genesis, entry.hash);
    for i := 0 to |nexts|
      invariant path != [] ==>
                  path[0].prevBlock == entry.hash && IsPath(t, ready, [entry] + path)
                  && path[|path| - 1].chainwork == maxWork > entry.chainwork
      invariant path == [] ==> maxWork == 0
      invariant forall j :: 0 <= j < i ==> Heaviest(t, ready, nexts[j], maxWork)
    {
      assert nexts[i] in nexts;
      var next := d.entries[nexts[i]];
      assert Placed(t, genesis, nexts[i]);
      assert nexts[i] in Higher(t, entry.height) && nexts[i] !in Higher(t, next.height);
      var longer := NextBest(d, ready, next, genesis);
      if longer != [] && longer[|longer| - 1].chainwork > maxWork {
        LinkedBehind(t, genesis, ready, entry, longer);
        maxWork := longer[|longer| - 1].chainwork;
        path := longer;
      }
    }
    HeaviestOfChildren(d, genesis, ready, entry, if path == [] then entry.chainwork else maxWork, maxWork);
    path := [entry] + path;
  }

  lemma UnreadyReachesNothing(t: Entries, genesis: BlockHash, ready: set<BlockHash>, e: BlockHash)
    requires TreeOk(t, genesis) && e in t && e !in ready
    ensures Heaviest(t, ready, e, 0)
  {
    forall h
      ensures !Via(t, ready, e, h)
    {
      if Via(t, ready, e, h) {
        ViaIsAbove(t, genesis, ready, e, h);
      }
    }
  }

  lemma {:induction false} PathGainsWork(t: Entries, genesis: BlockHash, ready: set<BlockHash>, path: seq<ChainEntry>,
                                         n: nat)
    requires TreeOk(t, genesis) && IsPath(t, ready, path) && n < |path|
    ensures path[0].chainwork <= path[n].chainwork
  {
    assert Placed(t, genesis, path[n].hash);
    if n > 0 {
      PathGainsWork(t, genesis, ready, path, n - 1);
    }
  }

  lemma LinkedBehind(t: Entries, genesis: BlockHash, ready: set<BlockHash>, entry: ChainEntry, path: seq<ChainEntry>)
    requires TreeOk(t, genesis) && IsPath(t, ready, path) && path != []
    requires entry.hash in t && t[entry.hash] == entry && entry.hash in ready && path[0].prevBlock == entry.hash
    ensures IsPath(t, ready, [entry] + path) && path[|path| - 1].chainwork > entry.chainwork
  {
    var p := [entry] + path;
    assert Placed(t, genesis, path[0].hash) && Placed(t, genesis, entry.hash);
    PathGainsWork(t, genesis, ready, path, |path| - 1);
    forall i | 0 < i < |p|
      ensures p[i].prevBlock == p[i - 1].hash && p[i].height == p[i - 1].height + 1
    {
      if i > 1 {
        assert p[i] == path[i - 1] && p[i - 1] == path[i - 2];
      }
    }
  }

  /** Reached through the children or `entry` itself. */
  lemma HeaviestOfChildren(d: Columns, genesis: BlockHash, ready: set<BlockHash>, entry: ChainEntry, work: nat,
                           maxWork: nat)
    requires TreeOk(d.entries, genesis) && ListsChildren(d, entry.hash) && IsStored(d, entry)
    requires forall j :: 0 <= j < |NextHashes(d, entry.hash)| ==>
               Heaviest(d.entries, ready, NextHashes(d, entry.hash)[j], maxWork)
    requires maxWork <= work && entry.chainwork <= work
    ensures Heaviest(d.entries, ready, entry.hash, work)
  {
    forall h | Via(d.entries, ready, entry.hash, h)
      ensures d.entries[h].chainwork <= work
    {
      if h != entry.hash {
        var c := ViaChild(d.entries, genesis, ready, entry.hash, h);
        assert c in NextHashes(d, entry.hash);
      }
    }
  }

  /** A state that was saved has what reopening looks for. */
  lemma ReopenedIsReadable(w: World, x: Snapshot)
    requires WorldOk(w) && HeadersOk(w, x) && Faithful(w, x.d, x.s, x.undos, x.tip)
    ensures forall h :: h in x.d.entries ==> x.d.entries[h].hash == h
    ensures x.d.chainWork != map[] && x.s.tip in x.d.entries && x.d.entries[x.s.tip] == x.tip && x.s.Saved() != NO_STATE
  {
    forall h | h in x.d.entries
      ensures x.d.entries[h].hash == h
    {
      assert Placed(x.d.entries, w.genesis, h);
    }
    var leaf := LeafBelow(x.d.entries, w.genesis, x.tip.hash);
    assert LeafAt(x.d, x.d.entries[leaf].chainwork, leaf);
    assert ZERO_HASH !in x.d.entries;
  }

  function Received(x: Snapshot, h: BlockHash, block: Block): Snapshot {
    x.(blocks := x.blocks[h := block], downloaded := x.downloaded + {h})
  }

  function Marked(x: Snapshot, h: BlockHash): Snapshot {
    x.(invalid := x.invalid + {h})
  }

  /** Only the tip moved, and what goes with it; headers and blocks are what they were. */
  ghost predicate Moved(x: Snapshot, x': Snapshot) {
    && x'.d.entries == x.d.entries && x'.d.nextHashes == x.d.nextHashes
    && x' == x.(d := x'.d, s := x'.s, undos := x'.undos, tip := x'.tip)
  }

  /** The block of `e` is fit to come on what is below it. */
  ghost predicate FitAt(w: World, e: ChainEntry) {
    e.height > 0 && Fit(Before(w, e.hash, e.height), w.blockOf(e.hash), e.height, w.rules)
  }

  ghost predicate AllFit(w: World, queue: seq<ChainEntry>) {
    forall k {:trigger queue[k]} :: 0 <= k < |queue| ==> FitAt(w, queue[k])
  }

  /** Entry `k` is the first of `queue` that is not fit. */
  ghost predicate FirstUnfit(w: World, queue: seq<ChainEntry>, k: nat) {
    k < |queue| && !FitAt(w, queue[k]) && AllFit(w, queue[..k])
  }

  /** The tip is right below entry `k` of `queue`, the first that is not fit, which is marked. */
  ghost predicate StoppedAt(x: Snapshot, x': Snapshot, queue: seq<ChainEntry>, k: nat, w: World) {
    FirstUnfit(w, queue, k) && Moved(Marked(x, queue[k].hash), x') && queue[k].prevBlock == x'.tip.hash
  }

  ghost predicate Stopped(x: Snapshot, x': Snapshot, queue: seq<ChainEntry>, w: World) {
    exists k: nat :: StoppedAt(x, x', queue, k, w)
  }

  /** There is a complete branch through `entry` that has more work than the tip. */
  ghost predicate WouldMove(x: Snapshot, entry: BlockHash) {
    Complete(x.d.entries, x.Ready(), entry) && !Heaviest(x.d.entries, x.Ready(), entry, x.tip.chainwork)
  }

  /** `queue` leads from the main chain through `entry` to the heaviest end there is; it is empty
      exactly when that is no gain. */
  ghost predicate QueuedFor(x: Snapshot, entry: ChainEntry, queue: seq<ChainEntry>) {
    if queue == [] then !WouldMove(x, entry.hash)
    else
      && WouldMove(x, entry.hash) && Connects(x, queue) && entry in queue
      && Heaviest(x.d.entries, x.Ready(), entry.hash, queue[|queue| - 1].chainwork)
  }

  /** What comes of connecting `queue`: it halts exactly when a block that has to go has only its
      coinbase, and succeeds exactly when nothing halts it and every block is fit. */
  ghost predicate OutcomeOf(w: World, x: Snapshot, queue: seq<ChainEntry>, outcome: Outcome) {
    outcome ==
      if queue == [] then Done
      else if EmptyBlockAbove(w, x, queue[0].prevBlock) then Halted
      else if AllFit(w, queue) then Done
      else Failed
  }

  lemma TreeOfGood(w: World, x: Snapshot)
    requires Good(w, x)
    ensures TreeOk(x.d.entries, w.genesis) && IsStored(x.d, x.tip) && Complete(x.d.entries, x.Ready(), x.tip.hash)
  {
    GoodMeans(w, x);
  }

  lemma CoinsAreBefore(w: World, x: Snapshot, entry: ChainEntry)
    requires WorldOk(w) && Good(w, x) && OnTip(x, entry)
    ensures entry.height > 0 && x.d.coins == Before(w, entry.hash, entry.height)
  {
    GoodMeans(w, x);
    assert x.d.entries[entry.hash].prevBlock == PrevOf(w, entry.hash);
  }

  lemma OneMoreFit(w: World, queue: seq<ChainEntry>, k: nat)
    requires k < |queue| && AllFit(w, queue[..k]) && FitAt(w, queue[k])
    ensures AllFit(w, queue[..k + 1])
  {
    assert queue[..k + 1] == queue[..k] + [queue[k]];
  }

  /** Stopped right below entry `k` of `queue`, the tip would have no less work than before, and than
      every end that would still be complete through `e`. */
  ghost predicate BestIfStopped(x: Snapshot, e: BlockHash, queue: seq<ChainEntry>, k: nat)
    requires k < |queue|
  {
    var t, ready, below := x.d.entries, x.Ready() - {queue[k].hash}, queue[k].prevBlock;
    && below in t && x.tip.chainwork <= t[below].chainwork
    && (Complete(t, ready, e) ==> Heaviest(t, ready, e, t[below].chainwork))
  }

  /** After a failed connect the tip is the best exactly when the state before it says so. */
  ghost predicate BestExactlyIf(w: World, x: Snapshot, e: BlockHash, queue: seq<ChainEntry>, x': Snapshot) {
    forall k: nat {:trigger FirstUnfit(w, queue, k)} :: FirstUnfit(w, queue, k) ==>
      (Best(x'.d.entries, x'.Ready(), x'.tip.chainwork) <==> BestIfStopped(x, e, queue, k))
  }

  lemma FitBelow(w: World, queue: seq<ChainEntry>, j: nat, k: nat)
    requires j < k <= |queue| && AllFit(w, queue[..k])
    ensures FitAt(w, queue[j])
  {
    assert queue[..k][j] == queue[j];
  }

  lemma OneFirstUnfit(w: World, queue: seq<ChainEntry>, j: nat, k: nat)
    requires FirstUnfit(w, queue, j) && FirstUnfit(w, queue, k)
    ensures j == k
  {
    if j < k {
      FitBelow(w, queue, j, k);
    } else if k < j {
      FitBelow(w, queue, k, j);
    }
  }

  lemma StoppedFromFork(x: Snapshot, fork: Snapshot, x': Snapshot, queue: seq<ChainEntry>, w: World)
    requires Moved(x, fork) && Stopped(fork, x', queue, w)
    ensures Stopped(x, x', queue, w)
  {
    var k: nat :| StoppedAt(fork, x', queue, k, w);
    assert Moved(Marked(x, queue[k].hash), x');
    assert StoppedAt(x, x', queue, k, w);
  }

  /** When a connect fails, the best-chain rule is lost if the tip has less work than before; if it
      held but for what `entry` opens, exactly `BestExactlyIf` says whether it holds. */
  lemma RuleAfterFailure(w: World, x: Snapshot, x': Snapshot, entry: ChainEntry, queue: seq<ChainEntry>)
    requires Good(w, x) && Good(w, x') && IsStored(x.d, entry) && QueuedFor(x, entry, queue) && Stopped(x, x', queue, w)
    ensures x'.tip.chainwork < x.tip.chainwork ==> !Best(x'.d.entries, x'.Ready(), x'.tip.chainwork)
    ensures BestBut(x.d.entries, x.Ready(), x.tip.chainwork, entry.hash) ==> BestExactlyIf(w, x, entry.hash, queue, x')
  {
    var k: nat :| StoppedAt(x, x', queue, k, w);
    RuleAfterStop(w, x, x', entry, queue, k);
    forall j: nat | FirstUnfit(w, queue, j)
      ensures j == k
    {
      OneFirstUnfit(w, queue, j, k);
    }
  }

  lemma RuleAfterStop(w: World, x: Snapshot, x': Snapshot, entry: ChainEntry, queue: seq<ChainEntry>, k: nat)
    requires Good(w, x) && Good(w, x') && IsStored(x.d, entry) && QueuedFor(x, entry, queue)
             && StoppedAt(x, x', queue, k, w)
    ensures x'.tip.chainwork < x.tip.chainwork ==> !Best(x'.d.entries, x'.Ready(), x'.tip.chainwork)
    ensures BestBut(x.d.entries, x.Ready(), x.tip.chainwork, entry.hash) ==>
              (Best(x'.d.entries, x'.Ready(), x'.tip.chainwork) <==> BestIfStopped(x, entry.hash, queue, k))
  {
    TreeOfGood(w, x);
    TreeOfGood(w, x');
    var t, e := x.d.entries, queue[k].hash;
    PathStaysOff(t, w.genesis, x.Ready(), x.tip.hash, queue, k);
    CompleteWithoutOther(t, w.genesis, x.Ready(), e, x.tip.hash);
    assert x'.Ready() == x.Ready() - {e};
    if BestBut(t, x.Ready(), x.tip.chainwork, entry.hash) {
      BestAfterLoss(t, w.genesis, x.Ready(), x'.Ready(), x.tip.hash, x'.tip.chainwork, entry.hash);
    }
  }

  lemma VerifyReady(w: World, x: Snapshot, entry: ChainEntry)
    requires WorldOk(w) && Good(w, x) && OnTip(x, entry)
    ensures Verifiable(x.d.coins, w.blockOf(entry.hash), entry.height, w.rules)
  {
    ConnectReady(w, x, entry);
    VerifiableMeans(x.d.coins, w.blockOf(entry.hash), entry.height, w.rules);
  }

  lemma OnTipIsKnown(w: World, x: Snapshot, entry: ChainEntry)
    requires Good(w, x) && OnTip(x, entry)
    ensures entry.hash in x.d.entries && x.d.entries[entry.hash].height > x.tip.height
  {
    GoodMeans(w, x);
  }

  /** What verification and the database ask for when a block is put on the tip. */
  lemma ConnectReady(w: World, x: Snapshot, entry: ChainEntry)
    requires WorldOk(w) && Good(w, x) && OnTip(x, entry)
    ensures var block := w.blockOf(entry.hash);
            && Normal(x.d.coins) && KnownHeights(x.d.coins) && entry.height < MAX_HEIGHT && entry.height > 0
            && TxidsDetermine(block.txs) && block.header.hash == entry.hash && Counts(x.s, x.d.coins)
            && (SkipsDuplicateCheck(w.rules, entry.height) && w.rules.bodyAccepted(entry.hash)
                && WellShaped(block.txs) ==>
                  Unrepeatable(x.d.coins, block.txs, entry.height))
            && UndoAt(w, entry.hash, entry.height) == UndoOf(x.d.coins, block.txs, entry.height)
            && RecordsOk(w, x.d.entries, x.undos) && entry.hash in x.d.entries
            && x.d.entries[entry.hash].height == entry.height
  {
    OnTipFits(w, x, entry);
    assert BlockFine(w, entry.hash);
    KnownTxsDetermine(w.txOf, w.blockOf(entry.hash).txs);
    UncheckedOnTip(w, x, entry);
    ReplayIsNormal(w, x.tip.hash, x.tip.height);
  }

  lemma OnTipFits(w: World, x: Snapshot, entry: ChainEntry)
    requires Good(w, x) && OnTip(x, entry)
    ensures 0 < entry.height < MAX_HEIGHT && x.tip.height < MAX_HEIGHT && PrevOf(w, entry.hash) == x.tip.hash
    ensures x.d.coins == Replayed(w, x.tip.hash, x.tip.height) && Counts(x.s, x.d.coins)
    ensures RecordsOk(w, x.d.entries, x.undos) && entry.hash in x.d.entries
            && x.d.entries[entry.hash].height == entry.height
  {
    GoodMeans(w, x);
    assert Placed(x.d.entries, w.genesis, entry.hash);
    assert x.d.entries[entry.hash].prevBlock == PrevOf(w, entry.hash);
  }

  lemma UncheckedOnTip(w: World, x: Snapshot, entry: ChainEntry)
    requires WorldOk(w) && Good(w, x) && OnTip(x, entry)
    ensures SkipsDuplicateCheck(w.rules, entry.height) && w.rules.bodyAccepted(entry.hash)
            && WellShaped(w.blockOf(entry.hash).txs) ==>
              Unrepeatable(x.d.coins, w.blockOf(entry.hash).txs, entry.height)
  {
    if SkipsDuplicateCheck(w.rules, entry.height) && w.rules.bodyAccepted(entry.hash)
       && WellShaped(w.blockOf(entry.hash).txs) {
      GoodMeans(w, x);
      assert Placed(x.d.entries, w.genesis, entry.hash);
      assert x.d.entries[entry.hash].prevBlock == PrevOf(w, entry.hash);
      TreeReaches(w, x.d.entries, entry.hash);
      UncheckedIsUnrepeatable(w, x.undos, entry.hash, entry.height);
    }
  }

  /** The record that connecting leaves is the one undoing needs. */
  lemma RecordFollows(w: World, x: Snapshot, items: seq<CoinEntry>, undos: UndoStore, entry: ChainEntry)
    requires WorldOk(w) && Good(w, x) && OnTip(x, entry)
    requires StoredAll(items) == UndoOf(x.d.coins, w.blockOf(entry.hash).txs, entry.height)
    requires undos == x.undos || (items != [] && undos == UndoWritten(x.undos, entry.hash, items))
    requires items != [] ==> entry.hash in undos
    requires InputCount(w.blockOf(entry.hash).txs) < UNDO_LENGTHS
    ensures UndosFollow(w, x, undos, entry)
  {
    ConnectReady(w, x, entry);
    if items != [] {
      WritingKeepsRecords(w, x.d.entries, x.undos, entry.hash, items);
    }
  }

  /** What disconnecting the tip asks for. */
  lemma DisconnectReady(w: World, x: Snapshot)
    requires WorldOk(w) && Good(w, x) && x.tip.height > 0
    ensures x.tip.hash in x.blocks && x.blocks[x.tip.hash] == w.blockOf(x.tip.hash) && x.tip.prevBlock in x.d.entries
    ensures var before := Before(w, x.tip.hash, x.tip.height); var txs := w.blockOf(x.tip.hash).txs;
            && Undoable(before, txs, x.tip.height) && x.d.coins == ApplyBlock(before, txs, x.tip.height)
            && UndoRecorded(x.undos, x.tip.hash, UndoOf(before, txs, x.tip.height))
            && |txs| <= x.s.tx && Counts(x.s, x.d.coins)
            && (x.tip.hash !in x.undos <==> |txs| == 1)
  {
    GoodMeans(w, x);
    assert Placed(x.d.entries, w.genesis, x.tip.hash);
    TipCanBeUndone(w, x.d, x.s, x.undos, x.tip);
    HaltsExactlyOnEmptyBlocks(w, x.d, x.s, x.undos, x.tip);
  }

  lemma NothingToConnectYet(w: World, x: Snapshot, e: BlockHash)
    requires Good(w, x) && e in x.d.entries && !Complete(x.d.entries, x.Ready(), e)
    ensures BestBut(x.d.entries, x.Ready(), x.tip.chainwork, e) ==> Best(x.d.entries, x.Ready(), x.tip.chainwork)
  {
    GoodMeans(w, x);
    if BestBut(x.d.entries, x.Ready(), x.tip.chainwork, e) {
      NothingToConnect(x.d.entries, w.genesis, x.Ready(), x.tip.chainwork, e);
    }
  }

  lemma HeaviestSettles(t: Entries, ready: set<BlockHash>, work: nat, e: BlockHash, last: nat)
    requires Heaviest(t, ready, e, last)
    ensures BestBut(t, ready, work, e) ==> Best(t, ready, if last > work then last else work)
  {
    if BestBut(t, ready, work, e) {
      HeaviestIsBest(t, ready, work, e, last);
    }
  }

  lemma BelowIsComplete(t: Entries, genesis: BlockHash, ready: set<BlockHash>, e: BlockHash, k: nat)
    requires TreeOk(t, genesis) && e in t && k <= t[e].height && AncestorAt(t, e, k) !in ready
    ensures !Complete(t, ready, e)
  {
    if Complete(t, ready, e) {
      CompleteBelow(t, genesis, ready, e, k);
    }
  }

  lemma GenesisIsMain(w: World, x: Snapshot)
    requires Good(w, x)
    ensures w.genesis in x.d.entries && IsMainChain(Index(x.d.entries, x.d.hashes), x.d.entries[w.genesis])
    ensures forall h :: h in x.d.entries && x.d.entries[h].height == 0 ==> h == w.genesis
  {
    GoodMeans(w, x);
    var t := x.d.entries;
    assert Placed(t, w.genesis, w.genesis);
    AncestorExists(t, w.genesis, x.tip.hash, 0);
    forall h | h in t && t[h].height == 0
      ensures h == w.genesis
    {
      assert Placed(t, w.genesis, h);
    }
  }

  ghost predicate BelowTip(x: Snapshot, target: BlockHash) {
    Below(x.d.entries, x.tip.hash, target)
  }

  /** The parent of `first` is on the way down from the tip, `first` itself is not. */
  ghost predicate ForksAt(t: Entries, tip: BlockHash, first: ChainEntry) {
    && Below(t, tip, first.prevBlock) && t[first.prevBlock].height + 1 == first.height
    && !Below(t, tip, first.hash)
  }

  /** A path of ready blocks that leaves the main chain for more work than the tip has. */
  ghost predicate Connects(x: Snapshot, queue: seq<ChainEntry>) {
    && queue != [] && IsPath(x.d.entries, x.Ready(), queue) && ForksAt(x.d.entries, x.tip.hash, queue[0])
    && queue[|queue| - 1].chainwork > x.tip.chainwork
  }

  lemma JoiningPaths(t: Entries, ready: set<BlockHash>, back: seq<ChainEntry>, path: seq<ChainEntry>)
    requires back != [] && path != [] && back[|back| - 1] == path[0]
    requires IsPath(t, ready, back) && IsPath(t, ready, path)
    ensures IsPath(t, ready, back + path[1..])
  {
    var joined := back + path[1..];
    forall i | 0 <= i < |joined|
      ensures joined[i] == if i < |back| then back[i] else path[i - |back| + 1]
    {
    }
  }

  /** Some block above `target` on the main chain has only its coinbase. */
  ghost predicate EmptyBlockAbove(w: World, x: Snapshot, target: BlockHash) {
    && target in x.d.entries && x.tip.hash in x.d.entries
    && EmptyAbove(w, x.d.entries, x.tip.hash, x.d.entries[target].height)
  }

  ghost predicate EmptyAbove(w: World, t: Entries, tip: BlockHash, height: nat)
    requires tip in t
  {
    exists k {:trigger AncestorAt(t, tip, k)} :: height < k <= t[tip].height
      && |w.blockOf(AncestorAt(t, tip, k)).txs| == 1
  }

  /** Going back from `x` to `fork` came as far as `x'`, whose tip has only its coinbase. */
  ghost predicate HaltedIn(w: World, x: Snapshot, x': Snapshot, fork: BlockHash) {
    && Moved(x, x') && Good(w, x') && BelowTip(x, x'.tip.hash) && |w.blockOf(x'.tip.hash).txs| == 1
    && fork in x.d.entries && x.d.entries[fork].height < x'.tip.height
  }

  lemma StepOverTip(w: World, x: Snapshot, target: BlockHash)
    requires Good(w, x) && target in x.d.entries && x.d.entries[target].height < x.tip.height
    ensures x.tip.hash in x.d.entries && x.tip.prevBlock in x.d.entries
    ensures var height := x.d.entries[target].height;
            EmptyBlockAbove(w, x, target) <==>
              |w.blockOf(x.tip.hash).txs| == 1 || EmptyAbove(w, x.d.entries, x.tip.prevBlock, height)
  {
    TipHasParent(w, x);
    var t, tip, prev, height := x.d.entries, x.tip.hash, x.tip.prevBlock, x.d.entries[target].height;
    if EmptyAbove(w, t, tip, height) {
      var k :| height < k <= t[tip].height && |w.blockOf(AncestorAt(t, tip, k)).txs| == 1;
      assert k < t[tip].height ==> AncestorAt(t, tip, k) == AncestorAt(t, prev, k);
    }
    if EmptyAbove(w, t, prev, height) {
      var k :| height < k <= t[prev].height && |w.blockOf(AncestorAt(t, prev, k)).txs| == 1;
      assert AncestorAt(t, tip, k) == AncestorAt(t, prev, k);
    }
    assert AncestorAt(t, tip, t[tip].height) == tip;
  }

  lemma StepsDown(w: World, x: Snapshot, target: BlockHash)
    requires Good(w, x) && BelowTip(x, target) && x.tip.hash != target
    ensures x.d.entries[target].height < x.tip.height && IsStored(x.d, x.tip)
    ensures x.tip.prevBlock in x.d.entries && x.d.entries[x.tip.prevBlock].hash == x.tip.prevBlock
    ensures x.d.entries[x.tip.prevBlock].height + 1 == x.tip.height
  {
    GoodMeans(w, x);
    TipHasParent(w, x);
  }

  lemma TipIsBelowItself(w: World, x: Snapshot)
    requires Good(w, x)
    ensures IsStored(x.d, x.tip) && Below(x.d.entries, x.tip.hash, x.tip.hash)
    ensures !EmptyBlockAbove(w, x, x.tip.hash)
  {
    GoodMeans(w, x);
  }

  /** What is below the tip stays so one block further down. */
  lemma FurtherDown(w: World, x: Snapshot, y: Snapshot, y': Snapshot)
    requires Good(w, x) && Good(w, y) && Moved(x, y) && BelowTip(x, y.tip.hash) && y.tip.height > 0
    requires Moved(y, y') && y.tip.prevBlock in y.d.entries && y'.tip == y.d.entries[y.tip.prevBlock]
    ensures BelowTip(x, y'.tip.hash)
  {
    TreeOfGood(w, x);
    TipHasParent(w, y);
    AncestorStep(x.d.entries, w.genesis, x.tip.hash, y.tip.height);
  }

  lemma StoredUnderItsHash(w: World, x: Snapshot, h: BlockHash)
    requires Good(w, x) && h in x.d.entries
    ensures x.d.entries[h].hash == h
  {
    GoodMeans(w, x);
    assert Placed(x.d.entries, w.genesis, h);
  }

  lemma ReadyIsStored(w: World, x: Snapshot, h: BlockHash)
    requires Good(w, x) && h in x.Ready()
    ensures h in x.blocks && x.blocks[h] == w.blockOf(h)
  {
    GoodMeans(w, x);
  }

  lemma StillBelow(x: Snapshot, x': Snapshot, target: BlockHash)
    requires BelowTip(x, target) && IsStored(x.d, x.tip) && x.d.entries[target].height < x.tip.height
    requires Moved(x, x') && x.tip.prevBlock in x.d.entries && x'.tip == x.d.entries[x.tip.prevBlock]
    requires x'.tip.hash == x.tip.prevBlock && x'.tip.height + 1 == x.tip.height
    ensures BelowTip(x', target)
  {
  }

  /** The ready entries from the main chain up to `entry`; empty when one of them is not ready,
      and then `entry` is not complete. */
  method BackToMain(index: Index, ready: set<BlockHash>, entry: ChainEntry, ghost genesis: BlockHash,
                    ghost tip: BlockHash) returns (queue: seq<ChainEntry>)
    requires IndexOk(index, genesis, tip) && IsMainChain(index, index.entries[genesis])
    requires entry.hash in index.entries && index.entries[entry.hash] == entry && !IsMainChain(index, entry)
             && entry.hash in ready
    ensures queue == [] ==> !Complete(index.entries, ready, entry.hash)
    ensures queue != [] ==>
              IsPath(index.entries, ready, queue) && queue[|queue| - 1] == entry
              && ForksAt(index.entries, tip, queue[0])
  {
    ghost var t := index.entries;
    MainMeansAncestor(index, genesis, tip, entry.hash);
    HasParent(t, genesis, entry);
    queue := [entry];
    var prev := index.entries[entry.prevBlock];
    AncestorStep(t, genesis, entry.hash, entry.height);
    while !IsMainChain(index, prev)
      invariant queue != [] && IsPath(t, ready, queue) && queue[|queue| - 1] == entry && !Below(t, tip, queue[0].hash)
      invariant prev.hash == queue[0].prevBlock && prev.hash in t && t[prev.hash] == prev
                && prev.height + 1 == queue[0].height
      invariant prev.height < entry.height && AncestorAt(t, entry.hash, prev.height) == prev.hash
      decreases prev.height
    {
      if prev.hash !in ready {
        BelowIsComplete(t, genesis, ready, entry.hash, prev.height);
        return [];
      }
      MainMeansAncestor(index, genesis, tip, prev.hash);
      HasParent(t, genesis, prev);
      AncestorStep(t, genesis, entry.hash, prev.height);
      queue := PutBefore(t, ready, prev, queue);
      prev := index.entries[prev.prevBlock];
    }
    MainMeansAncestor(index, genesis, tip, prev.hash);
  }

  method PutBefore(ghost t: Entries, ghost ready: set<BlockHash>, prev: ChainEntry, queue: seq<ChainEntry>)
    returns (longer: seq<ChainEntry>)
    requires queue != [] && IsPath(t, ready, queue) && prev.hash == queue[0].prevBlock
             && prev.height + 1 == queue[0].height
    requires prev.hash in t && t[prev.hash] == prev && prev.hash in ready
    ensures longer == [prev] + queue && IsPath(t, ready, longer)
  {
    longer := [prev] + queue;
    forall i | 0 < i < |longer|
      ensures longer[i].prevBlock == longer[i - 1].hash && longer[i].height == longer[i - 1].height + 1
    {
      assert longer[i] == queue[i - 1] && (i > 1 ==> longer[i - 1] == queue[i - 2]);
    }
  }

  lemma HasParent(t: Entries, genesis: BlockHash, entry: ChainEntry)
    requires TreeOk(t, genesis) && entry.hash in t && t[entry.hash] == entry && entry.hash != genesis
    ensures entry.height > 0 && entry.prevBlock in t && t[entry.prevBlock].hash == entry.prevBlock
            && t[entry.prevBlock].height + 1 == entry.height
  {
    assert Placed(t, genesis, entry.hash) && Placed(t, genesis, entry.prevBlock);
  }

  datatype Added = Accepted | HeaderRejected | BodyRejected | ConnectFailed | AddHalted

  /** A block that is not there is not on the main chain. */
  lemma NotYetMain(w: World, x: Snapshot, entry: ChainEntry)
    requires Good(w, x) && IsStored(x.d, entry) && entry.hash !in x.downloaded
    ensures !IsMainChain(Index(x.d.entries, x.d.hashes), entry)
  {
    GoodMeans(w, x);
    MainMeansAncestor(Index(x.d.entries, x.d.hashes), w.genesis, x.tip.hash, entry.hash);
    if IsMainChain(Index(x.d.entries, x.d.hashes), entry) {
      CompleteBelow(x.d.entries, w.genesis, x.Ready(), x.tip.hash, entry.height);
    }
  }

  /** A block that arrives, or turns out to be bad, leaves no better branch than those through it. */
  lemma ReceivingLeavesOne(w: World, x: Snapshot, h: BlockHash, block: Block)
    requires Good(w, x) && h in x.d.entries && h !in x.downloaded
    ensures Marked(x, h).Ready() == x.Ready()
    ensures Best(x.d.entries, x.Ready(), x.tip.chainwork) ==>
              BestBut(x.d.entries, Received(x, h, block).Ready(), x.tip.chainwork, h)
  {
    GoodMeans(w, x);
    if Best(x.d.entries, x.Ready(), x.tip.chainwork) {
      if h in x.invalid {
        assert Received(x, h, block).Ready() == x.Ready();
      } else {
        assert Received(x, h, block).Ready() == x.Ready() + {h};
        ReadyingKeepsBest(x.d.entries, w.genesis, x.Ready(), x.tip.chainwork, h);
      }
    }
  }

  lemma ForkIsTip(w: World, x: Snapshot, first: ChainEntry)
    requires Good(w, x) && IsStored(x.d, first) && first.hash in x.Ready() && first.prevBlock == x.tip.hash
    requires x.tip.hash in x.d.entries && x.d.entries[x.tip.hash].height + 1 == first.height
    ensures OnTip(x, first)
  {
    GoodMeans(w, x);
  }

  function AsOutcome(r: Added): Outcome {
    match r case ConnectFailed => Failed case AddHalted => Halted case _ => Done
  }

  /** The state with the header's entry in it. */
  function WithEntry(x: Snapshot, header: Header): Snapshot {
    if header.hash in x.d.entries || header.prev !in x.d.entries then x else WithHeader(x, header)
  }

  /** What comes of a block whose entry is stored in `x`: it is kept exactly when its body passes,
      and then the branch through it has the outcome its queue has. */
  ghost predicate ComesOf(w: World, x: Snapshot, block: Block, r: Added, queue: seq<ChainEntry>, x': Snapshot) {
    var h := block.header.hash;
    var y := Received(x, h, block);
    && (r == BodyRejected <==> !(w.rules.bodyAccepted(h) && BodyOk(block.txs)))
    && (r == BodyRejected ==> x' == Marked(x, h))
    && (r != BodyRejected ==>
          h in x.d.entries && Good(w, y) && QueuedFor(y, x.d.entries[h], queue) && OutcomeOf(w, y, queue, AsOutcome(r)))
    && (r == Accepted ==> Moved(y, x') && x'.tip == if queue == [] then x.tip else queue[|queue| - 1])
    && (r == ConnectFailed ==> Stopped(y, x', queue, w))
    && (r == AddHalted ==> queue != [] && HaltedIn(w, y, x', queue[0].prevBlock))
  }

  lemma ComesOfBranch(w: World, x: Snapshot, block: Block, r: Added, outcome: Outcome, queue: seq<ChainEntry>,
                      x': Snapshot)
    requires var h := block.header.hash; var y := Received(x, h, block);
             && w.rules.bodyAccepted(h) && BodyOk(block.txs) && h in x.d.entries && Good(w, y)
             && QueuedFor(y, x.d.entries[h], queue) && OutcomeOf(w, y, queue, outcome)
             && (outcome == Done ==> Moved(y, x') && x'.tip == if queue == [] then x.tip else queue[|queue| - 1])
             && (outcome == Failed ==> Stopped(y, x', queue, w))
             && (outcome == Halted ==> queue != [] && HaltedIn(w, y, x', queue[0].prevBlock))
    requires r == match outcome case Done => Accepted case Failed => ConnectFailed case Halted => AddHalted
    ensures ComesOf(w, x, block, r, queue, x')
  {
  }

  /** The best-chain rule is kept unless a connect fails, and then under the exact condition. */
  ghost predicate RuleKept(w: World, x: Snapshot, block: Block, r: Added, queue: seq<ChainEntry>, x': Snapshot) {
    var h := block.header.hash;
    && (AsOutcome(r) == Done ==> Best(x'.d.entries, x'.Ready(), x'.tip.chainwork))
    && (AsOutcome(r) == Failed ==> BestExactlyIf(w, Received(x, h, block), h, queue, x'))
  }

  /** In `y` a better branch forks below a block that has only its coinbase, and going back to the
      fork has come to a halt in `x'`. */
  ghost predicate HaltsAt(w: World, y: Snapshot, queue: seq<ChainEntry>, x': Snapshot) {
    && Good(w, y) && queue != [] && Connects(y, queue) && EmptyBlockAbove(w, y, queue[0].prevBlock)
    && HaltedIn(w, y, x', queue[0].prevBlock)
  }

  datatype Event =
    | HeaderArrives(header: Header, now: nat, otherChecks: bool)
    | BlockArrives(block: Block, now: nat, otherChecks: bool)
    | BranchRetried(hash: BlockHash)

  /** Headers and blocks are the ones their hashes say, and every header has some work. */
  ghost predicate FromWorld(w: World, event: Event) {
    match event
    case HeaderArrives(header, _, _) => header == w.blockOf(header.hash).header && header.hash != ZERO_HASH
      && header.work > 0
    case BlockArrives(block, _, _) => block == w.blockOf(block.header.hash) && block.header.hash != ZERO_HASH
      && block.header.work > 0
    case BranchRetried(_) => true
  }

  /** No block that could be the tip has more work below it, counted from the headers themselves. */
  ghost predicate HasMostWork(w: World, x: Snapshot) {
    forall h {:trigger Complete(x.d.entries, x.Ready(), h)} :: Complete(x.d.entries, x.Ready(), h) ==>
      WorkTo(w, h, x.d.entries[h].height) <= WorkTo(w, x.tip.hash, x.tip.height)
  }

  lemma BestHasMostWork(w: World, x: Snapshot)
    requires Good(w, x)
    ensures Best(x.d.entries, x.Ready(), x.tip.chainwork) <==> HasMostWork(w, x)
  {
    GoodMeans(w, x);
    assert SaysItsHeader(w, x.d.entries, x.tip.hash);
    forall h | Complete(x.d.entries, x.Ready(), h)
      ensures x.d.entries[h].chainwork == WorkTo(w, h, x.d.entries[h].height)
    {
      assert SaysItsHeader(w, x.d.entries, h);
    }
  }

  lemma AllHaveOrigins(w: World, x: Snapshot)
    requires Good(w, x)
    ensures forall p :: p in x.d.coins ==> MadeUpTo(w, x.tip.hash, x.tip.height, p, x.d.coins[p])
  {
    TipIsLow(w, x);
    forall p | p in x.d.coins
      ensures MadeUpTo(w, x.tip.hash, x.tip.height, p, x.d.coins[p])
    {
      CoinsHaveOrigins(w, x.tip.hash, x.tip.height, p);
    }
  }

  lemma TipIsLow(w: World, x: Snapshot)
    requires Good(w, x)
    ensures x.tip.height < MAX_HEIGHT && x.d.coins == Replayed(w, x.tip.hash, x.tip.height)
  {
    GoodMeans(w, x);
    assert Placed(x.d.entries, w.genesis, x.tip.hash);
  }

  /** What the invariant says of any state that is reached: the coins are the replay of the main
      chain, the counters are theirs and bounded by the subsidies, and every entry says what its
      header says, with all the work up to it. */
  lemma StateIsTheReplay(w: World, x: Snapshot)
    requires WorldOk(w) && Good(w, x)
    ensures x.tip.hash in x.d.entries && Reaches(w, x.tip.hash, x.tip.height)
    ensures x.d.coins == Replayed(w, x.tip.hash, x.tip.height) && x.s.tx == TxTotal(w, x.tip.hash, x.tip.height)
    ensures x.s.coin == |x.d.coins| && x.s.value == Supply(x.d.coins) <= SubsidyUpTo(x.tip.height, w.rules.interval)
    ensures w.rules.interval == MAINNET_HALVING_INTERVAL ==> x.s.value <= MAX_MONEY
    ensures x.tip.chainwork == WorkTo(w, x.tip.hash, x.tip.height) && EntriesSayHeaders(w, x.d.entries)
    ensures forall p :: p in x.d.coins ==> MadeUpTo(w, x.tip.hash, x.tip.height, p, x.d.coins[p])
  {
    GoodMeans(w, x);
    AllHaveOrigins(w, x);
    assert SaysItsHeader(w, x.d.entries, x.tip.hash);
    TreeReaches(w, x.d.entries, x.tip.hash);
    CountersAreBounded(w, x.d, x.s, x.undos, x.tip);
  }

  /** Back to the main chain and on along the heaviest branch makes the right queue, if it is a gain. */
  lemma QueueIsRight(w: World, x: Snapshot, entry: ChainEntry, back: seq<ChainEntry>, path: seq<ChainEntry>)
    requires Good(w, x) && IsStored(x.d, entry) && back != [] && path != [] && back[|back| - 1] == entry == path[0]
    requires IsPath(x.d.entries, x.Ready(), back) && IsPath(x.d.entries, x.Ready(), path)
             && ForksAt(x.d.entries, x.tip.hash, back[0])
    requires Heaviest(x.d.entries, x.Ready(), entry.hash, path[|path| - 1].chainwork)
    ensures var queue := back + path[1..];
            && queue[|queue| - 1] == path[|path| - 1]
            && QueuedFor(x, entry, if queue[|queue| - 1].chainwork <= x.tip.chainwork then [] else queue)
  {
    TreeOfGood(w, x);
    var t, queue := x.d.entries, back + path[1..];
    JoiningPaths(t, x.Ready(), back, path);
    CompleteBelow(t, w.genesis, x.Ready(), x.tip.hash, t[back[0].prevBlock].height);
    PathIsComplete(t, w.genesis, x.Ready(), back, |back| - 1);
    PathIsVia(t, w.genesis, x.Ready(), path, |path| - 1);
    assert queue[|back| - 1] == entry && queue[0] == back[0];
    assert queue[|queue| - 1] == path[|path| - 1];
  }

  lemma AddingReady(w: World, x: Snapshot, header: Header)
    requires Good(w, x) && MayAdd(w, x.d.entries, header)
    ensures var e := NewEntry(x.d.entries, header, x.d.entries[header.prev]); var t := x.d.entries[e.hash := e];
            IndexOk(Index(x.d.entries, x.d.hashes), w.genesis, x.tip.hash) && TreeOk(t, w.genesis) && SkipsOk(t)
  {
    GoodMeans(w, x);
    AddingKeepsTree(w, x.d.entries, header);
    AddingKeepsSkips(w, x.d.entries, header);
  }

  // ---- A new block on the main chain -------------------------------------------------------------

  /** A new block whose parent is on the main chain is queued alone when it has more work than the tip. */
  lemma ChildIsQueuedAlone(w: World, x: Snapshot, block: Block, queue: seq<ChainEntry>)
    requires WorldOk(w) && Good(w, x) && MayAdd(w, x.d.entries, block.header)
    requires Below(x.d.entries, x.tip.hash, block.header.prev) && block.header.hash !in x.invalid
    requires x.d.entries[block.header.prev].chainwork + block.header.work > x.tip.chainwork
    requires var y := Received(WithHeader(x, block.header), block.header.hash, block);
             var e := NewEntry(x.d.entries, block.header, x.d.entries[block.header.prev]);
             Good(w, y) && QueuedFor(y, e, queue)
    ensures queue == [NewEntry(x.d.entries, block.header, x.d.entries[block.header.prev])]
  {
    var t, h := x.d.entries, block.header.hash;
    var e := NewEntry(t, block.header, t[block.header.prev]);
    var y := Received(WithHeader(x, block.header), h, block);
    ChildWouldMove(w, x, block);
    GoodMeans(w, x);
    GoodMeans(w, y);
    AloneOnPath(w, t, y.d.entries, y.Ready(), x.tip.hash, queue, e);
  }

  /** A path off the main chain through an entry that has its parent on it and no children is that entry. */
  lemma AloneOnPath(w: World, t: Entries, t': Entries, ready: set<BlockHash>, tip: BlockHash, queue: seq<ChainEntry>,
                    e: ChainEntry)
    requires TreeOk(t, w.genesis) && TreeOk(t', w.genesis) && t' == t[e.hash := e] && e.hash !in t
             && e.hash != ZERO_HASH && e.prevBlock != e.hash
    requires IsPath(t', ready, queue) && e in queue && !Below(t', tip, queue[0].hash) && Below(t', tip, e.prevBlock)
    ensures queue == [e]
  {
    var i :| 0 <= i < |queue| && queue[i] == e;
    if i > 0 {
      PathStaysOff(t', w.genesis, ready, tip, queue, i - 1);
    } else if |queue| > 1 {
      NoChildOfNew(w, t', t, e.hash, queue[1]);
    }
  }

  lemma ChildWouldMove(w: World, x: Snapshot, block: Block)
    requires WorldOk(w) && Good(w, x) && MayAdd(w, x.d.entries, block.header)
    requires Below(x.d.entries, x.tip.hash, block.header.prev) && block.header.hash !in x.invalid
    requires x.d.entries[block.header.prev].chainwork + block.header.work > x.tip.chainwork
    requires Good(w, Received(WithHeader(x, block.header), block.header.hash, block))
    ensures var y := Received(WithHeader(x, block.header), block.header.hash, block);
            WouldMove(y, block.header.hash) && Below(y.d.entries, x.tip.hash, block.header.prev)
  {
    var t, h, p := x.d.entries, block.header.hash, block.header.prev;
    var y := Received(WithHeader(x, block.header), h, block);
    GoodMeans(w, x);
    GoodMeans(w, y);
    AddingKeepsTree(w, t, block.header);
    AncestorFrame(t, y.d.entries, w.genesis, x.tip.hash, t[p].height);
    CompleteBelow(y.d.entries, w.genesis, y.Ready(), x.tip.hash, t[p].height);
    assert Placed(y.d.entries, w.genesis, h) && Complete(y.d.entries, y.Ready(), h);
    assert Via(y.d.entries, y.Ready(), h, h);
  }

  lemma NoChildOfNew(w: World, t': Entries, t: Entries, h: BlockHash, c: ChainEntry)
    requires TreeOk(t, w.genesis) && h !in t && h != ZERO_HASH && c.hash in t' && t'[c.hash] == c
    requires t'.Keys == t.Keys + {h} && Extends(t, t') && t'[h].prevBlock != h
    ensures c.prevBlock != h
  {
    if c.hash in t {
      assert Placed(t, w.genesis, c.hash);
    }
  }
}
