/** What is true of the chain in every reachable state, and why each step keeps it. */
module ChainInvariant {
  import opened Primitives
  import opened Ledger
  import opened SkipList
  import opened Headers
  import opened MedianTime
  import opened Columns
  import opened ChainDb
  import opened HeaderColumns
  import opened Replay
  import opened BestChain

  /** Everything the chain keeps, on disk and in memory. */
  datatype Snapshot = Snapshot(
    d: Columns, s: ChainState, undos: UndoStore, blocks: map<BlockHash, Block>, downloaded: set<BlockHash>,
    invalid: set<BlockHash>, mostWork: Option<ChainEntry>, tip: ChainEntry)
  {
    /** The blocks that may be connected. */
    function Ready(): set<BlockHash> {
      downloaded - invalid
    }
  }

  ghost predicate HeadersOk(w: World, x: Snapshot) {
    && IndexOk(Index(x.d.entries, x.d.hashes), w.genesis, x.tip.hash) && IsStored(x.d, x.tip)
    && TimesOk(x.d.entries) && TreeMatches(w, x.d.entries) && EntriesSayHeaders(w, x.d.entries)
    && ChildrenOk(x.d) && LeavesOk(x.d) && MostWorkOk(x.d, x.mostWork)
    && HeightsOk(x.d) && NextsOk(x.d)
  }

  ghost predicate BlocksOk(w: World, x: Snapshot) {
    && x.downloaded == x.blocks.Keys && x.downloaded <= x.d.entries.Keys
    && (forall h :: h in x.blocks ==> x.blocks[h] == w.blockOf(h))
    && Complete(x.d.entries, x.Ready(), x.tip.hash)
  }

  ghost predicate Opened(x: Snapshot) {
    true
  }

  /** The invariant.  The quantifier keeps it folded wherever it is only passed on; `GoodMeans` opens it. */
  ghost predicate Good(w: World, x: Snapshot) {
    forall y {:trigger Opened(y)} :: Opened(y) && y == x ==>
        HeadersOk(w, y) && BlocksOk(w, y) && Faithful(w, y.d, y.s, y.undos, y.tip)
  }

  lemma GoodMeans(w: World, x: Snapshot)
    ensures Good(w, x) <==> HeadersOk(w, x) && BlocksOk(w, x) && Faithful(w, x.d, x.s, x.undos, x.tip)
  {
    assert Opened(x);
  }

  // ---- A new header ---------------------------------------------------------------------------

  /** The entry made for `header` behind `prev`. */
  function NewEntry(t: Entries, header: Header, prev: ChainEntry): ChainEntry {
    ChainEntry(
      header.hash, header.version, header.prev, header.time, prev.height + 1, prev.chainwork + header.work,
      AncestorAt(t, prev.hash, GetSkipHeight(prev.height + 1)))
  }

  /** What the caller of `AddHeader` vouches for. */
  ghost predicate MayAdd(w: World, t: Entries, header: Header) {
    && header == w.blockOf(header.hash).header && header.hash != ZERO_HASH && header.work > 0
    && header.hash !in t && header.prev in t && t[header.prev].height + 2 < HEIGHT_LIMIT
  }

  lemma AddingKeepsTree(w: World, t: Entries, header: Header)
    requires TreeOk(t, w.genesis) && TreeMatches(w, t) && MayAdd(w, t, header)
    ensures var e := NewEntry(t, header, t[header.prev]); var t' := t[e.hash := e];
            TreeOk(t', w.genesis) && TreeMatches(w, t') && Extends(t, t')
  {
    var e := NewEntry(t, header, t[header.prev]);
    var t' := t[e.hash := e];
    assert Placed(t, w.genesis, header.prev);
    forall h | h in t'
      ensures Placed(t', w.genesis, h)
    {
      if h != e.hash {
        assert Placed(t, w.genesis, h);
      }
    }
    forall h | h in t'
      ensures t'[h].prevBlock == PrevOf(w, h)
    {
      if h != e.hash {
        assert t[h].prevBlock == PrevOf(w, h);
      }
    }
  }

  /** The new entry's chainwork is its own work on top of all below it. */
  lemma AddingKeepsHeaders(w: World, t: Entries, header: Header)
    requires TreeOk(t, w.genesis) && TreeMatches(w, t) && EntriesSayHeaders(w, t) && MayAdd(w, t, header)
    ensures var e := NewEntry(t, header, t[header.prev]); EntriesSayHeaders(w, t[e.hash := e])
  {
    var e := NewEntry(t, header, t[header.prev]);
    var t' := t[e.hash := e];
    assert SaysItsHeader(w, t, header.prev);
    forall h | h in t'
      ensures SaysItsHeader(w, t', h)
    {
      if h != e.hash {
        assert SaysItsHeader(w, t, h);
      } else {
        assert PrevOf(w, h) == header.prev;
      }
    }
  }

  lemma AddingKeepsSkips(w: World, t: Entries, header: Header)
    requires TreeOk(t, w.genesis) && TreeMatches(w, t) && MayAdd(w, t, header) && SkipsOk(t)
    ensures var e := NewEntry(t, header, t[header.prev]); SkipsOk(t[e.hash := e])
  {
    var e := NewEntry(t, header, t[header.prev]);
    var t' := t[e.hash := e];
    AddingKeepsTree(w, t, header);
    forall h | h in t'
      ensures SkipOk(t', h)
    {
      if h != e.hash {
        assert SkipOk(t, h);
        AncestorFrame(t, t', w.genesis, h, GetSkipHeight(t[h].height));
      } else {
        assert Placed(t', w.genesis, h) && Placed(t, w.genesis, header.prev);
        AncestorFrame(t, t', w.genesis, header.prev, GetSkipHeight(e.height));
      }
    }
  }

  lemma AddingKeepsTimes(w: World, t: Entries, header: Header)
    requires TreeOk(t, w.genesis) && TreeMatches(w, t) && MayAdd(w, t, header) && TimesOk(t)
    requires header.time > MedianTimePast(t, header.prev)
    ensures var e := NewEntry(t, header, t[header.prev]); TimesOk(t[e.hash := e])
  {
    var e := NewEntry(t, header, t[header.prev]);
    var t' := t[e.hash := e];
    AddingKeepsTree(w, t, header);
    forall h | h in t'
      ensures TimeOk(t', h)
    {
      if h != e.hash {
        assert TimeOk(t, h) && Placed(t, w.genesis, h);
        if t[h].height > 0 {
          MedianFrame(t, t', w.genesis, t[h].prevBlock);
        }
      } else {
        MedianFrame(t, t', w.genesis, header.prev);
      }
    }
  }

  lemma MedianFrame(t: Entries, t': Entries, genesis: BlockHash, h: BlockHash)
    requires TreeOk(t, genesis) && Extends(t, t') && h in t && ZERO_HASH !in t'
    ensures h in t' && MedianTimePast(t', h) == MedianTimePast(t, h)
  {
    TimesBackFrame(t, t', genesis, h, Consensus.MEDIAN_TIMESPAN);
  }

  lemma MainFrame(index: Index, t': Entries, genesis: BlockHash, tip: BlockHash)
    requires TreeOk(index.entries, genesis) && MainOk(index, tip) && Extends(index.entries, t')
    ensures MainOk(Index(t', index.heights), tip)
  {
    forall i | i in index.heights
      ensures index.heights[i] == AncestorAt(t', tip, i)
    {
      AncestorFrame(index.entries, t', genesis, tip, i);
    }
  }

  lemma RecordsFrame(w: World, t: Entries, t': Entries, undos: UndoStore)
    requires RecordsOk(w, t, undos) && Extends(t, t')
    ensures RecordsOk(w, t', undos)
  {
    forall h | h in undos
      ensures RecordOk(w, t', undos, h)
    {
      assert RecordOk(w, t, undos, h);
    }
  }

  /** Everything about the columns that a new header keeps. */
  lemma AddingKeepsColumns(w: World, x: Snapshot, header: Header)
    requires HeadersOk(w, x) && MayAdd(w, x.d.entries, header)
    requires header.time > MedianTimePast(x.d.entries, header.prev)
    ensures HeadersOk(w, WithHeader(x, header))
  {
    var t := x.d.entries;
    var prev := t[header.prev];
    var e := NewEntry(t, header, prev);
    assert Placed(t, w.genesis, header.prev);
    AddingKeepsTree(w, t, header);
    AddingKeepsSkips(w, t, header);
    AddingKeepsHeaders(w, t, header);
    AddingKeepsTimes(w, t, header);
    MainFrame(Index(t, x.d.hashes), t[e.hash := e], w.genesis, x.tip.hash);
    SavingKeepsChildren(x.d, e, prev);
    forall c | c in t
      ensures t[c].prevBlock != e.hash
    {
      assert Placed(t, w.genesis, c);
    }
    SavingKeepsLeaves(x.d, e, prev);
    SavingKeepsMostWork(x.d, e, prev, x.mostWork);
    SavingKeepsNexts(x.d, e, prev);
  }

  lemma SavingKeepsNexts(d: Columns, entry: ChainEntry, prev: ChainEntry)
    requires NextsOk(d) && entry.hash !in d.entries
    ensures NextsOk(AfterSave(d, entry, prev))
  {
    var d' := AfterSave(d, entry, prev);
    forall k: nat
      ensures NextOk(d', k)
    {
      assert NextOk(d, k);
    }
    forall h | h in d'.nextHash
      ensures HasNext(d', h)
    {
      assert HasNext(d, h);
    }
  }

  /** The state after `header` was added. */
  function WithHeader(x: Snapshot, header: Header): Snapshot
    requires header.prev in x.d.entries
  {
    var prev := x.d.entries[header.prev];
    var e := NewEntry(x.d.entries, header, prev);
    x.(d := AfterSave(x.d, e, prev),
       mostWork := if x.mostWork.None? || Better(e, x.mostWork.value) then Some(e) else x.mostWork)
  }

  /** A new header keeps the invariant, and the best chain the best. */
  lemma AddingIsGood(w: World, x: Snapshot, header: Header)
    requires Good(w, x) && MayAdd(w, x.d.entries, header)
    requires header.time > MedianTimePast(x.d.entries, header.prev)
    ensures Good(w, WithHeader(x, header))
    ensures Best(x.d.entries, x.Ready(), x.tip.chainwork) ==>
              Best(WithHeader(x, header).d.entries, WithHeader(x, header).Ready(), x.tip.chainwork)
  {
    AddingKeepsBlocks(w, x, header);
    if Best(x.d.entries, x.Ready(), x.tip.chainwork) {
      AddingKeepsBest(w, x, header);
    }
    GoodMeans(w, WithHeader(x, header));
  }

  lemma AddingKeepsBest(w: World, x: Snapshot, header: Header)
    requires Good(w, x) && MayAdd(w, x.d.entries, header) && Best(x.d.entries, x.Ready(), x.tip.chainwork)
    ensures Best(WithHeader(x, header).d.entries, WithHeader(x, header).Ready(), x.tip.chainwork)
  {
    GoodMeans(w, x);
    AddingExtends(w, x, header);
    BestFrame(x.d.entries, WithHeader(x, header).d.entries, w.genesis, x.Ready(), x.tip.chainwork);
  }

  lemma AddingKeepsBlocks(w: World, x: Snapshot, header: Header)
    requires Good(w, x) && MayAdd(w, x.d.entries, header)
    requires header.time > MedianTimePast(x.d.entries, header.prev)
    ensures var x' := WithHeader(x, header);
            HeadersOk(w, x') && BlocksOk(w, x') && Faithful(w, x'.d, x'.s, x'.undos, x'.tip)
  {
    GoodMeans(w, x);
    AddingKeepsColumns(w, x, header);
    AddingExtends(w, x, header);
    RecordsFrame(w, x.d.entries, WithHeader(x, header).d.entries, x.undos);
    CompleteFrame(x.d.entries, WithHeader(x, header).d.entries, w.genesis, x.Ready(), x.tip.hash);
  }

  lemma AddingExtends(w: World, x: Snapshot, header: Header)
    requires Good(w, x) && MayAdd(w, x.d.entries, header)
    ensures Extends(x.d.entries, WithHeader(x, header).d.entries)
    ensures TreeOk(x.d.entries, w.genesis) && TreeOk(WithHeader(x, header).d.entries, w.genesis)
  {
    GoodMeans(w, x);
    AddingKeepsTree(w, x.d.entries, header);
  }

  // ---- Connecting and disconnecting ------------------------------------------------------------

  /** The header columns do not change when blocks are connected or disconnected. */
  lemma HeaderColumnsFrame(d: Columns, d': Columns, best: Option<ChainEntry>)
    requires d'.entries == d.entries && d'.nextHashes == d.nextHashes && d'.chainWork == d.chainWork
    requires ChildrenOk(d) && LeavesOk(d) && MostWorkOk(d, best)
    ensures ChildrenOk(d') && LeavesOk(d') && MostWorkOk(d', best)
  {
    forall p
      ensures ListsChildren(d', p)
    {
      assert ListsChildren(d, p);
    }
    forall work, h
      ensures LeafAt(d', work, h)
    {
      assert LeafAt(d, work, h);
    }
  }

  lemma ConnectingExtendsMain(index: Index, genesis: BlockHash, tip: BlockHash, entry: ChainEntry)
    requires IndexOk(index, genesis, tip) && entry.hash in index.entries && index.entries[entry.hash] == entry
    requires entry.prevBlock == tip && entry.height == index.entries[tip].height + 1
    ensures IndexOk(index.(heights := index.heights[entry.height := entry.hash]), genesis, entry.hash)
  {
    var t, after := index.entries, index.heights[entry.height := entry.hash];
    forall i | i in after
      ensures after[i] == AncestorAt(t, entry.hash, i)
    {
      if i < entry.height {
        assert AncestorAt(t, entry.hash, i) == AncestorAt(t, tip, i);
      }
    }
  }

  lemma DisconnectingShortensMain(index: Index, genesis: BlockHash, tip: BlockHash)
    requires IndexOk(index, genesis, tip) && index.entries[tip].height > 0
    ensures index.entries[tip].prevBlock in index.entries
    ensures IndexOk(index.(heights := index.heights - {index.entries[tip].height}), genesis,
                    index.entries[tip].prevBlock)
  {
    var t := index.entries;
    assert Placed(t, genesis, tip);
    var after := index.heights - {t[tip].height};
    forall i | i in after
      ensures after[i] == AncestorAt(t, t[tip].prevBlock, i)
    {
      assert AncestorAt(t, tip, i) == AncestorAt(t, t[tip].prevBlock, i);
    }
  }

  /** `entry` can be put on the tip. */
  ghost predicate OnTip(x: Snapshot, entry: ChainEntry) {
    IsStored(x.d, entry) && entry.prevBlock == x.tip.hash && entry.height == x.tip.height + 1 && entry.hash in x.Ready()
  }

  lemma ConnectingKeepsNexts(w: World, x: Snapshot, d': Columns, entry: ChainEntry)
    requires HeadersOk(w, x) && OnTip(x, entry)
    requires d'.entries == x.d.entries && d'.heightOf == x.d.heightOf
    requires d'.hashes == x.d.hashes[entry.height := entry.hash]
             && d'.nextHash == x.d.nextHash[entry.prevBlock := entry.hash]
    ensures HeightsOk(d') && NextsOk(d')
  {
    var d, t := x.d, x.d.entries;
    assert d.hashes[x.tip.height] == AncestorAt(t, x.tip.hash, x.tip.height);
    forall k: nat
      ensures NextOk(d', k)
    {
      assert NextOk(d, k);
      if k in d.hashes && k < x.tip.height {
        AncestorExists(t, w.genesis, x.tip.hash, k);
      }
    }
    forall h | h in d'.nextHash
      ensures HasNext(d', h)
    {
      assert h != entry.prevBlock ==> HasNext(d, h);
    }
  }

  lemma DisconnectingKeepsNexts(w: World, x: Snapshot, d': Columns)
    requires HeadersOk(w, x) && x.tip.height > 0
    requires d'.entries == x.d.entries && d'.heightOf == x.d.heightOf
    requires d'.hashes == x.d.hashes - {x.tip.height} && d'.nextHash == x.d.nextHash - {x.tip.prevBlock}
    ensures HeightsOk(d') && NextsOk(d')
  {
    var d, t := x.d, x.d.entries;
    AncestorStep(t, w.genesis, x.tip.hash, x.tip.height);
    forall k: nat
      ensures NextOk(d', k)
    {
      assert NextOk(d, k);
      if k < x.tip.height {
        AncestorExists(t, w.genesis, x.tip.hash, k);
        AncestorExists(t, w.genesis, x.tip.hash, x.tip.height - 1);
      }
    }
    forall h | h in d'.nextHash
      ensures HasNext(d', h)
    {
      assert HasNext(d, h);
      assert t[h].height < x.tip.height;
    }
  }

  lemma ConnectingKeepsHeaders(w: World, x: Snapshot, x': Snapshot, entry: ChainEntry)
    requires HeadersOk(w, x) && OnTip(x, entry)
    requires PutOn(x.d, x.s, x'.d, x'.s, entry, w.blockOf(entry.hash)) && x'.mostWork == x.mostWork && x'.tip == entry
    ensures HeadersOk(w, x')
  {
    ConnectingExtendsMain(Index(x.d.entries, x.d.hashes), w.genesis, x.tip.hash, entry);
    HeaderColumnsFrame(x.d, x'.d, x.mostWork);
    ConnectingKeepsNexts(w, x, x'.d, entry);
  }

  /** Connecting a block that is fit for it keeps the invariant. */
  lemma ConnectingIsGood(w: World, x: Snapshot, x': Snapshot, entry: ChainEntry)
    requires WorldOk(w) && Good(w, x) && OnTip(x, entry)
    requires Connectable(x.d.coins, w.blockOf(entry.hash).txs, entry.height, w.rules.interval)
    requires PutOn(x.d, x.s, x'.d, x'.s, entry, w.blockOf(entry.hash)) && Counts(x'.s, x'.d.coins)
    requires x' == x.(d := x'.d, s := x'.s, undos := x'.undos, tip := entry)
    requires UndosFollow(w, x, x'.undos, entry)
    ensures Good(w, x')
  {
    GoodMeans(w, x);
    ConnectingKeepsHeaders(w, x, x', entry);
    assert Placed(x.d.entries, w.genesis, entry.hash) && Placed(x.d.entries, w.genesis, x.tip.hash);
    assert x.d.entries[entry.hash].prevBlock == PrevOf(w, entry.hash);
    ConnectingKeepsFaith(w, x.d, x.s, x.undos, x.tip, x'.d, x'.s, x'.undos, entry);
    GoodMeans(w, x');
  }

  /** The undo records after the block of `entry` was connected. */
  ghost predicate UndosFollow(w: World, x: Snapshot, undos: UndoStore, entry: ChainEntry)
    requires entry.height > 0
  {
    && x.undos.Keys <= undos.Keys && RecordsOk(w, x.d.entries, undos)
    && (UndoAt(w, entry.hash, entry.height) != [] ==> entry.hash in undos)
  }

  lemma TipHasParent(w: World, x: Snapshot)
    requires Good(w, x) && x.tip.height > 0
    ensures x.tip.prevBlock in x.d.entries && IsStored(x.d, x.d.entries[x.tip.prevBlock])
    ensures x.d.entries[x.tip.prevBlock].height == x.tip.height - 1
            && x.d.entries[x.tip.prevBlock].hash == x.tip.prevBlock == PrevOf(w, x.tip.hash)
    ensures IsStored(x.d, x.tip) && x.tip.height < HEIGHT_LIMIT
  {
    GoodMeans(w, x);
    assert Placed(x.d.entries, w.genesis, x.tip.hash);
    assert Placed(x.d.entries, w.genesis, x.tip.prevBlock);
    assert x.d.entries[x.tip.hash].prevBlock == PrevOf(w, x.tip.hash);
  }

  /** Disconnecting the tip keeps the invariant. */
  lemma DisconnectingIsGood(w: World, x: Snapshot, x': Snapshot)
    requires Good(w, x) && x.tip.height > 0
    requires TookOff(x.d, x.s, x'.d, x'.s, x.tip, w.blockOf(x.tip.hash), Before(w, x.tip.hash, x.tip.height))
             && Counts(x'.s, x'.d.coins)
    requires x.tip.prevBlock in x.d.entries
    requires x' == x.(d := x'.d, s := x'.s, tip := x.d.entries[x.tip.prevBlock])
    ensures Good(w, x')
  {
    TipHasParent(w, x);
    GoodMeans(w, x);
    DisconnectingShortensMain(Index(x.d.entries, x.d.hashes), w.genesis, x.tip.hash);
    HeaderColumnsFrame(x.d, x'.d, x.mostWork);
    DisconnectingKeepsNexts(w, x, x'.d);
    DisconnectingKeepsFaith(w, x.d, x.s, x.undos, x.tip, x'.d, x'.s, x'.tip);
    RecordsFrame(w, x.d.entries, x'.d.entries, x.undos);
    GoodMeans(w, x');
  }

  /** Marking a block invalid that is higher than the tip, or not there yet, keeps the invariant. */
  lemma InvalidatingIsGood(w: World, x: Snapshot, h: BlockHash)
    requires Good(w, x) && h in x.d.entries
    requires h !in x.downloaded || x.d.entries[h].height > x.tip.height
    ensures Good(w, x.(invalid := x.invalid + {h}))
  {
    GoodMeans(w, x);
    var x' := x.(invalid := x.invalid + {h});
    if h in x.downloaded {
      CompleteWithout(x.d.entries, w.genesis, x.Ready(), h, x.tip.hash);
      assert x'.Ready() == x.Ready() - {h};
    } else {
      assert x'.Ready() == x.Ready();
    }
    GoodMeans(w, x');
  }

  /** A block that arrives keeps the invariant. */
  lemma StoringIsGood(w: World, x: Snapshot, h: BlockHash)
    requires Good(w, x) && h in x.d.entries && h !in x.downloaded
    ensures Good(w, x.(blocks := x.blocks[h := w.blockOf(h)], downloaded := x.downloaded + {h}))
  {
    GoodMeans(w, x);
    var x' := x.(blocks := x.blocks[h := w.blockOf(h)], downloaded := x.downloaded + {h});
    CompleteGrows(x.d.entries, w.genesis, x.Ready(), x'.Ready(), x.tip.hash);
    GoodMeans(w, x');
  }

  // ---- The first state, and the state after reopening --------------------------------------------

  function GenesisEntry(w: World): ChainEntry {
    var header := w.blockOf(w.genesis).header;
    ChainEntry(header.hash, header.version, header.prev, header.time, 0, header.work, ZERO_HASH)
  }

  /** A database with nothing but the genesis block. */
  function FirstState(w: World): Snapshot {
    var entry := GenesisEntry(w);
    var s := ChainState(w.genesis, |w.blockOf(w.genesis).txs|, 0, 0, true);
    Snapshot(AfterConnect(AfterSave(EMPTY, entry, NO_ENTRY), entry, map[], s), s, map[],
             map[w.genesis := w.blockOf(w.genesis)], {w.genesis}, {}, Some(entry), entry)
  }

  lemma FirstIsGood(w: World)
    requires WorldOk(w)
    ensures Good(w, FirstState(w))
    ensures Best(FirstState(w).d.entries, FirstState(w).Ready(), FirstState(w).tip.chainwork)
  {
    var x, e := FirstState(w), GenesisEntry(w);
    assert BlockFine(w, w.genesis);
    FirstColumns(w);
    CountsMeans(x.s, map[]);
    GoodMeans(w, x);
  }

  lemma FirstColumns(w: World)
    requires WorldOk(w)
    ensures HeadersOk(w, FirstState(w))
  {
    var x, e := FirstState(w), GenesisEntry(w);
    var saved := AfterSave(EMPTY, e, NO_ENTRY);
    assert BlockFine(w, w.genesis);
    assert x.d.entries == map[w.genesis := e] && x.d.hashes == map[0 := w.genesis];
    assert Placed(x.d.entries, w.genesis, w.genesis);
    assert ChildrenOk(EMPTY) && LeavesOk(EMPTY);
    SavingKeepsChildren(EMPTY, e, NO_ENTRY);
    SavingKeepsLeaves(EMPTY, e, NO_ENTRY);
    SavingKeepsMostWork(EMPTY, e, NO_ENTRY, None);
    HeaderColumnsFrame(saved, x.d, x.mostWork);
  }

  /** Reopening forgets which blocks were invalid and finds the most work anew; the invariant holds still. */
  lemma ReopeningIsGood(w: World, x: Snapshot, best: ChainEntry)
    requires Good(w, x) && best in x.d.chainWork.Values
    requires forall e :: e in x.d.chainWork.Values ==> e.chainwork <= best.chainwork
    ensures Good(w, x.(s := x.s.Saved(), invalid := {}, mostWork := Some(best)))
  {
    GoodMeans(w, x);
    var x' := x.(s := x.s.Saved(), invalid := {}, mostWork := Some(best));
    ReopeningFindsMostWork(x.d, w.genesis, x.mostWork, best);
    CompleteGrows(x.d.entries, w.genesis, x.Ready(), x'.Ready(), x.tip.hash);
    CountsMeans(x.s, x.d.coins);
    CountsMeans(x'.s, x.d.coins);
    GoodMeans(w, x');
  }
}
