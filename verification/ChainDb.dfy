/** The chain database: every change is one batch, taken over by disk, cache and state together
    or by none of them. */
module ChainDb {
  import opened Primitives
  import opened Coins
  import opened Ledger
  import opened Checks
  import opened Headers
  import opened SkipList
  import opened Columns
  import opened BlockRuns

  /** The cache holds what the columns hold, and the state is the one on disk. */
  ghost predicate MemoryIsDisk(index: Index, s: ChainState, d: Columns) {
    && index == Index(d.entries, d.hashes)
    && d.state == if s == NO_STATE then None else Some(s.Saved())
  }

  /** `entry` is one that is stored. */
  predicate IsStored(d: Columns, entry: ChainEntry) {
    entry.hash in d.entries && d.entries[entry.hash] == entry
  }

  function NextHashes(d: Columns, prev: BlockHash): seq<BlockHash> {
    if prev in d.nextHashes then d.nextHashes[prev] else []
  }

  const EMPTY := Columns(map[], map[], map[], map[], map[], map[], map[], None)

  /** The entry that stands for the parent of the genesis block. */
  const NO_ENTRY := ChainEntry(ZERO_HASH, 0, ZERO_HASH, 0, 0, 0, ZERO_HASH)

  // ---- What each change makes of the columns ------------------------------------------------

  function AfterSave(d: Columns, entry: ChainEntry, prev: ChainEntry): Columns {
    d.(heightOf := d.heightOf[entry.hash := entry.height],
       entries := d.entries[entry.hash := entry],
       chainWork := (d.chainWork - {(prev.chainwork, prev.hash)})[(entry.chainwork, entry.hash) := entry],
       nextHashes := d.nextHashes[prev.hash := NextHashes(d, prev.hash) + [entry.hash]])
  }

  function Linked(d: Columns, entry: ChainEntry, hash: BlockHash): Columns {
    d.(nextHash := if entry.height == 0 then d.nextHash else d.nextHash[entry.prevBlock := hash],
       hashes := d.hashes[entry.height := hash])
  }

  function AfterConnect(d: Columns, entry: ChainEntry, coins: CoinMap, s: ChainState): Columns {
    Linked(d, entry, entry.hash).(
       coins := coins,
       state := Some(s.Saved()))
  }

  function Unlinked(d: Columns, entry: ChainEntry): Columns {
    d.(nextHash := d.nextHash - {entry.prevBlock}, hashes := d.hashes - {entry.height})
  }

  function AfterDisconnect(d: Columns, entry: ChainEntry, coins: CoinMap, s: ChainState): Columns {
    Unlinked(d, entry).(
       coins := coins,
       state := Some(s.Saved()))
  }

  ghost predicate AtHeight(height: nat) {
    true
  }

  /** The block may be connected to `coins`, and view and undo list record what it does.  The
      quantifier keeps it folded wherever it is only passed on; `PreparedMeans` opens it. */
  ghost predicate Prepared(view: CoinMap, undo: seq<CoinEntry>, coins: CoinMap, block: Block, height: nat,
                           interval: nat) {
    forall k: nat {:trigger AtHeight(k)} :: AtHeight(k) && k == height ==>
      Connectable(coins, block.txs, k, interval) && Records(view, undo, coins, block.txs, |block.txs|, k)
  }

  lemma PreparedMeans(view: CoinMap, undo: seq<CoinEntry>, coins: CoinMap, block: Block, height: nat, interval: nat)
    ensures Prepared(view, undo, coins, block, height, interval) <==>
              Connectable(coins, block.txs, height, interval)
              && Records(view, undo, coins, block.txs, |block.txs|, height)
  {
    assert AtHeight(height);
  }

  /** The block of `entry` was put on top of the chain; the genesis block makes no coins. */
  ghost predicate PutOn(d: Columns, s: ChainState, d': Columns, s': ChainState, entry: ChainEntry, block: Block) {
    && s'.tip == entry.hash && s'.tx == s.tx + |block.txs| && s'.committed
    && d' == AfterConnect(d, entry, if entry.height == 0 then d.coins
                          else ApplyBlock(d.coins, block.txs, entry.height), s')
  }

  /** The block of `entry` was taken off the top, and the coins are `before` again. */
  ghost predicate TookOff(d: Columns, s: ChainState, d': Columns, s': ChainState, entry: ChainEntry, block: Block,
                          before: CoinMap) {
    && s'.tip == entry.prevBlock && s'.tx == s.tx - |block.txs| && s'.committed
    && d' == AfterDisconnect(d, entry, before, s')
  }

  // ---- Undo records -------------------------------------------------------------------------

  type UndoStore = map<BlockHash, seq<Token>>

  /** Undo records are written once: a second one under the same hash is ignored. */
  function UndoWritten(undos: UndoStore, hash: BlockHash, items: seq<CoinEntry>): UndoStore {
    if hash in undos then undos else undos[hash := [Unsigned(|items| % UNDO_LENGTHS)] + EncodeCoins(items)]
  }

  /** The record under `hash` gives back `undo`, and is there exactly when there is something to undo. */
  ghost predicate UndoRecorded(undos: UndoStore, hash: BlockHash, undo: seq<CoinEntry>) {
    && (hash in undos <==> undo != [])
    && (hash in undos ==> DecodedUndo(undos[hash]) == Some(undo))
  }

  // ---- The best header ----------------------------------------------------------------------

  predicate Better(entry: ChainEntry, than: ChainEntry) {
    entry.chainwork > than.chainwork || (entry.chainwork == than.chainwork && entry.hash > than.hash)
  }

  datatype Outcome = Done | Failed | Halted

  class ChainDb {
    const cache: ChainEntryCache
    var state: ChainState
    var disk: Columns
    var pending: Option<ChainState>
    var invalid: set<BlockHash>
    var mostWork: Option<ChainEntry>
    var downloaded: set<BlockHash>
    var blocks: map<BlockHash, Block>
    var undos: UndoStore

    ghost predicate InStep()
      reads this, cache
    {
      pending == None && MemoryIsDisk(cache.Value(), state, disk)
    }

    /** Opens what is on disk; the cache holds it at once. */
    constructor (d: Columns, storedBlocks: map<BlockHash, Block>, storedUndos: UndoStore)
      requires forall h :: h in d.entries ==> d.entries[h].hash == h
      ensures fresh(cache) && cache.Value() == Index(d.entries, d.hashes)
      ensures disk == d && blocks == storedBlocks && undos == storedUndos && downloaded == blocks.Keys
      ensures pending == None && state == NO_STATE && invalid == {} && mostWork == None
    {
      cache := new ChainEntryCache(d);
      disk, blocks, undos := d, storedBlocks, storedUndos;
      downloaded := storedBlocks.Keys;
      state, pending, invalid, mostWork := NO_STATE, None, {}, None;
    }

    /** An entry of the chainwork column that none of its entries exceeds. */
    method MostWorkEntry() returns (best: Option<ChainEntry>)
      ensures best.None? <==> disk.chainWork == map[]
      ensures best.Some? ==> best.value in disk.chainWork.Values
      ensures best.Some? ==> forall e :: e in disk.chainWork.Values ==> e.chainwork <= best.value.chainwork
    {
      best := None;
      var keys := disk.chainWork.Keys;
      while keys != {}
        invariant keys <= disk.chainWork.Keys
        invariant best.None? <==> keys == disk.chainWork.Keys
        invariant best.Some? ==> best.value in disk.chainWork.Values
        invariant best.Some? ==> forall k :: k in disk.chainWork && k !in keys ==>
                    disk.chainWork[k].chainwork <= best.value.chainwork
        decreases keys
      {
        var k :| k in keys;
        var entry := disk.chainWork[k];
        if best.None? || entry.chainwork >= best.value.chainwork {
          best := Some(entry);
        }
        keys := keys - {k};
      }
    }

    method Start() returns (batch: seq<Op>)
      requires pending == None
      modifies this`pending, cache`batch
      ensures batch == [] && pending == Some(state) && cache.batch == []
    {
      batch := [];
      pending := Some(state);
      cache.ClearBatch();
    }

    /** Writes the batch; state and cache follow exactly when the write succeeds. */
    method Commit(batch: seq<Op>, written: bool) returns (ok: bool)
      requires pending.Some?
      modifies this`pending, this`disk, this`state, cache
      ensures pending == None && cache.batch == [] && ok == written
      ensures ok ==>
                disk == Written(old(disk), batch)
                && cache.Value() == CachedAll(old(cache.Value()), old(cache.batch))
      ensures ok ==> state == if old(pending.value.committed) then old(pending.value) else old(state)
      ensures !ok ==> disk == old(disk) && cache.Value() == old(cache.Value()) && state == old(state)
    {
      var next := pending.value;
      pending := None;
      if !written {
        cache.ClearBatch();
        return false;
      }
      disk := Written(disk, batch);
      if next.committed {
        state := next;
      }
      cache.WriteBatch();
      return true;
    }

    method Drop()
      requires pending.Some?
      modifies this`pending, cache`batch
      ensures pending == None && cache.batch == []
    {
      pending := None;
      cache.ClearBatch();
    }

    method UpdateMostWork(entry: ChainEntry)
      modifies this`mostWork
      ensures mostWork == if old(mostWork).None? || Better(entry, old(mostWork).value) then Some(entry)
              else old(mostWork)
    {
      match mostWork
      case None => mostWork := Some(entry);
      case Some(best) =>
        if entry.chainwork > best.chainwork {
          mostWork := Some(entry);
        } else if entry.chainwork == best.chainwork && entry.hash > best.hash {
          mostWork := Some(entry);
        }
    }

    /** Stores a new header entry behind `prev`; `nextsRead` and `written` are what the disk lets happen. */
    method SaveEntry(entry: ChainEntry, prev: ChainEntry, nextsRead: bool, written: bool, ghost genesis: BlockHash,
                     ghost tip: BlockHash) returns (ok: bool)
      requires InStep() && entry.hash !in disk.entries
      requires entry.height > 0 ==>
                 var t := disk.entries[entry.hash := entry];
                 IndexOk(Index(disk.entries, disk.hashes), genesis, tip) && TreeOk(t, genesis) && SkipsOk(t)
      modifies this`pending, this`disk, this`state, this`mostWork, cache
      ensures InStep() && state == old(state) && ok == (nextsRead && written)
      ensures disk == if ok then AfterSave(old(disk), entry, prev) else old(disk)
      ensures mostWork == if ok && (old(mostWork).None? || Better(entry, old(mostWork).value)) then Some(entry)
              else old(mostWork)
    {
      var batch := Start();
      ghost var d := disk;
      batch := batch + [PutHeight(entry.hash, entry.height)] + [PutEntry(entry)];
      cache.Insert(InsertHash(entry));
      batch := batch + [RemoveChainWork(prev.chainwork, prev.hash)] + [PutChainWork(entry)];
      var saved := entry;
      if !entry.IsGenesis() {
        ghost var t := disk.entries[entry.hash := entry];
        assert SkipOk(t, entry.hash);
        var skip, hops := GetAncestor(cache.Value(), entry, GetSkipHeight(entry.height), t, genesis, tip);
        saved := entry.(skip := skip.hash);
      }
      if !nextsRead {
        Drop();
        return false;
      }
      var nexts := NextHashes(disk, prev.hash) + [entry.hash];
      SavingWrites(d, entry, prev);
      batch := batch + [PutNextHashes(prev.hash, nexts)];
      ok := Commit(batch, written);
      if ok {
        UpdateMostWork(saved);
      }
    }

    /** Writes a block to the block store, once. */
    method WriteBlock(hash: BlockHash, block: Block)
      modifies this`blocks, this`downloaded
      ensures blocks == if hash in old(blocks) then old(blocks) else old(blocks)[hash := block]
      ensures downloaded == old(downloaded) + {hash}
    {
      if hash !in blocks {
        blocks := blocks[hash := block];
      }
      downloaded := downloaded + {hash};
    }

    method WriteUndo(hash: BlockHash, undo: UndoCoins)
      modifies this`undos
      ensures undos == UndoWritten(old(undos), hash, undo.items)
    {
      if hash !in undos {
        var encoded := undo.Encode();
        undos := undos[hash := encoded];
      }
    }

    /** Counts the block, adds its coins to the batch and writes its undo record if it has any. */
    method ConnectBlock(batch: seq<Op>, entry: ChainEntry, block: Block, view: CoinView, undoWritten: bool,
                        ghost d: Columns, ghost interval: nat)
      returns (ok: bool, out: seq<Op>)
      requires pending.Some?
      requires entry.height > 0 ==>
                 Prepared(view.coins, view.undo.items, Written(d, batch).coins, block, entry.height, interval)
                 && Counts(pending.value, Written(d, batch).coins)
      modifies this`pending, this`undos
      ensures ok == (entry.height == 0 || view.undo.items == [] || undoWritten)
      ensures undos == if ok && entry.height > 0 && view.undo.items != [] then
                UndoWritten(old(undos), entry.hash, view.undo.items) else old(undos)
      ensures pending.Some? && pending.value ==
                old(pending.value).(tx := old(pending.value).tx + |block.txs|, coin := pending.value.coin,
                                    value := pending.value.value)
      ensures entry.height == 0 ==>
                pending.value.coin == old(pending.value).coin && pending.value.value == old(pending.value).value
                && out == batch
      ensures ok && entry.height > 0 ==>
                var coins := ApplyBlock(Written(d, batch).coins, block.txs, entry.height);
                Written(d, out) == Written(d, batch).(coins := coins) && Counts(pending.value, coins)
    {
      out := batch;
      ok := true;
      pending := Some(pending.value.Connect(block));
      if entry.IsGenesis() {
        return;
      }
      PreparedMeans(view.coins, view.undo.items, Written(d, batch).coins, block, entry.height, interval);
      var counted := CountBlock(pending.value, block, view.coins, view.undo.items, Written(d, batch).coins,
                                entry.height, interval);
      pending := Some(counted);
      out := SaveView(view.coins, batch, d);
      if view.undo.items != [] {
        if !undoWritten {
          return false, out;
        }
        WriteUndo(entry.hash, view.undo);
      }
    }

    /** Starts a batch with the links of a block that is being connected. */
    method Link(entry: ChainEntry, hash: BlockHash) returns (batch: seq<Op>)
      requires pending == None
      modifies this`pending, cache`batch
      ensures pending == Some(state) && cache.batch == [InsertHeight(entry), InsertHash(entry)]
      ensures Written(disk, batch) == Linked(disk, entry, hash)
    {
      batch := Start();
      if !entry.IsGenesis() {
        WrittenOneMore(disk, batch, PutNextHash(entry.prevBlock, hash));
        batch := batch + [PutNextHash(entry.prevBlock, hash)];
      }
      WrittenOneMore(disk, batch, PutHash(entry.height, hash));
      batch := batch + [PutHash(entry.height, hash)];
      cache.Insert(InsertHeight(entry));
      cache.Insert(InsertHash(entry));
      assert cache.batch == [InsertHeight(entry), InsertHash(entry)];
    }

    /** Connects a verified block on top of the chain, on disk and in memory, or changes neither. */
    method Connect(entry: ChainEntry, block: Block, view: CoinView, undoWritten: bool, written: bool,
                   ghost interval: nat) returns (ok: bool)
      requires InStep() && IsStored(disk, entry) && block.header.hash == entry.hash && Counts(state, disk.coins)
      requires entry.height > 0 ==> Prepared(view.coins, view.undo.items, disk.coins, block, entry.height, interval)
      modifies this`pending, this`disk, this`state, this`undos, cache
      ensures InStep() && Counts(state, disk.coins)
      ensures ok == (written && (entry.height == 0 || view.undo.items == [] || undoWritten))
      ensures undos == old(undos) || (view.undo.items != []
                                      && undos == UndoWritten(old(undos), entry.hash, view.undo.items))
      ensures ok && entry.height > 0 && view.undo.items != [] ==> entry.hash in undos
      ensures ok ==> PutOn(old(disk), old(state), disk, state, entry, block)
      ensures !ok ==> disk == old(disk) && state == old(state)
    {
      ghost var d := disk;
      var batch := Link(entry, block.header.hash);
      ok, batch := ConnectBlock(batch, entry, block, view, undoWritten, d, interval);
      if !ok {
        Drop();
        return;
      }
      ok := FinishConnect(batch, entry, written, if entry.height == 0 then d.coins
                          else ApplyBlock(d.coins, block.txs, entry.height));
    }

    /** Makes `entry` the tip and writes the batch. */
    method FinishConnect(batch: seq<Op>, entry: ChainEntry, written: bool, ghost coins: CoinMap) returns (ok: bool)
      requires pending.Some? && Counts(pending.value, coins)
      requires MemoryIsDisk(cache.Value(), state, disk) && Counts(state, disk.coins) && IsStored(disk, entry)
      requires cache.batch == [InsertHeight(entry), InsertHash(entry)]
      requires Written(disk, batch) == Linked(disk, entry, entry.hash).(coins := coins)
      modifies this`pending, this`disk, this`state, cache
      ensures InStep() && Counts(state, disk.coins) && ok == written
      ensures ok ==>
                state == old(pending.value).Commit(entry.hash)
                && disk == AfterConnect(old(disk), entry, coins, state)
      ensures !ok ==> disk == old(disk) && state == old(state)
    {
      pending := Some(pending.value.Commit(entry.hash));
      ConnectingWrites(disk, batch, entry, coins, pending.value);
      ok := Commit(batch + [PutState(pending.value)], written);
    }

    /** Reads the undo record; `None` when the record is not there, and then nothing can go on. */
    method GetUndoCoins(hash: BlockHash) returns (undo: UndoCoins, found: bool)
      requires hash in undos ==> DecodedUndo(undos[hash]).Some?
      ensures fresh(undo) && found == (hash in undos)
      ensures found ==> Some(undo.items) == DecodedUndo(undos[hash])
    {
      undo := new UndoCoins();
      found := hash in undos;
      if found {
        var items := DecodeUndo(undos[hash]);
        undo.items := items.value;
      }
    }

    /** Starts a batch without the links of the block that is being disconnected. */
    method Unlink(entry: ChainEntry) returns (batch: seq<Op>)
      requires pending == None
      modifies this`pending, cache`batch
      ensures pending == Some(state) && cache.batch == [RemoveHeight(entry.height)]
      ensures Written(disk, batch) == Unlinked(disk, entry)
    {
      batch := Start();
      WrittenOneMore(disk, batch, RemoveNextHash(entry.prevBlock));
      batch := batch + [RemoveNextHash(entry.prevBlock)];
      WrittenOneMore(disk, batch, RemoveHash(entry.height));
      batch := batch + [RemoveHash(entry.height)];
      cache.Insert(RemoveHeight(entry.height));
    }

    /** Undoes the block in a view, runs the counters back and adds the coins to the batch. */
    method DisconnectBlock(batch: seq<Op>, entry: ChainEntry, block: Block, undo: UndoCoins, ghost d: Columns,
                           ghost before: CoinMap)
      returns (view: CoinView, out: seq<Op>)
      requires pending.Some? && |block.txs| <= pending.value.tx
      requires Undoable(before, block.txs, entry.height)
      requires Written(d, batch).coins == ApplyBlock(before, block.txs, entry.height)
               && Counts(pending.value, Written(d, batch).coins)
      requires undo.items == UndoOf(before, block.txs, entry.height)
      modifies this`pending, undo
      ensures fresh(view) && Overlay(Written(d, batch).coins, view.coins) == before
      ensures Written(d, out) == Written(d, batch).(coins := before)
      ensures pending.Some? && Counts(pending.value, before) && undo.items == []
      ensures pending.value == old(pending.value).(tx := old(pending.value).tx - |block.txs|,
                                                   coin := pending.value.coin, value := pending.value.value)
    {
      view := new CoinView();
      var s := pending.value.Disconnect(block);
      ghost var coins := Written(d, batch).coins;
      assert Overlay(coins, map[]) == coins;
      s := UndoBlock(view, undo, s, block, entry.height, coins, before);
      pending := Some(s);
      assert undo.items == [];
      out := SaveView(view.coins, batch, d);
    }

    /** Takes the tip's block off the chain: coins, counters and links become those before it.
        It halts exactly when there is no undo record. */
    method Disconnect(entry: ChainEntry, block: Block, undoRead: bool, written: bool, ghost before: CoinMap)
      returns (outcome: Outcome, view: CoinView?)
      requires InStep() && entry.height > 0 && Counts(state, disk.coins) && |block.txs| <= state.tx
      requires Undoable(before, block.txs, entry.height) && disk.coins == ApplyBlock(before, block.txs, entry.height)
      requires UndoRecorded(undos, entry.hash, UndoOf(before, block.txs, entry.height))
      modifies this`pending, this`disk, this`state, cache
      ensures outcome == if !undoRead then Failed else if entry.hash !in undos then Halted else if written then Done
              else Failed
      ensures outcome != Halted ==> InStep() && Counts(state, disk.coins)
      ensures outcome == Done ==> TookOff(old(disk), old(state), disk, state, entry, block, before)
      ensures outcome == Done ==> view != null && fresh(view) && Overlay(old(disk.coins), view.coins) == before
      ensures outcome != Done ==> disk == old(disk) && state == old(state) && cache.Value() == old(cache.Value())
    {
      view := null;
      var batch := Unlink(entry);
      if !undoRead {
        Drop();
        return Failed, null;
      }
      var undo, found := GetUndoCoins(entry.hash);
      if !found {
        return Halted, null;
      }
      view, batch := DisconnectBlock(batch, entry, block, undo, disk, before);
      var ok := FinishDisconnect(batch, entry, written, before);
      outcome := if ok then Done else Failed;
    }

    /** Makes the parent of `entry` the tip and writes the batch. */
    method FinishDisconnect(batch: seq<Op>, entry: ChainEntry, written: bool, ghost coins: CoinMap) returns (ok: bool)
      requires pending.Some? && Counts(pending.value, coins)
      requires MemoryIsDisk(cache.Value(), state, disk) && Counts(state, disk.coins)
      requires cache.batch == [RemoveHeight(entry.height)]
      requires Written(disk, batch) == Unlinked(disk, entry).(coins := coins)
      modifies this`pending, this`disk, this`state, cache
      ensures InStep() && Counts(state, disk.coins) && ok == written
      ensures ok ==>
                state == old(pending.value).Commit(entry.prevBlock)
                && disk == AfterDisconnect(old(disk), entry, coins, state)
      ensures !ok ==> disk == old(disk) && state == old(state) && cache.Value() == old(cache.Value())
    {
      pending := Some(pending.value.Commit(entry.prevBlock));
      DisconnectingWrites(disk, batch, entry, coins, pending.value);
      ok := Commit(batch + [PutState(pending.value)], written);
    }

    /** Writes the genesis block to an empty database. */
    method SaveGenesis(entry: ChainEntry, block: Block)
      requires InStep() && disk == EMPTY && state == NO_STATE && mostWork == None && entry.hash !in blocks
      requires entry.height == 0 && block.header.hash == entry.hash
      modifies this, cache
      ensures InStep() && state == ChainState(entry.hash, |block.txs|, 0, 0, true)
      ensures disk == AfterConnect(AfterSave(EMPTY, entry, NO_ENTRY), entry, map[], state)
      ensures blocks == old(blocks)[entry.hash := block] && downloaded == old(downloaded) + {entry.hash}
      ensures undos == old(undos) && invalid == old(invalid) && mostWork == Some(entry)
    {
      var ok := SaveEntry(entry, NO_ENTRY, true, true, entry.hash, entry.hash);
      WriteBlock(entry.hash, block);
      var view := new CoinView();
      CountsMeans(state, disk.coins);
      ok := Connect(entry, block, view, true, true, 1);
      CountsMeans(state, disk.coins);
    }

    /** Takes the state over from disk and finds the header with the most work again. */
    method Load()
      requires pending == None && cache.Value() == Index(disk.entries, disk.hashes) && disk.state.Some?
               && disk.chainWork != map[]
      requires disk.state.value != NO_STATE && !disk.state.value.committed
      modifies this`state, this`mostWork
      ensures InStep() && state == disk.state.value
      ensures mostWork.Some? && mostWork.value in disk.chainWork.Values
      ensures forall e :: e in disk.chainWork.Values ==> e.chainwork <= mostWork.value.chainwork
    {
      state := disk.state.value;
      mostWork := MostWorkEntry();
    }
  }

  lemma DisconnectingWrites(d: Columns, batch: seq<Op>, entry: ChainEntry, coins: CoinMap, s: ChainState)
    requires Written(d, batch) == Unlinked(d, entry).(coins := coins) && s != NO_STATE
    ensures Written(d, batch + [PutState(s)]) == AfterDisconnect(d, entry, coins, s)
    ensures MemoryIsDisk(CachedAll(Index(d.entries, d.hashes), [RemoveHeight(entry.height)]), s,
                         AfterDisconnect(d, entry, coins, s))
  {
    WrittenOneMore(d, batch, PutState(s));
    var index, ops := Index(d.entries, d.hashes), [RemoveHeight(entry.height)];
    assert ops[1..] == [];
    assert CachedAll(index, ops) == CachedAll(Cached(index, ops[0]), []);
  }

  lemma ConnectingWrites(d: Columns, batch: seq<Op>, entry: ChainEntry, coins: CoinMap, s: ChainState)
    requires Written(d, batch) == Linked(d, entry, entry.hash).(coins := coins) && s != NO_STATE && IsStored(d, entry)
    ensures Written(d, batch + [PutState(s)]) == AfterConnect(d, entry, coins, s)
    ensures MemoryIsDisk(CachedAll(Index(d.entries, d.hashes), [InsertHeight(entry), InsertHash(entry)]), s,
                         AfterConnect(d, entry, coins, s))
  {
    WrittenOneMore(d, batch, PutState(s));
    var ops := [InsertHeight(entry), InsertHash(entry)];
    assert ops[1..] == [InsertHash(entry)] && ops[1..][1..] == [];
    var index := Index(d.entries, d.hashes);
    var linked := Cached(index, InsertHeight(entry));
    assert CachedAll(linked, ops[1..]) == CachedAll(Cached(linked, InsertHash(entry)), []);
    assert d.entries[entry.hash := entry] == d.entries;
  }

  lemma SavingWrites(d: Columns, entry: ChainEntry, prev: ChainEntry)
    ensures Written(d, [] + [PutHeight(entry.hash, entry.height)] + [PutEntry(entry)]
                       + [RemoveChainWork(prev.chainwork, prev.hash)] + [PutChainWork(entry)]
                       + [PutNextHashes(prev.hash, NextHashes(d, prev.hash) + [entry.hash])]) ==
                         AfterSave(d, entry, prev)
  {
    var b1 := [] + [PutHeight(entry.hash, entry.height)];
    var b2 := b1 + [PutEntry(entry)];
    var b3 := b2 + [RemoveChainWork(prev.chainwork, prev.hash)];
    var b4 := b3 + [PutChainWork(entry)];
    WrittenOneMore(d, [], PutHeight(entry.hash, entry.height));
    WrittenOneMore(d, b1, PutEntry(entry));
    WrittenOneMore(d, b2, RemoveChainWork(prev.chainwork, prev.hash));
    WrittenOneMore(d, b3, PutChainWork(entry));
    WrittenOneMore(d, b4, PutNextHashes(prev.hash, NextHashes(d, prev.hash) + [entry.hash]));
  }
}
