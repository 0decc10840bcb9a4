/** What the chain database keeps: the columns on disk, written in batches, the entry cache that
    follows them, and the running counters of the coin set. */
module Columns {
  import opened Primitives
  import opened Coins
  import opened Ledger
  import opened Checks
  import opened Headers

  // ---- Counters -------------------------------------------------------------------------

  datatype ChainState = ChainState(tip: BlockHash, tx: nat, coin: nat, value: nat, committed: bool)
  {
    function Connect(block: Block): ChainState {
      this.(tx := tx + |block.txs|)
    }

    function Disconnect(block: Block): ChainState
      requires |block.txs| <= tx
    {
      this.(tx := tx - |block.txs|)
    }

    function Add(output: TxOut): ChainState {
      this.(coin := coin + 1, value := value + output.value)
    }

    /** The preconditions are that neither counter underflows. */
    function Spend(output: TxOut): ChainState
      requires coin > 0 && output.value <= value
    {
      this.(coin := coin - 1, value := value - output.value)
    }

    function Commit(hash: BlockHash): ChainState {
      this.(tip := hash, committed := true)
    }

    /** The encoding leaves the flag out. */
    function Saved(): ChainState {
      this.(committed := false)
    }
  }

  const NO_STATE := ChainState(ZERO_HASH, 0, 0, 0, false)

  ghost predicate Totals(coins: CoinMap, count: nat, total: nat) {
    count == |coins| && total == Supply(coins)
  }

  /** The counters are those of `coins`.  The quantifier keeps the sum folded wherever the fact is
      only passed on; `CountsMeans` opens it. */
  ghost predicate Counts(s: ChainState, coins: CoinMap) {
    forall count: nat, total: nat {:trigger Totals(coins, count, total)} :: Totals(coins, count, total) ==>
        s.coin == count && s.value == total
  }

  lemma CountsMeans(s: ChainState, coins: CoinMap)
    ensures Counts(s, coins) <==> s.coin == |coins| && s.value == Supply(coins)
  {
    assert Totals(coins, |coins|, Supply(coins));
  }

  // ---- Columns and batches ----------------------------------------------------------------

  datatype Columns = Columns(
    entries: Entries, heightOf: map<BlockHash, nat>, hashes: map<nat, BlockHash>, coins: CoinMap,
    nextHash: map<BlockHash, BlockHash>, nextHashes: map<BlockHash, seq<BlockHash>>,
    chainWork: map<(nat, BlockHash), ChainEntry>, state: Option<ChainState>)

  datatype Op =
    | PutEntry(entry: ChainEntry) | PutHeight(hash: BlockHash, height: nat)
    | PutHash(height: nat, hash: BlockHash) | RemoveHash(height: nat)
    | PutNextHash(prev: BlockHash, hash: BlockHash) | RemoveNextHash(prev: BlockHash)
    | PutNextHashes(prev: BlockHash, hashes: seq<BlockHash>)
    | PutChainWork(entry: ChainEntry) | RemoveChainWork(work: nat, hash: BlockHash)
    | PutCoin(prevout: OutPoint, coin: CoinEntry) | RemoveCoin(prevout: OutPoint)
    | PutState(state: ChainState)

  function Put(d: Columns, op: Op): Columns {
    match op
    case PutEntry(e) => d.(entries := d.entries[e.hash := e])
    case PutHeight(hash, height) => d.(heightOf := d.heightOf[hash := height])
    case PutHash(height, hash) => d.(hashes := d.hashes[height := hash])
    case RemoveHash(height) => d.(hashes := d.hashes - {height})
    case PutNextHash(prev, hash) => d.(nextHash := d.nextHash[prev := hash])
    case RemoveNextHash(prev) => d.(nextHash := d.nextHash - {prev})
    case PutNextHashes(prev, hashes) => d.(nextHashes := d.nextHashes[prev := hashes])
    case PutChainWork(e) => d.(chainWork := d.chainWork[(e.chainwork, e.hash) := e])
    case RemoveChainWork(work, hash) => d.(chainWork := d.chainWork - {(work, hash)})
    case PutCoin(p, c) => d.(coins := d.coins[p := Stored(c)])
    case RemoveCoin(p) => d.(coins := d.coins - {p})
    case PutState(s) => d.(state := Some(s.Saved()))
  }

  /** What a batch leaves when all of it is written. */
  function Written(d: Columns, batch: seq<Op>): Columns {
    if batch == [] then d else Put(Written(d, batch[..|batch| - 1]), batch[|batch| - 1])
  }

  lemma WrittenOneMore(d: Columns, batch: seq<Op>, op: Op)
    ensures Written(d, batch + [op]) == Put(Written(d, batch), op)
  {
    assert (batch + [op])[..|batch|] == batch;
  }

  /** Adds the coins of a view to a batch, in whatever order the view gives them. */
  method SaveView(view: CoinMap, batch: seq<Op>, ghost d: Columns) returns (out: seq<Op>)
    ensures Written(d, out) == Written(d, batch).(coins := Overlay(Written(d, batch).coins, view))
  {
    out := batch;
    var todo := view.Keys;
    ghost var base := Written(d, batch).coins;
    assert Overlay(base, map[]) == base && view - todo == map[];
    while todo != {}
      invariant todo <= view.Keys
      invariant Written(d, out) == Written(d, batch).(coins := Overlay(base, view - todo))
      decreases todo
    {
      var outpoint :| outpoint in todo;
      var coin := view[outpoint];
      SavingOneMore(d, out, base, view, todo, outpoint);
      out := out + [if coin.spent then RemoveCoin(outpoint) else PutCoin(outpoint, coin)];
      todo := todo - {outpoint};
    }
    assert view - {} == view;
  }

  lemma SavingOneMore(d: Columns, batch: seq<Op>, base: CoinMap, view: CoinMap, todo: set<OutPoint>, p: OutPoint)
    requires p in view && p in todo
    requires Written(d, batch).coins == Overlay(base, view - todo)
    ensures var op := if view[p].spent then RemoveCoin(p) else PutCoin(p, view[p]);
            Written(d, batch + [op]) == Written(d, batch).(coins := Overlay(base, view - (todo - {p})))
  {
    var rest, op := view - todo, if view[p].spent then RemoveCoin(p) else PutCoin(p, view[p]);
    OverlayPut(base, rest, p, view[p]);
    assert rest[p := view[p]] == view - (todo - {p});
    WrittenOneMore(d, batch, op);
    PuttingOverlays(Written(d, batch), base, rest, p, view[p]);
  }

  lemma PuttingOverlays(d: Columns, base: CoinMap, rest: CoinMap, p: OutPoint, coin: CoinEntry)
    requires d.coins == Overlay(base, rest)
    requires Overlay(base, rest[p := coin]) == if coin.spent then d.coins - {p} else d.coins[p := Stored(coin)]
    ensures Put(d, if coin.spent then RemoveCoin(p) else PutCoin(p, coin)) ==
              d.(coins := Overlay(base, rest[p := coin]))
  {
  }

  // ---- The entry cache --------------------------------------------------------------------

  datatype CacheOp = InsertHash(entry: ChainEntry) | InsertHeight(entry: ChainEntry) | RemoveHeight(height: nat)

  function Cached(index: Index, op: CacheOp): Index {
    match op
    case InsertHash(e) => index.(entries := index.entries[e.hash := e])
    case InsertHeight(e) => index.(heights := index.heights[e.height := e.hash])
    case RemoveHeight(height) => index.(heights := index.heights - {height})
  }

  function CachedAll(index: Index, ops: seq<CacheOp>): Index
    decreases |ops|
  {
    if ops == [] then index else CachedAll(Cached(index, ops[0]), ops[1..])
  }

  class ChainEntryCache {
    var height: map<nat, BlockHash>
    var hash: Entries
    var batch: seq<CacheOp>

    function Value(): Index
      reads this
    {
      Index(hash, height)
    }

    /** Fills the cache from disk: it then holds exactly what the columns hold. */
    constructor (disk: Columns)
      requires forall h :: h in disk.entries ==> disk.entries[h].hash == h
      ensures Value() == Index(disk.entries, disk.hashes) && batch == []
    {
      height, hash, batch := map[], map[], [];
      new;
      var keys := disk.entries.Keys;
      while keys != {}
        invariant keys <= disk.entries.Keys && hash == disk.entries - keys
        invariant height == map[] && batch == []
        decreases keys
      {
        var h :| h in keys;
        hash := hash[disk.entries[h].hash := disk.entries[h]];
        keys := keys - {h};
      }
      var numbers := disk.hashes.Keys;
      while numbers != {}
        invariant numbers <= disk.hashes.Keys && height == disk.hashes - numbers
        invariant hash == disk.entries && batch == []
        decreases numbers
      {
        var n :| n in numbers;
        height := height[n := disk.hashes[n]];
        numbers := numbers - {n};
      }
    }

    method Insert(op: CacheOp)
      modifies this`batch
      ensures batch == old(batch) + [op]
    {
      batch := batch + [op];
    }

    method WriteBatch()
      modifies this
      ensures Value() == CachedAll(old(Value()), old(batch)) && batch == []
    {
      var i := 0;
      while i < |batch|
        invariant i <= |batch| && batch == old(batch)
        invariant CachedAll(Value(), batch[i..]) == CachedAll(old(Value()), old(batch))
      {
        assert batch[i..][1..] == batch[i + 1..];
        match batch[i] {
          case InsertHash(entry) => hash := hash[entry.hash := entry];
          case InsertHeight(entry) => height := height[entry.height := entry.hash];
          case RemoveHeight(n) => height := height - {n};
        }
        i := i + 1;
      }
      batch := [];
    }

    method ClearBatch()
      modifies this`batch
      ensures batch == []
    {
      batch := [];
    }
  }
}
