/** The tree of headers: entries, parent links, skip pointers, and the index of the main chain. */
module Headers {
  import opened Primitives
  import opened SkipList

  datatype ChainEntry = ChainEntry(
    hash: BlockHash, version: int, prevBlock: BlockHash, time: nat,
    height: nat, chainwork: nat, skip: BlockHash)
  {
    predicate IsGenesis() {
      height == 0
    }
  }

  type Entries = map<BlockHash, ChainEntry>

  /** What the entry cache holds: every entry by hash, the main chain's hashes by height. */
  datatype Index = Index(entries: Entries, heights: map<nat, BlockHash>)

  /** Heights are compared as signed 32-bit numbers, one look-ahead included. */
  const HEIGHT_LIMIT: nat := 0x7FFF_FFFF

  function FromBlockHeader(header: Header, prev: Option<ChainEntry>): ChainEntry {
    ChainEntry(
      header.hash, header.version, header.prev, header.time,
      match prev case Some(p) => p.height + 1 case None => 0,
      match prev case Some(p) => p.chainwork + header.work case None => header.work,
      ZERO_HASH)
  }

  /** The entry under `h` is the genesis block, or one higher than its parent and with more work. */
  predicate Placed(t: Entries, genesis: BlockHash, h: BlockHash)
    requires h in t
  {
    && t[h].hash == h
    && t[h].height + 1 < HEIGHT_LIMIT
    && if h == genesis then t[h].height == 0 && t[h].prevBlock == ZERO_HASH
       else
         && t[h].height > 0
         && t[h].prevBlock in t
         && t[t[h].prevBlock].height + 1 == t[h].height
         && t[t[h].prevBlock].chainwork < t[h].chainwork
  }

  ghost predicate TreeOk(t: Entries, genesis: BlockHash) {
    && ZERO_HASH !in t
    && genesis in t
    && forall h {:trigger Placed(t, genesis, h)} :: h in t ==> Placed(t, genesis, h)
  }

  /** The entry at height `k` on the way from `h` down the parent links: the meaning of an ancestor. */
  function AncestorAt(t: Entries, h: BlockHash, k: nat): BlockHash
    decreases if h in t then t[h].height else 0
  {
    if h !in t || t[h].height <= k then h
    else
      var p := t[h].prevBlock;
      if p in t && t[p].height < t[h].height then AncestorAt(t, p, k) else h
  }

  lemma {:induction false} AncestorExists(t: Entries, genesis: BlockHash, h: BlockHash, k: nat)
    requires TreeOk(t, genesis) && h in t && k <= t[h].height
    ensures AncestorAt(t, h, k) in t && t[AncestorAt(t, h, k)].height == k
    ensures t[AncestorAt(t, h, k)].hash == AncestorAt(t, h, k)
    ensures t[AncestorAt(t, h, k)].chainwork <= t[h].chainwork
    decreases t[h].height
  {
    assert Placed(t, genesis, h);
    if k < t[h].height {
      AncestorExists(t, genesis, t[h].prevBlock, k);
    }
  }

  lemma {:induction false} AncestorOfAncestor(t: Entries, genesis: BlockHash, h: BlockHash, j: nat, k: nat)
    requires TreeOk(t, genesis) && h in t && k <= j <= t[h].height
    ensures AncestorAt(t, AncestorAt(t, h, j), k) == AncestorAt(t, h, k)
    decreases t[h].height
  {
    assert Placed(t, genesis, h);
    if j < t[h].height {
      AncestorOfAncestor(t, genesis, t[h].prevBlock, j, k);
    }
  }

  /** The parent of the ancestor at height `k` is the ancestor at height `k - 1`. */
  lemma {:induction false} AncestorStep(t: Entries, genesis: BlockHash, h: BlockHash, k: nat)
    requires TreeOk(t, genesis) && h in t && 0 < k <= t[h].height
    ensures AncestorAt(t, h, k) in t && t[AncestorAt(t, h, k)].prevBlock == AncestorAt(t, h, k - 1)
  {
    AncestorExists(t, genesis, h, k);
    AncestorOfAncestor(t, genesis, h, k, k - 1);
    assert Placed(t, genesis, AncestorAt(t, h, k));
  }

  predicate Extends(t: Entries, t': Entries) {
    forall h :: h in t ==> h in t' && t'[h] == t[h]
  }

  lemma {:induction false} AncestorFrame(t: Entries, t': Entries, genesis: BlockHash, h: BlockHash, k: nat)
    requires TreeOk(t, genesis) && Extends(t, t') && h in t
    ensures AncestorAt(t', h, k) == AncestorAt(t, h, k)
    decreases t[h].height
  {
    assert Placed(t, genesis, h);
    if k < t[h].height {
      AncestorFrame(t, t', genesis, t[h].prevBlock, k);
    }
  }

  /** Each skip pointer names the ancestor at the skip height. */
  predicate SkipOk(t: Entries, h: BlockHash)
    requires h in t
  {
    t[h].height > 0 ==> t[h].skip == AncestorAt(t, h, GetSkipHeight(t[h].height))
  }

  ghost predicate SkipsOk(t: Entries) {
    forall h {:trigger SkipOk(t, h)} :: h in t ==> SkipOk(t, h)
  }

  /** The height index is exactly the parent-linked path from the genesis block to the tip. */
  ghost predicate MainOk(index: Index, tip: BlockHash) {
    && tip in index.entries
    && (forall i :: i in index.heights <==> 0 <= i <= index.entries[tip].height)
    && (forall i :: i in index.heights ==> index.heights[i] == AncestorAt(index.entries, tip, i))
  }

  ghost predicate IndexOk(index: Index, genesis: BlockHash, tip: BlockHash) {
    TreeOk(index.entries, genesis) && SkipsOk(index.entries) && MainOk(index, tip)
  }

  predicate IsMainChain(index: Index, entry: ChainEntry) {
    entry.height in index.heights && index.heights[entry.height] == entry.hash
  }

  /** An entry is on the main chain exactly when it is an ancestor of the tip. */
  lemma MainMeansAncestor(index: Index, genesis: BlockHash, tip: BlockHash, h: BlockHash)
    requires TreeOk(index.entries, genesis) && MainOk(index, tip) && h in index.entries
    ensures IsMainChain(index, index.entries[h]) <==>
            index.entries[h].height <= index.entries[tip].height
            && AncestorAt(index.entries, tip, index.entries[h].height) == h
  {
    assert Placed(index.entries, genesis, h) && Placed(index.entries, genesis, tip);
  }

  /** Looks an ancestor up: by height on the main chain, along skip pointers elsewhere.  It is
      the entry that walking the parent links finds, after no more hops than the walk on
      heights alone.  `t` is the index, possibly with the not yet saved `entry` added. */
  method GetAncestor(index: Index, entry: ChainEntry, height: nat, ghost t: Entries, ghost genesis: BlockHash,
                     ghost tip: BlockHash)
    returns (r: ChainEntry, ghost hops: nat)
    requires TreeOk(index.entries, genesis) && MainOk(index, tip)
    requires t == index.entries || (t == index.entries[entry.hash := entry] && entry.hash !in index.entries)
    requires TreeOk(t, genesis) && SkipsOk(t) && entry.hash in t && t[entry.hash] == entry
    requires height <= entry.height
    ensures r.hash in t && r == t[r.hash] && r.hash == AncestorAt(t, entry.hash, height)
    ensures r.height == height
    ensures hops <= Hops(entry.height, height)
  {
    hops := 0;
    AncestorExists(t, genesis, entry.hash, height);
    if IsMainChain(index, entry) {
      AncestorExists(index.entries, genesis, tip, entry.height);
      assert entry.hash in index.entries && t == index.entries;
      AncestorOfAncestor(t, genesis, tip, entry.height, height);
      r := index.entries[index.heights[height]];
      return;
    }
    r := entry;
    while r.height != height
      invariant r.hash in t && t[r.hash] == r
      invariant height <= r.height
      invariant AncestorAt(t, r.hash, height) == AncestorAt(t, entry.hash, height)
      invariant hops + Hops(r.height, height) == Hops(entry.height, height)
      invariant r == entry || r.hash in index.entries
      decreases r.height
    {
      var skip, prev := GetSkipHeight(r.height), GetSkipHeight(r.height + 1);
      var skipBetter := skip > height;
      var prevBetter := prev < skip - 2 && prev >= height;
      var hash := if r.skip != ZERO_HASH && (skip == height || (skipBetter && !prevBetter)) then r.skip
        else r.prevBlock;
      assert Placed(t, genesis, r.hash) && SkipOk(t, r.hash);
      AncestorExists(t, genesis, r.hash, skip);
      if skip >= height {
        AncestorOfAncestor(t, genesis, r.hash, skip, height);
      }
      assert hash in index.entries && Placed(index.entries, genesis, hash);
      r := index.entries[hash];
      hops := hops + 1;
    }
  }

  /** The highest entry below both `a` and `b`. */
  method CommonAncestor(index: Index, a: ChainEntry, b: ChainEntry, ghost genesis: BlockHash, ghost tip: BlockHash)
    returns (r: Option<ChainEntry>)
    requires IndexOk(index, genesis, tip)
    requires a.hash in index.entries && index.entries[a.hash] == a && b.hash in index.entries
             && index.entries[b.hash] == b
    ensures r.Some? && r.value.height <= a.height && r.value.height <= b.height
    ensures r.value.hash in index.entries && index.entries[r.value.hash] == r.value
    ensures r.value.hash == AncestorAt(index.entries, a.hash, r.value.height) ==
              AncestorAt(index.entries, b.hash, r.value.height)
    ensures forall k :: r.value.height < k <= a.height && k <= b.height ==>
              AncestorAt(index.entries, a.hash, k) != AncestorAt(index.entries, b.hash, k)
  {
    ghost var t := index.entries;
    var x, y := a, b;
    ghost var hops;
    if a.height > b.height {
      x, hops := GetAncestor(index, a, b.height, t, genesis, tip);
    } else if a.height < b.height {
      y, hops := GetAncestor(index, b, a.height, t, genesis, tip);
    }
    while x.hash != y.hash
      invariant x.hash in t && t[x.hash] == x && y.hash in t && t[y.hash] == y
      invariant x.height == y.height <= a.height && x.height <= b.height
      invariant x.hash == AncestorAt(t, a.hash, x.height) && y.hash == AncestorAt(t, b.hash, y.height)
      invariant forall k :: x.height < k <= a.height && k <= b.height ==>
                  AncestorAt(t, a.hash, k) != AncestorAt(t, b.hash, k)
      decreases x.height
    {
      assert Placed(t, genesis, x.hash) && Placed(t, genesis, y.hash);
      AncestorStep(t, genesis, a.hash, x.height);
      AncestorStep(t, genesis, b.hash, y.height);
      if x.prevBlock !in index.entries || y.prevBlock !in index.entries {
        return None;
      }
      assert Placed(t, genesis, x.prevBlock) && Placed(t, genesis, y.prevBlock);
      x, y := index.entries[x.prevBlock], index.entries[y.prevBlock];
    }
    r := Some(x);
  }

  /** The entries above `height` on the way to `entry`, lowest first and at most `limit` of them. */
  method GetNextPath(index: Index, entry: ChainEntry, height: nat, limit: nat, ghost genesis: BlockHash,
                     ghost tip: BlockHash)
    returns (path: seq<ChainEntry>)
    requires IndexOk(index, genesis, tip)
    requires entry.hash in index.entries && index.entries[entry.hash] == entry
    ensures |path| == if entry.height <= height then 0 else if entry.height - height < limit then entry.height - height
            else limit
    ensures forall i :: 0 <= i < |path| ==>
              path[i].hash in index.entries && path[i] == index.entries[path[i].hash]
              && path[i].hash == AncestorAt(index.entries, entry.hash, height + 1 + i)
  {
    path := [];
    if limit == 0 {
      return;
    }
    ghost var t := index.entries;
    var walker := entry;
    var start := height + limit;
    ghost var hops;
    if start < entry.height {
      walker, hops := GetAncestor(index, entry, start, t, genesis, tip);
    }
    ghost var top := walker.height;
    while walker.height > height
      invariant walker.hash in t && t[walker.hash] == walker && walker.height <= top <= entry.height
      invariant walker.hash == AncestorAt(t, entry.hash, walker.height)
      invariant walker.height >= height || path == []
      invariant |path| == top - walker.height
      invariant forall i :: 0 <= i < |path| ==>
                  path[i].hash in t && path[i] == t[path[i].hash]
                  && path[i].hash == AncestorAt(t, entry.hash, walker.height + 1 + i)
      decreases walker.height
    {
      assert Placed(t, genesis, walker.hash);
      AncestorStep(t, genesis, entry.hash, walker.height);
      assert Placed(t, genesis, walker.prevBlock);
      path := [walker] + path;
      walker := index.entries[walker.prevBlock];
    }
  }
}
