/** The columns that index the header tree: the lists of children, and the leaves by chainwork. */
module HeaderColumns {
  import opened Primitives
  import opened Headers
  import opened Columns
  import opened ChainDb

  // ---- Children -----------------------------------------------------------------------------

  /** The list under `p` holds exactly the entries whose parent is `p`, each once. */
  ghost predicate ListsChildren(d: Columns, p: BlockHash) {
    && Distinct(NextHashes(d, p))
    && forall c :: c in NextHashes(d, p) <==> c in d.entries && d.entries[c].prevBlock == p
  }

  ghost predicate ChildrenOk(d: Columns) {
    forall p {:trigger ListsChildren(d, p)} :: ListsChildren(d, p)
  }

  /** Saving a header keeps the lists of children the inverse of the parent links. */
  lemma SavingKeepsChildren(d: Columns, entry: ChainEntry, prev: ChainEntry)
    requires ChildrenOk(d) && entry.hash !in d.entries && entry.prevBlock == prev.hash
    ensures ChildrenOk(AfterSave(d, entry, prev))
  {
    var after := AfterSave(d, entry, prev);
    forall p
      ensures ListsChildren(after, p)
    {
      assert ListsChildren(d, p);
      var was, now := NextHashes(d, p), NextHashes(after, p);
      if p == prev.hash {
        assert now == was + [entry.hash];
        forall c
          ensures c in now <==> c in after.entries && after.entries[c].prevBlock == p
        {
          assert c in now <==> c in was || c == entry.hash;
        }
      }
    }
  }

  // ---- Heights and next blocks ------------------------------------------------------------------

  /** The height column says what the entries say. */
  ghost predicate HeightsOk(d: Columns) {
    && d.heightOf.Keys == d.entries.Keys
    && forall h :: h in d.heightOf ==> d.heightOf[h] == d.entries[h].height
  }

  /** The block after the one at height `k` of the main chain is the one at height `k + 1`. */
  predicate NextOk(d: Columns, k: nat) {
    k in d.hashes && k + 1 in d.hashes ==> d.hashes[k] in d.nextHash && d.nextHash[d.hashes[k]] == d.hashes[k + 1]
  }

  predicate HasNext(d: Columns, h: BlockHash) {
    && h in d.entries && d.entries[h].height in d.hashes && d.hashes[d.entries[h].height] == h
    && d.entries[h].height + 1 in d.hashes
  }

  /** The blocks that have a next one are exactly those of the main chain below the tip. */
  ghost predicate NextsOk(d: Columns) {
    && (forall k {:trigger NextOk(d, k)} :: NextOk(d, k))
    && (forall h {:trigger HasNext(d, h)} :: h in d.nextHash ==> HasNext(d, h))
  }

  // ---- Leaves -------------------------------------------------------------------------------

  ghost predicate IsLeaf(t: Entries, h: BlockHash) {
    h in t && forall c :: c in t ==> t[c].prevBlock != h
  }

  ghost predicate LeafAt(d: Columns, work: nat, h: BlockHash) {
    (work, h) in d.chainWork <==> IsLeaf(d.entries, h) && d.entries[h].chainwork == work
  }

  /** The chainwork column holds exactly the leaves of the header tree. */
  ghost predicate LeavesOk(d: Columns) {
    && (forall work, h {:trigger LeafAt(d, work, h)} :: LeafAt(d, work, h))
    && forall k :: k in d.chainWork ==> k.1 in d.entries && d.chainWork[k] == d.entries[k.1]
  }

  lemma SavingMovesLeaves(d: Columns, entry: ChainEntry, prev: ChainEntry, h: BlockHash)
    requires entry.hash !in d.entries && entry.prevBlock == prev.hash && entry.hash != prev.hash
    requires forall c :: c in d.entries ==> d.entries[c].prevBlock != entry.hash
    ensures IsLeaf(AfterSave(d, entry, prev).entries, h) <==>
              h == entry.hash || (IsLeaf(d.entries, h) && h != prev.hash)
  {
    var t, t' := d.entries, AfterSave(d, entry, prev).entries;
    assert entry.hash in t' && t'[entry.hash].prevBlock == prev.hash;
    if IsLeaf(t', h) && h != entry.hash {
      forall c | c in t
        ensures t[c].prevBlock != h
      {
        assert c in t' && t'[c] == t[c];
      }
    }
  }

  /** Saving a header takes its parent out of the leaves and puts itself in. */
  lemma SavingKeepsLeaves(d: Columns, entry: ChainEntry, prev: ChainEntry)
    requires LeavesOk(d) && entry.hash !in d.entries && entry.prevBlock == prev.hash && entry.hash != prev.hash
    requires forall c :: c in d.entries ==> d.entries[c].prevBlock != entry.hash
    requires prev.hash in d.entries ==> IsStored(d, prev)
    ensures LeavesOk(AfterSave(d, entry, prev))
  {
    var after := AfterSave(d, entry, prev);
    forall work, h
      ensures LeafAt(after, work, h)
    {
      assert LeafAt(d, work, h);
      SavingMovesLeaves(d, entry, prev, h);
    }
    forall k | k in after.chainWork
      ensures k.1 in after.entries && after.chainWork[k] == after.entries[k.1]
    {
      assert LeafAt(d, k.0, k.1);
    }
  }

  // ---- The most work ------------------------------------------------------------------------

  ghost predicate MostWork(t: Entries, work: nat) {
    forall h :: h in t ==> t[h].chainwork <= work
  }

  ghost predicate MostWorkOk(d: Columns, best: Option<ChainEntry>) {
    best.Some? && IsStored(d, best.value) && MostWork(d.entries, best.value.chainwork)
  }

  lemma SavingKeepsMostWork(d: Columns, entry: ChainEntry, prev: ChainEntry, best: Option<ChainEntry>)
    requires entry.hash !in d.entries
    requires if best.None? then d.entries == map[] else MostWorkOk(d, best)
    ensures MostWorkOk(AfterSave(d, entry, prev), if best.None? || Better(entry, best.value) then Some(entry) else best)
  {
  }

  ghost function Above(t: Entries, work: nat): set<BlockHash> {
    set x | x in t && t[x].chainwork > work
  }

  /** Below every entry there is a leaf with no less work. */
  lemma {:induction false} LeafBelow(t: Entries, genesis: BlockHash, h: BlockHash) returns (leaf: BlockHash)
    requires TreeOk(t, genesis) && h in t
    ensures IsLeaf(t, leaf) && t[h].chainwork <= t[leaf].chainwork
    decreases Above(t, t[h].chainwork)
  {
    if IsLeaf(t, h) {
      leaf := h;
    } else {
      var c :| c in t && t[c].prevBlock == h;
      assert Placed(t, genesis, c);
      assert c in Above(t, t[h].chainwork) && c !in Above(t, t[c].chainwork);
      leaf := LeafBelow(t, genesis, c);
    }
  }

  /** The most work among the leaves, which reopening computes, is the most work among all
      headers, which saving keeps track of. */
  lemma ReopeningFindsMostWork(d: Columns, genesis: BlockHash, best: Option<ChainEntry>, reopened: ChainEntry)
    requires TreeOk(d.entries, genesis) && LeavesOk(d) && MostWorkOk(d, best)
    requires reopened in d.chainWork.Values
    requires forall e :: e in d.chainWork.Values ==> e.chainwork <= reopened.chainwork
    ensures MostWorkOk(d, Some(reopened)) && reopened.chainwork == best.value.chainwork
  {
    var k :| k in d.chainWork && d.chainWork[k] == reopened;
    assert Placed(d.entries, genesis, k.1);
    forall h | h in d.entries
      ensures d.entries[h].chainwork <= reopened.chainwork
    {
      var leaf := LeafBelow(d.entries, genesis, h);
      assert LeafAt(d, d.entries[leaf].chainwork, leaf);
      assert d.chainWork[(d.entries[leaf].chainwork, leaf)] in d.chainWork.Values;
    }
  }
}
