/** Which branch is the best one: the heaviest whose blocks are all there and none invalid. */
module BestChain {
  import opened Primitives
  import opened Headers

  /** `h` and everything below it down to the genesis block is ready to be connected. */
  predicate Complete(t: Entries, ready: set<BlockHash>, h: BlockHash)
    decreases if h in t then t[h].height else 0
  {
    && h in t && h in ready
    && (t[h].height > 0 ==>
          var p := t[h].prevBlock;
          p in t && t[p].height < t[h].height && Complete(t, ready, p))
  }

  /** `h` is `e` or a descendant of it, and everything from `e` to `h` is ready. */
  predicate Via(t: Entries, ready: set<BlockHash>, e: BlockHash, h: BlockHash)
    decreases if h in t then t[h].height else 0
  {
    && h in t && h in ready
    && (h == e || (t[h].height > 0 &&
          var p := t[h].prevBlock;
          p in t && t[p].height < t[h].height && Via(t, ready, e, p)))
  }

  /** No block that could be the tip has more work. */
  ghost predicate Best(t: Entries, ready: set<BlockHash>, work: nat) {
    forall h {:trigger Complete(t, ready, h)} :: Complete(t, ready, h) ==> t[h].chainwork <= work
  }

  /** No block that could be the tip has more work, but perhaps one on or above `e`. */
  ghost predicate BestBut(t: Entries, ready: set<BlockHash>, work: nat, e: BlockHash) {
    forall h {:trigger Complete(t, ready, h)} :: Complete(t, ready, h) ==> t[h].chainwork <= work || Via(t, ready, e, h)
  }

  /** Nothing on or above `e` that is reached through ready blocks has more work. */
  ghost predicate Heaviest(t: Entries, ready: set<BlockHash>, e: BlockHash, work: nat) {
    forall h {:trigger Via(t, ready, e, h)} :: Via(t, ready, e, h) ==> t[h].chainwork <= work
  }

  // ---- Facts about the tree -------------------------------------------------------------------

  lemma {:induction false} CompleteBelow(t: Entries, genesis: BlockHash, ready: set<BlockHash>, h: BlockHash, k: nat)
    requires TreeOk(t, genesis) && Complete(t, ready, h) && k <= t[h].height
    ensures Complete(t, ready, AncestorAt(t, h, k))
    decreases t[h].height
  {
    assert Placed(t, genesis, h);
    if k < t[h].height {
      CompleteBelow(t, genesis, ready, t[h].prevBlock, k);
    }
  }

  /** What is reached from `e` has `e` below it. */
  lemma {:induction false} ViaIsAbove(t: Entries, genesis: BlockHash, ready: set<BlockHash>, e: BlockHash, h: BlockHash)
    requires TreeOk(t, genesis) && e in t && Via(t, ready, e, h)
    ensures t[e].height <= t[h].height && AncestorAt(t, h, t[e].height) == e && e in ready
    ensures h == e || t[e].height < t[h].height
    decreases t[h].height
  {
    assert Placed(t, genesis, h) && Placed(t, genesis, e);
    if h != e {
      ViaIsAbove(t, genesis, ready, e, t[h].prevBlock);
    }
  }

  /** A complete block reached from `e` makes `e` complete. */
  lemma {:induction false} ViaComplete(t: Entries, genesis: BlockHash, ready: set<BlockHash>, e: BlockHash,
                                       h: BlockHash)
    requires TreeOk(t, genesis) && e in t && Via(t, ready, e, h) && Complete(t, ready, h)
    ensures Complete(t, ready, e)
  {
    ViaIsAbove(t, genesis, ready, e, h);
    CompleteBelow(t, genesis, ready, h, t[e].height);
  }

  /** A descendant is reached through one of the children. */
  lemma {:induction false} ViaChild(t: Entries, genesis: BlockHash, ready: set<BlockHash>, e: BlockHash, h: BlockHash)
    returns (c: BlockHash)
    requires TreeOk(t, genesis) && e in t && Via(t, ready, e, h) && h != e
    ensures c in t && t[c].prevBlock == e && t[c].height == t[e].height + 1 && Via(t, ready, c, h)
    decreases t[h].height
  {
    assert Placed(t, genesis, h);
    var p := t[h].prevBlock;
    if p == e {
      c := h;
    } else {
      c := ViaChild(t, genesis, ready, e, p);
    }
  }

  /** One more ready block makes complete only what is reached from it. */
  lemma {:induction false} OneMoreReady(t: Entries, genesis: BlockHash, ready: set<BlockHash>, e: BlockHash,
                                        h: BlockHash)
    requires TreeOk(t, genesis) && e in t && Complete(t, ready + {e}, h)
    ensures Complete(t, ready, h) || Via(t, ready + {e}, e, h)
    decreases t[h].height
  {
    assert Placed(t, genesis, h);
    if h != e && t[h].height > 0 {
      OneMoreReady(t, genesis, ready, e, t[h].prevBlock);
    }
  }

  lemma ReadyingKeepsBest(t: Entries, genesis: BlockHash, ready: set<BlockHash>, work: nat, e: BlockHash)
    requires TreeOk(t, genesis) && e in t && Best(t, ready, work)
    ensures BestBut(t, ready + {e}, work, e)
  {
    forall h | Complete(t, ready + {e}, h)
      ensures t[h].chainwork <= work || Via(t, ready + {e}, e, h)
    {
      OneMoreReady(t, genesis, ready, e, h);
    }
  }

  lemma {:induction false} CompleteGrows(t: Entries, genesis: BlockHash, ready: set<BlockHash>, more: set<BlockHash>,
                                         h: BlockHash)
    requires TreeOk(t, genesis) && Complete(t, ready, h) && ready <= more
    ensures Complete(t, more, h)
    decreases t[h].height
  {
    assert Placed(t, genesis, h);
    if t[h].height > 0 {
      CompleteGrows(t, genesis, ready, more, t[h].prevBlock);
    }
  }

  /** Losing a block that is higher up does not matter. */
  lemma {:induction false} CompleteWithout(t: Entries, genesis: BlockHash, ready: set<BlockHash>, x: BlockHash,
                                           h: BlockHash)
    requires TreeOk(t, genesis) && Complete(t, ready, h) && x in t && t[x].height > t[h].height
    ensures Complete(t, ready - {x}, h)
    decreases t[h].height
  {
    assert Placed(t, genesis, h);
    if t[h].height > 0 {
      CompleteWithout(t, genesis, ready, x, t[h].prevBlock);
    }
  }

  /** A new header that is not ready changes nothing about what is complete. */
  lemma {:induction false} CompleteFrame(t: Entries, t': Entries, genesis: BlockHash, ready: set<BlockHash>,
                                         h: BlockHash)
    requires TreeOk(t, genesis) && TreeOk(t', genesis) && Extends(t, t') && ready <= t.Keys
    ensures Complete(t, ready, h) <==> Complete(t', ready, h)
    decreases if h in t' then t'[h].height else 0
  {
    if h in t' && h in ready {
      assert Placed(t, genesis, h) && Placed(t', genesis, h);
      if t[h].height > 0 {
        CompleteFrame(t, t', genesis, ready, t[h].prevBlock);
      }
    }
  }

  lemma BestFrame(t: Entries, t': Entries, genesis: BlockHash, ready: set<BlockHash>, work: nat)
    requires TreeOk(t, genesis) && TreeOk(t', genesis) && Extends(t, t') && ready <= t.Keys
    requires Best(t, ready, work)
    ensures Best(t', ready, work)
  {
    forall h | Complete(t', ready, h)
      ensures t'[h].chainwork <= work
    {
      CompleteFrame(t, t', genesis, ready, h);
    }
  }

  /** What is not ready is reached from nowhere, so the exception is none. */
  lemma NothingToConnect(t: Entries, genesis: BlockHash, ready: set<BlockHash>, work: nat, e: BlockHash)
    requires TreeOk(t, genesis) && e in t && !Complete(t, ready, e) && BestBut(t, ready, work, e)
    ensures Best(t, ready, work)
  {
    forall h | Complete(t, ready, h)
      ensures t[h].chainwork <= work
    {
      if Via(t, ready, e, h) {
        ViaComplete(t, genesis, ready, e, h);
      }
    }
  }

  /** The heaviest end above the exception settles the rule. */
  lemma HeaviestIsBest(t: Entries, ready: set<BlockHash>, work: nat, e: BlockHash, last: nat)
    requires BestBut(t, ready, work, e) && Heaviest(t, ready, e, last)
    ensures Best(t, ready, if last > work then last else work)
  {
  }

  // ---- Paths ----------------------------------------------------------------------------------

  /** A path of stored, ready entries, each the parent of the next. */
  ghost predicate IsPath(t: Entries, ready: set<BlockHash>, path: seq<ChainEntry>) {
    && (forall i :: 0 <= i < |path| ==> path[i].hash in t && t[path[i].hash] == path[i] && path[i].hash in ready)
    && (forall i :: 0 < i < |path| ==>
          path[i].prevBlock == path[i - 1].hash && path[i].height == path[i - 1].height + 1)
  }

  lemma {:induction false} PathIsComplete(t: Entries, genesis: BlockHash, ready: set<BlockHash>, path: seq<ChainEntry>,
                                          n: nat)
    requires TreeOk(t, genesis) && IsPath(t, ready, path) && n < |path|
    requires path[0].height > 0 && Complete(t, ready, path[0].prevBlock)
    ensures Complete(t, ready, path[n].hash)
  {
    assert Placed(t, genesis, path[n].hash);
    if n > 0 {
      PathIsComplete(t, genesis, ready, path, n - 1);
    }
  }

  lemma {:induction false} PathIsVia(t: Entries, genesis: BlockHash, ready: set<BlockHash>, path: seq<ChainEntry>,
                                     n: nat)
    requires TreeOk(t, genesis) && IsPath(t, ready, path) && n < |path|
    ensures Via(t, ready, path[0].hash, path[n].hash)
  {
    assert Placed(t, genesis, path[n].hash);
    if n > 0 {
      PathIsVia(t, genesis, ready, path, n - 1);
    }
  }

  // ---- What a lost block takes along ------------------------------------------------------------

  /** `h` is on the way from `tip` down to the genesis block. */
  predicate Below(t: Entries, tip: BlockHash, h: BlockHash) {
    tip in t && h in t && t[h].height <= t[tip].height && AncestorAt(t, tip, t[h].height) == h
  }

  /** What is above a block that is not below the tip is not either. */
  lemma {:induction false} PathStaysOff(t: Entries, genesis: BlockHash, ready: set<BlockHash>, tip: BlockHash,
                                        path: seq<ChainEntry>, n: nat)
    requires TreeOk(t, genesis) && IsPath(t, ready, path) && n < |path| && !Below(t, tip, path[0].hash)
    ensures !Below(t, tip, path[n].hash)
  {
    if n > 0 {
      PathStaysOff(t, genesis, ready, tip, path, n - 1);
      if Below(t, tip, path[n].hash) {
        AncestorStep(t, genesis, tip, path[n].height);
      }
    }
  }

  /** Losing a block takes nothing along that does not have it below. */
  lemma {:induction false} CompleteWithoutOther(t: Entries, genesis: BlockHash, ready: set<BlockHash>, x: BlockHash,
                                                h: BlockHash)
    requires TreeOk(t, genesis) && Complete(t, ready, h) && !Below(t, h, x)
    ensures Complete(t, ready - {x}, h)
    decreases t[h].height
  {
    assert Placed(t, genesis, h);
    if t[h].height > 0 {
      CompleteWithoutOther(t, genesis, ready, x, t[h].prevBlock);
    }
  }

  lemma {:induction false} ViaWhereComplete(t: Entries, genesis: BlockHash, ready: set<BlockHash>, less: set<BlockHash>,
                                            e: BlockHash, h: BlockHash)
    requires TreeOk(t, genesis) && Via(t, ready, e, h) && Complete(t, less, h)
    ensures Via(t, less, e, h)
    decreases t[h].height
  {
    assert Placed(t, genesis, h);
    if h != e {
      ViaWhereComplete(t, genesis, ready, less, e, t[h].prevBlock);
    }
  }

  lemma {:induction false} CompleteAbove(t: Entries, genesis: BlockHash, ready: set<BlockHash>, e: BlockHash,
                                         h: BlockHash)
    requires TreeOk(t, genesis) && Via(t, ready, e, h) && Complete(t, ready, e)
    ensures Complete(t, ready, h)
    decreases t[h].height
  {
    assert Placed(t, genesis, h);
    if h != e {
      CompleteAbove(t, genesis, ready, e, t[h].prevBlock);
    }
  }

  /** With fewer blocks ready, but still all those of the old tip, a tip with `work` is the best
      exactly when it has as much as the old one and as all that is complete through `e`. */
  lemma BestAfterLoss(t: Entries, genesis: BlockHash, ready: set<BlockHash>, less: set<BlockHash>, oldTip: BlockHash,
                      work: nat, e: BlockHash)
    requires TreeOk(t, genesis) && e in t && less <= ready && Complete(t, less, oldTip)
    requires BestBut(t, ready, t[oldTip].chainwork, e)
    ensures Best(t, less, work) <==>
              t[oldTip].chainwork <= work && (Complete(t, less, e) ==> Heaviest(t, less, e, work))
  {
    if Best(t, less, work) && Complete(t, less, e) {
      forall h | Via(t, less, e, h)
        ensures t[h].chainwork <= work
      {
        CompleteAbove(t, genesis, less, e, h);
      }
    }
    if t[oldTip].chainwork <= work && (Complete(t, less, e) ==> Heaviest(t, less, e, work)) {
      forall h | Complete(t, less, h)
        ensures t[h].chainwork <= work
      {
        CompleteGrows(t, genesis, less, ready, h);
        if t[h].chainwork > t[oldTip].chainwork {
          ViaWhereComplete(t, genesis, ready, less, e, h);
          ViaComplete(t, genesis, less, e, h);
        }
      }
    }
  }
}
