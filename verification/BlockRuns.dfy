/** Running the counters over a block that is connected, and undoing one that is disconnected. */
module BlockRuns {
  import opened Primitives
  import opened Coins
  import opened Ledger
  import opened Checks
  import opened Undo
  import opened Columns

  // ---- The counters over a block ------------------------------------------------------------

  /** What the view says a coin that is about to be spent is worth is what it is worth. */
  lemma SeenValue(view: CoinMap, coins: CoinMap, txs: seq<Tx>, n: nat, height: nat, p: OutPoint)
    requires n <= |txs| && NeverRecreated(coins, txs, |txs|, height)
    requires Remembers(view, EverAfter(coins, txs, |txs|, height)) && p in view
    requires p in CoinsAfter(coins, txs, n, height)
    ensures view[p].output == CoinsAfter(coins, txs, n, height)[p].output
  {
    CoinExisted(coins, txs, n, height, p);
    EverGrows(coins, txs, n, |txs|, height, p);
    assert Stored(view[p]).output == view[p].output;
  }

  lemma SpendCounts(s: ChainState, coins: CoinMap, ps: seq<OutPoint>, j: nat)
    requires j < |ps| && AllPresent(coins, ps) && Distinct(ps)
    requires Counts(s, coins - InputSet(ps[..j]))
    ensures s.coin > 0 && coins[ps[j]].output.value <= s.value
    ensures Counts(s.Spend(coins[ps[j]].output), coins - InputSet(ps[..j + 1]))
  {
    TakingOne(coins, ps, j);
    CountsMeans(s, coins - InputSet(ps[..j]));
    CountsMeans(s.Spend(coins[ps[j]].output), coins - InputSet(ps[..j + 1]));
  }

  lemma AddCounts(s: ChainState, coins: CoinMap, tx: Tx, k: nat, height: nat)
    requires k < |tx.outputs| && OutputsAreNew(coins, tx) && !tx.outputs[k].unspendable
    ensures Counts(s, WithOutputs(coins, tx, k, height)) ==>
              Counts(s.Add(tx.outputs[k]), WithOutputs(coins, tx, k + 1, height))
    ensures Counts(s, WithOutputs(coins, tx, k + 1, height)) ==>
              s.coin > 0 && tx.outputs[k].value <= s.value
              && Counts(s.Spend(tx.outputs[k]), WithOutputs(coins, tx, k, height))
  {
    AddingOne(coins, tx, k + 1, height);
    var less, more := WithOutputs(coins, tx, k, height), WithOutputs(coins, tx, k + 1, height);
    CountsMeans(s, less);
    CountsMeans(s, more);
    CountsMeans(s.Add(tx.outputs[k]), more);
    if s.coin > 0 && tx.outputs[k].value <= s.value {
      CountsMeans(s.Spend(tx.outputs[k]), less);
    }
  }

  /** The view knows what the coin under `p` is worth. */
  predicate Knows(view: CoinMap, coins: CoinMap, p: OutPoint) {
    p in view && p in coins && view[p].output == coins[p].output
  }

  ghost predicate KnowsAll(view: CoinMap, coins: CoinMap, ps: seq<OutPoint>) {
    forall j {:trigger ps[j]} :: 0 <= j < |ps| ==> Knows(view, coins, ps[j])
  }

  lemma ViewKnows(view: CoinMap, coins: CoinMap, txs: seq<Tx>, n: nat, height: nat)
    requires n < |txs| && !txs[n].IsCoinbase() && NeverRecreated(coins, txs, |txs|, height)
    requires Remembers(view, EverAfter(coins, txs, |txs|, height)) && AllPresent(view, txs[n].inputs)
    requires Spendable(CoinsAfter(coins, txs, n, height), txs[n])
    ensures KnowsAll(view, CoinsAfter(coins, txs, n, height), txs[n].inputs)
  {
    var ps := txs[n].inputs;
    forall j | 0 <= j < |ps|
      ensures Knows(view, CoinsAfter(coins, txs, n, height), ps[j])
    {
      SeenValue(view, coins, txs, n, height, ps[j]);
    }
  }

  /** Counts the inputs of a transaction as spent; no counter underflows. */
  method CountInputs(s: ChainState, view: CoinMap, ps: seq<OutPoint>, ghost coins: CoinMap) returns (r: ChainState)
    requires KnowsAll(view, coins, ps) && AllPresent(coins, ps) && Distinct(ps)
    requires Counts(s, coins)
    ensures Counts(r, coins - InputSet(ps))
    ensures r == s.(coin := r.coin, value := r.value)
  {
    r := s;
    assert coins - InputSet(ps[..0]) == coins;
    for j := 0 to |ps|
      invariant Counts(r, coins - InputSet(ps[..j]))
      invariant r == s.(coin := r.coin, value := r.value)
    {
      assert Knows(view, coins, ps[j]);
      SpendCounts(r, coins, ps, j);
      r := r.Spend(view[ps[j]].output);
    }
    assert ps[..|ps|] == ps;
  }

  method CountOutputs(s: ChainState, tx: Tx, ghost coins: CoinMap, ghost height: nat) returns (r: ChainState)
    requires OutputsAreNew(coins, tx) && Counts(s, coins)
    ensures Counts(r, WithOutputs(coins, tx, |tx.outputs|, height))
    ensures r == s.(coin := r.coin, value := r.value)
  {
    r := s;
    for k := 0 to |tx.outputs|
      invariant Counts(r, WithOutputs(coins, tx, k, height))
      invariant r == s.(coin := r.coin, value := r.value)
    {
      if tx.outputs[k].unspendable {
        continue;
      }
      AddCounts(r, coins, tx, k, height);
      r := r.Add(tx.outputs[k]);
    }
  }

  /** Takes the outputs of `tx` out of the counters again, last first. */
  method UncountOutputs(s: ChainState, tx: Tx, ghost coins: CoinMap, ghost height: nat) returns (r: ChainState)
    requires OutputsAreNew(coins, tx) && Counts(s, WithOutputs(coins, tx, |tx.outputs|, height))
    ensures Counts(r, coins)
    ensures r == s.(coin := r.coin, value := r.value)
  {
    r := s;
    var k: nat := |tx.outputs|;
    while k > 0
      invariant k <= |tx.outputs|
      invariant Counts(r, WithOutputs(coins, tx, k, height))
      invariant r == s.(coin := r.coin, value := r.value)
    {
      k := k - 1;
      if !tx.outputs[k].unspendable {
        AddCounts(r, coins, tx, k, height);
        r := r.Spend(tx.outputs[k]);
      }
    }
  }

  // ---- Connecting a block -------------------------------------------------------------------

  lemma StepReady(coins: CoinMap, txs: seq<Tx>, n: nat, height: nat, interval: nat)
    requires n < |txs| && Connectable(coins, txs, height, interval)
    ensures txs[n].IsCoinbase() <==> n == 0
    ensures Spendable(CoinsAfter(coins, txs, n, height), txs[n])
    ensures OutputsAreNew(CoinsAfter(coins, txs, n, height), txs[n])
    ensures OutputsAreNew(CoinsAfter(coins, txs, n, height) - InputSet(txs[n].inputs), txs[n])
    ensures NeverRecreated(coins, txs, |txs|, height)
  {
    OutputsAreNewNow(coins, txs, n, height);
  }

  /** Runs the counters over a block. */
  method CountBlock(s: ChainState, block: Block, view: CoinMap, ghost undo: seq<CoinEntry>, ghost coins: CoinMap,
                    ghost height: nat, ghost interval: nat)
    returns (r: ChainState)
    requires Connectable(coins, block.txs, height, interval)
    requires Records(view, undo, coins, block.txs, |block.txs|, height)
    requires Counts(s, coins)
    ensures Counts(r, ApplyBlock(coins, block.txs, height))
    ensures r == s.(coin := r.coin, value := r.value)
  {
    r := s;
    var txs := block.txs;
    for n := 0 to |txs|
      invariant Counts(r, CoinsAfter(coins, txs, n, height))
      invariant r == s.(coin := r.coin, value := r.value)
    {
      ghost var now := CoinsAfter(coins, txs, n, height);
      StepReady(coins, txs, n, height, interval);
      if n > 0 {
        ViewKnows(view, coins, txs, n, height);
        r := CountInputs(r, view, txs[n].inputs, now);
      }
      r := CountOutputs(r, txs[n], if n > 0 then now - InputSet(txs[n].inputs) else now, height);
    }
  }

  // ---- Disconnecting a block ----------------------------------------------------------------

  /** One coin back in the view, one more counted. */
  lemma PutBackCounts(s: ChainState, disk: CoinMap, view: CoinMap, coins: CoinMap, tx: Tx, j: nat, height: nat)
    requires j < |tx.inputs| && AllPresent(coins, tx.inputs) && Distinct(tx.inputs) && OutputsAreNew(coins, tx)
             && Normal(coins)
    requires Overlay(disk, view) == WithOutputs(coins - InputSet(tx.inputs[..j + 1]), tx, |tx.outputs|, height)
    requires Counts(s, Overlay(disk, view))
    ensures var c := coins[tx.inputs[j]]; var after := view[tx.inputs[j] := c.(spent := false)];
            && c == c.(spent := false)
            && Overlay(disk, after) == WithOutputs(coins - InputSet(tx.inputs[..j]), tx, |tx.outputs|, height)
            && Counts(s.Add(c.output), Overlay(disk, after))
  {
    var p := tx.inputs[j];
    assert Stored(coins[p]) == coins[p];
    PuttingBack(coins, tx, j, height);
    OverlayPut(disk, view, p, coins[p]);
    SupplyWith(Overlay(disk, view), p, coins[p]);
    CountsMeans(s, Overlay(disk, view));
    CountsMeans(s.Add(coins[p].output), Overlay(disk, view[p := coins[p]]));
  }

  /** The first `j` inputs of `tx` are still to be put back. */
  ghost predicate InputsLeft(disk: CoinMap, view: CoinMap, items: seq<CoinEntry>, s: ChainState, coins: CoinMap, tx: Tx,
                             j: nat, height: nat, rest: seq<CoinEntry>)
    requires j <= |tx.inputs|
  {
    && Spendable(coins, tx) && !tx.IsCoinbase() && OutputsAreNew(coins, tx) && Normal(coins)
    && items == rest + CoinsAt(coins, tx.inputs[..j])
    && Overlay(disk, view) == WithOutputs(coins - InputSet(tx.inputs[..j]), tx, |tx.outputs|, height)
    && Counts(s, Overlay(disk, view))
  }

  lemma PutOneBack(disk: CoinMap, view: CoinMap, items: seq<CoinEntry>, s: ChainState, coins: CoinMap, tx: Tx, j: nat,
                   height: nat, rest: seq<CoinEntry>)
    requires j < |tx.inputs| && InputsLeft(disk, view, items, s, coins, tx, j + 1, height, rest)
    ensures items != []
    ensures var last := |items| - 1;
            InputsLeft(disk, view[tx.inputs[j] := items[last]], items[..last], s.Add(items[last].output), coins, tx, j,
                       height, rest)
  {
    CoinsAtPrefix(coins, tx.inputs, j);
    assert items == rest + CoinsAt(coins, tx.inputs[..j]) + [coins[tx.inputs[j]]];
    PutBackCounts(s, disk, view, coins, tx, j, height);
  }

  /** Puts the coins `tx` took back into the view, last one first. */
  method UndoInputs(view: CoinView, undo: UndoCoins, s: ChainState, tx: Tx, ghost disk: CoinMap, ghost coins: CoinMap,
                    ghost rest: seq<CoinEntry>, ghost height: nat)
    returns (r: ChainState)
    requires InputsLeft(disk, view.coins, undo.items, s, coins, tx, |tx.inputs|, height, rest)
    modifies view`coins, undo
    ensures InputsLeft(disk, view.coins, undo.items, r, coins, tx, 0, height, rest)
    ensures r == s.(coin := r.coin, value := r.value)
  {
    r := s;
    var j: nat := |tx.inputs|;
    while j > 0
      invariant j <= |tx.inputs|
      invariant InputsLeft(disk, view.coins, undo.items, r, coins, tx, j, height, rest)
      invariant r == s.(coin := r.coin, value := r.value)
    {
      j := j - 1;
      PutOneBack(disk, view.coins, undo.items, r, coins, tx, j, height, rest);
      undo.Apply(view, tx.inputs[j]);
      r := r.Add(view.coins[tx.inputs[j]].output);
    }
  }

  /** Everything is in place for `tx` to be undone: the coins are those it left on top of `coins`,
      and the undo list has what it took on top of `rest`. */
  ghost predicate UndoReady(disk: CoinMap, view: CoinMap, items: seq<CoinEntry>, s: ChainState, coins: CoinMap, tx: Tx,
                            height: nat, rest: seq<CoinEntry>) {
    && Spendable(coins, tx) && OutputsAreNew(coins, tx) && Normal(coins)
    && items == rest + (if tx.IsCoinbase() then [] else CoinsAt(coins, tx.inputs))
    && Overlay(disk, view) == ApplyTx(coins, tx, height)
    && Counts(s, Overlay(disk, view))
  }

  /** View, undo list and counters agree that the coins are `coins` and that `items` are left to undo. */
  ghost predicate UndoneTo(disk: CoinMap, view: CoinMap, items: seq<CoinEntry>, s: ChainState, coins: CoinMap,
                           rest: seq<CoinEntry>) {
    items == rest && Overlay(disk, view) == coins && Counts(s, coins)
  }

  /** Undoes one transaction: its coins return, its outputs go. */
  method UndoTx(view: CoinView, undo: UndoCoins, s: ChainState, tx: Tx, index: nat, height: nat, ghost disk: CoinMap,
                ghost coins: CoinMap, ghost rest: seq<CoinEntry>)
    returns (r: ChainState)
    requires tx.IsCoinbase() <==> index == 0
    requires UndoReady(disk, view.coins, undo.items, s, coins, tx, height, rest)
    modifies view`coins, undo
    ensures UndoneTo(disk, view.coins, undo.items, r, coins, rest)
    ensures r == s.(coin := r.coin, value := r.value)
  {
    r := s;
    if index > 0 {
      assert tx.inputs[..|tx.inputs|] == tx.inputs;
      r := UndoInputs(view, undo, r, tx, disk, coins, rest, height);
      assert coins - InputSet(tx.inputs[..0]) == coins;
    }
    TakingOutputsOut(disk, view.coins, coins, tx, height);
    view.RemoveTx(tx, height);
    r := UncountOutputs(r, tx, coins, height);
  }

  /** Undoes a block transaction by transaction, last one first.  When the coins are those the
      block left, the view written out gives the coins there were before, the undo list has
      been used up, and the counters have followed. */
  method UndoBlock(view: CoinView, undo: UndoCoins, s: ChainState, block: Block, height: nat, ghost disk: CoinMap,
                   ghost before: CoinMap)
    returns (r: ChainState)
    requires Undoable(before, block.txs, height)
    requires UndoneTo(disk, view.coins, undo.items, s, ApplyBlock(before, block.txs, height),
                      UndoOf(before, block.txs, height))
    modifies view`coins, undo
    ensures UndoneTo(disk, view.coins, undo.items, r, before, [])
    ensures r == s.(coin := r.coin, value := r.value)
  {
    r := s;
    var txs := block.txs;
    var n: nat := |txs|;
    while n > 0
      invariant n <= |txs|
      invariant UndoneTo(disk, view.coins, undo.items, r, CoinsAfter(before, txs, n, height),
                         TakenBy(before, txs, n, height))
      invariant r == s.(coin := r.coin, value := r.value)
    {
      n := n - 1;
      NextToUndo(disk, view.coins, undo.items, r, before, txs, n, height);
      r := UndoTx(view, undo, r, txs[n], n, height, disk, CoinsAfter(before, txs, n, height),
                  TakenBy(before, txs, n, height));
    }
  }

  lemma NextToUndo(disk: CoinMap, view: CoinMap, items: seq<CoinEntry>, s: ChainState, coins: CoinMap, txs: seq<Tx>,
                   n: nat, height: nat)
    requires n < |txs| && Undoable(coins, txs, height)
    requires UndoneTo(disk, view, items, s, CoinsAfter(coins, txs, n + 1, height), TakenBy(coins, txs, n + 1, height))
    ensures UndoReady(disk, view, items, s, CoinsAfter(coins, txs, n, height), txs[n], height,
                      TakenBy(coins, txs, n, height))
    ensures txs[n].IsCoinbase() <==> n == 0
  {
    assert UndoableAt(coins, txs, n, height);
  }

  /** Transaction `n` can be undone when the ones after it have been. */
  ghost predicate UndoableAt(coins: CoinMap, txs: seq<Tx>, n: nat, height: nat)
    requires n < |txs|
  {
    var now := CoinsAfter(coins, txs, n, height);
    && Spendable(now, txs[n]) && OutputsAreNew(now, txs[n]) && Normal(now) && (txs[n].IsCoinbase() <==> n == 0)
    && TakenBy(coins, txs, n + 1, height) ==
         TakenBy(coins, txs, n, height) + (if txs[n].IsCoinbase() then [] else CoinsAt(now, txs[n].inputs))
    && CoinsAfter(coins, txs, n + 1, height) == ApplyTx(now, txs[n], height)
  }

  ghost predicate Undoable(coins: CoinMap, txs: seq<Tx>, height: nat) {
    forall n: nat {:trigger UndoableAt(coins, txs, n, height)} :: n < |txs| ==> UndoableAt(coins, txs, n, height)
  }

  lemma ConnectableIsUndoable(coins: CoinMap, txs: seq<Tx>, height: nat, interval: nat)
    requires Connectable(coins, txs, height, interval)
    requires Normal(coins) && KnownHeights(coins) && height < MAX_HEIGHT
    ensures Undoable(coins, txs, height)
  {
    forall n: nat | n < |txs|
      ensures UndoableAt(coins, txs, n, height)
    {
      StepReady(coins, txs, n, height, interval);
      StaysNormal(coins, txs, n, height);
      UndoEndsWith(coins, txs, n, height);
    }
  }
}
