/** Why disconnecting works: putting the spent coins back in reverse order and taking the
    created ones out leads to exactly the coins there were before. */
module Undo {
  import opened Primitives
  import opened Coins
  import opened Ledger
  import opened Checks

  /** Putting the coin of one more input back commutes with the outputs that are still there. */
  lemma PuttingBack(coins: CoinMap, tx: Tx, j: nat, height: nat)
    requires j < |tx.inputs| && AllPresent(coins, tx.inputs) && Distinct(tx.inputs) && OutputsAreNew(coins, tx)
    ensures var n, p := |tx.outputs|, tx.inputs[j];
            var less := WithOutputs(coins - InputSet(tx.inputs[..j + 1]), tx, n, height);
            && p !in less
            && less[p := coins[p]] == WithOutputs(coins - InputSet(tx.inputs[..j]), tx, n, height)
  {
    var n, p := |tx.outputs|, tx.inputs[j];
    TakeOneMore(tx.inputs, j);
    var less := WithOutputs(coins - InputSet(tx.inputs[..j + 1]), tx, n, height);
    var more := WithOutputs(coins - InputSet(tx.inputs[..j]), tx, n, height);
    OutputsAt(coins - InputSet(tx.inputs[..j + 1]), tx, n, height, p);
    forall q
      ensures q in less[p := coins[p]] <==> q in more
      ensures q in more ==> less[p := coins[p]][q] == more[q]
    {
      OutputsAt(coins - InputSet(tx.inputs[..j + 1]), tx, n, height, q);
      OutputsAt(coins - InputSet(tx.inputs[..j]), tx, n, height, q);
    }
    assert less[p := coins[p]] == more;
  }

  /** Marking the outputs of `tx` spent in the view takes them out of the coins. */
  lemma TakingOutputsOut(disk: CoinMap, view: CoinMap, coins: CoinMap, tx: Tx, height: nat)
    requires OutputsAreNew(coins, tx)
    requires Overlay(disk, view) == WithOutputs(coins, tx, |tx.outputs|, height)
    ensures Overlay(disk, Indexed(view, tx, |tx.outputs|, height, true)) == coins
  {
    var n := |tx.outputs|;
    var after := Overlay(disk, Indexed(view, tx, n, height, true));
    forall p
      ensures p in after <==> p in coins
      ensures p in coins ==> after[p] == coins[p]
    {
      IndexedAt(view, tx, n, height, true, p);
      OutputsAt(coins, tx, n, height, p);
      assert p in Overlay(disk, view) <==> p in coins || Creates(tx, n, p);
    }
    assert after == coins;
  }

  /** The undo record of the first `n` transactions ends with what the last of them took. */
  lemma UndoEndsWith(coins: CoinMap, txs: seq<Tx>, n: nat, height: nat)
    requires n < |txs| && Spendable(CoinsAfter(coins, txs, n, height), txs[n])
    ensures TakenBy(coins, txs, n + 1, height) == TakenBy(coins, txs, n, height)
              + if txs[n].IsCoinbase() then [] else CoinsAt(CoinsAfter(coins, txs, n, height), txs[n].inputs)
  {
  }

  /** Only known, stored coins ever come out of a block. */
  lemma {:induction false} StaysNormal(coins: CoinMap, txs: seq<Tx>, n: nat, height: nat)
    requires n <= |txs| && Normal(coins) && KnownHeights(coins) && height < MAX_HEIGHT
    ensures Normal(CoinsAfter(coins, txs, n, height)) && KnownHeights(CoinsAfter(coins, txs, n, height))
  {
    if n > 0 {
      StaysNormal(coins, txs, n - 1, height);
      var before, after := CoinsAfter(coins, txs, n - 1, height), CoinsAfter(coins, txs, n, height);
      forall p | p in after
        ensures Stored(after[p]) == after[p] && after[p].height.Some? && after[p].height.value < MAX_HEIGHT
      {
        AppliedAt(before, txs[n - 1], height, p);
      }
    }
  }

  /** A connectable block without a second transaction spends nothing; any other spends something. */
  lemma {:induction false} UndoIsEmpty(coins: CoinMap, txs: seq<Tx>, n: nat, height: nat)
    requires 0 < n <= |txs| && WellShaped(txs) && AllSpendable(coins, txs, |txs|, height)
    ensures TakenBy(coins, txs, n, height) == [] <==> n == 1
  {
    UndoEndsWith(coins, txs, n - 1, height);
    if n == 1 {
      assert TakenBy(coins, txs, 0, height) == [];
    }
  }

  lemma {:induction false} UndoIsShort(coins: CoinMap, txs: seq<Tx>, n: nat, height: nat)
    requires n <= |txs|
    ensures |TakenBy(coins, txs, n, height)| <= InputCount(txs[..n])
  {
    if n > 0 {
      UndoIsShort(coins, txs, n - 1, height);
      assert txs[..n][..n - 1] == txs[..n - 1];
    }
  }
}
