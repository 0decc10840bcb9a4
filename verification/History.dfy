/** Why a chain whose coinbases differ never recreates an outpoint: what was spent stays spent, so
    no transaction can come a second time. */
module History {
  import opened Primitives
  import opened Coins
  import opened Ledger

  predicate IsKnown(txOf: TxOf, tx: Tx) {
    txOf(tx.txid) == tx
  }

  ghost predicate AllKnown(txOf: TxOf, txs: seq<Tx>) {
    forall i :: 0 <= i < |txs| ==> IsKnown(txOf, txs[i])
  }

  /** The outpoints that become coins with `tx`. */
  function CreatedBy(tx: Tx): (ps: set<OutPoint>)
    ensures forall p :: p in ps <==> Creates(tx, |tx.outputs|, p)
  {
    set vout | 0 <= vout < |tx.outputs| && tx.IsSpendable(vout) :: OutPoint(tx.txid, vout)
  }

  /** All the outpoints that existed at some point up to transaction `n`. */
  function EverWith(ever: set<OutPoint>, txs: seq<Tx>, n: nat): set<OutPoint>
    requires n <= |txs|
  {
    if n == 0 then ever else EverWith(ever, txs, n - 1) + CreatedBy(txs[n - 1])
  }

  /** What the transaction that created `p` has spent existed once and is gone. */
  predicate InputsGone(txOf: TxOf, coins: CoinMap, ever: set<OutPoint>, p: OutPoint) {
    !txOf(p.txid).IsCoinbase() ==> forall q :: q in txOf(p.txid).inputs ==> q in ever && q !in coins
  }

  /** Coins existed, and whatever was spent for what existed is gone. */
  ghost predicate SpentForGood(txOf: TxOf, coins: CoinMap, ever: set<OutPoint>) {
    && coins.Keys <= ever
    && forall p {:trigger InputsGone(txOf, coins, ever, p)} :: p in ever ==> InputsGone(txOf, coins, ever, p)
  }

  ghost predicate NoneExisted(ever: set<OutPoint>, tx: Tx) {
    forall p :: p in ever ==> !Creates(tx, |tx.outputs|, p)
  }

  /** A transaction that can be spent creates nothing that existed, given that of coinbases. */
  lemma SpendableIsNew(txOf: TxOf, coins: CoinMap, ever: set<OutPoint>, tx: Tx)
    requires SpentForGood(txOf, coins, ever) && IsKnown(txOf, tx) && Spendable(coins, tx)
    requires if tx.IsCoinbase() then NoneExisted(ever, tx) else tx.inputs != []
    ensures NoneExisted(ever, tx)
  {
    if !tx.IsCoinbase() {
      forall p | p in ever
        ensures !Creates(tx, |tx.outputs|, p)
      {
        assert InputsGone(txOf, coins, ever, p);
        assert tx.inputs[0] in coins;
      }
    }
  }

  /** Applying it keeps what was spent gone. */
  lemma ApplyingKeepsSpent(txOf: TxOf, coins: CoinMap, ever: set<OutPoint>, tx: Tx, height: nat)
    requires SpentForGood(txOf, coins, ever) && IsKnown(txOf, tx) && Spendable(coins, tx) && NoneExisted(ever, tx)
    ensures SpentForGood(txOf, ApplyTx(coins, tx, height), ever + CreatedBy(tx))
  {
    var after, all := ApplyTx(coins, tx, height), ever + CreatedBy(tx);
    forall p | p in after
      ensures p in all
    {
      AppliedAt(coins, tx, height, p);
    }
    forall p | p in all
      ensures InputsGone(txOf, after, all, p)
    {
      if !txOf(p.txid).IsCoinbase() {
        forall q | q in txOf(p.txid).inputs
          ensures q in all && q !in after
        {
          AppliedAt(coins, tx, height, q);
          if p in ever {
            assert InputsGone(txOf, coins, ever, p);
          } else {
            assert txOf(p.txid) == tx;
          }
        }
      }
    }
  }

  /** What the block's coinbase creates is new to the chain; the rest follows. */
  lemma {:induction false} BlockKeepsSpent(txOf: TxOf, coins: CoinMap, ever: set<OutPoint>, txs: seq<Tx>, n: nat,
                                           height: nat)
    requires n <= |txs| && SpentForGood(txOf, coins, ever) && AllKnown(txOf, txs) && WellShaped(txs)
    requires NoneExisted(ever, txs[0]) && AllSpendable(coins, txs, n, height)
    ensures SpentForGood(txOf, CoinsAfter(coins, txs, n, height), EverWith(ever, txs, n))
    ensures NeverRecreated(coins, txs, n, height)
    ensures EverAfter(coins, txs, n, height).Keys <= EverWith(ever, txs, n)
  {
    if n > 0 {
      var j := n - 1;
      BlockKeepsSpent(txOf, coins, ever, txs, j, height);
      var now, seen := CoinsAfter(coins, txs, j, height), EverWith(ever, txs, j);
      assert IsKnown(txOf, txs[j]) && Spendable(now, txs[j]);
      if j == 0 {
        assert seen == ever;
      }
      SpendableIsNew(txOf, now, seen, txs[j]);
      ApplyingKeepsSpent(txOf, now, seen, txs[j], height);
      forall p | p in EverAfter(coins, txs, n, height)
        ensures p in EverWith(ever, txs, n)
      {
        OutputsAt(EverAfter(coins, txs, j, height), txs[j], |txs[j].outputs|, height, p);
      }
    }
  }

  lemma KnownTxsDetermine(txOf: TxOf, txs: seq<Tx>)
    requires AllKnown(txOf, txs)
    ensures TxidsDetermine(txs)
  {
    forall i, j | 0 <= i < |txs| && 0 <= j < |txs| && txs[i].txid == txs[j].txid
      ensures txs[i] == txs[j]
    {
      assert IsKnown(txOf, txs[i]) && IsKnown(txOf, txs[j]);
    }
  }
}
