/** What a block does to the set of coins, stated without views, batches or undo lists:
    the meaning that connecting and disconnecting are measured against. */
module Ledger {
  import opened Primitives
  import opened Coins
  import Consensus

  function ApplyTx(coins: CoinMap, tx: Tx, height: nat): CoinMap {
    WithOutputs(if tx.IsCoinbase() then coins else coins - InputSet(tx.inputs), tx, |tx.outputs|, height)
  }

  /** The coins after the first `n` transactions. */
  function CoinsAfter(coins: CoinMap, txs: seq<Tx>, n: nat, height: nat): CoinMap
    requires n <= |txs|
  {
    if n == 0 then coins else ApplyTx(CoinsAfter(coins, txs, n - 1, height), txs[n - 1], height)
  }

  function ApplyBlock(coins: CoinMap, txs: seq<Tx>, height: nat): CoinMap {
    CoinsAfter(coins, txs, |txs|, height)
  }

  /** The coins `tx` takes out of `coins`, in the order of its inputs. */
  function Taken(coins: CoinMap, tx: Tx): seq<CoinEntry> {
    if tx.IsCoinbase() || !AllPresent(coins, tx.inputs) then [] else CoinsAt(coins, tx.inputs)
  }

  /** The coins the first `n` transactions take, oldest first: what the undo record must hold. */
  function TakenBy(coins: CoinMap, txs: seq<Tx>, n: nat, height: nat): seq<CoinEntry>
    requires n <= |txs|
  {
    if n == 0 then [] else TakenBy(coins, txs, n - 1, height) + Taken(CoinsAfter(coins, txs, n - 1, height), txs[n - 1])
  }

  function UndoOf(coins: CoinMap, txs: seq<Tx>, height: nat): seq<CoinEntry> {
    TakenBy(coins, txs, |txs|, height)
  }

  /** `c` is the coin that `p`, an output of `tx` that can be spent, becomes in a block at `height`. */
  predicate MadeBy(tx: Tx, height: nat, p: OutPoint, c: CoinEntry) {
    && p.txid == tx.txid && p.vout < |tx.outputs| && !tx.outputs[p.vout].unspendable
    && c.version == tx.version && c.height == Some(height) && c.output == tx.outputs[p.vout] && !c.spent
    && (c.coinbase <==> |tx.inputs| == 1 && tx.inputs[0] == NULL_OUTPOINT)
  }

  /** A coin after a block was there before, or one of the block's transactions made it. */
  lemma {:induction false} CoinsComeFrom(coins: CoinMap, txs: seq<Tx>, n: nat, height: nat, p: OutPoint)
    requires n <= |txs| && height < MAX_HEIGHT
    ensures var now := CoinsAfter(coins, txs, n, height);
            p in now ==>
              || (p in coins && now[p] == coins[p])
              || exists i :: 0 <= i < n && MadeBy(txs[i], height, p, now[p])
  {
    if n > 0 {
      var before := CoinsAfter(coins, txs, n - 1, height);
      CoinsComeFrom(coins, txs, n - 1, height, p);
      AppliedAt(before, txs[n - 1], height, p);
      if Creates(txs[n - 1], |txs[n - 1].outputs|, p) {
        MadeByLast(before, txs[n - 1], height, p);
      }
    }
  }

  lemma MadeByLast(coins: CoinMap, tx: Tx, height: nat, p: OutPoint)
    requires Creates(tx, |tx.outputs|, p) && height < MAX_HEIGHT
    ensures p in ApplyTx(coins, tx, height) && MadeBy(tx, height, p, ApplyTx(coins, tx, height)[p])
  {
    AppliedAt(coins, tx, height, p);
  }

  // ---- Values ---------------------------------------------------------------------------

  function ValueOf(cs: seq<CoinEntry>): nat {
    if cs == [] then 0 else ValueOf(cs[..|cs| - 1]) + cs[|cs| - 1].output.value
  }

  function OutputValue(tx: Tx, n: nat): nat
    requires n <= |tx.outputs|
  {
    if n == 0 then 0 else OutputValue(tx, n - 1) + tx.outputs[n - 1].value
  }

  /** The value of the outputs that become coins. */
  function SpendableValue(tx: Tx, n: nat): (v: nat)
    requires n <= |tx.outputs|
    ensures v <= OutputValue(tx, n)
  {
    if n == 0 then 0 else SpendableValue(tx, n - 1) + if tx.outputs[n - 1].unspendable then 0
      else tx.outputs[n - 1].value
  }

  /** The value of the outputs that can never be spent. */
  function BurntValue(tx: Tx, n: nat): nat
    requires n <= |tx.outputs|
  {
    if n == 0 then 0
    else if tx.outputs[n - 1].unspendable then tx.outputs[n - 1].value + BurntValue(tx, n - 1)
    else BurntValue(tx, n - 1)
  }

  lemma {:induction false} OutputsSplit(tx: Tx, n: nat)
    requires n <= |tx.outputs|
    ensures OutputValue(tx, n) == SpendableValue(tx, n) + BurntValue(tx, n)
  {
    if n > 0 {
      OutputsSplit(tx, n - 1);
    }
  }

  /** What the outputs of the first `n` transactions that can never be spent come to. */
  function BurntBy(txs: seq<Tx>, n: nat): nat
    requires n <= |txs|
  {
    if n == 0 then 0 else BurntBy(txs, n - 1) + BurntValue(txs[n - 1], |txs[n - 1].outputs|)
  }

  function SpendableCount(tx: Tx, n: nat): nat
    requires n <= |tx.outputs|
  {
    if n == 0 then 0 else SpendableCount(tx, n - 1) + if tx.outputs[n - 1].unspendable then 0 else 1
  }

  ghost function AnyOf(coins: CoinMap): (p: OutPoint)
    requires coins != map[]
    ensures p in coins
  {
    var p :| p in coins;
    p
  }

  /** The value of all the coins. */
  ghost function Supply(coins: CoinMap): nat {
    if coins == map[] then 0 else coins[AnyOf(coins)].output.value + Supply(coins - {AnyOf(coins)})
  }

  lemma {:induction false} SupplyWithout(coins: CoinMap, p: OutPoint)
    requires p in coins
    ensures Supply(coins) == Supply(coins - {p}) + coins[p].output.value
    decreases |coins|
  {
    var q := AnyOf(coins);
    if q != p {
      SupplyWithout(coins - {q}, p);
      SupplyWithout(coins - {p}, q);
      assert coins - {q} - {p} == coins - {p} - {q};
    }
  }

  lemma SupplyWith(coins: CoinMap, p: OutPoint, c: CoinEntry)
    requires p !in coins
    ensures Supply(coins[p := c]) == Supply(coins) + c.output.value
    ensures |coins[p := c]| == |coins| + 1
  {
    SupplyWithout(coins[p := c], p);
    assert coins[p := c] - {p} == coins;
  }

  /** Taking distinct coins out lowers count and value by exactly theirs. */
  lemma {:induction false} TakingLowers(coins: CoinMap, ps: seq<OutPoint>)
    requires AllPresent(coins, ps) && Distinct(ps)
    ensures Supply(coins) == Supply(coins - InputSet(ps)) + ValueOf(CoinsAt(coins, ps))
    ensures |coins| == |coins - InputSet(ps)| + |ps|
  {
    if ps == [] {
      assert coins - InputSet(ps) == coins;
    } else {
      var n := |ps| - 1;
      TakingLowers(coins, ps[..n]);
      TakingLast(coins, ps);
      ValuesOneMore(coins, ps, n);
    }
  }

  lemma ValuesOneMore(coins: CoinMap, ps: seq<OutPoint>, n: nat)
    requires |ps| == n + 1 && AllPresent(coins, ps)
    ensures ValueOf(CoinsAt(coins, ps)) == ValueOf(CoinsAt(coins, ps[..n])) + coins[ps[n]].output.value
  {
    assert CoinsAt(coins, ps)[..n] == CoinsAt(coins, ps[..n]);
  }

  lemma TakingLast(coins: CoinMap, ps: seq<OutPoint>)
    requires ps != [] && AllPresent(coins, ps) && Distinct(ps)
    ensures var n := |ps| - 1;
            var less, more := coins - InputSet(ps), coins - InputSet(ps[..n]);
            Supply(more) == Supply(less) + coins[ps[n]].output.value && |more| == |less| + 1
  {
    assert ps[..|ps|] == ps;
    TakingOne(coins, ps, |ps| - 1);
  }

  lemma TakingOne(coins: CoinMap, ps: seq<OutPoint>, n: nat)
    requires n < |ps| && AllPresent(coins, ps) && Distinct(ps)
    ensures var less, more := coins - InputSet(ps[..n + 1]), coins - InputSet(ps[..n]);
            Supply(more) == Supply(less) + coins[ps[n]].output.value && |more| == |less| + 1
  {
    TakeOneMore(ps, n);
    var less, more := coins - InputSet(ps[..n + 1]), coins - InputSet(ps[..n]);
    SupplyWithout(more, ps[n]);
    assert more - {ps[n]} == less;
    assert less[ps[n] := coins[ps[n]]] == more;
  }

  /** Adding outputs none of which is there yet raises count and value by exactly theirs. */
  lemma {:induction false} AddingRaises(coins: CoinMap, tx: Tx, n: nat, height: nat)
    requires n <= |tx.outputs| && OutputsAreNew(coins, tx)
    ensures Supply(WithOutputs(coins, tx, n, height)) == Supply(coins) + SpendableValue(tx, n)
    ensures |WithOutputs(coins, tx, n, height)| == |coins| + SpendableCount(tx, n)
  {
    if n > 0 {
      AddingRaises(coins, tx, n - 1, height);
      AddingOne(coins, tx, n, height);
      RaisedFrom(coins, WithOutputs(coins, tx, n - 1, height), WithOutputs(coins, tx, n, height), tx, n);
    }
  }

  lemma RaisedFrom(coins: CoinMap, less: CoinMap, more: CoinMap, tx: Tx, n: nat)
    requires 0 < n <= |tx.outputs| && Raised(less, more, tx, n)
    requires Supply(less) == Supply(coins) + SpendableValue(tx, n - 1) && |less| == |coins| + SpendableCount(tx, n - 1)
    ensures Supply(more) == Supply(coins) + SpendableValue(tx, n) && |more| == |coins| + SpendableCount(tx, n)
  {
  }

  /** Count and value went up by those of the `n`-th output. */
  ghost predicate Raised(less: CoinMap, more: CoinMap, tx: Tx, n: nat)
    requires 0 < n <= |tx.outputs|
  {
    && Supply(more) == Supply(less) + SpendableValue(tx, n) - SpendableValue(tx, n - 1)
    && |more| == |less| + SpendableCount(tx, n) - SpendableCount(tx, n - 1)
  }

  lemma AddingOne(coins: CoinMap, tx: Tx, n: nat, height: nat)
    requires 0 < n <= |tx.outputs| && OutputsAreNew(coins, tx)
    ensures Raised(WithOutputs(coins, tx, n - 1, height), WithOutputs(coins, tx, n, height), tx, n)
  {
    if !tx.outputs[n - 1].unspendable {
      var p := OutPoint(tx.txid, n - 1);
      OutputsAt(coins, tx, n - 1, height, p);
      assert Creates(tx, |tx.outputs|, p);
      SupplyWith(WithOutputs(coins, tx, n - 1, height), p, Stored(CoinOf(tx, n - 1, height, false)));
    }
  }

  // ---- Which blocks may be connected -----------------------------------------------------

  /** A coinbase first, and only first; every other transaction has inputs. */
  predicate WellShaped(txs: seq<Tx>) {
    && |txs| > 0 && txs[0].IsCoinbase()
    && forall i :: 0 < i < |txs| ==> !txs[i].IsCoinbase() && txs[i].inputs != []
  }

  /** No output of `tx` is a coin already. */
  ghost predicate OutputsAreNew(coins: CoinMap, tx: Tx) {
    forall p :: p in coins ==> !Creates(tx, |tx.outputs|, p)
  }

  /** No output of the block is a coin already. */
  ghost predicate FreshOutputs(coins: CoinMap, txs: seq<Tx>) {
    forall i :: 0 <= i < |txs| ==> OutputsAreNew(coins, txs[i])
  }

  predicate Spendable(coins: CoinMap, tx: Tx) {
    tx.IsCoinbase() || (AllPresent(coins, tx.inputs) && Distinct(tx.inputs))
  }

  ghost predicate AllSpendable(coins: CoinMap, txs: seq<Tx>, n: nat, height: nat)
    requires n <= |txs|
  {
    forall i :: 0 <= i < n ==> Spendable(CoinsAfter(coins, txs, i, height), txs[i])
  }

  function Fee(coins: CoinMap, tx: Tx): int {
    if tx.IsCoinbase() then 0 else ValueOf(Taken(coins, tx)) - OutputValue(tx, |tx.outputs|)
  }

  function Fees(coins: CoinMap, txs: seq<Tx>, n: nat, height: nat): int
    requires n <= |txs|
  {
    if n == 0 then 0 else Fees(coins, txs, n - 1, height) + Fee(CoinsAfter(coins, txs, n - 1, height), txs[n - 1])
  }

  function InputCount(txs: seq<Tx>): nat {
    if txs == [] then 0 else InputCount(txs[..|txs| - 1]) + |txs[|txs| - 1].inputs|
  }

  /** Everything a block must satisfy to be connected on top of `coins`, as far as coins go; its
      undo record can be written. */
  ghost predicate Connectable(coins: CoinMap, txs: seq<Tx>, height: nat, interval: nat) {
    && interval > 0
    && WellShaped(txs) && InputCount(txs) < UNDO_LENGTHS && NeverRecreated(coins, txs, |txs|, height)
    && AllSpendable(coins, txs, |txs|, height)
    && OutputValue(txs[0], |txs[0].outputs|) <=
       Fees(coins, txs, |txs|, height) + Consensus.GetBlockSubsidy(height, interval)
  }

  /** All the coins that existed at some point up to transaction `n`. */
  function EverAfter(coins: CoinMap, txs: seq<Tx>, n: nat, height: nat): CoinMap
    requires n <= |txs|
  {
    if n == 0 then coins else WithOutputs(EverAfter(coins, txs, n - 1, height), txs[n - 1], |txs[n - 1].outputs|,
                                          height)
  }

  /** No transaction recreates an outpoint that existed before it. */
  ghost predicate NeverRecreated(coins: CoinMap, txs: seq<Tx>, n: nat, height: nat)
    requires n <= |txs|
  {
    forall j :: 0 <= j < n ==> OutputsAreNew(EverAfter(coins, txs, j, height), txs[j])
  }

  lemma {:induction false} EverKeys(coins: CoinMap, txs: seq<Tx>, n: nat, height: nat, p: OutPoint) returns (i: nat)
    requires n <= |txs| && p in EverAfter(coins, txs, n, height) && p !in coins
    ensures i < n && Creates(txs[i], |txs[i].outputs|, p)
  {
    OutputsAt(EverAfter(coins, txs, n - 1, height), txs[n - 1], |txs[n - 1].outputs|, height, p);
    if Creates(txs[n - 1], |txs[n - 1].outputs|, p) {
      i := n - 1;
    } else {
      i := EverKeys(coins, txs, n - 1, height, p);
    }
  }

  /** What ever was a coin is remembered, unchanged when nothing is recreated. */
  lemma {:induction false} EverGrows(coins: CoinMap, txs: seq<Tx>, m: nat, n: nat, height: nat, p: OutPoint)
    requires m <= n <= |txs| && p in EverAfter(coins, txs, m, height)
    ensures p in EverAfter(coins, txs, n, height)
    ensures NeverRecreated(coins, txs, n, height) ==>
              EverAfter(coins, txs, m, height)[p] == EverAfter(coins, txs, n, height)[p]
  {
    if m < n {
      EverGrows(coins, txs, m, n - 1, height, p);
      OutputsAt(EverAfter(coins, txs, n - 1, height), txs[n - 1], |txs[n - 1].outputs|, height, p);
    }
  }

  lemma AppliedAt(coins: CoinMap, tx: Tx, height: nat, p: OutPoint)
    ensures p in ApplyTx(coins, tx, height) <==>
              Creates(tx, |tx.outputs|, p) || (p in coins && (tx.IsCoinbase() || p !in tx.inputs))
    ensures Creates(tx, |tx.outputs|, p) ==> ApplyTx(coins, tx, height)[p] == Stored(CoinOf(tx, p.vout, height, false))
    ensures p in ApplyTx(coins, tx, height) && !Creates(tx, |tx.outputs|, p) ==>
              ApplyTx(coins, tx, height)[p] == coins[p]
  {
    OutputsAt(if tx.IsCoinbase() then coins else coins - InputSet(tx.inputs), tx, |tx.outputs|, height, p);
  }

  /** Whatever is a coin now existed all along, unchanged. */
  lemma {:induction false} CoinExisted(coins: CoinMap, txs: seq<Tx>, n: nat, height: nat, p: OutPoint)
    requires n <= |txs| && p in CoinsAfter(coins, txs, n, height)
    ensures p in EverAfter(coins, txs, n, height)
    ensures EverAfter(coins, txs, n, height)[p] == CoinsAfter(coins, txs, n, height)[p]
  {
    if n > 0 {
      AppliedAt(CoinsAfter(coins, txs, n - 1, height), txs[n - 1], height, p);
      OutputsAt(EverAfter(coins, txs, n - 1, height), txs[n - 1], |txs[n - 1].outputs|, height, p);
      if !Creates(txs[n - 1], |txs[n - 1].outputs|, p) {
        CoinExisted(coins, txs, n - 1, height, p);
      }
    }
  }

  /** What existed before transaction `j` is not recreated by it. */
  lemma StaysGone(coins: CoinMap, txs: seq<Tx>, i: nat, j: nat, height: nat, p: OutPoint)
    requires i <= j < |txs| && NeverRecreated(coins, txs, j + 1, height)
    requires p in CoinsAfter(coins, txs, i, height)
    ensures p in CoinsAfter(coins, txs, j + 1, height) <==>
              p in CoinsAfter(coins, txs, j, height) && (txs[j].IsCoinbase() || p !in txs[j].inputs)
  {
    CoinExisted(coins, txs, i, height, p);
    EverGrows(coins, txs, i, j, height, p);
    assert !Creates(txs[j], |txs[j].outputs|, p);
    AppliedAt(CoinsAfter(coins, txs, j, height), txs[j], height, p);
  }

  /** An outpoint spent by transaction `i` is not a coin at any later point `j`. */
  lemma {:induction false} SpentStaysSpent(coins: CoinMap, txs: seq<Tx>, i: nat, j: nat, height: nat, p: OutPoint)
    requires i < j <= |txs| && NeverRecreated(coins, txs, j, height)
    requires !txs[i].IsCoinbase() && p in txs[i].inputs && p in CoinsAfter(coins, txs, i, height)
    ensures p !in CoinsAfter(coins, txs, j, height)
  {
    StaysGone(coins, txs, i, j - 1, height, p);
    if i + 1 < j {
      SpentStaysSpent(coins, txs, i, j - 1, height, p);
    }
  }

  /** Fresh outputs and inputs that can be spent leave no room for a transaction twice in a
      block: the second one would spend what the first has spent. */
  lemma {:induction false} NothingIsRecreated(coins: CoinMap, txs: seq<Tx>, n: nat, height: nat)
    requires n <= |txs| && WellShaped(txs) && TxidsDetermine(txs) && FreshOutputs(coins, txs)
    requires AllSpendable(coins, txs, n, height)
    ensures NeverRecreated(coins, txs, n, height)
  {
    if n > 0 {
      NothingIsRecreated(coins, txs, n - 1, height);
      NextIsNew(coins, txs, n - 1, height);
      NewOneMore(coins, txs, n - 1, height);
    }
  }

  lemma NewOneMore(coins: CoinMap, txs: seq<Tx>, j: nat, height: nat)
    requires j < |txs| && NeverRecreated(coins, txs, j, height)
    requires OutputsAreNew(EverAfter(coins, txs, j, height), txs[j])
    ensures NeverRecreated(coins, txs, j + 1, height)
  {
  }

  lemma NextIsNew(coins: CoinMap, txs: seq<Tx>, j: nat, height: nat)
    requires j < |txs| && WellShaped(txs) && TxidsDetermine(txs) && FreshOutputs(coins, txs)
    requires AllSpendable(coins, txs, j + 1, height) && NeverRecreated(coins, txs, j, height)
    ensures OutputsAreNew(EverAfter(coins, txs, j, height), txs[j])
  {
    forall p | p in EverAfter(coins, txs, j, height)
      ensures !Creates(txs[j], |txs[j].outputs|, p)
    {
      if Creates(txs[j], |txs[j].outputs|, p) {
        var i := EverKeys(coins, txs, j, height, p);
        assert txs[i] == txs[j];
        var q := txs[i].inputs[0];
        SpentStaysSpent(coins, txs, i, j, height, q);
        assert false;
      }
    }
  }

  /** As far as the inputs can be spent, nothing is recreated. */
  ghost predicate Unrepeatable(coins: CoinMap, txs: seq<Tx>, height: nat) {
    forall n: nat {:trigger AllSpendable(coins, txs, n, height)} ::
      n <= |txs| && AllSpendable(coins, txs, n, height) ==> NeverRecreated(coins, txs, n, height)
  }

  lemma FreshIsUnrepeatable(coins: CoinMap, txs: seq<Tx>, height: nat)
    requires WellShaped(txs) && TxidsDetermine(txs) && FreshOutputs(coins, txs)
    ensures Unrepeatable(coins, txs, height)
  {
    forall n: nat | n <= |txs| && AllSpendable(coins, txs, n, height)
      ensures NeverRecreated(coins, txs, n, height)
    {
      NothingIsRecreated(coins, txs, n, height);
    }
  }

  // ---- Supply ---------------------------------------------------------------------------

  /** A transaction whose inputs are there and whose outputs are new changes the supply by
      what it takes and what it makes spendable. */
  lemma TxSupply(coins: CoinMap, tx: Tx, height: nat)
    requires Spendable(coins, tx) && OutputsAreNew(coins, tx)
    ensures Supply(ApplyTx(coins, tx, height)) ==
              Supply(coins) - ValueOf(Taken(coins, tx)) + SpendableValue(tx, |tx.outputs|)
  {
    if tx.IsCoinbase() {
      AddingRaises(coins, tx, |tx.outputs|, height);
    } else {
      TakingLowers(coins, tx.inputs);
      AddingRaises(coins - InputSet(tx.inputs), tx, |tx.outputs|, height);
    }
  }

  lemma OutputsAreNewNow(coins: CoinMap, txs: seq<Tx>, n: nat, height: nat)
    requires n < |txs| && NeverRecreated(coins, txs, n + 1, height)
    ensures OutputsAreNew(CoinsAfter(coins, txs, n, height), txs[n])
  {
    forall p | p in CoinsAfter(coins, txs, n, height)
      ensures p in EverAfter(coins, txs, n, height)
    {
      CoinExisted(coins, txs, n, height, p);
    }
  }

  lemma {:induction false} SupplyAfter(coins: CoinMap, txs: seq<Tx>, n: nat, height: nat)
    requires 0 < n <= |txs| && WellShaped(txs) && NeverRecreated(coins, txs, n, height)
             && AllSpendable(coins, txs, n, height)
    ensures Supply(CoinsAfter(coins, txs, n, height)) + BurntBy(txs, n) ==
            Supply(coins) + OutputValue(txs[0], |txs[0].outputs|) - Fees(coins, txs, n, height)
  {
    var c := CoinsAfter(coins, txs, n - 1, height);
    OutputsAreNewNow(coins, txs, n - 1, height);
    SupplyMoves(c, txs[n - 1], height);
    if n == 1 {
      assert Fees(coins, txs, 0, height) == 0 && BurntBy(txs, 0) == 0 && c == coins;
    } else {
      SupplyAfter(coins, txs, n - 1, height);
    }
  }

  /** A coinbase creates what it claims, any other transaction takes its fee out, and what can never
      be spent is lost. */
  lemma SupplyMoves(coins: CoinMap, tx: Tx, height: nat)
    requires Spendable(coins, tx) && OutputsAreNew(coins, tx)
    ensures Supply(ApplyTx(coins, tx, height)) + BurntValue(tx, |tx.outputs|) ==
            Supply(coins) + (if tx.IsCoinbase() then OutputValue(tx, |tx.outputs|) else 0) - Fee(coins, tx)
  {
    TxSupply(coins, tx, height);
    OutputsSplit(tx, |tx.outputs|);
  }

  /** Connecting a block creates no more than its subsidy. */
  lemma BlockSupply(coins: CoinMap, txs: seq<Tx>, height: nat, interval: nat)
    requires Connectable(coins, txs, height, interval)
    ensures Supply(ApplyBlock(coins, txs, height)) <= Supply(coins) + Consensus.GetBlockSubsidy(height, interval)
  {
    SupplyAfter(coins, txs, |txs|, height);
  }
}
