/** What a block has to pass before it is connected: sane transactions, no live duplicates,
    inputs that are there, mature and worth enough, and a coinbase that claims no more than
    fees and subsidy. */
module Checks {
  import opened Primitives
  import opened Coins
  import opened Ledger
  import opened Consensus
  import SkipList

  datatype TxError =
    | InputsEmpty | OutputsEmpty | Oversized | OutputTooLarge | OutputTotalTooLarge | DuplicateInput
    | BadCoinbaseLength | NullPreviousOutput | InputsMissingOrSpent | PrematureCoinbaseSpend
    | InputValuesOutOfRange | InBelowOut | FeeOutOfRange

  // ---- A transaction on its own ----------------------------------------------------------

  predicate Sane(tx: Tx) {
    && tx.inputs != [] && tx.outputs != []
    && tx.StrippedSize() * 4 <= 4_000_000
    && OutputValue(tx, |tx.outputs|) <= 21_000_000 * 100_000_000
    && Distinct(tx.inputs)
    && (if |tx.inputs| == 1 && tx.inputs[0] == NULL_OUTPOINT then 2 <= tx.scriptSigLen <= 100
        else NULL_OUTPOINT !in tx.inputs)
  }

  lemma {:induction false} OutputsAddUp(tx: Tx, n: nat, m: nat)
    requires n <= m <= |tx.outputs|
    ensures OutputValue(tx, n) <= OutputValue(tx, m)
    ensures n < m ==> tx.outputs[n].value <= OutputValue(tx, m)
    decreases m
  {
    if n < m {
      if n < m - 1 {
        OutputsAddUp(tx, n, m - 1);
      }
    }
  }

  method GetOutputValue(tx: Tx) returns (total: nat)
    ensures total == OutputValue(tx, |tx.outputs|)
  {
    total := 0;
    for i := 0 to |tx.outputs|
      invariant total == OutputValue(tx, i)
    {
      total := total + tx.outputs[i].value;
    }
  }

  method CheckSanity(tx: Tx) returns (r: Option<TxError>)
    ensures r.None? <==> Sane(tx)
  {
    if tx.inputs == [] {
      return Some(InputsEmpty);
    }
    if tx.outputs == [] {
      return Some(OutputsEmpty);
    }
    if tx.StrippedSize() * WITNESS_SCALE_FACTOR > MAX_BLOCK_WEIGHT {
      return Some(Oversized);
    }
    var valueOut := 0;
    for i := 0 to |tx.outputs|
      invariant valueOut == OutputValue(tx, i) <= MAX_MONEY
    {
      OutputsAddUp(tx, i, |tx.outputs|);
      OutputsAddUp(tx, i + 1, |tx.outputs|);
      if tx.outputs[i].value > MAX_MONEY {
        return Some(OutputTooLarge);
      }
      valueOut := valueOut + tx.outputs[i].value;
      if valueOut > MAX_MONEY {
        return Some(OutputTotalTooLarge);
      }
    }
    if |tx.inputs| > 1 {
      var outpoints: set<OutPoint> := {};
      for i := 0 to |tx.inputs|
        invariant forall p :: p in outpoints <==> p in tx.inputs[..i]
        invariant Distinct(tx.inputs[..i])
      {
        if tx.inputs[i] in outpoints {
          return Some(DuplicateInput);
        }
        outpoints := outpoints + {tx.inputs[i]};
      }
      assert tx.inputs[..|tx.inputs|] == tx.inputs;
    }
    if tx.IsCoinbase() {
      if !(2 <= tx.scriptSigLen <= 100) {
        return Some(BadCoinbaseLength);
      }
    } else {
      for i := 0 to |tx.inputs|
        invariant NULL_OUTPOINT !in tx.inputs[..i]
      {
        if tx.inputs[i] == NULL_OUTPOINT {
          return Some(NullPreviousOutput);
        }
      }
    }
    return None;
  }

  /** The bytes a number takes in the encoding of variable length. */
  function VarIntLength(n: nat): nat {
    if n < 0xFD then 1 else if n <= 0xFFFF then 3 else if n <= 0xFFFF_FFFF then 5 else 9
  }

  function TxsSize(txs: seq<Tx>): nat {
    if txs == [] then 0 else TxsSize(txs[..|txs| - 1]) + txs[|txs| - 1].StrippedSize()
  }

  /** The size of a block without witness. */
  function BlockSize(txs: seq<Tx>): nat {
    var n := |txs|;
    80 + (if n <= 252 then 1 else if n < 0x1_0000 then 3 else if n < 0x1_0000_0000 then 5 else 9) + TxsSize(txs)
  }

  method GetBaseSize(txs: seq<Tx>) returns (size: nat)
    ensures size == BlockSize(txs)
  {
    size := 80 + VarIntLength(|txs|);
    for i := 0 to |txs|
      invariant size == 80 + VarIntLength(|txs|) + TxsSize(txs[..i])
    {
      assert txs[..i + 1][..i] == txs[..i];
      size := size + txs[i].StrippedSize();
    }
    assert txs[..|txs|] == txs;
  }

  predicate WithinLimits(txs: seq<Tx>) {
    |txs| * 4 <= 4_000_000 && BlockSize(txs) * 4 <= 4_000_000
  }

  /** A block body: within the size limits, coinbase first and only first, every transaction sane. */
  predicate BodyOk(txs: seq<Tx>) {
    && WithinLimits(txs) && WellShaped(txs)
    && forall i :: 0 <= i < |txs| ==> Sane(txs[i])
  }

  lemma {:induction false} InputsTakeRoom(txs: seq<Tx>)
    ensures InputCount(txs) <= TxsSize(txs)
  {
    if txs != [] {
      InputsTakeRoom(txs[..|txs| - 1]);
    }
  }

  /** `otherChecks` stands for the Merkle root and the signature operation count. */
  method CheckBody(txs: seq<Tx>, otherChecks: bool) returns (ok: bool)
    ensures ok <==> otherChecks && BodyOk(txs)
  {
    if !otherChecks {
      return false;
    }
    var size := GetBaseSize(txs);
    if |txs| == 0 || |txs| * WITNESS_SCALE_FACTOR > MAX_BLOCK_WEIGHT || size * WITNESS_SCALE_FACTOR > MAX_BLOCK_WEIGHT {
      return false;
    }
    if !txs[0].IsCoinbase() {
      return false;
    }
    for index := 0 to |txs|
      invariant forall i :: 0 < i < index ==> !txs[i].IsCoinbase()
      invariant forall i :: 0 <= i < index ==> Sane(txs[i])
    {
      if index > 0 && txs[index].IsCoinbase() {
        return false;
      }
      var insane := CheckSanity(txs[index]);
      if insane.Some? {
        return false;
      }
    }
    return true;
  }

  // ---- Duplicates ------------------------------------------------------------------------

  /** Some output of `tx`, spendable or not, is on disk. */
  predicate HasCoins(disk: CoinMap, tx: Tx) {
    exists vout :: 0 <= vout < |tx.outputs| && OutPoint(tx.txid, vout) in disk
  }

  /** Looks for each output of `tx` on disk. */
  method LookForCoins(disk: CoinMap, tx: Tx) returns (found: bool)
    ensures found <==> HasCoins(disk, tx)
  {
    for vout := 0 to |tx.outputs|
      invariant forall k :: 0 <= k < vout ==> OutPoint(tx.txid, k) !in disk
    {
      if OutPoint(tx.txid, vout) in disk {
        return true;
      }
    }
    return false;
  }

  lemma FoundOne(disk: CoinMap, tx: Tx)
    requires HasCoins(disk, tx)
    ensures exists p :: p in disk && p.txid == tx.txid && p.vout < |tx.outputs|
  {
    var vout :| 0 <= vout < |tx.outputs| && OutPoint(tx.txid, vout) in disk;
    assert OutPoint(tx.txid, vout).txid == tx.txid;
  }

  method VerifyDuplicates(disk: CoinMap, txs: seq<Tx>) returns (ok: bool)
    ensures ok <==> forall i :: 0 <= i < |txs| ==> !HasCoins(disk, txs[i])
    ensures ok <==> forall i, p :: 0 <= i < |txs| && p in disk ==> p.txid != txs[i].txid || p.vout >= |txs[i].outputs|
    ensures ok ==> FreshOutputs(disk, txs)
  {
    for i := 0 to |txs|
      invariant forall k :: 0 <= k < i ==> !HasCoins(disk, txs[k])
    {
      var found := LookForCoins(disk, txs[i]);
      if found {
        FoundOne(disk, txs[i]);
        return false;
      }
    }
    forall i | 0 <= i < |txs|
      ensures OutputsAreNew(disk, txs[i])
    {
      forall p | p in disk
        ensures !Creates(txs[i], |txs[i].outputs|, p)
      {
        assert !HasCoins(disk, txs[i]);
        assert p == OutPoint(p.txid, p.vout);
      }
    }
    return true;
  }

  // ---- Inputs ----------------------------------------------------------------------------

  predicate Mature(c: CoinEntry, height: nat) {
    c.coinbase && c.height.Some? ==> height >= c.height.value + 100
  }

  /** The coins `tx` takes are old enough, within range, and cover its outputs. */
  predicate TakesEnough(taken: seq<CoinEntry>, tx: Tx, height: nat) {
    && (forall i :: 0 <= i < |taken| ==> Mature(taken[i], height))
    && OutputValue(tx, |tx.outputs|) <= ValueOf(taken) <= 21_000_000 * 100_000_000
  }

  lemma {:induction false} ValuesAddUp(cs: seq<CoinEntry>, n: nat)
    requires n <= |cs|
    ensures ValueOf(cs[..n]) <= ValueOf(cs)
    ensures n < |cs| ==> cs[n].output.value <= ValueOf(cs)
    decreases |cs| - n
  {
    if n == |cs| {
      assert cs[..n] == cs;
    } else {
      ValuesAddUp(cs, n + 1);
      assert cs[..n + 1][..n] == cs[..n];
    }
  }

  /** Checks the inputs of `tx` against a view that has them, and gives the fee. */
  method CheckInputs(view: CoinMap, tx: Tx, height: nat) returns (r: Result<nat, TxError>)
    requires forall p :: p in view && view[p].coinbase ==> view[p].height.Some?
    ensures r.Ok? <==> AllPresent(view, tx.inputs) && TakesEnough(CoinsAt(view, tx.inputs), tx, height)
    ensures r.Ok? ==> r.value == ValueOf(CoinsAt(view, tx.inputs)) - OutputValue(tx, |tx.outputs|)
  {
    var total: nat := 0;
    for i := 0 to |tx.inputs|
      invariant Totalled(view, tx.inputs, i, height, total)
    {
      var p := tx.inputs[i];
      if p !in view {
        return Err(InputsMissingOrSpent);
      }
      var coin := view[p];
      if coin.coinbase {
        if (if height >= coin.height.value then height - coin.height.value else 0) < COINBASE_MATURITY {
          NotEnough(view, tx, i, height, total);
          return Err(PrematureCoinbaseSpend);
        }
      }
      TotalOneMore(view, tx, i, height, total);
      total := total + coin.output.value;
      if coin.output.value > MAX_MONEY || total > MAX_MONEY {
        return Err(InputValuesOutOfRange);
      }
    }
    assert tx.inputs[..|tx.inputs|] == tx.inputs;
    var value := GetOutputValue(tx);
    if total < value {
      return Err(InBelowOut);
    }
    var fee := total - value;
    if fee > MAX_MONEY {
      return Err(FeeOutOfRange);
    }
    return Ok(fee);
  }

  /** The first `i` inputs are there and old enough, and come to `total`. */
  ghost predicate Totalled(view: CoinMap, ps: seq<OutPoint>, i: nat, height: nat, total: nat)
    requires i <= |ps|
  {
    && AllPresent(view, ps[..i])
    && (forall k :: 0 <= k < i ==> Mature(CoinsAt(view, ps[..i])[k], height))
    && total == ValueOf(CoinsAt(view, ps[..i])) <= MAX_MONEY
  }

  lemma NotEnough(view: CoinMap, tx: Tx, i: nat, height: nat, total: nat)
    requires i < |tx.inputs| && tx.inputs[i] in view && !Mature(view[tx.inputs[i]], height)
    ensures AllPresent(view, tx.inputs) ==> !TakesEnough(CoinsAt(view, tx.inputs), tx, height)
  {
    if AllPresent(view, tx.inputs) {
      assert CoinsAt(view, tx.inputs)[i] == view[tx.inputs[i]];
    }
  }

  lemma TotalOneMore(view: CoinMap, tx: Tx, i: nat, height: nat, total: nat)
    requires i < |tx.inputs| && tx.inputs[i] in view && Totalled(view, tx.inputs, i, height, total)
    ensures var coin := view[tx.inputs[i]];
            && (Mature(coin, height) && total + coin.output.value <= MAX_MONEY ==>
                  Totalled(view, tx.inputs, i + 1, height, total + coin.output.value))
            && (total + coin.output.value > MAX_MONEY && AllPresent(view, tx.inputs) ==>
                  !TakesEnough(CoinsAt(view, tx.inputs), tx, height))
  {
    assert AllPresent(view, tx.inputs[..i + 1]);
    PrefixValue(view, tx.inputs, i);
  }

  /** The inputs up to one more are worth as much more. */
  lemma PrefixValue(view: CoinMap, ps: seq<OutPoint>, i: nat)
    requires i < |ps| && AllPresent(view, ps[..i + 1])
    ensures AllPresent(view, ps[..i]) && CoinsAt(view, ps[..i + 1]) == CoinsAt(view, ps[..i]) + [view[ps[i]]]
    ensures ValueOf(CoinsAt(view, ps[..i + 1])) == ValueOf(CoinsAt(view, ps[..i])) + view[ps[i]].output.value
    ensures AllPresent(view, ps) ==> ValueOf(CoinsAt(view, ps[..i + 1])) <= ValueOf(CoinsAt(view, ps))
  {
    CoinsAtPrefix(view, ps, i);
    var cs := CoinsAt(view, ps[..i + 1]);
    assert cs[..i] == CoinsAt(view, ps[..i]);
    if AllPresent(view, ps) {
      assert CoinsAt(view, ps)[..i + 1] == cs;
      ValuesAddUp(CoinsAt(view, ps), i + 1);
    }
  }

  // ---- All the inputs of a block ----------------------------------------------------------

  /** The network's rules.  `bodyAccepted` and `txAccepted` are what library code decides about
      a block and a transaction in it: the block's hash fixes everything they look at. */
  datatype Rules = Rules(
    interval: nat, bip34Height: nat,
    bodyAccepted: BlockHash -> bool, txAccepted: (BlockHash, Txid) -> bool)

  predicate TxPasses(coins: CoinMap, tx: Tx, height: nat) {
    tx.IsCoinbase() || (AllPresent(coins, tx.inputs) && Distinct(tx.inputs)
                        && TakesEnough(CoinsAt(coins, tx.inputs), tx, height))
  }

  ghost predicate TxsPass(disk: CoinMap, block: Block, n: nat, height: nat, rules: Rules)
    requires n <= |block.txs|
  {
    forall i {:trigger PassesAt(disk, block, i, height, rules)} :: 0 <= i < n ==>
        PassesAt(disk, block, i, height, rules)
  }

  predicate PassesAt(disk: CoinMap, block: Block, i: nat, height: nat, rules: Rules)
    requires i < |block.txs|
  {
    && TxPasses(CoinsAfter(disk, block.txs, i, height), block.txs[i], height)
    && rules.txAccepted(block.header.hash, block.txs[i].txid)
  }

  lemma PassingIsSpendable(disk: CoinMap, block: Block, n: nat, height: nat, rules: Rules)
    requires n <= |block.txs| && TxsPass(disk, block, n, height, rules)
    ensures AllSpendable(disk, block.txs, n, height)
  {
    forall i | 0 <= i < n
      ensures Spendable(CoinsAfter(disk, block.txs, i, height), block.txs[i])
    {
      assert PassesAt(disk, block, i, height, rules);
    }
  }

  /** Exactly the blocks `VerifyInputs` lets through. */
  ghost predicate InputsAccepted(disk: CoinMap, block: Block, height: nat, rules: Rules) {
    var n := |block.txs|;
    && rules.interval > 0 && n > 0
    && TxsPass(disk, block, n, height, rules)
    && Fees(disk, block.txs, n, height) <= 21_000_000 * 100_000_000
    && OutputValue(block.txs[0], |block.txs[0].outputs|) <=
       Fees(disk, block.txs, n, height) + (50 * 100_000_000) / SkipList.Pow2(height / rules.interval)
  }

  ghost predicate KnownHeights(coins: CoinMap) {
    forall p :: p in coins ==> coins[p].height.Some? && coins[p].height.value < MAX_HEIGHT
  }

  /** Every coin in `view` is one that existed, whatever its spent flag. */
  ghost predicate Remembers(view: CoinMap, ever: CoinMap) {
    forall p :: p in view ==> p in ever && Stored(view[p]) == ever[p]
  }

  ghost predicate HasInputs(view: CoinMap, txs: seq<Tx>, n: nat)
    requires n <= |txs|
  {
    forall i :: 0 <= i < n && !txs[i].IsCoinbase() ==> AllPresent(view, txs[i].inputs)
  }

  /** `view` and `undo` record the first `n` transactions: written out they leave the coins
      those leave, and the undo list has the coins they took. */
  ghost predicate Records(view: CoinMap, undo: seq<CoinEntry>, disk: CoinMap, txs: seq<Tx>, n: nat, height: nat)
    requires n <= |txs|
  {
    && Overlay(disk, view) == CoinsAfter(disk, txs, n, height)
    && StoredAll(undo) == TakenBy(disk, txs, n, height)
    && KnownHeights(view)
    && Remembers(view, EverAfter(disk, txs, n, height))
    && HasInputs(view, txs, n)
  }

  lemma OverlayPut(disk: CoinMap, view: CoinMap, p: OutPoint, c: CoinEntry)
    ensures Overlay(disk, view[p := c]) == if c.spent then Overlay(disk, view) - {p}
            else Overlay(disk, view)[p := Stored(c)]
  {
  }

  lemma {:induction false} OverlayIndexed(disk: CoinMap, view: CoinMap, tx: Tx, n: nat, height: nat)
    requires n <= |tx.outputs|
    ensures Overlay(disk, Indexed(view, tx, n, height, false)) == WithOutputs(Overlay(disk, view), tx, n, height)
  {
    if n > 0 {
      OverlayIndexed(disk, view, tx, n - 1, height);
      if !tx.outputs[n - 1].unspendable {
        OverlayPut(disk, Indexed(view, tx, n - 1, height, false), OutPoint(tx.txid, n - 1),
                   CoinOf(tx, n - 1, height, false));
      }
    }
  }

  /** What was read from disk existed. */
  lemma ReadCoinsExisted(disk: CoinMap, was: CoinMap, now: CoinMap, txs: seq<Tx>, n: nat, height: nat)
    requires n <= |txs| && NeverRecreated(disk, txs, n, height) && KnownHeights(disk)
    requires SameCoins(disk, was, now) && Remembers(was, EverAfter(disk, txs, n, height)) && KnownHeights(was)
    ensures Remembers(now, EverAfter(disk, txs, n, height)) && KnownHeights(now)
  {
    var ever := EverAfter(disk, txs, n, height);
    forall p | p in now
      ensures p in ever && Stored(now[p]) == ever[p] && now[p].height.Some? && now[p].height.value < MAX_HEIGHT
    {
      if p !in was {
        EverGrows(disk, txs, 0, n, height, p);
        assert Stored(now[p]).height == disk[p].height;
      } else {
        assert Stored(now[p]) == Stored(was[p]);
        assert Stored(was[p]).height.Some?;
      }
    }
  }

  lemma IndexedRemembers(view: CoinMap, ever: CoinMap, tx: Tx, height: nat)
    requires Remembers(view, ever) && KnownHeights(view) && height < MAX_HEIGHT
    ensures var n := |tx.outputs|; var indexed := Indexed(view, tx, n, height, false);
            Remembers(indexed, WithOutputs(ever, tx, n, height)) && KnownHeights(indexed) && view.Keys <= indexed.Keys
  {
    var n := |tx.outputs|;
    forall p
      ensures p in Indexed(view, tx, n, height, false) ==>
                && p in WithOutputs(ever, tx, n, height)
                && Stored(Indexed(view, tx, n, height, false)[p]) == WithOutputs(ever, tx, n, height)[p]
                && Indexed(view, tx, n, height, false)[p].height.Some?
                && Indexed(view, tx, n, height, false)[p].height.value < MAX_HEIGHT
      ensures p in view ==> p in Indexed(view, tx, n, height, false)
    {
      IndexedAt(view, tx, n, height, false, p);
      OutputsAt(ever, tx, n, height, p);
    }
  }

  /** A view that remembers agrees with the coins on what the inputs are. */
  lemma SameInputs(view: CoinMap, disk: CoinMap, txs: seq<Tx>, n: nat, height: nat)
    requires n < |txs| && Remembers(view, EverAfter(disk, txs, n, height)) && KnownHeights(view)
    requires AllPresent(view, txs[n].inputs) && AllPresent(CoinsAfter(disk, txs, n, height), txs[n].inputs)
    ensures var now := CoinsAt(CoinsAfter(disk, txs, n, height), txs[n].inputs);
            var seen := CoinsAt(view, txs[n].inputs);
            ValueOf(now) == ValueOf(seen) && (TakesEnough(now, txs[n], height) <==> TakesEnough(seen, txs[n], height))
  {
    var coins := CoinsAfter(disk, txs, n, height);
    var now, seen := CoinsAt(coins, txs[n].inputs), CoinsAt(view, txs[n].inputs);
    forall i | 0 <= i < |now|
      ensures now[i] == Stored(seen[i]) && now[i].height == seen[i].height
    {
      CoinExisted(disk, txs, n, height, txs[n].inputs[i]);
    }
    SameValues(now, seen);
  }

  lemma {:induction false} SameValues(now: seq<CoinEntry>, seen: seq<CoinEntry>)
    requires |now| == |seen| && forall i :: 0 <= i < |now| ==> now[i].output == seen[i].output
    ensures ValueOf(now) == ValueOf(seen)
  {
    if now != [] {
      SameValues(now[..|now| - 1], seen[..|seen| - 1]);
    }
  }

  /** The view after the inputs of transaction `n` were spent but before its outputs are added. */
  ghost predicate Spent(view: CoinMap, undo: seq<CoinEntry>, disk: CoinMap, txs: seq<Tx>, n: nat, height: nat)
    requires n < |txs|
  {
    var coins := CoinsAfter(disk, txs, n, height);
    && Overlay(disk, view) == (if txs[n].IsCoinbase() then coins else coins - InputSet(txs[n].inputs))
    && StoredAll(undo) == TakenBy(disk, txs, n, height) + Taken(coins, txs[n])
    && KnownHeights(view)
    && Remembers(view, EverAfter(disk, txs, n, height))
    && HasInputs(view, txs, n) && (txs[n].IsCoinbase() || AllPresent(view, txs[n].inputs))
  }

  lemma SpendingRecorded(was: CoinMap, undone: seq<CoinEntry>, now: CoinMap, undo: seq<CoinEntry>, disk: CoinMap,
                         txs: seq<Tx>, n: nat, height: nat)
    requires n < |txs| && !txs[n].IsCoinbase() && NeverRecreated(disk, txs, n, height) && KnownHeights(disk)
    requires Records(was, undone, disk, txs, n, height)
    requires AllPresent(CoinsAfter(disk, txs, n, height), txs[n].inputs)
    requires Overlay(disk, now) == CoinsAfter(disk, txs, n, height) - InputSet(txs[n].inputs)
    requires StoredAll(undo) == StoredAll(undone) + CoinsAt(CoinsAfter(disk, txs, n, height), txs[n].inputs)
    requires SameCoins(disk, was, now) && AllPresent(now, txs[n].inputs)
    ensures Spent(now, undo, disk, txs, n, height)
  {
    ReadCoinsExisted(disk, was, now, txs, n, height);
  }

  lemma AddingRecorded(view: CoinMap, undo: seq<CoinEntry>, disk: CoinMap, txs: seq<Tx>, n: nat, height: nat)
    requires n < |txs| && Spent(view, undo, disk, txs, n, height) && height < MAX_HEIGHT
    ensures Records(Indexed(view, txs[n], |txs[n].outputs|, height, false), undo, disk, txs, n + 1, height)
  {
    OverlayIndexed(disk, view, txs[n], |txs[n].outputs|, height);
    IndexedRemembers(view, EverAfter(disk, txs, n, height), txs[n], height);
  }

  lemma {:induction false} FeesGrow(disk: CoinMap, block: Block, m: nat, n: nat, height: nat, rules: Rules)
    requires m <= n <= |block.txs| && TxsPass(disk, block, n, height, rules)
    ensures Fees(disk, block.txs, m, height) <= Fees(disk, block.txs, n, height)
    decreases n
  {
    if m < n {
      assert PassesAt(disk, block, n - 1, height, rules);
      FeesOneMore(disk, block, n - 1, height, rules);
      FeesGrow(disk, block, m, n - 1, height, rules);
    }
  }

  lemma FeesOneMore(disk: CoinMap, block: Block, n: nat, height: nat, rules: Rules)
    requires n < |block.txs| && PassesAt(disk, block, n, height, rules)
    ensures Fees(disk, block.txs, n, height) <= Fees(disk, block.txs, n + 1, height)
  {
  }

  /** Spends and checks the inputs of transaction `n`, which is not a coinbase; gives its fee. */
  method PassInputs(view: CoinView, disk: CoinMap, txs: seq<Tx>, n: nat, height: nat) returns (fee: Option<nat>)
    requires Normal(disk) && KnownHeights(disk)
    requires n < |txs| && !txs[n].IsCoinbase() && NeverRecreated(disk, txs, n, height)
    requires Records(view.coins, view.undo.items, disk, txs, n, height)
    modifies view`coins, view.undo
    ensures fee.Some? <==> TxPasses(CoinsAfter(disk, txs, n, height), txs[n], height)
    ensures fee.Some? ==> fee.value == Fee(CoinsAfter(disk, txs, n, height), txs[n])
    ensures fee.Some? ==> Spent(view.coins, view.undo.items, disk, txs, n, height)
  {
    var spent := view.SpendInputs(disk, txs[n]);
    if !spent {
      return None;
    }
    SpendingRecorded(old(view.coins), old(view.undo.items), view.coins, view.undo.items, disk, txs, n, height);
    SameInputs(view.coins, disk, txs, n, height);
    var checked := CheckInputs(view.coins, txs[n], height);
    fee := match checked case Ok(f) => Some(f) case Err(_) => None;
  }

  /** Verifies transaction `n` and adds it to the view; `reward` is what the fees come to so far. */
  method VerifyTx(view: CoinView, disk: CoinMap, block: Block, n: nat, height: nat, before: nat, rules: Rules)
    returns (ok: bool, reward: nat)
    requires Normal(disk) && KnownHeights(disk) && height < MAX_HEIGHT
    requires n < |block.txs| && NeverRecreated(disk, block.txs, n, height)
    requires Records(view.coins, view.undo.items, disk, block.txs, n, height)
    requires before == Fees(disk, block.txs, n, height) <= MAX_MONEY
    modifies view`coins, view.undo
    ensures ok ==>
              PassesAt(disk, block, n, height, rules)
              && reward == Fees(disk, block.txs, n + 1, height) <= MAX_MONEY
    ensures ok ==> Records(view.coins, view.undo.items, disk, block.txs, n + 1, height)
    ensures !ok ==> !PassesAt(disk, block, n, height, rules) || Fees(disk, block.txs, n + 1, height) > MAX_MONEY
  {
    var tx := block.txs[n];
    reward := before;
    if !tx.IsCoinbase() {
      var fee := PassInputs(view, disk, block.txs, n, height);
      if fee.None? {
        return false, reward;
      }
      reward := reward + fee.value;
      if reward > MAX_MONEY {
        return false, reward;
      }
    }
    if !rules.txAccepted(block.header.hash, tx.txid) {
      return false, reward;
    }
    AddingRecorded(view.coins, view.undo.items, disk, block.txs, n, height);
    view.AddTx(tx, height);
    return true, reward;
  }

  /** Verifies the inputs of every transaction and records what they spend.  It accepts exactly
      the blocks whose transactions pass in order, whose fees are in range, and whose coinbase
      claims no more than fees and subsidy. */
  method VerifyInputs(disk: CoinMap, block: Block, height: nat, rules: Rules) returns (ok: bool, view: CoinView)
    requires Normal(disk) && KnownHeights(disk) && height < MAX_HEIGHT && rules.interval > 0
    requires WellShaped(block.txs) && Unrepeatable(disk, block.txs, height)
    ensures fresh(view) && fresh(view.undo)
    ensures ok <==> InputsAccepted(disk, block, height, rules)
    ensures ok ==> Records(view.coins, view.undo.items, disk, block.txs, |block.txs|, height)
  {
    view := new CoinView();
    var txs := block.txs;
    var reward: nat := 0;
    var n := 0;
    NothingRecorded(disk, txs, height);
    while n < |txs|
      invariant n <= |txs| && fresh(view) && fresh(view.undo)
      invariant TxsPass(disk, block, n, height, rules)
      invariant Records(view.coins, view.undo.items, disk, txs, n, height)
      invariant reward == Fees(disk, txs, n, height) <= MAX_MONEY
    {
      PassingRecreatesNothing(disk, block, n, height, rules);
      ok, reward := VerifyTx(view, disk, block, n, height, reward, rules);
      if !ok {
        Rejected(disk, block, n, height, rules);
        return;
      }
      n := n + 1;
    }
    AllThatIsLeft(disk, block, height, rules);
    reward := reward + GetBlockSubsidy(height, rules.interval);
    var claimed := GetOutputValue(txs[0]);
    ok := claimed <= reward;
  }

  /** When all transactions pass, the coinbase's claim decides. */
  lemma AllThatIsLeft(disk: CoinMap, block: Block, height: nat, rules: Rules)
    requires rules.interval > 0 && block.txs != [] && TxsPass(disk, block, |block.txs|, height, rules)
    requires Fees(disk, block.txs, |block.txs|, height) <= MAX_MONEY
    ensures InputsAccepted(disk, block, height, rules) <==>
              OutputValue(block.txs[0], |block.txs[0].outputs|) <=
              Fees(disk, block.txs, |block.txs|, height) + GetBlockSubsidy(height, rules.interval)
  {
    SubsidyIs(height, rules.interval);
  }

  /** Whatever an accepted block spends of a coinbase is at least a hundred blocks old. */
  lemma CoinbasesHaveMatured(disk: CoinMap, block: Block, height: nat, rules: Rules, i: nat, p: OutPoint)
    requires InputsAccepted(disk, block, height, rules) && i < |block.txs|
    requires !block.txs[i].IsCoinbase() && p in block.txs[i].inputs
    ensures p in CoinsAfter(disk, block.txs, i, height)
    ensures var c := CoinsAfter(disk, block.txs, i, height)[p];
            c.coinbase && c.height.Some? ==> c.height.value + 100 <= height
  {
    assert PassesAt(disk, block, i, height, rules);
    var now := CoinsAfter(disk, block.txs, i, height);
    var j :| 0 <= j < |block.txs[i].inputs| && block.txs[i].inputs[j] == p;
    assert Mature(CoinsAt(now, block.txs[i].inputs)[j], height);
  }

  /** A block with nothing but a coinbase is let through exactly when that claims no more than 50 coins
      halved for every interval. */
  lemma CoinbaseClaimDecides(disk: CoinMap, block: Block, height: nat, rules: Rules)
    requires rules.interval > 0 && |block.txs| == 1 && block.txs[0].IsCoinbase()
    requires rules.txAccepted(block.header.hash, block.txs[0].txid)
    ensures InputsAccepted(disk, block, height, rules) <==>
              OutputValue(block.txs[0], |block.txs[0].outputs|) <= (50 * COIN) / SkipList.Pow2(height / rules.interval)
  {
    assert Fees(disk, block.txs, 0, height) == 0 && Fees(disk, block.txs, 1, height) == 0;
    forall i | 0 <= i < 1
      ensures PassesAt(disk, block, i, height, rules)
    {
    }
  }

  lemma NothingRecorded(disk: CoinMap, txs: seq<Tx>, height: nat)
    ensures Records(map[], [], disk, txs, 0, height)
  {
    assert Overlay(disk, map[]) == disk;
  }

  lemma PassingRecreatesNothing(disk: CoinMap, block: Block, n: nat, height: nat, rules: Rules)
    requires n <= |block.txs| && TxsPass(disk, block, n, height, rules)
    requires Unrepeatable(disk, block.txs, height)
    ensures NeverRecreated(disk, block.txs, n, height)
  {
    PassingIsSpendable(disk, block, n, height, rules);
  }

  lemma Rejected(disk: CoinMap, block: Block, n: nat, height: nat, rules: Rules)
    requires n < |block.txs|
    requires !PassesAt(disk, block, n, height, rules) || Fees(disk, block.txs, n + 1, height) > MAX_MONEY
    ensures !InputsAccepted(disk, block, height, rules)
  {
    if InputsAccepted(disk, block, height, rules) {
      FeesGrow(disk, block, n + 1, |block.txs|, height, rules);
    }
  }

  /** A body that passes and inputs that are accepted, with nothing recreated, make a connectable block. */
  lemma AcceptedIsConnectable(disk: CoinMap, block: Block, height: nat, rules: Rules)
    requires BodyOk(block.txs) && Unrepeatable(disk, block.txs, height)
    requires InputsAccepted(disk, block, height, rules)
    ensures Connectable(disk, block.txs, height, rules.interval)
  {
    PassingIsSpendable(disk, block, |block.txs|, height, rules);
    InputsTakeRoom(block.txs);
    SubsidyIs(height, rules.interval);
  }
}
