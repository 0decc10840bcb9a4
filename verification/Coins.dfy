/** Coins, the view a block is verified against, and the stack of coins that undoes it. */
module Coins {
  import opened Primitives

  /** The height a coin of unknown height is stored with: the largest 32-bit number. */
  const MAX_HEIGHT: nat := 0xFFFF_FFFF

  /** The number of list lengths the undo encoding can tell apart; longer ones wrap around. */
  const UNDO_LENGTHS: nat := 0x1_0000_0000

  datatype CoinEntry = CoinEntry(version: int, height: Option<nat>, coinbase: bool, output: TxOut, spent: bool)

  type CoinMap = map<OutPoint, CoinEntry>

  /** What reads back of a coin that was written: the codec forgets `spent` and takes the
      largest height for an unknown one. */
  function Stored(c: CoinEntry): CoinEntry {
    c.(spent := false, height := if c.height == Some(MAX_HEIGHT) then None else c.height)
  }

  ghost predicate Normal(coins: CoinMap) {
    forall p :: p in coins ==> Stored(coins[p]) == coins[p]
  }

  /** The coin that output `vout` of `tx` becomes. */
  function CoinOf(tx: Tx, vout: nat, height: nat, spent: bool): CoinEntry
    requires vout < |tx.outputs|
  {
    CoinEntry(tx.version, Some(height), tx.IsCoinbase(), tx.outputs[vout], spent)
  }

  /** `p` is one of the first `n` outputs of `tx`, and one that becomes a coin. */
  predicate Creates(tx: Tx, n: nat, p: OutPoint) {
    p.txid == tx.txid && p.vout < n && tx.IsSpendable(p.vout)
  }

  /** A view after the first `n` outputs of `tx` were indexed in it. */
  function Indexed(view: CoinMap, tx: Tx, n: nat, height: nat, spent: bool): CoinMap
    requires n <= |tx.outputs|
  {
    if n == 0 then view
    else if tx.outputs[n - 1].unspendable then Indexed(view, tx, n - 1, height, spent)
    else Indexed(view, tx, n - 1, height, spent)[OutPoint(tx.txid, n - 1) := CoinOf(tx, n - 1, height, spent)]
  }

  /** The coins on disk after the first `n` outputs of `tx`, confirmed at `height`, became coins. */
  function WithOutputs(coins: CoinMap, tx: Tx, n: nat, height: nat): CoinMap
    requires n <= |tx.outputs|
  {
    if n == 0 then coins
    else if tx.outputs[n - 1].unspendable then WithOutputs(coins, tx, n - 1, height)
    else WithOutputs(coins, tx, n - 1, height)[OutPoint(tx.txid, n - 1) := Stored(CoinOf(tx, n - 1, height, false))]
  }

  lemma {:induction false} IndexedAt(view: CoinMap, tx: Tx, n: nat, height: nat, spent: bool, p: OutPoint)
    requires n <= |tx.outputs|
    ensures p in Indexed(view, tx, n, height, spent) <==> p in view || Creates(tx, n, p)
    ensures Creates(tx, n, p) ==> Indexed(view, tx, n, height, spent)[p] == CoinOf(tx, p.vout, height, spent)
    ensures p in view && !Creates(tx, n, p) ==> Indexed(view, tx, n, height, spent)[p] == view[p]
  {
    if n > 0 {
      IndexedAt(view, tx, n - 1, height, spent, p);
    }
  }

  lemma {:induction false} OutputsAt(coins: CoinMap, tx: Tx, n: nat, height: nat, p: OutPoint)
    requires n <= |tx.outputs|
    ensures p in WithOutputs(coins, tx, n, height) <==> p in coins || Creates(tx, n, p)
    ensures Creates(tx, n, p) ==> WithOutputs(coins, tx, n, height)[p] == Stored(CoinOf(tx, p.vout, height, false))
    ensures p in coins && !Creates(tx, n, p) ==> WithOutputs(coins, tx, n, height)[p] == coins[p]
  {
    if n > 0 {
      OutputsAt(coins, tx, n - 1, height, p);
    }
  }

  /** The coins on disk once `view` has been written over `disk`. */
  function Overlay(disk: CoinMap, view: CoinMap): CoinMap {
    map p | p in disk.Keys + view.Keys && (p in view ==> !view[p].spent) :: if p in view then Stored(view[p])
    else disk[p]
  }

  function CoinsAt(coins: CoinMap, ps: seq<OutPoint>): (cs: seq<CoinEntry>)
    requires forall i :: 0 <= i < |ps| ==> ps[i] in coins
    ensures |cs| == |ps| && forall i :: 0 <= i < |ps| ==> cs[i] == coins[ps[i]]
  {
    if ps == [] then [] else CoinsAt(coins, ps[..|ps| - 1]) + [coins[ps[|ps| - 1]]]
  }

  lemma CoinsAtPrefix(coins: CoinMap, ps: seq<OutPoint>, i: nat)
    requires i < |ps| && AllPresent(coins, ps[..i + 1])
    ensures ps[..i + 1][..i] == ps[..i] && AllPresent(coins, ps[..i])
    ensures CoinsAt(coins, ps[..i + 1]) == CoinsAt(coins, ps[..i]) + [coins[ps[i]]]
  {
    assert ps[..i + 1][..i] == ps[..i];
  }

  function StoredAll(cs: seq<CoinEntry>): (r: seq<CoinEntry>)
    ensures |r| == |cs| && forall i :: 0 <= i < |cs| ==> r[i] == Stored(cs[i])
  {
    seq(|cs|, i requires 0 <= i < |cs| => Stored(cs[i]))
  }

  predicate AllPresent(coins: CoinMap, ps: seq<OutPoint>) {
    forall i :: 0 <= i < |ps| ==> ps[i] in coins
  }

  // ---- The codec ------------------------------------------------------------------------

  /** One field as the encoding library writes it. */
  datatype Token = Signed(int) | Unsigned(nat) | Flag(bool) | Output(TxOut)

  function EncodeCoin(c: CoinEntry): seq<Token> {
    [Signed(c.version),
     Unsigned(match c.height case Some(h) => h case None => MAX_HEIGHT),
     Flag(c.coinbase),
     Output(c.output),
     Flag(c.spent)]
  }

  function DecodeCoin(ts: seq<Token>): Option<(CoinEntry, seq<Token>)> {
    if |ts| >= 5 && ts[0].Signed? && ts[1].Unsigned? && ts[2].Flag? && ts[3].Output? && ts[4].Flag? then
      var height := match ts[1] case Unsigned(h) => if h == MAX_HEIGHT then None else Some(h) case _ => None;
      match (ts[0], ts[2], ts[3])
      case (Signed(version), Flag(coinbase), Output(output)) =>
        Some((CoinEntry(version, height, coinbase, output, false), ts[5..]))
      case _ => None
    else
      None
  }

  function EncodeCoins(cs: seq<CoinEntry>): seq<Token> {
    if cs == [] then [] else EncodeCoin(cs[0]) + EncodeCoins(cs[1..])
  }

  /** Where each coin's five fields are. */
  lemma {:induction false} EncodedAt(cs: seq<CoinEntry>, i: nat)
    requires i < |cs|
    ensures |EncodeCoins(cs)| == 5 * |cs|
    ensures EncodeCoins(cs)[5 * i..5 * i + 5] ==
              [Signed(cs[i].version), Unsigned(if cs[i].height.Some? then cs[i].height.value else 0xFFFF_FFFF),
               Flag(cs[i].coinbase), Output(cs[i].output), Flag(cs[i].spent)]
  {
    var first, rest := EncodeCoin(cs[0]), EncodeCoins(cs[1..]);
    if i > 0 {
      EncodedAt(cs[1..], i - 1);
      assert (first + rest)[5 * i..5 * i + 5] == rest[5 * (i - 1)..5 * (i - 1) + 5];
    } else {
      EncodedLength(cs);
      assert (first + rest)[..5] == first;
    }
  }

  lemma {:induction false} EncodedLength(cs: seq<CoinEntry>)
    ensures |EncodeCoins(cs)| == 5 * |cs|
  {
    if cs != [] {
      EncodedLength(cs[1..]);
    }
  }

  /** Reads `n` coins; the second part of the result is what follows them. */
  function DecodeCoins(ts: seq<Token>, n: nat): Option<(seq<CoinEntry>, seq<Token>)> {
    if n == 0 then Some(([], ts))
    else
      match DecodeCoin(ts)
      case None => None
      case Some(first) =>
        match DecodeCoins(first.1, n - 1)
        case None => None
        case Some(others) => Some(([first.0] + others.0, others.1))
  }

  lemma CoinReadsBack(c: CoinEntry, more: seq<Token>)
    ensures DecodeCoin(EncodeCoin(c) + more) == Some((Stored(c), more))
  {
    var ts := EncodeCoin(c) + more;
    assert ts[5..] == more;
    assert ts[..5] == EncodeCoin(c);
  }

  /** Reading back what was written gives the stored form of each coin and stops exactly behind it. */
  lemma {:induction false} CoinsReadBack(cs: seq<CoinEntry>, rest: seq<Token>)
    ensures DecodeCoins(EncodeCoins(cs) + rest, |cs|) == Some((StoredAll(cs), rest))
  {
    if cs == [] {
      assert EncodeCoins(cs) + rest == rest;
    } else {
      var more := EncodeCoins(cs[1..]) + rest;
      assert EncodeCoins(cs) + rest == EncodeCoin(cs[0]) + more;
      CoinReadsBack(cs[0], more);
      CoinsReadBack(cs[1..], rest);
      assert [Stored(cs[0])] + StoredAll(cs[1..]) == StoredAll(cs);
    }
  }

  class UndoCoins {
    var items: seq<CoinEntry>

    constructor ()
      ensures items == []
    {
      items := [];
    }

    method Push(coin: CoinEntry)
      modifies this
      ensures items == old(items) + [coin]
    {
      items := items + [coin];
    }

    /** Takes the coin spent last and puts it back into `view`. */
    method Apply(view: CoinView, prevout: OutPoint)
      requires items != []
      modifies this, view`coins
      ensures items == old(items[..|items| - 1])
      ensures view.coins == old(view.coins)[prevout := old(items[|items| - 1])]
    {
      var undo := items[|items| - 1];
      items := items[..|items| - 1];
      view.coins := view.coins[prevout := undo];
    }

    method Encode() returns (out: seq<Token>)
      ensures out == [Unsigned(|items| % UNDO_LENGTHS)] + EncodeCoins(items)
    {
      out := [Unsigned(|items| % UNDO_LENGTHS)];
      for i := 0 to |items|
        invariant out + EncodeCoins(items[i..]) == [Unsigned(|items| % UNDO_LENGTHS)] + EncodeCoins(items)
      {
        assert items[i..][1..] == items[i + 1..];
        var coin := items[i];
        var height := match coin.height case Some(h) => h case None => MAX_HEIGHT;
        out := out + [Signed(coin.version), Unsigned(height), Flag(coin.coinbase), Output(coin.output),
                      Flag(coin.spent)];
      }
    }
  }

  method DecodeUndo(ts: seq<Token>) returns (r: Option<seq<CoinEntry>>)
    ensures r == DecodedUndo(ts)
  {
    if |ts| == 0 || !ts[0].Unsigned? {
      return None;
    }
    var count := match ts[0] case Unsigned(n) => n case _ => 0;
    var items: seq<CoinEntry> := [];
    var remaining := ts[1..];
    ghost var all := DecodeCoins(ts[1..], count);
    assert all.Some? ==> [] + all.value.0 == all.value.0;
    for i := 0 to count
      invariant |items| == i
      invariant Behind(items, DecodeCoins(remaining, count - i)) == Behind([], all)
    {
      var next := DecodeCoin(remaining);
      match next
      case None =>
        return None;
      case Some(decoded) =>
        ghost var others := DecodeCoins(decoded.1, count - i - 1);
        assert others.Some? ==> items + ([decoded.0] + others.value.0) == items + [decoded.0] + others.value.0;
        items := items + [decoded.0];
        remaining := decoded.1;
    }
    assert items + [] == items;
    return Some(items);
  }

  ghost function Behind(items: seq<CoinEntry>, decoded: Option<(seq<CoinEntry>, seq<Token>)>): Option<seq<CoinEntry>> {
    if decoded.None? then None else Some(items + decoded.value.0)
  }

  function DecodedUndo(ts: seq<Token>): Option<seq<CoinEntry>> {
    if |ts| == 0 then None
    else
      match ts[0]
      case Unsigned(n) => (match DecodeCoins(ts[1..], n) case None => None case Some(r) => Some(r.0))
      case _ => None
  }

  lemma {:induction false} DecodedLength(ts: seq<Token>, n: nat)
    ensures DecodeCoins(ts, n).Some? ==> |DecodeCoins(ts, n).value.0| == n
  {
    if n > 0 {
      match DecodeCoin(ts)
      case None =>
      case Some(first) => DecodedLength(first.1, n - 1);
    }
  }

  lemma DecodedAsCounted(n: nat, cs: seq<CoinEntry>)
    ensures |cs| == n ==> DecodedUndo([Unsigned(n)] + EncodeCoins(cs)) == Some(StoredAll(cs))
    ensures |cs| != n ==> DecodedUndo([Unsigned(n)] + EncodeCoins(cs)) != Some(StoredAll(cs))
  {
    var ts := [Unsigned(n)] + EncodeCoins(cs);
    assert ts[1..] == EncodeCoins(cs) + [];
    CoinsReadBack(cs, []);
    DecodedLength(ts[1..], n);
  }

  lemma WrapsAbove(n: nat)
    ensures n % UNDO_LENGTHS == n <==> n < UNDO_LENGTHS
  {
  }

  /** An undo list reads back, every coin unspent, exactly when its length fits 32 bits. */
  lemma UndoReadsBack(cs: seq<CoinEntry>)
    ensures DecodedUndo([Unsigned(|cs| % UNDO_LENGTHS)] + EncodeCoins(cs)) == Some(StoredAll(cs)) <==>
              |cs| < UNDO_LENGTHS
  {
    WrapsAbove(|cs|);
    DecodedAsCounted(|cs| % UNDO_LENGTHS, cs);
  }

  // ---- The view -------------------------------------------------------------------------

  class CoinView {
    var coins: CoinMap
    const undo: UndoCoins

    constructor ()
      ensures coins == map[] && fresh(undo) && undo.items == []
    {
      coins := map[];
      undo := new UndoCoins();
    }

    method AddTx(tx: Tx, height: nat)
      modifies this`coins
      ensures coins == Indexed(old(coins), tx, |tx.outputs|, height, false)
    {
      IndexTx(tx, height, false);
    }

    method RemoveTx(tx: Tx, height: nat)
      modifies this`coins
      ensures coins == Indexed(old(coins), tx, |tx.outputs|, height, true)
    {
      IndexTx(tx, height, true);
    }

    method IndexTx(tx: Tx, height: nat, spent: bool)
      modifies this`coins
      ensures coins == Indexed(old(coins), tx, |tx.outputs|, height, spent)
    {
      for i := 0 to |tx.outputs|
        invariant coins == Indexed(old(coins), tx, i, height, spent)
      {
        if tx.outputs[i].unspendable {
          continue;
        }
        coins := coins[OutPoint(tx.txid, i) :=
                       CoinEntry(tx.version, Some(height), tx.IsCoinbase(), tx.outputs[i], spent)];
      }
    }

    method ReadCoin(disk: CoinMap, prevout: OutPoint) returns (coin: Option<CoinEntry>)
      modifies this`coins
      ensures coins == if prevout !in old(coins) && prevout in disk then old(coins)[prevout := disk[prevout]]
              else old(coins)
      ensures coin == if prevout in coins then Some(coins[prevout]) else None
    {
      if prevout in coins {
        coin := Some(coins[prevout]);
      } else if prevout in disk {
        coins := coins[prevout := disk[prevout]];
        coin := Some(disk[prevout]);
      } else {
        coin := None;
      }
    }

    /** Spends every input, or fails when one is missing or already spent.  On success the
        view, written out, lacks exactly the inputs, and the undo list has their coins. */
    method SpendInputs(disk: CoinMap, tx: Tx) returns (ok: bool)
      requires Normal(disk)
      modifies this`coins, undo
      ensures ok <==> AllPresent(Overlay(disk, old(coins)), tx.inputs) && Distinct(tx.inputs)
      ensures ok ==> Overlay(disk, coins) == Overlay(disk, old(coins)) - InputSet(tx.inputs)
      ensures ok ==> StoredAll(undo.items) == StoredAll(old(undo.items)) + CoinsAt(Overlay(disk, old(coins)), tx.inputs)
      ensures ok ==> SameCoins(disk, old(coins), coins) && AllPresent(coins, tx.inputs)
    {
      var i := 0;
      assert Spends(disk, old(coins), old(undo.items), coins, undo.items, tx.inputs[..0]);
      while i < |tx.inputs|
        invariant i <= |tx.inputs|
        invariant Spends(disk, old(coins), old(undo.items), coins, undo.items, tx.inputs[..i])
      {
        var prevout := tx.inputs[i];
        TakeOneMore(tx.inputs, i);
        ReadingKeeps(disk, old(coins), old(undo.items), coins, undo.items, tx.inputs[..i], prevout);
        var coin := ReadCoin(disk, prevout);
        if coin.Some? && !coin.value.spent {
          SpendingOneMore(disk, old(coins), old(undo.items), coins, undo.items, tx.inputs[..i], prevout);
          var undoCoin := coin.value.(spent := true);
          coins := coins[prevout := undoCoin];
          undo.Push(undoCoin);
        } else {
          MissingOrTwice(disk, old(coins), coins, tx.inputs, i);
          return false;
        }
        i := i + 1;
      }
      assert tx.inputs[..|tx.inputs|] == tx.inputs;
      return true;
    }
  }

  /** From the view `was` and the undo list `undone`, spending `ps` led to `now` and `undo`. */
  ghost predicate Spends(disk: CoinMap, was: CoinMap, undone: seq<CoinEntry>, now: CoinMap, undo: seq<CoinEntry>,
                         ps: seq<OutPoint>) {
    var before := Overlay(disk, was);
    && AllPresent(before, ps) && Distinct(ps)
    && Overlay(disk, now) == before - InputSet(ps)
    && StoredAll(undo) == StoredAll(undone) + CoinsAt(before, ps)
    && SameCoins(disk, was, now) && AllPresent(now, ps)
  }

  /** `now` has the coins of `was` and others read from disk, whatever their spent flags. */
  ghost predicate SameCoins(disk: CoinMap, was: CoinMap, now: CoinMap) {
    && was.Keys <= now.Keys
    && forall p :: p in now ==>
         (if p in was then Stored(now[p]) == Stored(was[p]) else p in disk && Stored(now[p]) == disk[p])
  }

  lemma TakeOneMore(ps: seq<OutPoint>, i: nat)
    requires i < |ps|
    ensures ps[..i + 1] == ps[..i] + [ps[i]]
    ensures InputSet(ps[..i + 1]) == InputSet(ps[..i]) + {ps[i]}
    ensures ps[..i + 1][..i] == ps[..i]
    ensures ps[i] in InputSet(ps[..i]) <==> exists k :: 0 <= k < i && ps[k] == ps[i]
  {
    assert ps[..i + 1] == ps[..i] + [ps[i]];
  }

  lemma MissingOrTwice(disk: CoinMap, was: CoinMap, now: CoinMap, ps: seq<OutPoint>, i: nat)
    requires i < |ps| && Overlay(disk, now) == Overlay(disk, was) - InputSet(ps[..i])
    requires ps[i] !in Overlay(disk, now)
    ensures !(AllPresent(Overlay(disk, was), ps) && Distinct(ps))
  {
  }

  /** Reading `p` into the view changes nothing that is written out. */
  lemma ReadingKeeps(disk: CoinMap, was: CoinMap, undone: seq<CoinEntry>, view: CoinMap, undo: seq<CoinEntry>,
                     ps: seq<OutPoint>, p: OutPoint)
    requires Normal(disk) && Spends(disk, was, undone, view, undo, ps)
    ensures var read := if p !in view && p in disk then view[p := disk[p]] else view;
            && Spends(disk, was, undone, read, undo, ps)
            && (p in Overlay(disk, read) <==> p in read && !read[p].spent)
  {
    var read := if p !in view && p in disk then view[p := disk[p]] else view;
    assert Overlay(disk, read) == Overlay(disk, view);
  }

  lemma SpendingOneMore(disk: CoinMap, was: CoinMap, undone: seq<CoinEntry>, view: CoinMap, undo: seq<CoinEntry>,
                        ps: seq<OutPoint>, p: OutPoint)
    requires Spends(disk, was, undone, view, undo, ps)
    requires p in view && !view[p].spent
    ensures var coin := view[p].(spent := true);
            Spends(disk, was, undone, view[p := coin], undo + [coin], ps + [p])
  {
    var before := Overlay(disk, was);
    var coin := view[p].(spent := true);
    SpendingRemoves(disk, was, view, ps, p);
    UndoneOneMore(before, undone, undo, ps, p, coin);
    SpendingKeepsTheRest(disk, was, view, p);
  }

  lemma SpendingKeepsTheRest(disk: CoinMap, was: CoinMap, view: CoinMap, p: OutPoint)
    requires SameCoins(disk, was, view) && p in view
    ensures SameCoins(disk, was, view[p := view[p].(spent := true)])
  {
    assert Stored(view[p].(spent := true)) == Stored(view[p]);
  }

  lemma SpendingRemoves(disk: CoinMap, was: CoinMap, view: CoinMap, ps: seq<OutPoint>, p: OutPoint)
    requires Overlay(disk, view) == Overlay(disk, was) - InputSet(ps)
    requires p in view && !view[p].spent
    ensures Overlay(disk, view[p := view[p].(spent := true)]) == Overlay(disk, was) - InputSet(ps + [p])
    ensures p in Overlay(disk, was) && p !in ps && Overlay(disk, was)[p] == Stored(view[p].(spent := true))
  {
    assert p in Overlay(disk, view);
    assert (ps + [p])[..|ps|] == ps && (ps + [p])[..|ps| + 1] == ps + [p];
    TakeOneMore(ps + [p], |ps|);
    assert Overlay(disk, view[p := view[p].(spent := true)]) == Overlay(disk, view) - {p};
  }

  lemma UndoneOneMore(before: CoinMap, undone: seq<CoinEntry>, undo: seq<CoinEntry>, ps: seq<OutPoint>, p: OutPoint,
                      coin: CoinEntry)
    requires AllPresent(before, ps) && p in before && before[p] == Stored(coin)
    requires StoredAll(undo) == StoredAll(undone) + CoinsAt(before, ps)
    ensures AllPresent(before, ps + [p])
    ensures StoredAll(undo + [coin]) == StoredAll(undone) + CoinsAt(before, ps + [p])
  {
    assert (ps + [p])[..|ps|] == ps;
    assert StoredAll(undo + [coin]) == StoredAll(undo) + [before[p]];
  }
}
