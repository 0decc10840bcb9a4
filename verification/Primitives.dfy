/** The values every component shares: hashes, transactions, blocks and headers.

    A hash is an opaque number.  A header carries its own hash and a transaction its own
    txid; that a hash determines what it was computed from is stated where it is used
    (`TxidsDetermine`, `Replay.World`).  The all-zero hash is the default hash. */
module Primitives {
  datatype Option<+T> = None | Some(value: T)

  datatype Result<+T, +E> = Ok(value: T) | Err(error: E)

  type BlockHash = nat
  type Txid = nat

  const ZERO_HASH: BlockHash := 0

  datatype OutPoint = OutPoint(txid: Txid, vout: nat)

  /** The outpoint a coinbase input names. */
  const NULL_OUTPOINT := OutPoint(0, 0xFFFF_FFFF)

  /** `unspendable` is the script library's verdict that the script can never be satisfied. */
  datatype TxOut = TxOut(value: nat, script: nat, unspendable: bool)

  datatype Tx = Tx(txid: Txid, version: int, inputs: seq<OutPoint>, outputs: seq<TxOut>, otherSize: nat,
                   scriptSigLen: nat)
  {
    /** The size without witness: each input takes outpoint, sequence number and a script length at
        least, and the rest comes on top. */
    function StrippedSize(): nat {
      41 * |inputs| + otherSize
    }

    predicate IsCoinbase() {
      |inputs| == 1 && inputs[0] == NULL_OUTPOINT
    }

    predicate IsSpendable(vout: nat) {
      vout < |outputs| && !outputs[vout].unspendable
    }
  }

  /** A txid determines its transaction. */
  type TxOf = Txid -> Tx

  datatype Header = Header(hash: BlockHash, version: int, prev: BlockHash, time: nat, work: nat)

  datatype Block = Block(header: Header, txs: seq<Tx>)

  /** Two transactions of the list with one txid are one transaction. */
  ghost predicate TxidsDetermine(txs: seq<Tx>) {
    forall i, j :: 0 <= i < |txs| && 0 <= j < |txs| && txs[i].txid == txs[j].txid ==> txs[i] == txs[j]
  }

  function InputSet(ps: seq<OutPoint>): set<OutPoint> {
    set p | p in ps
  }

  predicate Distinct<T(==)>(s: seq<T>) {
    forall i, j :: 0 <= i < j < |s| ==> s[i] != s[j]
  }
}
