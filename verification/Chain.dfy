/**
 * The operator's view of a chain: a list of blocks in which every operator
 * transaction uses the next nonce, and reorganisations that replace a few
 * blocks at the head without making the chain shorter.
 */
module Chain {
  import opened Basics
  import opened Rail

  datatype Receipt = Receipt(number: nat, blockHash: nat, ok: bool)

  /** All operator transactions of a chain in order. */
  function Flatten(blocks: seq<Block>): seq<Mined> {
    if |blocks| == 0 then [] else Flatten(blocks[..|blocks| - 1]) + blocks[|blocks| - 1].txs
  }

  /** Nonce validity: transaction k of the account carries nonce base + k. */
  predicate NonceOrder(mined: seq<Mined>, base: nat) {
    forall k :: 0 <= k < |mined| ==> mined[k].tx.nonce == base + k
  }

  function NextNonce(blocks: seq<Block>, base: nat): nat {
    base + |Flatten(blocks)|
  }

  function FindIn(txs: seq<Mined>, tx: Tx): (r: Option<bool>)
    ensures r.Some? ==> Mined(tx, r.value) in txs
    ensures r.None? ==> forall m :: m in txs ==> m.tx != tx
  {
    if |txs| == 0 then None
    else if txs[|txs| - 1].tx == tx then Some(txs[|txs| - 1].ok)
    else FindIn(txs[..|txs| - 1], tx)
  }

  /** getTransactionReceipt. */
  function ReceiptOf(blocks: seq<Block>, tx: Tx): Option<Receipt> {
    if |blocks| == 0 then None
    else
      var last := blocks[|blocks| - 1];
      var found := FindIn(last.txs, tx);
      if found.Some? then Some(Receipt(|blocks| - 1, last.hash, found.value))
      else ReceiptOf(blocks[..|blocks| - 1], tx)
  }

  function Reorganised(blocks: seq<Block>, drop: nat, added: seq<Block>): seq<Block>
    requires drop <= |blocks|
  {
    blocks[..|blocks| - drop] + added
  }

  /** How many blocks are at least `final` deep. */
  function Horizon(height: nat, final: nat): (h: nat)
    requires final >= 1
    ensures h <= height
  {
    if height + 1 < final then 0 else height + 1 - final
  }

  /** The transactions in blocks at least `final` deep. */
  function Settled(blocks: seq<Block>, final: nat): seq<Mined>
    requires final >= 1
  {
    Flatten(blocks[..Horizon(|blocks|, final)])
  }

  lemma {:induction false} FlattenPrefix(blocks: seq<Block>, k: nat)
    requires k <= |blocks|
    ensures Flatten(blocks[..k]) <= Flatten(blocks)
  {
    if k == |blocks| {
      assert blocks[..k] == blocks;
    } else {
      FlattenPrefix(blocks[..|blocks| - 1], k);
      assert blocks[..|blocks| - 1][..k] == blocks[..k];
    }
  }

  /** A receipt points at a block that holds the transaction with that result. */
  lemma {:induction false} ReceiptSound(blocks: seq<Block>, tx: Tx)
    requires ReceiptOf(blocks, tx).Some?
    ensures var r := ReceiptOf(blocks, tx).value;
            && r.number < |blocks|
            && blocks[r.number].hash == r.blockHash
            && Mined(tx, r.ok) in Flatten(blocks[..r.number + 1])
            && Mined(tx, r.ok) in Flatten(blocks)
  {
    var n := |blocks| - 1;
    assert blocks[..n + 1] == blocks;
    if FindIn(blocks[n].txs, tx).None? {
      ReceiptSound(blocks[..n], tx);
      var r := ReceiptOf(blocks, tx).value;
      assert blocks[..n][..r.number + 1] == blocks[..r.number + 1];
    }
  }

  lemma {:induction false} ReceiptFound(blocks: seq<Block>, m: Mined)
    requires m in Flatten(blocks)
    ensures ReceiptOf(blocks, m.tx).Some?
  {
    if |blocks| > 0 && FindIn(blocks[|blocks| - 1].txs, m.tx).None? {
      ReceiptFound(blocks[..|blocks| - 1], m);
    }
  }

  /**
   * Under nonce validity a transaction has one outcome, so the receipt of a
   * mined transaction reports it.
   */
  lemma ReceiptComplete(blocks: seq<Block>, base: nat, m: Mined)
    requires NonceOrder(Flatten(blocks), base)
    requires m in Flatten(blocks)
    ensures ReceiptOf(blocks, m.tx).Some? && ReceiptOf(blocks, m.tx).value.ok == m.ok
  {
    ReceiptFound(blocks, m);
    ReceiptSound(blocks, m.tx);
    var all := Flatten(blocks);
    var r := ReceiptOf(blocks, m.tx).value;
    var i :| 0 <= i < |all| && all[i] == m;
    var j :| 0 <= j < |all| && all[j] == Mined(m.tx, r.ok);
    assert all[i].tx.nonce == all[j].tx.nonce;
  }

  /**
   * A reorganisation of fewer than `final` blocks that does not shorten the
   * chain keeps every settled transaction settled.
   */
  lemma SettledGrows(blocks: seq<Block>, drop: nat, added: seq<Block>, final: nat)
    requires final >= 1
    requires drop < final && drop <= |blocks| && drop <= |added|
    ensures Settled(blocks, final) <= Settled(Reorganised(blocks, drop, added), final)
  {
    var next := Reorganised(blocks, drop, added);
    var h := Horizon(|blocks|, final);
    var h' := Horizon(|next|, final);
    assert h <= |blocks| - drop || h == 0;
    assert next[..h'][..h] == blocks[..h];
    FlattenPrefix(next[..h'], h);
  }

  /** A receipt whose depth was measured from any past head is settled now. */
  lemma DeepReceiptSettled(blocks: seq<Block>, final: nat, tx: Tx, current: nat)
    requires final >= 1 && current < |blocks|
    requires ReceiptOf(blocks, tx).Some?
    requires current as int - ReceiptOf(blocks, tx).value.number as int + 1 >= final
    ensures Mined(tx, ReceiptOf(blocks, tx).value.ok) in Settled(blocks, final)
  {
    ReceiptSound(blocks, tx);
    var r := ReceiptOf(blocks, tx).value;
    var h := Horizon(|blocks|, final);
    assert blocks[..h][..r.number + 1] == blocks[..r.number + 1];
    FlattenPrefix(blocks[..h], r.number + 1);
  }

  lemma SettledIsMined(blocks: seq<Block>, final: nat, m: Mined)
    requires final >= 1
    requires m in Settled(blocks, final)
    ensures m in Flatten(blocks)
  {
    FlattenPrefix(blocks, Horizon(|blocks|, final));
  }

  /** Σ of the successful transfers in a list of mined transactions. */
  function SumOk(mined: seq<Mined>): nat {
    if |mined| == 0 then 0
    else SumOk(mined[..|mined| - 1]) + (if mined[|mined| - 1].ok then mined[|mined| - 1].tx.amount else 0)
  }
}
