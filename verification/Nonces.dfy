/**
 * Gap-free nonces: while the mempool drops nothing, the relayer's local nonce is
 * the node's pending count, first sends use consecutive nonces in order, and no
 * two settlements share one.
 */
module Nonces {
  import opened Basics
  import opened Rail
  import opened Chain
  import opened Engine
  import opened SendSafety

  /** Nothing is dropped, and every nonce read is the node's pending count. */
  ghost predicate DropFree(s: State, e: Step) {
    && !e.Drop?
    && (e.Boot? ==> IsPendingCount(s.node, s.cfg.base, e.pending))
    && (e.Retry? && e.resync.Some? ==> IsPendingCount(s.node, s.cfg.base, e.resync.value))
  }

  predicate IsFirst(accepted: seq<Broadcast>, k: nat)
    requires k < |accepted|
  {
    forall j :: 0 <= j < k ==> accepted[j].id != accepted[k].id
  }

  /** How many settlements have been sent. */
  function Firsts(accepted: seq<Broadcast>): nat {
    if |accepted| == 0 then 0
    else
      var n := |accepted| - 1;
      Firsts(accepted[..n]) + (if IsFirst(accepted, n) then 1 else 0)
  }

  function NextFresh(s: State): nat {
    s.cfg.base + Firsts(s.node.accepted)
  }

  /** The k-th settlement to be sent got nonce base + k. */
  predicate Consecutive(accepted: seq<Broadcast>, base: nat) {
    |accepted| == 0
    || (var n := |accepted| - 1;
        && Consecutive(accepted[..n], base)
        && (IsFirst(accepted, n) ==> accepted[n].tx.nonce == base + Firsts(accepted[..n])))
  }

  predicate NonceSound(s: State) {
    && Consecutive(s.node.accepted, s.cfg.base)
    && NextNonce(s.node.blocks, s.cfg.base) <= NextFresh(s)
    && (forall t :: t in s.node.pool ==> t.nonce < NextFresh(s))
    && (forall n :: NextNonce(s.node.blocks, s.cfg.base) <= n < NextFresh(s) ==> Holds(s.node.pool, n))
    && (s.proc.up ==> s.proc.localNonce == NextFresh(s))
    && (s.proc.job.Sending? ==> s.proc.job.nonce == NextFresh(s))
  }

  /** Nonces in use fill the range, and settlements do not share them. */
  lemma {:induction false} ConsecutiveRange(accepted: seq<Broadcast>, base: nat)
    requires Consecutive(accepted, base) && OneNonce(accepted)
    ensures forall b :: b in accepted ==> base <= b.tx.nonce < base + Firsts(accepted)
    ensures forall b, c :: b in accepted && c in accepted && b.tx.nonce == c.tx.nonce ==> b.id == c.id
  {
    if |accepted| > 0 {
      var n := |accepted| - 1;
      var init := accepted[..n];
      assert accepted == init + [accepted[n]];
      assert forall b :: b in init ==> b in accepted;
      ConsecutiveRange(init, base);
      if !IsFirst(accepted, n) {
        var j :| 0 <= j < n && accepted[j].id == accepted[n].id;
        assert init[j] in init && accepted[n] in accepted;
        assert init[j].tx.nonce == accepted[n].tx.nonce;
      }
    }
  }

  /** The node's pending count is the next fresh nonce. */
  lemma PendingIsNextFresh(s: State, v: nat)
    requires NonceSound(s)
    ensures IsPendingCount(s.node, s.cfg.base, v) <==> v == NextFresh(s)
  {
    if IsPendingCount(s.node, s.cfg.base, v) {
      assert v < NextFresh(s) ==> Holds(s.node.pool, v);
      assert NextFresh(s) < v ==> Holds(s.node.pool, NextFresh(s));
    }
  }

  lemma AcceptKeepsNonces(s: State, gas: nat, fees: Fees)
    requires Safe(s) && NonceSound(s)
    ensures NonceSound(DoAccept(s, gas, fees))
  {
    var t := DoAccept(s, gas, fees);
    if t != s {
      var n := |s.node.accepted|;
      assert t.node.accepted[..n] == s.node.accepted;
      assert IsFirst(t.node.accepted, n);
      forall k | NextNonce(t.node.blocks, t.cfg.base) <= k < NextFresh(t)
        ensures Holds(t.node.pool, k)
      {
        KeepsHolding(s.node, s.proc.job.id, t.node.accepted[n].tx, k);
      }
    }
  }

  /** Replacing pool entries of one nonce never leaves that nonce empty. */
  lemma KeepsHolding(node: Node, id: nat, tx: Tx, n: nat)
    requires Holds(node.pool, n) || n == tx.nonce
    ensures Holds(Accepted(node, id, tx).pool, n)
  {
    var pool := Accepted(node, id, tx).pool;
    if n == tx.nonce {
      assert tx in pool;
    } else {
      var t :| t in node.pool && t.nonce == n;
      assert t in pool;
    }
  }

  lemma RepeatMovesNothing(accepted: seq<Broadcast>, base: nat, b: Broadcast, tx: Tx)
    requires Consecutive(accepted, base) && b in accepted
    ensures var more := accepted + [Broadcast(b.id, tx)];
            Consecutive(more, base) && Firsts(more) == Firsts(accepted)
  {
    var n := |accepted|;
    var more := accepted + [Broadcast(b.id, tx)];
    assert more[..n] == accepted;
    var j :| 0 <= j < n && accepted[j] == b;
    assert more[j].id == more[n].id;
    assert !IsFirst(more, n);
  }

  /** A resend is not a first send, so it moves no counter. */
  lemma ResendKeepsNonces(s: State, t: State, id: nat, tx: Tx)
    requires Safe(s) && NonceSound(s)
    requires id < |s.db.rows| && s.db.rows[id].txHash.Some? && s.db.rows[id].nonce == Some(tx.nonce)
    requires t.cfg == s.cfg && t.node == Accepted(s.node, id, tx)
    requires t.proc.localNonce == s.proc.localNonce || !t.proc.up
    requires t.proc.up ==> s.proc.up
    requires !t.proc.job.Sending? || t.proc.job == s.proc.job
    ensures NonceSound(t)
  {
    var b := Broadcast(id, s.db.rows[id].txHash.value);
    assert b in s.node.accepted;
    RepeatMovesNothing(s.node.accepted, s.cfg.base, b, tx);
    ConsecutiveRange(s.node.accepted, s.cfg.base);
    assert Covers(s.db.rows, b);
    forall k | NextNonce(t.node.blocks, t.cfg.base) <= k < NextFresh(t)
      ensures Holds(t.node.pool, k)
    {
      KeepsHolding(s.node, id, tx, k);
    }
  }

  lemma SendKeepsNonces(s: State, e: Step)
    requires Safe(s) && NonceSound(s)
    requires e.Resume? || e.SweepResend?
    ensures NonceSound(Apply(s, e))
  {
    var t := Apply(s, e);
    if t.node != s.node {
      var id := if e.Resume? then s.proc.job.id else e.id;
      var row := s.db.rows[id];
      ResendKeepsNonces(s, t, id, PaymentOf(row, row.nonce.value, e.gas, e.fees));
    }
  }

  /** After a move, each nonce from the new tip up to the next fresh one is still pooled. */
  lemma MoveHolds(s: State, drop: nat, added: seq<Block>, n: nat)
    requires Safe(s) && NonceSound(s) && ValidMove(s, drop, added)
    requires NextNonce(DoMove(s, drop, added).node.blocks, s.cfg.base) <= n < NextFresh(s)
    ensures Holds(DoMove(s, drop, added).node.pool, n)
  {
    var pool := DoMove(s, drop, added).node.pool;
    if n < NextNonce(s.node.blocks, s.cfg.base) {
      var m := Flatten(s.node.blocks)[n - s.cfg.base];
      assert m in Flatten(s.node.blocks) && m.tx in pool;
    } else {
      assert Holds(s.node.pool, n);
      var p :| p in s.node.pool && p.nonce == n;
      assert p in pool;
    }
  }

  lemma MoveKeepsNonces(s: State, drop: nat, added: seq<Block>)
    requires Safe(s) && NonceSound(s)
    ensures NonceSound(DoMove(s, drop, added))
  {
    if ValidMove(s, drop, added) {
      var t := DoMove(s, drop, added);
      ConsecutiveRange(s.node.accepted, s.cfg.base);
      MinedInRange(t, s.node.accepted);
      MinedInRange(s, s.node.accepted);
      forall n | NextNonce(t.node.blocks, t.cfg.base) <= n < NextFresh(t)
        ensures Holds(t.node.pool, n)
      {
        MoveHolds(s, drop, added, n);
      }
    }
  }

  /** Every mined nonce was used by an accepted broadcast. */
  lemma MinedInRange(s: State, accepted: seq<Broadcast>)
    requires NonceOrder(Flatten(s.node.blocks), s.cfg.base)
    requires forall m :: m in Flatten(s.node.blocks) ==> m.tx in Sent(accepted)
    requires forall b :: b in accepted ==> b.tx.nonce < s.cfg.base + Firsts(accepted)
    ensures NextNonce(s.node.blocks, s.cfg.base) <= s.cfg.base + Firsts(accepted)
    ensures forall m :: m in Flatten(s.node.blocks) ==> m.tx.nonce < s.cfg.base + Firsts(accepted)
  {
    var all := Flatten(s.node.blocks);
    if |all| > 0 {
      assert all[|all| - 1] in all;
    }
  }

  lemma StepKeepsNonces(s: State, e: Step)
    requires Safe(s) && NonceSound(s) && DropFree(s, e)
    ensures NonceSound(Apply(s, e))
  {
    match e
    case Accept(gas, fees) => AcceptKeepsNonces(s, gas, fees);
    case Resume(_, _, _, _) => SendKeepsNonces(s, e);
    case SweepResend(_, _, _, _) => SendKeepsNonces(s, e);
    case Move(drop, added) => MoveKeepsNonces(s, drop, added);
    case Boot(pending) => PendingIsNextFresh(s, pending);
    case Retry(resync) => if resync.Some? { PendingIsNextFresh(s, resync.value); }
    case _ => OtherKeepsNonces(s, e);
  }

  /** The steps that neither send, nor move the chain, nor read a nonce. */
  predicate Bystander(e: Step) {
    !e.Accept? && !e.Resume? && !e.SweepResend? && !e.Move? && !e.Boot? && !e.Retry? && !e.Drop?
  }

  lemma BystanderEffect(s: State, e: Step)
    requires s.cfg.final >= 1 && Bystander(e)
    ensures var t := Apply(s, e);
            && t.cfg == s.cfg && t.node == s.node
            && (t.proc.up ==> s.proc.up && t.proc.localNonce == s.proc.localNonce)
            && (t.proc.job.Sending? ==>
                  t.proc.job == s.proc.job || (s.proc.up && t.proc.job.nonce == s.proc.localNonce))
  {
  }

  lemma OtherKeepsNonces(s: State, e: Step)
    requires s.cfg.final >= 1 && NonceSound(s) && Bystander(e)
    ensures NonceSound(Apply(s, e))
  {
    BystanderEffect(s, e);
  }

  lemma {:induction false} RunKeepsNonces(s: State, steps: seq<Step>)
    requires Safe(s) && NonceSound(s) && Along(DropFree, s, steps)
    ensures Safe(Run(s, steps)) && NonceSound(Run(s, steps))
    decreases |steps|
  {
    if |steps| > 0 {
      StepKeepsSafe(s, steps[0]);
      StepKeepsNonces(s, steps[0]);
      RunKeepsNonces(Apply(s, steps[0]), steps[1..]);
    }
  }

  // ---- Consequences ---------------------------------------------------------

  /** Different settlements are never paid by the same transaction. */
  predicate NoSharedHash(accepted: seq<Broadcast>) {
    forall b, c :: b in accepted && c in accepted && b.tx == c.tx ==> b.id == c.id
  }

  lemma {:induction false} FirstSendNonce(accepted: seq<Broadcast>, base: nat, k: nat)
    requires Consecutive(accepted, base) && k < |accepted| && IsFirst(accepted, k)
    ensures accepted[k].tx.nonce == base + Firsts(accepted[..k])
  {
    var n := |accepted| - 1;
    if k < n {
      FirstSendNonce(accepted[..n], base, k);
      assert accepted[..n][..k] == accepted[..k];
    }
  }

  /**
   * Gap-free nonces: in a drop-free run, across failed sends, crashes and restarts,
   * the k-th settlement to be sent carries nonce base + k.
   */
  lemma NoncesAreGapFree(s: State, steps: seq<Step>, k: nat)
    requires Init(s) && Along(DropFree, s, steps)
    requires k < |Run(s, steps).node.accepted| && IsFirst(Run(s, steps).node.accepted, k)
    ensures var accepted := Run(s, steps).node.accepted;
            accepted[k].tx.nonce == s.cfg.base + Firsts(accepted[..k])
  {
    InitSafe(s);
    RunKeepsNonces(s, steps);
    FirstSendNonce(Run(s, steps).node.accepted, s.cfg.base, k);
  }

  /** Broadcasts with equal nonces, and so with equal hashes, belong to the same settlement. */
  lemma NoncesAreNotShared(s: State, steps: seq<Step>)
    requires Init(s) && Along(DropFree, s, steps)
    ensures var accepted := Run(s, steps).node.accepted;
            && (forall b, c :: b in accepted && c in accepted && b.tx.nonce == c.tx.nonce ==> b.id == c.id)
            && NoSharedHash(accepted)
  {
    InitSafe(s);
    RunKeepsNonces(s, steps);
    SharedBySettlement(Run(s, steps));
  }

  lemma SharedBySettlement(t: State)
    requires Safe(t) && NonceSound(t)
    ensures var accepted := t.node.accepted;
            && (forall b, c :: b in accepted && c in accepted && b.tx.nonce == c.tx.nonce ==> b.id == c.id)
            && NoSharedHash(accepted)
  {
    ConsecutiveRange(t.node.accepted, t.cfg.base);
  }

  /** And the local nonce of a running relayer is then always the node's pending count. */
  lemma LocalNonceIsPending(s: State, steps: seq<Step>)
    requires Init(s) && Along(DropFree, s, steps) && Run(s, steps).proc.up
    ensures IsPendingCount(Run(s, steps).node, s.cfg.base, Run(s, steps).proc.localNonce)
  {
    InitSafe(s);
    RunKeepsNonces(s, steps);
    PendingIsNextFresh(Run(s, steps), NextFresh(Run(s, steps)));
  }
}
