/**
 * When a booked settlement is left anything but FINAL or open on its settled
 * transaction. A handler or a resumed job acts on what it read earlier; most stale
 * answers are harmless, and this module says exactly which writes are not.
 */
module StaleAnswers {
  import opened Basics
  import opened Rail
  import opened Chain
  import opened SettlementState
  import opened Books
  import opened Engine
  import opened SendSafety
  import opened Permanence

  /** FINAL, or open with a successful transaction no reorganisation reaches. */
  ghost predicate WellBooked(s: State, id: nat)
    requires s.cfg.final >= 1
  {
    id < |s.db.rows|
    && (|| s.db.rows[id].status == Final
        || (&& s.db.rows[id].status in PENDING
            && s.db.rows[id].txHash.Some?
            && Mined(s.db.rows[id].txHash.value, true) in Settled(s.node.blocks, s.cfg.final)))
  }

  /** Every booked settlement is well booked. */
  ghost predicate Settling(s: State) {
    s.cfg.final >= 1 && forall id: nat :: IsBooked(s.db.ledger, id) ==> WellBooked(s, id)
  }

  // ---- The writes that spoil a booking --------------------------------------

  /**
   * A listener's write on a stale answer: failing a booked settlement that is still
   * open, confirming one with a hash since replaced, or booking one that is no longer
   * open with the hash the handler loaded.
   */
  predicate SpoilingAct(s: State, k: nat) {
    && s.proc.up && k < |s.checks| && s.checks[k].id < |s.db.rows|
    && var c := s.checks[k];
       var row := s.db.rows[c.id];
       match c.stage
       case ToFail => row.status in PENDING && IsBooked(s.db.ledger, c.id)
       case ToConfirm(_) => row.status == Submitted && IsBooked(s.db.ledger, c.id) && row.txHash != c.row.txHash
       case ToBook => !IsBooked(s.db.ledger, c.id) && !(row.status in PENDING && row.txHash == c.row.txHash)
       case _ => false
  }

  /** A resumed job of a booked settlement: given up, or written down with another transaction. */
  predicate SpoilingJob(s: State, e: Step) {
    && (e.Resume? || e.ResumeFail?)
    && Resuming(s) && IsBooked(s.db.ledger, s.proc.job.id)
    && var row := s.db.rows[s.proc.job.id];
       match e
       case Resume(gas, fees, retries, crash) =>
         && !crash && (retries == row.retryCount || row.retryCount < retries <= s.cfg.maxRetries)
         && Some(PaymentOf(row, row.nonce.value, gas, fees)) != row.txHash
       case ResumeFail(retries) => row.retryCount <= retries
       case _ => false
  }

  predicate Spoils(s: State, e: Step) {
    (e.Act? && SpoilingAct(s, e.k)) || SpoilingJob(s, e)
  }

  predicate Unspoiled(s: State, e: Step) {
    !Spoils(s, e)
  }

  // ---- One settled hash per settlement --------------------------------------

  /** A settled success is what the receipt of that transaction reports. */
  lemma SettledReceipt(s: State, tx: Tx)
    requires Safe(s) && Mined(tx, true) in Settled(s.node.blocks, s.cfg.final)
    ensures ReceiptOf(s.node.blocks, tx).Some? && ReceiptOf(s.node.blocks, tx).value.ok
  {
    SettledIsMined(s.node.blocks, s.cfg.final, Mined(tx, true));
    ReceiptComplete(s.node.blocks, s.cfg.base, Mined(tx, true));
  }

  /** Mined transactions of one nonce are one transaction. */
  lemma MinedOnce(s: State, a: Tx, b: Tx)
    requires Safe(s) && a.nonce == b.nonce
    requires Mined(a, true) in Flatten(s.node.blocks) && Mined(b, true) in Flatten(s.node.blocks)
    ensures a == b
  {
    var all := Flatten(s.node.blocks);
    var i :| 0 <= i < |all| && all[i] == Mined(a, true);
    var j :| 0 <= j < |all| && all[j] == Mined(b, true);
    assert all[i].tx.nonce == all[j].tx.nonce;
  }

  lemma OneSettledHash(s: State, a: Tx, b: Tx)
    requires Safe(s) && a.nonce == b.nonce && a != b
    requires Mined(a, true) in Settled(s.node.blocks, s.cfg.final)
    ensures Mined(b, true) !in Settled(s.node.blocks, s.cfg.final)
  {
    if Mined(b, true) in Settled(s.node.blocks, s.cfg.final) {
      SettledIsMined(s.node.blocks, s.cfg.final, Mined(a, true));
      SettledIsMined(s.node.blocks, s.cfg.final, Mined(b, true));
      MinedOnce(s, a, b);
    }
  }

  /** A handler's copy and the row agree on the nonce, so their hashes settle together or not at all. */
  lemma CopyHashNonce(s: State, k: nat)
    requires Safe(s) && k < |s.checks|
    ensures var c := s.checks[k];
            && c.id < |s.db.rows| && c.row.txHash.Some? && s.db.rows[c.id].txHash.Some?
            && c.row.txHash.value.nonce == s.db.rows[c.id].txHash.value.nonce
  {
    var c := s.checks[k];
    assert CheckSound(c, s.db.rows, s.node.accepted);
    HashHasRowNonce(s, c.id);
    assert Broadcast(c.id, c.row.txHash.value) in s.node.accepted;
    assert Broadcast(c.id, s.db.rows[c.id].txHash.value) in s.node.accepted;
    assert Broadcast(c.id, c.row.txHash.value).tx.nonce == Broadcast(c.id, s.db.rows[c.id].txHash.value).tx.nonce;
  }

  // ---- A step that does not spoil keeps every booking well -------------------

  /** A step that leaves a well-booked row alone keeps it so. */
  lemma CarryWellBooked(s: State, t: State, id: nat)
    requires s.cfg.final >= 1 && Extends(s, t) && WellBooked(s, id)
    requires t.db.rows[id] == s.db.rows[id]
    ensures WellBooked(t, id)
  {
  }

  /** A settled open row has the successful receipt a handler would see. */
  ghost predicate Seen(s: State, id: nat) {
    id < |s.db.rows| && s.db.rows[id].status in PENDING && s.db.rows[id].txHash.Some? ==>
      var receipt := ReceiptOf(s.node.blocks, s.db.rows[id].txHash.value);
      receipt.Some? && receipt.value.ok
  }

  lemma WellBookedSeen(s: State, id: nat)
    requires Safe(s) && WellBooked(s, id)
    ensures Seen(s, id)
  {
    if s.db.rows[id].status in PENDING {
      SettledReceipt(s, s.db.rows[id].txHash.value);
    }
  }

  lemma ActCarries(s: State, k: nat, id: nat)
    requires s.cfg.final >= 1 && !SpoilingAct(s, k) && IsBooked(s.db.ledger, id) && WellBooked(s, id)
    ensures WellBooked(DoAct(s, k), id)
  {
  }

  /** A booking that is new is one of an open row, for the transaction it stores. */
  lemma BookIsWell(s: State, k: nat, id: nat)
    requires s.cfg.final >= 1 && !SpoilingAct(s, k)
    requires k < |s.checks| ==> CheckPaid(s, s.checks[k])
    requires IsBooked(DoAct(s, k).db.ledger, id) && !IsBooked(s.db.ledger, id)
    ensures WellBooked(DoAct(s, k), id)
  {
    var c := s.checks[k];
    BookedAddsOnly(s.db.ledger, c.id, c.row.amount, id);
  }

  lemma ActKeepsSettling(s: State, k: nat)
    requires Sound(s) && Settling(s) && !SpoilingAct(s, k)
    ensures Settling(DoAct(s, k))
  {
    var t := DoAct(s, k);
    forall id: nat | IsBooked(t.db.ledger, id)
      ensures WellBooked(t, id)
    {
      if IsBooked(s.db.ledger, id) {
        ActCarries(s, k, id);
      } else {
        BookIsWell(s, k, id);
      }
    }
  }

  predicate Sends(e: Step) {
    e.Resume? || e.ResumeFail? || e.SweepResend? || e.SweepFail? || e.SweepReject? || e.Recover?
  }

  /** The row keeps status and hash, and the chain is as it was. */
  predicate LeftSettled(s: State, t: State, id: nat) {
    && t.cfg == s.cfg && t.node.blocks == s.node.blocks && id < |s.db.rows| && id < |t.db.rows|
    && t.db.rows[id].status == s.db.rows[id].status && t.db.rows[id].txHash == s.db.rows[id].txHash
  }

  lemma JobLeavesSettled(s: State, e: Step, id: nat)
    requires s.cfg.final >= 1 && (e.Resume? || e.ResumeFail?) && !SpoilingJob(s, e)
    requires IsBooked(s.db.ledger, id) && WellBooked(s, id)
    ensures LeftSettled(s, Apply(s, e), id)
  {
  }

  /** A settled row has a receipt, so sweep and recovery pass it by. */
  lemma SweepLeavesSettled(s: State, e: Step, id: nat)
    requires s.cfg.final >= 1 && Sends(e) && !e.Resume? && !e.ResumeFail? && WellBooked(s, id) && Seen(s, id)
    ensures LeftSettled(s, Apply(s, e), id)
  {
  }

  /** Resumed jobs that do not spoil, and sweep and recovery always, leave a settled row as it is. */
  lemma SenderLeavesSettled(s: State, e: Step, id: nat)
    requires s.cfg.final >= 1 && Sends(e) && !SpoilingJob(s, e)
    requires IsBooked(s.db.ledger, id) && WellBooked(s, id) && Seen(s, id)
    ensures LeftSettled(s, Apply(s, e), id)
  {
    if e.Resume? || e.ResumeFail? {
      JobLeavesSettled(s, e, id);
    } else {
      SweepLeavesSettled(s, e, id);
    }
  }

  lemma SenderKeepsLedger(s: State, e: Step)
    requires s.cfg.final >= 1 && Sends(e)
    ensures Apply(s, e).db.ledger == s.db.ledger
  {
  }

  lemma SenderKeepsSettling(s: State, e: Step)
    requires Sound(s) && Settling(s) && Sends(e) && !SpoilingJob(s, e)
    ensures Settling(Apply(s, e))
  {
    SenderKeepsLedger(s, e);
    forall id: nat | IsBooked(s.db.ledger, id)
      ensures WellBooked(Apply(s, e), id)
    {
      WellBookedSeen(s, id);
      SenderLeavesSettled(s, e, id);
    }
  }

  /** The remaining steps do not touch a booked row at all. */
  lemma RowsUntouched(s: State, e: Step, id: nat)
    requires Safe(s) && id < |s.db.rows|
    requires s.db.rows[id].status == Final || s.db.rows[id].status in PENDING
    requires !e.Act? && !Sends(e)
    ensures var t := Apply(s, e);
            t.db.ledger == s.db.ledger && id < |t.db.rows| && t.db.rows[id] == s.db.rows[id]
  {
  }

  lemma RestKeepsSettling(s: State, t: State, e: Step)
    requires Sound(s) && Settling(s) && t == Apply(s, e)
    requires !e.Act? && !Sends(e)
    ensures Settling(t)
  {
    StepExtends(s, e);
    assert t.db.ledger == s.db.ledger;
    forall id: nat | IsBooked(t.db.ledger, id)
      ensures WellBooked(t, id)
    {
      RowsUntouched(s, e, id);
      CarryWellBooked(s, t, id);
    }
  }

  lemma UnspoiledKeepsSettling(s: State, e: Step)
    requires Sound(s) && Settling(s) && !Spoils(s, e)
    ensures Settling(Apply(s, e))
  {
    if e.Act? {
      ActKeepsSettling(s, e.k);
    } else if Sends(e) {
      SenderKeepsSettling(s, e);
    } else {
      RestKeepsSettling(s, Apply(s, e), e);
    }
  }

  // ---- A step that spoils does spoil -----------------------------------------

  /** The row a spoiling act leaves: failed, or open with another hash than the settled one. */
  lemma SpoilingActSpoils(s: State, k: nat)
    requires Sound(s) && Settling(s) && SpoilingAct(s, k)
    ensures IsBooked(DoAct(s, k).db.ledger, s.checks[k].id) && !WellBooked(DoAct(s, k), s.checks[k].id)
  {
    var c := s.checks[k];
    assert CheckSound(c, s.db.rows, s.node.accepted) && CheckPaid(s, c);
    CopyHashNonce(s, k);
    match c.stage
    case ToFail =>
    case ToConfirm(_) =>
      assert WellBooked(s, c.id);
      OneSettledHash(s, s.db.rows[c.id].txHash.value, c.row.txHash.value);
    case ToBook =>
      BookedKeepsPaired(s.db.ledger, s.cfg.opening, Amounts(s.db.rows), c.id);
      if s.db.rows[c.id].status in PENDING {
        OneSettledHash(s, c.row.txHash.value, s.db.rows[c.id].txHash.value);
      }
  }

  lemma SpoilingJobSpoils(s: State, e: Step)
    requires Sound(s) && Settling(s) && SpoilingJob(s, e)
    ensures IsBooked(Apply(s, e).db.ledger, s.proc.job.id) && !WellBooked(Apply(s, e), s.proc.job.id)
  {
    var id := s.proc.job.id;
    var row := s.db.rows[id];
    assert WellBooked(s, id);
    HashHasRowNonce(s, id);
    match e
    case Resume(gas, fees, _, _) => OneSettledHash(s, row.txHash.value, PaymentOf(row, row.nonce.value, gas, fees));
    case ResumeFail(_) =>
  }

  lemma SpoiledLosesSettling(s: State, e: Step)
    requires Sound(s) && Settling(s) && Spoils(s, e)
    ensures !Settling(Apply(s, e))
  {
    if e.Act? {
      SpoilingActSpoils(s, e.k);
    } else {
      SpoilingJobSpoils(s, e);
    }
  }

  // ---- Over whole runs --------------------------------------------------------

  lemma {:induction false} SettlingThroughout(s: State, steps: seq<Step>)
    requires Sound(s) && Settling(s)
    ensures Throughout(Settling, s, steps) <==> Along(Unspoiled, s, steps)
    decreases |steps|
  {
    if |steps| > 0 {
      var t := Apply(s, steps[0]);
      ApplyKeepsConfig(s, steps[0]);
      StepKeepsSound(s, steps[0]);
      if Spoils(s, steps[0]) {
        SpoiledLosesSettling(s, steps[0]);
      } else {
        UnspoiledKeepsSettling(s, steps[0]);
        SettlingThroughout(t, steps[1..]);
      }
    }
  }

  /**
   * Booked means FINAL or still open on its settled transaction, in every state of a
   * run, exactly when no step of the run spoils a booking.
   */
  lemma BookedSettlesUnlessSpoiled(s: State, steps: seq<Step>)
    requires Init(s)
    ensures Throughout(Settling, s, steps) <==> Along(Unspoiled, s, steps)
  {
    InitSound(s);
    SettlingThroughout(s, steps);
  }
}
