/**
 * What one send job does to the settlement it is for, to the node and to memory, told
 * by the node's answers alone.
 */
module Jobs {
  import opened Basics
  import opened Rail
  import opened SettlementState
  import opened Engine
  import opened RetryPolicy
  import opened Plans

  /** The job is for a settlement that is approved, or submitted and to be sent again. */
  predicate IsSendable(s: State, id: nat) {
    id < |s.db.rows| && s.db.rows[id].status in {ComplianceApproved, Submitted}
  }

  /** Sent again under the nonce it already has. */
  predicate KeepsNonce(row: Row) {
    row.status == Submitted && row.nonce.Some?
  }

  /** Nothing but one row, the trail, the outbox, the worker and the node's pool may differ. */
  predicate OnlyRow(s: State, t: State, id: nat) {
    && |t.db.rows| == |s.db.rows|
    && (forall j :: 0 <= j < |s.db.rows| && j != id ==> t.db.rows[j] == s.db.rows[j])
    && t.db.ledger == s.db.ledger && t.checks == s.checks && t.requests == s.requests
    && t.enqueued == s.enqueued && t.cfg == s.cfg && t.node.blocks == s.node.blocks
    && t.proc == s.proc.(job := Idle, localNonce := t.proc.localNonce)
  }

  /**
   * The node took one transaction, of the settlement's own recipient and amount, and
   * the row says so; or it took none and the row is FAILED with the count of failures.
   */
  predicate Delivered(s: State, t: State, id: nat, o: Outcome, gas: nat)
    requires id < |s.db.rows|
  {
    var row := s.db.rows[id];
    var tx := Tx(o.nonce, row.to, row.amount, gas, o.fees);
    && OnlyRow(s, t, id)
    && t.node.accepted == s.node.accepted + (if o.sent then [Broadcast(id, tx)] else [])
    && (o.sent ==> tx in t.node.pool)
    && t.db.rows[id] == (if o.sent then row.(status := Submitted, txHash := Some(tx), nonce := Some(o.nonce),
                                             retryCount := o.retry)
                         else row.(status := Failed, retryCount := o.retry))
    && t.db.trail == s.db.trail + [Audit(id, row.status, t.db.rows[id].status, t.db.rows[id].txHash)]
    && t.proc.localNonce == (if KeepsNonce(row) then s.proc.localNonce
                             else if o.sent then o.nonce + 1 else o.nonce)
  }

  /** The outcome of a job, told by the answers from its own nonce or the local one, and the network's quote. */
  ghost predicate OutcomeFollows(c: Config, row: Row, localNonce: nat, oracle: Oracle, call: nat, o: Outcome) {
    Follows(oracle.reply, oracle.pending, call, o.failures, KeepsNonce(row),
            if KeepsNonce(row) then row.nonce.value else localNonce,
            oracle.market(call), row.retryCount, c.maxRetries, o)
  }

  lemma JobFollows(c: Config, row: Row, localNonce: nat, oracle: Oracle, call: nat)
    ensures OutcomeFollows(c, row, localNonce, oracle, call, JobOutcome(c, row, localNonce, oracle, call))
  {
    AttemptsFollow(oracle.reply, oracle.pending, call, 0, KeepsNonce(row),
                   if KeepsNonce(row) then row.nonce.value else localNonce,
                   oracle.market(call), row.retryCount, c.maxRetries, JobOutcome(c, row, localNonce, oracle, call));
  }

  lemma DoneDelivers(s: State, id: nat, o: Outcome, gas: nat, localNonce: nat)
    requires id < |s.db.rows|
    requires localNonce == if KeepsNonce(s.db.rows[id]) then s.proc.localNonce
                           else if o.sent then o.nonce + 1 else o.nonce
    ensures Delivered(s, JobDone(s, id, o, gas, localNonce), id, o, gas)
  {
  }

  /**
   * A job whose settlement is not sendable does nothing. Any other makes the broadcasts
   * its answers call for, from the network's quote and its own or the local nonce, and
   * delivers: at most one transaction taken, and the row saying exactly what happened.
   */
  lemma JobDelivers(s: State, id: nat, oracle: Oracle, call: nat)
    requires s.cfg.final >= 1 && s.proc.up && s.proc.job == Taken(id)
    ensures var t := Run(s, JobPlan(s, id, oracle, call));
            if !IsSendable(s, id) then t == s.(proc := s.proc.(job := Idle))
            else
              var row := s.db.rows[id];
              var o := JobOutcome(s.cfg, row, s.proc.localNonce, oracle, call);
              && OutcomeFollows(s.cfg, row, s.proc.localNonce, oracle, call, o)
              && Delivered(s, t, id, o, oracle.estimate(call))
  {
    if !IsSendable(s, id) {
      RunOne(s, Load);
    } else {
      var row := s.db.rows[id];
      var o := JobOutcome(s.cfg, row, s.proc.localNonce, oracle, call);
      JobFollows(s.cfg, row, s.proc.localNonce, oracle, call);
      if KeepsNonce(row) {
        ResumeJobRun(s, id, oracle, call);
        DoneDelivers(s, id, o, oracle.estimate(call), s.proc.localNonce);
      } else {
        FreshJobRun(s, id, oracle, call);
        DoneDelivers(s, id, o, oracle.estimate(call), if o.sent then o.nonce + 1 else o.nonce);
      }
    }
  }
}
