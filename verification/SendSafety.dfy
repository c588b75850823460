/**
 * What every step keeps about sending: rows, accepted broadcasts, the worker's
 * job, queued work and create requests stay consistent. The main consequence is
 * that one settlement never gets a second nonce, so no chain pays it twice.
 */
module SendSafety {
  import opened Basics
  import opened Rail
  import opened Chain
  import opened SettlementState
  import opened Engine

  /** Which fields a row carries in each status. */
  predicate RowShape(row: Row) {
    && row.amount > 0
    && (row.txHash.Some? <==> row.nonce.Some?)
    && (row.status in {Received, RejectedCompliance, ComplianceApproved} ==>
          row.txHash.None? && row.confirmedBlock.None?)
    && (row.status in {Submitted, Confirmed, Final} ==> row.txHash.Some?)
    && (row.status == Submitted ==> row.confirmedBlock.None?)
    && (row.status == Confirmed ==> row.confirmedBlock.Some?)
  }

  predicate Screened(status: Status) {
    status != Received && status != RejectedCompliance
  }

  /** A stored hash is one the node accepted for this very settlement. */
  predicate RowsBacked(rows: seq<Row>, accepted: seq<Broadcast>) {
    forall i :: 0 <= i < |rows| ==> RowShape(rows[i]) && Backed(accepted, i, rows[i].txHash)
  }

  predicate Backed(accepted: seq<Broadcast>, id: nat, txHash: Option<Tx>) {
    txHash.Some? ==> Broadcast(id, txHash.value) in accepted
  }

  /** An accepted broadcast pays a screened settlement its own amount. */
  predicate Covers(rows: seq<Row>, b: Broadcast) {
    && b.id < |rows|
    && b.tx.to == rows[b.id].to && b.tx.amount == rows[b.id].amount
    && Screened(rows[b.id].status)
    && (rows[b.id].nonce.Some? ==> rows[b.id].nonce.value == b.tx.nonce)
  }

  predicate AllCovered(rows: seq<Row>, accepted: seq<Broadcast>) {
    forall b :: b in accepted ==> Covers(rows, b)
  }

  predicate OneNonce(accepted: seq<Broadcast>) {
    forall b, c :: b in accepted && c in accepted && b.id == c.id ==> b.tx.nonce == c.tx.nonce
  }

  predicate Unsent(accepted: seq<Broadcast>, id: nat) {
    forall b :: b in accepted ==> b.id != id
  }

  predicate JobSound(job: Job, rows: seq<Row>, accepted: seq<Broadcast>) {
    match job
    case Idle => true
    case Taken(id) => id < |rows| && Screened(rows[id].status)
    case Sending(id, _, _) =>
      id < |rows| && rows[id].status == ComplianceApproved && Unsent(accepted, id)
    case Writing(id, tx, _) =>
      id < |rows| && rows[id].status == ComplianceApproved && Broadcast(id, tx) in accepted
  }

  /** A queued approved settlement has not been sent, unless it is being written. */
  predicate Waiting(s: State, id: nat) {
    && id < |s.db.rows|
    && Screened(s.db.rows[id].status)
    && (s.db.rows[id].status == ComplianceApproved ==>
          Unsent(s.node.accepted, id) || (s.proc.job.Writing? && s.proc.job.id == id))
  }

  predicate WorkSound(s: State) {
    && (!s.proc.up ==> s.proc.job.Idle?)
    && JobSound(s.proc.job, s.db.rows, s.node.accepted)
    && (forall id :: id in s.proc.queue ==> Waiting(s, id))
    && (s.proc.job.Taken? ==> Waiting(s, s.proc.job.id))
  }

  /** The requests that may still act on the row they inserted. */
  function OwnerOf(p: Progress): Option<nat> {
    match p
    case Inserted(id) => Some(id)
    case Approved(id) => Some(id)
    case Returned(id, created) => if created then Some(id) else None
    case _ => None
  }

  predicate RequestSound(s: State, q: Request) {
    && q.amount > 0
    && (q.progress.Inserted? ==>
          q.progress.id < |s.db.rows| && s.db.rows[q.progress.id].status == Received)
    && (q.progress.Approved? ==> Waiting(s, q.progress.id))
    && (OwnerOf(q.progress).Some? ==> OwnerOf(q.progress).value < |s.db.rows|)
  }

  predicate RequestsSound(s: State) {
    && (forall r :: 0 <= r < |s.requests| ==> RequestSound(s, s.requests[r]))
    && (forall r, t :: 0 <= r < t < |s.requests| && OwnerOf(s.requests[r].progress).Some? ==>
          OwnerOf(s.requests[t].progress) != OwnerOf(s.requests[r].progress))
  }

  predicate CheckSound(c: Check, rows: seq<Row>, accepted: seq<Broadcast>) {
    && c.id < |rows|
    && c.row.amount == rows[c.id].amount
    && c.row.nonce == rows[c.id].nonce
    && c.row.status in PENDING
    && RowShape(c.row)
    && Backed(accepted, c.id, c.row.txHash)
  }

  predicate ChecksSound(s: State) {
    forall k :: 0 <= k < |s.checks| ==> CheckSound(s.checks[k], s.db.rows, s.node.accepted)
  }

  predicate ChainSound(s: State) {
    && |s.node.blocks| >= 1
    && NonceOrder(Flatten(s.node.blocks), s.cfg.base)
    && (forall m :: m in Flatten(s.node.blocks) ==> m.tx in Sent(s.node.accepted))
  }

  predicate Safe(s: State) {
    && ValidConfig(s.cfg)
    && RowsBacked(s.db.rows, s.node.accepted)
    && AllCovered(s.db.rows, s.node.accepted)
    && OneNonce(s.node.accepted)
    && WorkSound(s)
    && RequestsSound(s)
    && ChecksSound(s)
    && ChainSound(s)
  }

  // ---- Preservation: the three kinds of change ------------------------------

  /** A row that was screened is updated without losing what identifies it. */
  predicate Updates(row: Row, next: Row) {
    && next.to == row.to && next.amount == row.amount
    && RowShape(next)
    && Screened(row.status) && Screened(next.status)
    && next.status != ComplianceApproved
    && (row.nonce.Some? ==> next.nonce == row.nonce)
  }

  /** The step may also end the worker's job, and must if the job is about this row. */
  predicate MayEndJob(p: Proc, q: Proc, id: nat) {
    && q.queue == p.queue
    && (p.up == q.up)
    && (q.job == p.job || (q.job.Idle? && (p.job.Writing? ==> p.job.id == id)))
    && (p.job.Sending? || p.job.Writing? ==> p.job.id != id || q.job.Idle?)
  }

  lemma UpdateKeepsSafe(s: State, t: State, id: nat)
    requires Safe(s)
    requires t == s.(db := t.db, proc := t.proc)
    requires id < |s.db.rows| == |t.db.rows| && t.db.rows == s.db.rows[id := t.db.rows[id]]
    requires Updates(s.db.rows[id], t.db.rows[id])
    requires Backed(s.node.accepted, id, t.db.rows[id].txHash)
    requires t.db.rows[id].nonce.Some? ==>
               forall b :: b in s.node.accepted && b.id == id ==> b.tx.nonce == t.db.rows[id].nonce.value
    requires MayEndJob(s.proc, t.proc, id)
    ensures Safe(t)
  {
  }

  /** A second broadcast for a settlement that already has a nonce. */
  lemma AcceptedKeepsSafe(s: State, id: nat, tx: Tx)
    requires Safe(s)
    requires Covers(s.db.rows, Broadcast(id, tx))
    requires s.db.rows[id].nonce == Some(tx.nonce)
    ensures Safe(s.(node := Accepted(s.node, id, tx)))
  {
    var t := s.(node := Accepted(s.node, id, tx));
    forall b | b in t.node.accepted
      ensures b in s.node.accepted || b == Broadcast(id, tx)
    {
    }
    assert s.node.accepted <= t.node.accepted;
    assert Sent(s.node.accepted) <= Sent(t.node.accepted);
    assert s.db.rows[id].status != ComplianceApproved;
  }

  /** Adding work to the queue. */
  lemma PushedKeepsSafe(s: State, id: nat)
    requires Safe(s) && Waiting(s, id)
    ensures Safe(s.(proc := Pushed(s.proc, id)))
  {
  }

  lemma AdvanceKeepsSafe(s: State, r: nat, p: Progress)
    requires Safe(s) && r < |s.requests|
    requires RequestSound(s, s.requests[r].(progress := p))
    requires OwnerOf(p).Some? ==> OwnerOf(s.requests[r].progress) == OwnerOf(p)
    ensures Safe(Advance(s, r, p))
  {
  }

  lemma CrashKeepsSafe(s: State)
    requires Safe(s)
    ensures Safe(Crashed(s))
  {
    var t := Crashed(s);
    forall r | 0 <= r < |t.requests|
      ensures RequestSound(t, t.requests[r])
      ensures OwnerOf(t.requests[r].progress).Some? ==> t.requests[r] == s.requests[r]
    {
      assert RequestSound(s, s.requests[r]);
    }
  }

  // ---- Preservation: create path --------------------------------------------

  /** A received row appended to the table concerns nobody yet. */
  lemma AppendKeepsSafe(s: State, row: Row)
    requires Safe(s) && RowShape(row) && row.status == Received && row.nonce.None?
    ensures Safe(s.(db := s.db.(rows := s.db.rows + [row])))
  {
  }

  /** A cleared request becomes the only owner of a received row. */
  lemma ClaimKeepsSafe(s: State, r: nat, id: nat)
    requires Safe(s) && r < |s.requests| && s.requests[r].progress.Cleared?
    requires id < |s.db.rows| && s.db.rows[id].status == Received
    requires forall t :: 0 <= t < |s.requests| ==> OwnerOf(s.requests[t].progress) != Some(id)
    ensures Safe(Advance(s, r, Inserted(id)))
  {
  }

  lemma InsertKeepsSafe(s: State, r: nat)
    requires Safe(s)
    ensures Safe(DoInsert(s, r))
  {
    if At(s, r, Cleared) {
      var q := s.requests[r];
      assert RequestSound(s, q);
      if FindInstruction(s.db.rows, q.instruction).Some? {
        AdvanceKeepsSafe(s, r, Raced);
      } else {
        var row := NewRow(q.instruction, q.to, q.amount);
        var t := s.(db := s.db.(rows := s.db.rows + [row]));
        AppendKeepsSafe(s, row);
        forall i | 0 <= i < |s.requests|
          ensures OwnerOf(s.requests[i].progress) != Some(|s.db.rows|)
        {
          assert RequestSound(s, s.requests[i]);
        }
        ClaimKeepsSafe(t, r, |s.db.rows|);
      }
    }
  }

  /** Screening moves a received row, and nothing else knows of the row yet. */
  lemma ScreenedKeepsSafe(s: State, r: nat, to: Status, p: Progress)
    requires Safe(s) && r < |s.requests| && s.requests[r].progress.Inserted?
    requires var id := s.requests[r].progress.id;
             (to == ComplianceApproved && p == Approved(id)) || (to == RejectedCompliance && p == Returned(id, true))
    ensures var id := s.requests[r].progress.id;
            id < |s.db.rows| && Safe(Advance(s, r, p).(db := Transitioned(s.db, id, to, NO_OPTS)))
  {
    assert RequestSound(s, s.requests[r]);
  }

  lemma ScreenKeepsSafe(s: State, r: nat, approve: bool)
    requires Safe(s)
    ensures Safe(DoScreen(s, r, approve))
  {
    if DoScreen(s, r, approve) != s {
      var id := s.requests[r].progress.id;
      if approve {
        ScreenedKeepsSafe(s, r, ComplianceApproved, Approved(id));
      } else {
        ScreenedKeepsSafe(s, r, RejectedCompliance, Returned(id, true));
      }
    }
  }

  lemma EnqueueKeepsSafe(s: State, r: nat)
    requires Safe(s)
    ensures Safe(DoEnqueue(s, r))
  {
    if s.proc.up && r < |s.requests| && s.requests[r].progress.Approved? {
      var id := s.requests[r].progress.id;
      var a := Advance(s, r, Returned(id, true));
      AdvanceKeepsSafe(s, r, Returned(id, true));
      PushedKeepsSafe(a, id);
    }
  }

  lemma RequestKeepsSafe(s: State, e: Step)
    requires Safe(s)
    requires e.Arrive? || e.Lookup? || e.CheckBalance? || e.Refetch? || e.Insert? || e.Screen? || e.Enqueue?
    ensures Safe(Apply(s, e))
  {
    match e
    case Arrive(instruction, to, amount) =>
    case Insert(r) => InsertKeepsSafe(s, r);
    case Screen(r, approve) => ScreenKeepsSafe(s, r, approve);
    case Enqueue(r) => EnqueueKeepsSafe(s, r);
    case Lookup(r) =>
      if At(s, r, Arrived) {
        var found := FindInstruction(s.db.rows, s.requests[r].instruction);
        AdvanceKeepsSafe(s, r, if found.Some? then Returned(found.value, false) else Missed);
      }
    case CheckBalance(r) =>
      if At(s, r, Missed) {
        AdvanceKeepsSafe(s, r, if s.requests[r].amount > Available(s.db) then Refused else Cleared);
      }
    case Refetch(r) =>
      if At(s, r, Raced) {
        var found := FindInstruction(s.db.rows, s.requests[r].instruction);
        AdvanceKeepsSafe(s, r, if found.Some? then Returned(found.value, false) else Refused);
      }
  }

  // ---- Preservation: worker -------------------------------------------------

  lemma TakeKeepsSafe(s: State)
    requires Safe(s)
    ensures Safe(DoTake(s))
  {
    if |s.proc.queue| > 0 {
      assert s.proc.queue[0] in s.proc.queue;
      assert Waiting(s, s.proc.queue[0]);
      assert forall id :: id in s.proc.queue[1..] ==> id in s.proc.queue;
    }
  }

  lemma LoadKeepsSafe(s: State)
    requires Safe(s)
    ensures Safe(DoLoad(s))
  {
  }

  lemma RetryKeepsSafe(s: State, resync: Option<nat>)
    requires Safe(s)
    ensures Safe(DoRetry(s, resync))
  {
  }

  lemma AcceptKeepsSafe(s: State, gas: nat, fees: Fees)
    requires Safe(s)
    ensures Safe(DoAccept(s, gas, fees))
  {
  }

  lemma GiveUpKeepsSafe(s: State, permanent: bool)
    requires Safe(s)
    ensures Safe(DoGiveUp(s, permanent))
  {
    if DoGiveUp(s, permanent) != s {
      UpdateKeepsSafe(s, DoGiveUp(s, permanent), s.proc.job.id);
    }
  }

  lemma WriteKeepsSafe(s: State)
    requires Safe(s)
    ensures Safe(DoWrite(s))
  {
    if DoWrite(s) != s {
      UpdateKeepsSafe(s, DoWrite(s), s.proc.job.id);
    }
  }

  lemma ResumeKeepsSafe(s: State, gas: nat, fees: Fees, retries: nat, crash: bool)
    requires Safe(s)
    ensures Safe(DoResume(s, gas, fees, retries, crash))
  {
    var t := DoResume(s, gas, fees, retries, crash);
    if Resuming(s) && (retries == s.db.rows[s.proc.job.id].retryCount
                       || s.db.rows[s.proc.job.id].retryCount < retries <= s.cfg.maxRetries) {
      var id := s.proc.job.id;
      var row := s.db.rows[id];
      var tx := PaymentOf(row, row.nonce.value, gas, fees);
      var sent := s.(node := Accepted(s.node, id, tx));
      AcceptedKeepsSafe(s, id, tx);
      if crash {
        CrashKeepsSafe(sent);
      } else {
        UpdateKeepsSafe(sent, t, id);
      }
    }
  }

  lemma ResumeFailKeepsSafe(s: State, retries: nat)
    requires Safe(s)
    ensures Safe(DoResumeFail(s, retries))
  {
    if DoResumeFail(s, retries) != s {
      UpdateKeepsSafe(s, DoResumeFail(s, retries), s.proc.job.id);
    }
  }

  // ---- Preservation: sweep, recovery, listener ------------------------------

  /** The fresh job works on an approved row, never on one in these statuses. */
  lemma JobElsewhere(s: State, id: nat)
    requires Safe(s) && id < |s.db.rows| && s.db.rows[id].status != ComplianceApproved
    ensures MayEndJob(s.proc, s.proc, id)
  {
  }

  lemma SweepResendKeepsSafe(s: State, id: nat, gas: nat, fees: Fees, crash: bool)
    requires Safe(s)
    ensures Safe(DoSweepResend(s, id, gas, fees, crash))
  {
    var t := DoSweepResend(s, id, gas, fees, crash);
    if Stuck(s, id) && s.db.rows[id].retryCount < s.cfg.maxRetries {
      var row := s.db.rows[id];
      var tx := PaymentOf(row, row.nonce.value, gas, fees);
      var sent := s.(node := Accepted(s.node, id, tx));
      AcceptedKeepsSafe(s, id, tx);
      JobElsewhere(s, id);
      if crash {
        CrashKeepsSafe(sent);
      } else {
        UpdateKeepsSafe(sent, t, id);
      }
    }
  }

  /** A pending row of the sweep, recovery or listener is failed. */
  lemma FailKeepsSafe(s: State, id: nat, o: Opts)
    requires Safe(s) && id < |s.db.rows| && s.db.rows[id].status in PENDING
    requires o.txHash.Keep? && o.nonce.Keep? && o.confirmedBlock.Keep?
    ensures Safe(s.(db := Transitioned(s.db, id, Failed, o)))
  {
    JobElsewhere(s, id);
    if Allowed(s.db.rows[id].status, o) {
      UpdateKeepsSafe(s, s.(db := Transitioned(s.db, id, Failed, o)), id);
    }
  }

  lemma SweepFailKeepsSafe(s: State, id: nat)
    requires Safe(s)
    ensures Safe(DoSweepFail(s, id))
  {
    if Stuck(s, id) {
      FailKeepsSafe(s, id, FailWith(s.db.rows[id].retryCount));
    }
  }

  lemma SweepRejectKeepsSafe(s: State, id: nat)
    requires Safe(s)
    ensures Safe(DoSweepReject(s, id))
  {
    if Stuck(s, id) {
      FailKeepsSafe(s, id, FailWith(s.db.rows[id].retryCount + 1));
    }
  }

  lemma RecoverKeepsSafe(s: State, id: nat)
    requires Safe(s)
    ensures Safe(DoRecover(s, id))
  {
    if s.proc.up && id < |s.db.rows| && s.db.rows[id].status == Submitted {
      FailKeepsSafe(s, id, FailWith(s.db.rows[id].retryCount));
      PushedKeepsSafe(s, id);
    }
  }

  lemma PollKeepsSafe(s: State, id: nat)
    requires Safe(s)
    ensures Safe(DoPoll(s, id))
  {
  }

  /** A handler's stage may change freely. */
  lemma StageKeepsSafe(s: State, k: nat, stage: Stage)
    requires Safe(s) && k < |s.checks|
    ensures Safe(s.(checks := s.checks[k := s.checks[k].(stage := stage)]))
  {
  }

  /** A handler's guarded transition of an open row. */
  lemma MoveKeepsSafe(s: State, id: nat, to: Status, o: Opts)
    requires Safe(s) && id < |s.db.rows|
    requires Allowed(s.db.rows[id].status, o) ==>
               s.db.rows[id].status in PENDING && Updates(s.db.rows[id], PatchedRow(s.db.rows[id], to, o))
    requires o.txHash.Set? ==> Backed(s.node.accepted, id, o.txHash.value)
    ensures Safe(s.(db := Transitioned(s.db, id, to, o)))
  {
    if Allowed(s.db.rows[id].status, o) {
      JobElsewhere(s, id);
      UpdateKeepsSafe(s, s.(db := Transitioned(s.db, id, to, o)), id);
    }
  }

  lemma ActKeepsSafe(s: State, k: nat)
    requires Safe(s)
    ensures Safe(DoAct(s, k))
  {
    if s.proc.up && k < |s.checks| && s.checks[k].id < |s.db.rows| {
      var c := s.checks[k];
      StageKeepsSafe(s, k, Closed);
      StageKeepsSafe(s, k, ToFlip);
      var closed := s.(checks := s.checks[k := c.(stage := Closed)]);
      assert CheckSound(c, s.db.rows, s.node.accepted);
      match c.stage
      case ToFail => MoveKeepsSafe(closed, c.id, Failed, FailOpts());
      case ToRevert => MoveKeepsSafe(closed, c.id, Submitted, RevertOpts());
      case ToConfirm(block) => MoveKeepsSafe(closed, c.id, Confirmed, ConfirmOpts(c.row, block));
      case ToFlip => MoveKeepsSafe(closed, c.id, Final, FinalOpts(c.row));
      case _ =>
    }
  }

  // ---- Every step, every run ------------------------------------------------

  lemma ReadKeepsSafe(s: State, k: nat, current: nat)
    requires Safe(s)
    ensures Safe(DoRead(s, k, current))
  {
  }

  lemma EnvironmentKeepsSafe(s: State, e: Step)
    requires Safe(s)
    requires e.Move? || e.Drop? || e.Boot? || e.Drain? || e.Crash?
    ensures Safe(Apply(s, e))
  {
    CrashKeepsSafe(s);
  }

  lemma WorkerStepKeepsSafe(s: State, e: Step)
    requires Safe(s)
    requires e.Take? || e.Load? || e.Accept? || e.Retry? || e.GiveUp? || e.Write? || e.Resume? || e.ResumeFail?
    ensures Safe(Apply(s, e))
  {
    match e
    case Take => TakeKeepsSafe(s);
    case Load => LoadKeepsSafe(s);
    case Accept(gas, fees) => AcceptKeepsSafe(s, gas, fees);
    case Retry(resync) => RetryKeepsSafe(s, resync);
    case GiveUp(permanent) => GiveUpKeepsSafe(s, permanent);
    case Write => WriteKeepsSafe(s);
    case Resume(gas, fees, retries, crash) => ResumeKeepsSafe(s, gas, fees, retries, crash);
    case ResumeFail(retries) => ResumeFailKeepsSafe(s, retries);
  }

  lemma ListenerStepKeepsSafe(s: State, e: Step)
    requires Safe(s)
    requires e.Poll? || e.Read? || e.Act?
    ensures Safe(Apply(s, e))
  {
    match e
    case Poll(id) => PollKeepsSafe(s, id);
    case Read(k, current) => ReadKeepsSafe(s, k, current);
    case Act(k) => ActKeepsSafe(s, k);
  }

  lemma StepKeepsSafe(s: State, e: Step)
    requires Safe(s)
    ensures Safe(Apply(s, e))
  {
    if e.Take? || e.Load? || e.Accept? || e.Retry? || e.GiveUp? || e.Write? || e.Resume? || e.ResumeFail? {
      WorkerStepKeepsSafe(s, e);
    } else if e.SweepResend? {
      SweepResendKeepsSafe(s, e.id, e.gas, e.fees, e.crash);
    } else if e.SweepFail? {
      SweepFailKeepsSafe(s, e.id);
    } else if e.SweepReject? {
      SweepRejectKeepsSafe(s, e.id);
    } else if e.Recover? {
      RecoverKeepsSafe(s, e.id);
    } else if e.Poll? || e.Read? || e.Act? {
      ListenerStepKeepsSafe(s, e);
    } else if e.Move? || e.Drop? || e.Boot? || e.Drain? || e.Crash? {
      EnvironmentKeepsSafe(s, e);
    } else {
      RequestKeepsSafe(s, e);
    }
  }

  lemma InitSafe(s: State)
    requires Init(s)
    ensures Safe(s)
  {
  }

  lemma {:induction false} RunKeepsSafe(s: State, steps: seq<Step>)
    requires Safe(s)
    ensures Safe(Run(s, steps))
    decreases |steps|
  {
    if |steps| > 0 {
      StepKeepsSafe(s, steps[0]);
      ApplyKeepsConfig(s, steps[0]);
      RunKeepsSafe(Apply(s, steps[0]), steps[1..]);
    }
  }

  /** A row's nonce is that of its stored transaction. */
  lemma HashHasRowNonce(s: State, id: nat)
    requires Safe(s) && id < |s.db.rows|
    ensures RowShape(s.db.rows[id])
    ensures s.db.rows[id].txHash.Some? ==> s.db.rows[id].nonce == Some(s.db.rows[id].txHash.value.nonce)
  {
    assert RowShape(s.db.rows[id]);
    if s.db.rows[id].txHash.Some? {
      assert Backed(s.node.accepted, id, s.db.rows[id].txHash);
    }
  }

  // ---- Consequences ---------------------------------------------------------

  /** A mined transaction was broadcast for this settlement. */
  predicate Pays(node: Node, m: Mined, id: nat) {
    Broadcast(id, m.tx) in node.accepted
  }

  /**
   * At most one transfer per settlement: however sends, retries, sweeps, drops,
   * crashes, recoveries and reorganisations interleave, every broadcast accepted
   * for a settlement carries one nonce and pays the settlement's own recipient
   * its own amount, and no canonical chain holds two of them.
   */
  lemma OneTransferPerSettlement(s: State, steps: seq<Step>)
    requires Init(s)
    ensures var t := Run(s, steps);
            var mined := Flatten(t.node.blocks);
            && (forall b :: b in t.node.accepted ==>
                  && b.id < |t.db.rows|
                  && b.tx.to == t.db.rows[b.id].to && b.tx.amount == t.db.rows[b.id].amount)
            && (forall b, c :: b in t.node.accepted && c in t.node.accepted && b.id == c.id ==>
                  b.tx.nonce == c.tx.nonce)
            && (forall p, q, id ::
                  0 <= p < |mined| && 0 <= q < |mined| && Pays(t.node, mined[p], id) && Pays(t.node, mined[q], id)
                  ==> p == q)
  {
    InitSafe(s);
    RunKeepsSafe(s, steps);
    var t := Run(s, steps);
    forall b | b in t.node.accepted
      ensures Covers(t.db.rows, b)
    {
    }
  }

  /** What a later state keeps of an earlier one. */
  predicate SameIdentity(row: Row, next: Row) {
    && next.instruction == row.instruction && next.to == row.to && next.amount == row.amount
    && (row.nonce.Some? ==> next.nonce == row.nonce)
    && (row.txHash.Some? ==> next.txHash.Some?)
  }

  ghost predicate Extends(s: State, t: State)
    requires s.cfg.final >= 1
  {
    && t.cfg == s.cfg
    && |s.db.rows| <= |t.db.rows|
    && (forall i :: 0 <= i < |s.db.rows| ==> SameIdentity(s.db.rows[i], t.db.rows[i]))
    && s.db.trail <= t.db.trail
    && s.db.outbox <= t.db.outbox
    && s.db.ledger <= t.db.ledger
    && s.node.accepted <= t.node.accepted
    && |s.node.blocks| <= |t.node.blocks|
    && Settled(s.node.blocks, s.cfg.final) <= Settled(t.node.blocks, s.cfg.final)
  }

  lemma SameHistory(s: State, t: State)
    requires s.cfg.final >= 1 && t.cfg == s.cfg && t.db == s.db && t.node == s.node
    ensures Extends(s, t)
  {
  }

  /** One transition, and perhaps an accepted broadcast: history grows, identity stays. */
  lemma TransitionExtends(s: State, t: State, id: nat, to: Status, o: Opts)
    requires s.cfg.final >= 1 && t.cfg == s.cfg && id < |s.db.rows|
    requires t.node.blocks == s.node.blocks && s.node.accepted <= t.node.accepted
    requires t.db == Transitioned(s.db, id, to, o)
    requires o.txHash.Set? ==> o.txHash.value.Some?
    requires o.nonce.Keep? || s.db.rows[id].nonce.None? || o.nonce.value == s.db.rows[id].nonce
    ensures Extends(s, t)
  {
  }

  /** A step of a request, other than insert and screening, writes nothing. */
  lemma RequestKeepsHistory(s: State, e: Step)
    requires s.cfg.final >= 1
    requires e.Arrive? || e.Lookup? || e.CheckBalance? || e.Refetch? || e.Enqueue?
    ensures Apply(s, e).cfg == s.cfg && Apply(s, e).db == s.db && Apply(s, e).node == s.node
  {
  }

  lemma InsertExtends(s: State, r: nat)
    requires s.cfg.final >= 1
    ensures Extends(s, DoInsert(s, r))
  {
  }

  lemma RequestExtends(s: State, e: Step)
    requires Safe(s)
    requires e.Arrive? || e.Lookup? || e.CheckBalance? || e.Refetch? || e.Insert? || e.Screen? || e.Enqueue?
    ensures Extends(s, Apply(s, e))
  {
    if e.Insert? {
      InsertExtends(s, e.r);
    } else if e.Screen? {
      var t := DoScreen(s, e.r, e.approve);
      if t == s {
        SameHistory(s, t);
      } else {
        TransitionExtends(s, t, s.requests[e.r].progress.id,
                          if e.approve then ComplianceApproved else RejectedCompliance, NO_OPTS);
      }
    } else {
      RequestKeepsHistory(s, e);
      SameHistory(s, Apply(s, e));
    }
  }

  lemma AcceptExtends(s: State, gas: nat, fees: Fees)
    requires s.cfg.final >= 1
    ensures Extends(s, DoAccept(s, gas, fees))
  {
  }

  lemma WorkerExtends(s: State, e: Step)
    requires Safe(s)
    requires e.Take? || e.Load? || e.Retry? || e.Accept? || e.GiveUp? || e.Write?
    ensures Extends(s, Apply(s, e))
  {
    var t, j := Apply(s, e), s.proc.job;
    match e
    case Accept(gas, fees) => AcceptExtends(s, gas, fees);
    case GiveUp(permanent) =>
      if t != s {
        TransitionExtends(s, t, j.id, Failed, FailWith(if permanent then j.retry else j.retry + 1));
      } else {
        SameHistory(s, t);
      }
    case Write =>
      if t != s {
        assert RowShape(s.db.rows[j.id]);
        TransitionExtends(s, t, j.id, Submitted, SubmitWith(j.tx, j.retry));
      } else {
        SameHistory(s, t);
      }
    case _ => SameHistory(s, t);
  }

  lemma SentCrashedExtends(s: State, id: nat, tx: Tx)
    requires s.cfg.final >= 1
    ensures Extends(s, Crashed(s.(node := Accepted(s.node, id, tx))))
  {
  }

  lemma ResumeExtends(s: State, e: Step)
    requires Safe(s)
    requires e.Resume? || e.ResumeFail?
    ensures Extends(s, Apply(s, e))
  {
    var t := Apply(s, e);
    if t == s {
      SameHistory(s, t);
    } else {
      var id := s.proc.job.id;
      var row := s.db.rows[id];
      match e
      case Resume(gas, fees, retries, crash) =>
        var tx := PaymentOf(row, row.nonce.value, gas, fees);
        if crash {
          SentCrashedExtends(s, id, tx);
        } else {
          TransitionExtends(s, t, id, Submitted, SubmitWith(tx, retries));
        }
      case ResumeFail(retries) => TransitionExtends(s, t, id, Failed, FailWith(retries));
    }
  }

  lemma ResentExtends(s: State, t: State, id: nat, tx: Tx, retries: nat)
    requires s.cfg.final >= 1 && id < |s.db.rows|
    requires t == s.(node := Accepted(s.node, id, tx), db := Resent(s.db, id, tx, retries))
    ensures Extends(s, t)
  {
  }

  lemma SweepExtends(s: State, e: Step)
    requires Safe(s)
    requires e.SweepResend? || e.SweepFail? || e.SweepReject?
    ensures Extends(s, Apply(s, e))
  {
    var t := Apply(s, e);
    if t == s {
      SameHistory(s, t);
    } else {
      var row := s.db.rows[e.id];
      match e
      case SweepResend(id, gas, fees, crash) =>
        var tx := PaymentOf(row, row.nonce.value, gas, fees);
        if crash {
          SentCrashedExtends(s, id, tx);
        } else {
          ResentExtends(s, t, id, tx, row.retryCount + 1);
        }
      case SweepFail(id) => TransitionExtends(s, t, id, Failed, FailWith(row.retryCount));
      case SweepReject(id) => TransitionExtends(s, t, id, Failed, FailWith(row.retryCount + 1));
    }
  }

  lemma RecoverExtends(s: State, id: nat)
    requires Safe(s)
    ensures Extends(s, DoRecover(s, id))
  {
    var t := DoRecover(s, id);
    if t.db == s.db {
      SameHistory(s, t);
    } else {
      TransitionExtends(s, t, id, Failed, FailWith(s.db.rows[id].retryCount));
    }
  }

  lemma ActExtends(s: State, k: nat)
    requires Safe(s)
    ensures Extends(s, DoAct(s, k))
  {
    var t := DoAct(s, k);
    if t == s {
      SameHistory(s, t);
    } else {
      var c := s.checks[k];
      assert CheckSound(c, s.db.rows, s.node.accepted);
      match c.stage
      case ToFail => TransitionExtends(s, t, c.id, Failed, FailOpts());
      case ToRevert => TransitionExtends(s, t, c.id, Submitted, RevertOpts());
      case ToConfirm(block) => TransitionExtends(s, t, c.id, Confirmed, ConfirmOpts(c.row, block));
      case ToFlip => TransitionExtends(s, t, c.id, Final, FinalOpts(c.row));
      case _ =>
    }
  }

  lemma StepExtends(s: State, e: Step)
    requires Safe(s)
    ensures Extends(s, Apply(s, e))
  {
    match e
    case Arrive(_, _, _) => RequestExtends(s, e);
    case Lookup(_) => RequestExtends(s, e);
    case CheckBalance(_) => RequestExtends(s, e);
    case Refetch(_) => RequestExtends(s, e);
    case Insert(_) => RequestExtends(s, e);
    case Screen(_, _) => RequestExtends(s, e);
    case Enqueue(_) => RequestExtends(s, e);
    case Resume(_, _, _, _) => ResumeExtends(s, e);
    case ResumeFail(_) => ResumeExtends(s, e);
    case SweepResend(_, _, _, _) => SweepExtends(s, e);
    case SweepFail(_) => SweepExtends(s, e);
    case SweepReject(_) => SweepExtends(s, e);
    case Recover(id) => RecoverExtends(s, id);
    case Act(k) => ActExtends(s, k);
    case Move(drop, added) =>
      if ValidMove(s, drop, added) {
        SettledGrows(s.node.blocks, drop, added, s.cfg.final);
      }
    case Poll(_) =>
    case Read(_, _) =>
    case Crash =>
    case Drop(_) =>
    case Boot(_) =>
    case Drain =>
    case _ => WorkerExtends(s, e);
  }

  lemma ExtendsTransitive(s: State, t: State, u: State)
    requires s.cfg.final >= 1 && t.cfg.final >= 1
    requires Extends(s, t) && Extends(t, u)
    ensures Extends(s, u)
  {
    forall i | 0 <= i < |s.db.rows|
      ensures SameIdentity(s.db.rows[i], u.db.rows[i])
    {
      assert SameIdentity(s.db.rows[i], t.db.rows[i]);
      assert SameIdentity(t.db.rows[i], u.db.rows[i]);
    }
  }

  /**
   * Append-only history and stable identity: along any run the trail, outbox,
   * ledger and accepted broadcasts only grow, a settlement keeps its recipient,
   * amount and, once set, its nonce, and settled transactions stay settled.
   */
  lemma {:induction false} RunExtends(s: State, steps: seq<Step>)
    requires Safe(s)
    ensures Safe(Run(s, steps))
    ensures Extends(s, Run(s, steps))
    decreases |steps|
  {
    if |steps| > 0 {
      var t := Apply(s, steps[0]);
      StepKeepsSafe(s, steps[0]);
      StepExtends(s, steps[0]);
      RunExtends(t, steps[1..]);
      ExtendsTransitive(s, t, Run(t, steps[1..]));
    }
  }
}
