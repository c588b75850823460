/**
 * The fee bound over whole runs. A run here also says what price the network quoted at
 * each step and when the sweep forgot an in-flight entry. As long as every broadcast is
 * priced by the relayer's policy, an accepted one carries some quoted price raised at
 * most MAX_RETRIES times, whatever crashes, sweeps, recoveries and reorganisations.
 */
module FeeBound {
  import opened Basics
  import opened Rail
  import opened Chain
  import opened SettlementState
  import opened Engine
  import opened SendSafety
  import opened RetryPolicy
  import opened Plans

  /** One of the quoted prices, raised at most n times. */
  ghost predicate Priced(qs: set<Fees>, fees: Fees, n: nat) {
    exists market: Fees, k: nat :: market in qs && k <= n && fees == BumpsOf(market, k)
  }

  lemma PricedMore(qs: set<Fees>, fees: Fees, m: nat, n: nat)
    requires Priced(qs, fees, m) && m <= n
    ensures Priced(qs, fees, n)
  {
  }

  lemma BumpedIsPriced(qs: set<Fees>, fees: Fees, n: nat)
    requires Priced(qs, fees, n)
    ensures Priced(qs, BumpFees(fees), n + 1)
  {
    var market: Fees, k: nat :| market in qs && k <= n && fees == BumpsOf(market, k);
    assert BumpFees(fees) == BumpsOf(market, k + 1);
  }

  // ---- Runs with quotes and in-flight entries -------------------------------

  /** The fees kept in memory for each settlement in flight. */
  type Entries = map<nat, Fees>

  /** An engine step with the price the network quoted for it, or an entry the sweep forgets. */
  datatype QuotedStep = Do(step: Step, quote: Fees) | Forget(id: nat)

  datatype Point = Point(s: State, entries: Entries)

  predicate CanAccept(s: State) {
    s.proc.up && s.proc.job.Sending? && s.proc.job.id < |s.db.rows|
  }

  predicate CanResume(s: State, retries: nat) {
    && Resuming(s)
    && var row := s.db.rows[s.proc.job.id];
       retries == row.retryCount || row.retryCount < retries <= s.cfg.maxRetries
  }

  /**
   * How a step changes the entries: set by an accepted broadcast or by recovering a
   * pending transaction, removed with a failure, all gone in a crash.
   */
  function Track(s: State, entries: Entries, e: Step): Entries
    requires s.cfg.final >= 1
  {
    match e
    case Accept(_, fees) => if CanAccept(s) then entries[s.proc.job.id := fees] else entries
    case Resume(gas, fees, retries, crash) =>
      if DoResume(s, gas, fees, retries, crash) == s then entries
      else if crash then map[] else entries[s.proc.job.id := fees]
    case SweepResend(id, gas, fees, crash) =>
      if DoSweepResend(s, id, gas, fees, crash) == s then entries
      else if crash then map[] else entries[id := fees]
    case GiveUp(permanent) =>
      if DoGiveUp(s, permanent) == s then entries else entries - {s.proc.job.id}
    case ResumeFail(retries) =>
      if DoResumeFail(s, retries) == s then entries else entries - {s.proc.job.id}
    case SweepFail(id) => if DoSweepFail(s, id) == s then entries else entries - {id}
    case SweepReject(id) => if DoSweepReject(s, id) == s then entries else entries - {id}
    case Recover(id) => TrackRecovered(s, entries, id)
    case Crash => map[]
    case _ => entries
  }

  function TrackRecovered(s: State, entries: Entries, id: nat): Entries {
    if !(s.proc.up && id < |s.db.rows| && s.db.rows[id].status == Submitted && s.db.rows[id].txHash.Some?) then entries
    else
      var tx := s.db.rows[id].txHash.value;
      var receipt := ReceiptOf(s.node.blocks, tx);
      if receipt.Some? then (if receipt.value.ok then entries else entries - {id})
      else if tx in s.node.pool then entries[id := tx.fees]
      else entries
  }

  function Stepped(p: Point, m: QuotedStep): (q: Point)
    requires p.s.cfg.final >= 1
    ensures q.s.cfg == p.s.cfg
  {
    match m
    case Do(e, _) =>
      ApplyKeepsConfig(p.s, e);
      Point(Apply(p.s, e), Track(p.s, p.entries, e))
    case Forget(id) => p.(entries := p.entries - {id})
  }

  function RunAll(p: Point, moves: seq<QuotedStep>): (q: Point)
    requires p.s.cfg.final >= 1
    ensures q.s.cfg == p.s.cfg
    decreases |moves|
  {
    if |moves| == 0 then p else RunAll(Stepped(p, moves[0]), moves[1..])
  }

  function StepsOf(moves: seq<QuotedStep>): seq<Step> {
    if |moves| == 0 then []
    else (if moves[0].Do? then [moves[0].step] else []) + StepsOf(moves[1..])
  }

  /** A run with quotes goes through the same states as the engine run of its steps. */
  lemma {:induction false} RunAllIsRun(p: Point, moves: seq<QuotedStep>)
    requires p.s.cfg.final >= 1
    ensures RunAll(p, moves).s == Run(p.s, StepsOf(moves))
    decreases |moves|
  {
    if |moves| > 0 {
      RunAllIsRun(Stepped(p, moves[0]), moves[1..]);
      if moves[0].Do? {
        assert StepsOf(moves)[1..] == StepsOf(moves[1..]);
      } else {
        assert StepsOf(moves) == StepsOf(moves[1..]);
      }
    }
  }

  /** The quote raised at most n times, none if n is negative. */
  ghost predicate RaisedFrom(quote: Fees, fees: Fees, n: int) {
    exists k: nat :: k <= n && fees == BumpsOf(quote, k)
  }

  /**
   * A resend raises once what is in memory, else the fees of the stored transaction if
   * the node still holds it with both set, else the quote.
   */
  predicate ResendPrice(s: State, entries: Entries, id: nat, fees: Fees, quote: Fees) {
    Stuck(s, id) ==>
      var tx := s.db.rows[id].txHash.value;
      if id in entries then fees == BumpFees(entries[id])
      else if tx in s.node.pool && tx.fees.maxFee > 0 && tx.fees.priority > 0 then fees == BumpFees(tx.fees)
      else fees == BumpFees(quote)
  }

  /**
   * The move's broadcast, if it makes one, is priced as the relayer prices it. A job
   * starts from its own quote and raises it at most once per failure. A resend raises
   * once what the in-flight entry holds, else the pending transaction's fees, else the
   * quote.
   */
  ghost predicate FollowsPolicy(p: Point, m: QuotedStep) {
    m.Do? ==>
      match m.step
      case Accept(_, fees) =>
        CanAccept(p.s) ==>
          RaisedFrom(m.quote, fees, p.s.proc.job.retry - p.s.db.rows[p.s.proc.job.id].retryCount)
      case Resume(_, fees, retries, _) =>
        CanResume(p.s, retries) ==>
          RaisedFrom(m.quote, fees, retries - p.s.db.rows[p.s.proc.job.id].retryCount)
      case SweepResend(id, _, fees, _) =>
        ResendPrice(p.s, p.entries, id, fees, m.quote)
      case _ => true
  }

  ghost predicate AlongPolicy(p: Point, moves: seq<QuotedStep>)
    requires p.s.cfg.final >= 1
    decreases |moves|
  {
    |moves| == 0 || (FollowsPolicy(p, moves[0]) && AlongPolicy(Stepped(p, moves[0]), moves[1..]))
  }

  predicate QuotedIn(qs: set<Fees>, moves: seq<QuotedStep>) {
    forall i :: 0 <= i < |moves| && moves[i].Do? ==> moves[i].quote in qs
  }

  // ---- The invariant --------------------------------------------------------

  ghost predicate RowPriced(qs: set<Fees>, row: Row, max: nat) {
    row.status != Failed ==>
      row.retryCount <= max && (row.txHash.Some? ==> Priced(qs, row.txHash.value.fees, row.retryCount))
  }

  /** A handler's copy of the row may be older than the row, never dearer. */
  ghost predicate CheckPriced(qs: set<Fees>, c: Check, rows: seq<Row>) {
    c.id < |rows| && rows[c.id].status != Failed && c.row.txHash.Some? ==>
      Priced(qs, c.row.txHash.value.fees, rows[c.id].retryCount)
  }

  ghost predicate JobPriced(qs: set<Fees>, job: Job, rows: seq<Row>, max: nat) {
    match job
    case Sending(id, _, retry) => id < |rows| && rows[id].retryCount <= retry <= max
    case Writing(id, tx, retry) => id < |rows| && rows[id].retryCount <= retry <= max && Priced(qs, tx.fees, retry)
    case _ => true
  }

  ghost predicate AllPriced(qs: set<Fees>, accepted: seq<Broadcast>, max: nat) {
    forall b :: b in accepted ==> Priced(qs, b.tx.fees, max)
  }

  /** The retry count an entry is held against: the row's, or the one about to be written. */
  function RetryOf(s: State, id: nat): nat
    requires id < |s.db.rows|
  {
    if s.proc.job.Writing? && s.proc.job.id == id then s.proc.job.retry else s.db.rows[id].retryCount
  }

  ghost predicate EntriesSound(qs: set<Fees>, s: State, entries: Entries) {
    forall id :: id in entries ==>
      id < |s.db.rows| && (s.db.rows[id].status != Failed ==> Priced(qs, entries[id], RetryOf(s, id)))
  }

  ghost predicate FeesSound(qs: set<Fees>, s: State) {
    && (forall i :: 0 <= i < |s.db.rows| ==> RowPriced(qs, s.db.rows[i], s.cfg.maxRetries))
    && (forall k :: 0 <= k < |s.checks| ==> CheckPriced(qs, s.checks[k], s.db.rows))
    && JobPriced(qs, s.proc.job, s.db.rows, s.cfg.maxRetries)
    && AllPriced(qs, s.node.accepted, s.cfg.maxRetries)
  }

  /** A row may change so: failed for good, or no cheaper a retry count and priced within it. */
  ghost predicate Reprices(qs: set<Fees>, row: Row, next: Row, max: nat) {
    && RowPriced(qs, next, max)
    && (next.status != Failed ==> row.status != Failed && row.retryCount <= next.retryCount)
  }

  /** One row changes, and no job is sending it any more. */
  lemma RepriceKeeps(qs: set<Fees>, s: State, t: State, id: nat, next: Row)
    requires FeesSound(qs, s) && id < |s.db.rows| && Reprices(qs, s.db.rows[id], next, s.cfg.maxRetries)
    requires t.cfg == s.cfg && t.db.rows == s.db.rows[id := next] && t.checks == s.checks
    requires t.node.accepted == s.node.accepted
    requires t.proc.job.Idle? || (t.proc.job == s.proc.job && !JobOn(t.proc.job, id))
    ensures FeesSound(qs, t)
  {
    forall k | 0 <= k < |t.checks|
      ensures CheckPriced(qs, t.checks[k], t.db.rows)
    {
      var c := s.checks[k];
      assert CheckPriced(qs, c, s.db.rows);
      if c.id == id && next.status != Failed && c.row.txHash.Some? {
        PricedMore(qs, c.row.txHash.value.fees, s.db.rows[id].retryCount, next.retryCount);
      }
    }
  }

  predicate JobOn(job: Job, id: nat) {
    (job.Sending? || job.Writing?) && job.id == id
  }

  /** A submitted or confirmed row is not the one being sent for the first time. */
  lemma PendingHasNoJob(s: State, id: nat)
    requires Safe(s) && id < |s.db.rows| && s.db.rows[id].status != ComplianceApproved
    ensures !JobOn(s.proc.job, id)
  {
  }

  lemma AcceptKeeps(qs: set<Fees>, s: State, gas: nat, fees: Fees)
    requires FeesSound(qs, s) && (CanAccept(s) ==> Priced(qs, fees, s.proc.job.retry))
    ensures FeesSound(qs, DoAccept(s, gas, fees))
  {
    if CanAccept(s) {
      PricedMore(qs, fees, s.proc.job.retry, s.cfg.maxRetries);
    }
  }

  lemma WriteKeeps(qs: set<Fees>, s: State)
    requires Safe(s) && FeesSound(qs, s)
    ensures FeesSound(qs, DoWrite(s))
  {
    if s.proc.job.Writing? {
      var j := s.proc.job;
      RepriceKeeps(qs, s, DoWrite(s), j.id, PatchedRow(s.db.rows[j.id], Submitted, SubmitWith(j.tx, j.retry)));
    }
  }

  lemma AcceptedMore(qs: set<Fees>, accepted: seq<Broadcast>, b: Broadcast, n: nat, max: nat)
    requires AllPriced(qs, accepted, max) && Priced(qs, b.tx.fees, n) && n <= max
    ensures AllPriced(qs, accepted + [b], max)
  {
    PricedMore(qs, b.tx.fees, n, max);
  }

  lemma CrashKeeps(qs: set<Fees>, s: State)
    requires FeesSound(qs, s)
    ensures FeesSound(qs, Crashed(s))
  {
  }

  lemma ResumeKeeps(qs: set<Fees>, s: State, gas: nat, fees: Fees, retries: nat, crash: bool)
    requires Safe(s) && FeesSound(qs, s) && (CanResume(s, retries) ==> Priced(qs, fees, retries))
    ensures FeesSound(qs, DoResume(s, gas, fees, retries, crash))
  {
    if CanResume(s, retries) {
      var id := s.proc.job.id;
      var row := s.db.rows[id];
      assert RowPriced(qs, row, s.cfg.maxRetries);
      var tx := PaymentOf(row, row.nonce.value, gas, fees);
      AcceptedMore(qs, s.node.accepted, Broadcast(id, tx), retries, s.cfg.maxRetries);
      var sent := s.(node := Accepted(s.node, id, tx));
      if crash {
        CrashKeeps(qs, sent);
      } else {
        RepriceKeeps(qs, sent, DoResume(s, gas, fees, retries, false), id,
                     PatchedRow(row, Submitted, SubmitWith(tx, retries)));
      }
    }
  }

  lemma SweepResendKeeps(qs: set<Fees>, s: State, entries: Entries, id: nat, gas: nat, fees: Fees, crash: bool,
                         quote: Fees)
    requires Safe(s) && FeesSound(qs, s) && EntriesSound(qs, s, entries)
    requires ResendPrice(s, entries, id, fees, quote) && quote in qs
    ensures FeesSound(qs, DoSweepResend(s, id, gas, fees, crash))
  {
    if Stuck(s, id) && s.db.rows[id].retryCount < s.cfg.maxRetries {
      var row := s.db.rows[id];
      var tx := PaymentOf(row, row.nonce.value, gas, fees);
      PendingHasNoJob(s, id);
      ResendIsPriced(qs, s, entries, id, fees, quote);
      ResendKeeps(qs, s, id, tx);
      CrashKeeps(qs, s.(node := Accepted(s.node, id, tx)));
    }
  }

  lemma ResendKeeps(qs: set<Fees>, s: State, id: nat, tx: Tx)
    requires FeesSound(qs, s) && id < |s.db.rows| && !JobOn(s.proc.job, id) && s.db.rows[id].status == Submitted
    requires s.db.rows[id].retryCount < s.cfg.maxRetries && Priced(qs, tx.fees, s.db.rows[id].retryCount + 1)
    ensures var sent := s.(node := Accepted(s.node, id, tx));
            FeesSound(qs, sent) && FeesSound(qs, sent.(db := Resent(s.db, id, tx, s.db.rows[id].retryCount + 1)))
  {
    var row := s.db.rows[id];
    var sent := s.(node := Accepted(s.node, id, tx));
    AcceptedMore(qs, s.node.accepted, Broadcast(id, tx), row.retryCount + 1, s.cfg.maxRetries);
    RepriceKeeps(qs, sent, sent.(db := Resent(s.db, id, tx, row.retryCount + 1)), id,
                 row.(txHash := Some(tx), retryCount := row.retryCount + 1));
  }

  lemma ResendIsPriced(qs: set<Fees>, s: State, entries: Entries, id: nat, fees: Fees, quote: Fees)
    requires FeesSound(qs, s) && EntriesSound(qs, s, entries) && !JobOn(s.proc.job, id)
    requires Stuck(s, id) && ResendPrice(s, entries, id, fees, quote) && quote in qs
    ensures Priced(qs, fees, s.db.rows[id].retryCount + 1)
  {
    var row := s.db.rows[id];
    assert RowPriced(qs, row, s.cfg.maxRetries);
    var tx := row.txHash.value;
    var stored := tx in s.node.pool && tx.fees.maxFee > 0 && tx.fees.priority > 0;
    var previous := if id in entries then entries[id] else if stored then tx.fees else quote;
    if id !in entries && !stored {
      assert previous == BumpsOf(quote, 0);
      PricedMore(qs, previous, 0, row.retryCount);
    }
    BumpedIsPriced(qs, previous, row.retryCount);
  }

  /** A row that fails, wherever it happens, breaks nothing. */
  lemma FailKeeps(qs: set<Fees>, s: State, t: State, id: nat, o: Opts)
    requires FeesSound(qs, s) && id < |s.db.rows|
    requires t.cfg == s.cfg && t.checks == s.checks && t.node == s.node
    requires t.db == Transitioned(s.db, id, Failed, o)
    requires t.proc.job.Idle? || (t.proc.job == s.proc.job && !JobOn(t.proc.job, id))
    ensures FeesSound(qs, t)
  {
    if Allowed(s.db.rows[id].status, o) {
      RepriceKeeps(qs, s, t, id, PatchedRow(s.db.rows[id], Failed, o));
    }
  }

  lemma GiveUpKeeps(qs: set<Fees>, s: State, permanent: bool)
    requires FeesSound(qs, s)
    ensures FeesSound(qs, DoGiveUp(s, permanent))
  {
    var t := DoGiveUp(s, permanent);
    if t != s {
      var j := s.proc.job;
      FailKeeps(qs, s, t, j.id, FailWith(if permanent then j.retry else j.retry + 1));
    }
  }

  lemma ResumeFailKeeps(qs: set<Fees>, s: State, retries: nat)
    requires FeesSound(qs, s)
    ensures FeesSound(qs, DoResumeFail(s, retries))
  {
    var t := DoResumeFail(s, retries);
    if t != s {
      FailKeeps(qs, s, t, s.proc.job.id, FailWith(retries));
    }
  }

  lemma SweepFailKeeps(qs: set<Fees>, s: State, id: nat)
    requires Safe(s) && FeesSound(qs, s)
    ensures FeesSound(qs, DoSweepFail(s, id)) && FeesSound(qs, DoSweepReject(s, id))
  {
    if Stuck(s, id) {
      var n := s.db.rows[id].retryCount;
      PendingHasNoJob(s, id);
      FailKeeps(qs, s, s.(db := Transitioned(s.db, id, Failed, FailWith(n))), id, FailWith(n));
      FailKeeps(qs, s, s.(db := Transitioned(s.db, id, Failed, FailWith(n + 1))), id, FailWith(n + 1));
    }
  }

  lemma RecoverKeeps(qs: set<Fees>, s: State, id: nat)
    requires Safe(s) && FeesSound(qs, s)
    ensures FeesSound(qs, DoRecover(s, id))
  {
    if id < |s.db.rows| && s.db.rows[id].status == Submitted {
      var o := FailWith(s.db.rows[id].retryCount);
      PendingHasNoJob(s, id);
      FailKeeps(qs, s, s.(db := Transitioned(s.db, id, Failed, o)), id, o);
    }
  }

  /** Same row, another status: the retry count stays, and the hash is the handler's or the row's. */
  lemma MovedKeeps(qs: set<Fees>, s: State, t: State, c: Check, to: Status, o: Opts)
    requires FeesSound(qs, s) && c.id < |s.db.rows| && s.db.rows[c.id].status != Failed
    requires !JobOn(s.proc.job, c.id) && CheckPriced(qs, c, s.db.rows)
    requires o.retryCount == Keep && (o.txHash == Keep || o.txHash == Set(c.row.txHash))
    requires t == s.(db := Transitioned(s.db, c.id, to, o))
    ensures FeesSound(qs, t)
  {
    assert RowPriced(qs, s.db.rows[c.id], s.cfg.maxRetries);
    if Allowed(s.db.rows[c.id].status, o) {
      RepriceKeeps(qs, s, t, c.id, PatchedRow(s.db.rows[c.id], to, o));
    }
  }

  /** The listener never changes a retry count, and its stale hash is priced within the current one. */
  lemma ListenerKeeps(qs: set<Fees>, s: State, k: nat)
    requires Safe(s) && FeesSound(qs, s)
    ensures FeesSound(qs, DoAct(s, k))
  {
    if s.proc.up && k < |s.checks| && s.checks[k].id < |s.db.rows| {
      var c := s.checks[k];
      assert CheckPriced(qs, c, s.db.rows);
      StageKeeps(qs, s, k, Closed);
      StageKeeps(qs, s, k, ToFlip);
      if s.db.rows[c.id].status in PENDING {
        PendingHasNoJob(s, c.id);
        var closed, t := s.(checks := s.checks[k := c.(stage := Closed)]), DoAct(s, k);
        match c.stage
        case ToFail => FailKeeps(qs, closed, t, c.id, FailOpts());
        case ToRevert => MovedKeeps(qs, closed, t, c, Submitted, RevertOpts());
        case ToConfirm(block) => MovedKeeps(qs, closed, t, c, Confirmed, ConfirmOpts(c.row, block));
        case ToFlip => MovedKeeps(qs, closed, t, c, Final, FinalOpts(c.row));
        case _ =>
      }
    }
  }

  lemma StageKeeps(qs: set<Fees>, s: State, k: nat, stage: Stage)
    requires FeesSound(qs, s) && k < |s.checks|
    ensures FeesSound(qs, s.(checks := s.checks[k := s.checks[k].(stage := stage)]))
  {
    assert CheckPriced(qs, s.checks[k], s.db.rows);
  }

  lemma ScreenKeeps(qs: set<Fees>, s: State, r: nat, approve: bool)
    requires Safe(s) && FeesSound(qs, s)
    ensures FeesSound(qs, DoScreen(s, r, approve))
  {
    if s.proc.up && r < |s.requests| && s.requests[r].progress.Inserted? {
      assert RequestSound(s, s.requests[r]);
      var id := s.requests[r].progress.id;
      PendingHasNoJob(s, id);
      RepriceKeeps(qs, s, DoScreen(s, r, true), id, PatchedRow(s.db.rows[id], ComplianceApproved, NO_OPTS));
      RepriceKeeps(qs, s, DoScreen(s, r, false), id, PatchedRow(s.db.rows[id], RejectedCompliance, NO_OPTS));
    }
  }

  lemma InsertKeeps(qs: set<Fees>, s: State, r: nat)
    requires Safe(s) && FeesSound(qs, s)
    ensures FeesSound(qs, DoInsert(s, r))
  {
    forall k | 0 <= k < |s.checks|
      ensures CheckPriced(qs, s.checks[k], DoInsert(s, r).db.rows)
    {
      assert CheckPriced(qs, s.checks[k], s.db.rows) && CheckSound(s.checks[k], s.db.rows, s.node.accepted);
    }
  }

  lemma LoadKeeps(qs: set<Fees>, s: State)
    requires FeesSound(qs, s)
    ensures FeesSound(qs, DoLoad(s))
  {
    if s.proc.job.Taken? && s.proc.job.id < |s.db.rows| {
      assert RowPriced(qs, s.db.rows[s.proc.job.id], s.cfg.maxRetries);
    }
  }

  lemma PollKeeps(qs: set<Fees>, s: State, id: nat)
    requires FeesSound(qs, s)
    ensures FeesSound(qs, DoPoll(s, id))
  {
    if id < |s.db.rows| {
      assert RowPriced(qs, s.db.rows[id], s.cfg.maxRetries);
      assert CheckPriced(qs, Check(id, s.db.rows[id], Loaded), s.db.rows);
    }
  }

  /** Steps that touch neither rows nor fees. */
  lemma QuietKeeps(qs: set<Fees>, s: State, t: State)
    requires FeesSound(qs, s)
    requires t.cfg == s.cfg && t.db.rows == s.db.rows && t.node.accepted == s.node.accepted
    requires t.checks == s.checks || t.checks == []
    requires t.proc.job == s.proc.job || t.proc.job.Idle? || t.proc.job.Taken?
    ensures FeesSound(qs, t)
  {
  }

  lemma QuietStepKeeps(qs: set<Fees>, s: State, e: Step)
    requires Safe(s) && FeesSound(qs, s)
    requires e.Arrive? || e.Lookup? || e.CheckBalance? || e.Refetch? || e.Enqueue? || e.Take?
             || e.Move? || e.Drop? || e.Crash? || e.Boot? || e.Drain?
    ensures FeesSound(qs, Apply(s, e))
  {
    QuietKeeps(qs, s, Apply(s, e));
  }

  lemma ReadKeeps(qs: set<Fees>, s: State, k: nat, current: nat)
    requires FeesSound(qs, s)
    ensures FeesSound(qs, DoRead(s, k, current))
  {
    if k < |s.checks| {
      assert CheckPriced(qs, s.checks[k], s.db.rows);
    }
  }

  lemma RetryKeeps(qs: set<Fees>, s: State, resync: Option<nat>)
    requires FeesSound(qs, s)
    ensures FeesSound(qs, DoRetry(s, resync))
  {
  }

  lemma RaisedIsPriced(qs: set<Fees>, quote: Fees, fees: Fees, n: int, m: nat)
    requires quote in qs && RaisedFrom(quote, fees, n) && n <= m
    ensures Priced(qs, fees, m)
  {
    var k: nat :| k <= n && fees == BumpsOf(quote, k);
  }

  lemma WorkerStepKeeps(qs: set<Fees>, p: Point, e: Step, quote: Fees)
    requires Safe(p.s) && FeesSound(qs, p.s) && FollowsPolicy(p, Do(e, quote)) && quote in qs
    requires e.Load? || e.Accept? || e.Retry? || e.GiveUp? || e.Write? || e.Resume? || e.ResumeFail?
    ensures FeesSound(qs, Apply(p.s, e))
  {
    var s := p.s;
    match e
    case Load => LoadKeeps(qs, s);
    case Accept(gas, fees) =>
      if CanAccept(s) {
        var j := s.proc.job;
        RaisedIsPriced(qs, quote, fees, j.retry - s.db.rows[j.id].retryCount, j.retry);
      }
      AcceptKeeps(qs, s, gas, fees);
    case Retry(resync) => RetryKeeps(qs, s, resync);
    case GiveUp(permanent) => GiveUpKeeps(qs, s, permanent);
    case Write => WriteKeeps(qs, s);
    case Resume(gas, fees, retries, crash) =>
      if CanResume(s, retries) {
        RaisedIsPriced(qs, quote, fees, retries - s.db.rows[s.proc.job.id].retryCount, retries);
      }
      ResumeKeeps(qs, s, gas, fees, retries, crash);
    case ResumeFail(retries) => ResumeFailKeeps(qs, s, retries);
  }

  lemma OpenRowStepKeeps(qs: set<Fees>, p: Point, e: Step, quote: Fees)
    requires Safe(p.s) && FeesSound(qs, p.s) && EntriesSound(qs, p.s, p.entries)
    requires FollowsPolicy(p, Do(e, quote)) && quote in qs
    requires e.SweepResend? || e.SweepFail? || e.SweepReject? || e.Recover? || e.Poll? || e.Read? || e.Act?
    ensures FeesSound(qs, Apply(p.s, e))
  {
    var s := p.s;
    match e
    case SweepResend(id, gas, fees, crash) => SweepResendKeeps(qs, s, p.entries, id, gas, fees, crash, quote);
    case SweepFail(id) => SweepFailKeeps(qs, s, id);
    case SweepReject(id) => SweepFailKeeps(qs, s, id);
    case Recover(id) => RecoverKeeps(qs, s, id);
    case Poll(id) => PollKeeps(qs, s, id);
    case Read(k, current) => ReadKeeps(qs, s, k, current);
    case Act(k) => ListenerKeeps(qs, s, k);
  }

  lemma StepKeepsFees(qs: set<Fees>, p: Point, e: Step, quote: Fees)
    requires Safe(p.s) && FeesSound(qs, p.s) && EntriesSound(qs, p.s, p.entries)
    requires FollowsPolicy(p, Do(e, quote)) && quote in qs
    ensures FeesSound(qs, Apply(p.s, e))
  {
    if e.Insert? {
      InsertKeeps(qs, p.s, e.r);
    } else if e.Screen? {
      ScreenKeeps(qs, p.s, e.r, e.approve);
    } else if OfWorker(e) && !e.Take? {
      WorkerStepKeeps(qs, p, e, quote);
    } else if e.SweepResend? || e.SweepFail? || e.SweepReject? || e.Recover? || e.Poll? || e.Read? || e.Act? {
      OpenRowStepKeeps(qs, p, e, quote);
    } else {
      QuietStepKeeps(qs, p.s, e);
    }
  }

  // ---- Entries --------------------------------------------------------------

  /** No settlement's retry count, written or about to be, goes down, except into failure. */
  predicate RetriesGrow(s: State, t: State) {
    && |s.db.rows| <= |t.db.rows|
    && forall id :: 0 <= id < |s.db.rows| && t.db.rows[id].status != Failed ==>
         s.db.rows[id].status != Failed && RetryOf(s, id) <= RetryOf(t, id)
  }

  lemma EntriesStay(qs: set<Fees>, s: State, t: State, entries: Entries)
    requires EntriesSound(qs, s, entries) && RetriesGrow(s, t)
    ensures EntriesSound(qs, t, entries)
  {
    forall id | id in entries && t.db.rows[id].status != Failed
      ensures Priced(qs, entries[id], RetryOf(t, id))
    {
      PricedMore(qs, entries[id], RetryOf(s, id), RetryOf(t, id));
    }
  }

  lemma RetriesGrowOnRequests(s: State, e: Step)
    requires Safe(s)
    requires e.Arrive? || e.Lookup? || e.CheckBalance? || e.Refetch? || e.Insert? || e.Screen? || e.Enqueue?
    ensures RetriesGrow(s, Apply(s, e))
  {
    match e
    case Screen(r, _) =>
      if r < |s.requests| {
        assert RequestSound(s, s.requests[r]);
      }
    case _ =>
  }

  lemma RetriesGrowOnWork(qs: set<Fees>, s: State, e: Step)
    requires Safe(s) && FeesSound(qs, s)
    requires e.Take? || e.Load? || e.Accept? || e.Retry? || e.GiveUp? || e.Write?
    ensures RetriesGrow(s, Apply(s, e))
  {
  }

  lemma RetriesGrowOnResume(s: State, e: Step)
    requires Safe(s)
    requires (e.Resume? && !e.crash) || e.ResumeFail?
    ensures RetriesGrow(s, Apply(s, e))
  {
  }

  lemma RetriesGrowOnSweep(s: State, e: Step)
    requires Safe(s)
    requires (e.SweepResend? && !e.crash) || e.SweepFail? || e.SweepReject?
    ensures RetriesGrow(s, Apply(s, e))
  {
  }

  lemma RetriesGrowOnRecover(s: State, id: nat)
    requires Safe(s)
    ensures RetriesGrow(s, DoRecover(s, id))
  {
  }

  lemma RetriesGrowOnAct(s: State, k: nat)
    requires Safe(s)
    ensures RetriesGrow(s, DoAct(s, k))
  {
    if s.proc.up && k < |s.checks| {
      var c := s.checks[k];
      assert CheckSound(c, s.db.rows, s.node.accepted);
      match c.stage
      case ToFail => GrowOnMove(s, DoAct(s, k), c.id, Failed, FailOpts());
      case ToRevert => GrowOnMove(s, DoAct(s, k), c.id, Submitted, RevertOpts());
      case ToConfirm(block) => GrowOnMove(s, DoAct(s, k), c.id, Confirmed, ConfirmOpts(c.row, block));
      case ToFlip => GrowOnMove(s, DoAct(s, k), c.id, Final, FinalOpts(c.row));
      case _ =>
    }
  }

  /** A guarded transition that leaves the retry count alone. */
  lemma GrowOnMove(s: State, t: State, id: nat, to: Status, o: Opts)
    requires id < |s.db.rows| && t.proc == s.proc && t.db.rows == Transitioned(s.db, id, to, o).rows
    requires o.retryCount == Keep && o.expectedFrom.Some? && Failed !in o.expectedFrom.value
    ensures RetriesGrow(s, t)
  {
  }

  lemma RetriesGrowElsewhere(s: State, e: Step)
    requires Safe(s)
    requires e.Poll? || e.Read? || e.Move? || e.Drop? || e.Boot? || e.Drain?
    ensures RetriesGrow(s, Apply(s, e))
  {
  }

  lemma RetriesGrowOnStep(qs: set<Fees>, s: State, e: Step)
    requires Safe(s) && FeesSound(qs, s)
    requires !e.Crash? && (e.Resume? || e.SweepResend? ==> !e.crash || Apply(s, e) == s)
    ensures RetriesGrow(s, Apply(s, e))
  {
    if Apply(s, e) != s {
      RetriesGrowOnChange(qs, s, e);
    }
  }

  lemma RetriesGrowOnChange(qs: set<Fees>, s: State, e: Step)
    requires Safe(s) && FeesSound(qs, s)
    requires !e.Crash? && (e.Resume? || e.SweepResend? ==> !e.crash)
    ensures RetriesGrow(s, Apply(s, e))
  {
    match e
    case Arrive(_, _, _) => RetriesGrowOnRequests(s, e);
    case Lookup(_) => RetriesGrowOnRequests(s, e);
    case CheckBalance(_) => RetriesGrowOnRequests(s, e);
    case Insert(_) => RetriesGrowOnRequests(s, e);
    case Refetch(_) => RetriesGrowOnRequests(s, e);
    case Screen(_, _) => RetriesGrowOnRequests(s, e);
    case Enqueue(_) => RetriesGrowOnRequests(s, e);
    case Take => RetriesGrowOnWork(qs, s, e);
    case Load => RetriesGrowOnWork(qs, s, e);
    case Accept(_, _) => RetriesGrowOnWork(qs, s, e);
    case Retry(_) => RetriesGrowOnWork(qs, s, e);
    case GiveUp(_) => RetriesGrowOnWork(qs, s, e);
    case Write => RetriesGrowOnWork(qs, s, e);
    case Resume(_, _, _, _) => RetriesGrowOnResume(s, e);
    case ResumeFail(_) => RetriesGrowOnResume(s, e);
    case SweepResend(_, _, _, _) => RetriesGrowOnSweep(s, e);
    case SweepFail(_) => RetriesGrowOnSweep(s, e);
    case SweepReject(_) => RetriesGrowOnSweep(s, e);
    case Recover(id) => RetriesGrowOnRecover(s, id);
    case Act(k) => RetriesGrowOnAct(s, k);
    case _ => RetriesGrowElsewhere(s, e);
  }

  lemma EntrySet(qs: set<Fees>, s: State, entries: Entries, id: nat, fees: Fees)
    requires EntriesSound(qs, s, entries) && id < |s.db.rows|
    requires s.db.rows[id].status != Failed ==> Priced(qs, fees, RetryOf(s, id))
    ensures EntriesSound(qs, s, entries[id := fees])
  {
  }

  lemma EntriesFewer(qs: set<Fees>, s: State, entries: Entries, id: nat)
    requires EntriesSound(qs, s, entries)
    ensures EntriesSound(qs, s, entries - {id})
  {
  }

  /** The entry an accepted broadcast sets is priced within what the step leaves in the row. */
  lemma SentIsPriced(qs: set<Fees>, p: Point, e: Step, quote: Fees, id: nat)
    requires Safe(p.s) && FeesSound(qs, p.s) && EntriesSound(qs, p.s, p.entries)
    requires FollowsPolicy(p, Do(e, quote)) && quote in qs && Apply(p.s, e) != p.s
    requires e.Accept? || (e.Resume? && !e.crash) || (e.SweepResend? && !e.crash)
    requires id == if e.SweepResend? then e.id else if p.s.proc.job.Idle? then id else p.s.proc.job.id
    ensures id < |p.s.db.rows| && id < |Apply(p.s, e).db.rows| && Priced(qs, e.fees, RetryOf(Apply(p.s, e), id))
  {
    var s := p.s;
    match e
    case Accept(_, fees) =>
      RaisedIsPriced(qs, quote, fees, s.proc.job.retry - s.db.rows[id].retryCount, s.proc.job.retry);
    case Resume(_, fees, retries, _) =>
      RaisedIsPriced(qs, quote, fees, retries - s.db.rows[id].retryCount, retries);
    case SweepResend(_, _, fees, _) =>
      PendingHasNoJob(s, id);
      ResendIsPriced(qs, s, p.entries, id, fees, quote);
  }

  lemma RecoveredIsPriced(qs: set<Fees>, s: State, id: nat)
    requires Safe(s) && FeesSound(qs, s) && id < |s.db.rows| && s.db.rows[id].status == Submitted
    requires s.db.rows[id].txHash.Some?
    ensures var t := DoRecover(s, id);
            t.db.rows[id].status != Failed ==> Priced(qs, s.db.rows[id].txHash.value.fees, RetryOf(t, id))
  {
    PendingHasNoJob(s, id);
    assert RowPriced(qs, s.db.rows[id], s.cfg.maxRetries);
  }

  /** Tracking either leaves the entries, clears them, removes one, or sets one. */
  lemma TrackKinds(s: State, entries: Entries, e: Step)
    requires s.cfg.final >= 1
    ensures var next := Track(s, entries, e);
            || next == entries || next == map[]
            || ((e.GiveUp? || e.ResumeFail?) && next == entries - {if s.proc.job.Idle? then 0 else s.proc.job.id})
            || ((e.SweepFail? || e.SweepReject? || e.Recover?) && next == entries - {e.id})
            || (e.Recover? && e.id < |s.db.rows| && s.db.rows[e.id].status == Submitted
                && s.db.rows[e.id].txHash.Some? && next == entries[e.id := s.db.rows[e.id].txHash.value.fees])
            || ((e.Accept? || (e.Resume? && !e.crash) || (e.SweepResend? && !e.crash)) && Apply(s, e) != s
                && (e.SweepResend? || !s.proc.job.Idle?)
                && next == entries[(if e.SweepResend? then e.id else s.proc.job.id) := e.fees])
  {
  }

  lemma StepKeepsEntries(qs: set<Fees>, p: Point, e: Step, quote: Fees)
    requires Safe(p.s) && FeesSound(qs, p.s) && EntriesSound(qs, p.s, p.entries)
    requires FollowsPolicy(p, Do(e, quote)) && quote in qs
    ensures EntriesSound(qs, Apply(p.s, e), Track(p.s, p.entries, e))
  {
    var s, entries := p.s, p.entries;
    var t, next := Apply(s, e), Track(s, entries, e);
    if next != map[] {
      TrackKinds(s, entries, e);
      StaysUnlessCrashed(s, entries, e);
      RetriesGrowOnStep(qs, s, e);
      EntriesStay(qs, s, t, entries);
      if e.GiveUp? || e.ResumeFail? {
        EntriesFewer(qs, t, entries, if s.proc.job.Idle? then 0 else s.proc.job.id);
      } else if e.SweepFail? || e.SweepReject? {
        EntriesFewer(qs, t, entries, e.id);
      } else if e.Recover? {
        EntriesFewer(qs, t, entries, e.id);
        if e.id < |s.db.rows| && s.db.rows[e.id].status == Submitted && s.db.rows[e.id].txHash.Some? {
          RecoveredIsPriced(qs, s, e.id);
          EntrySet(qs, t, entries, e.id, s.db.rows[e.id].txHash.value.fees);
        }
      } else if next != entries {
        var id := if e.SweepResend? then e.id else s.proc.job.id;
        SentIsPriced(qs, p, e, quote, id);
        EntrySet(qs, t, entries, id, e.fees);
      }
    }
  }

  /** Where entries survive, the process did; a crash that changes nothing never happens in a send. */
  lemma StaysUnlessCrashed(s: State, entries: Entries, e: Step)
    requires s.cfg.final >= 1 && Track(s, entries, e) != map[]
    ensures !e.Crash? && (e.Resume? || e.SweepResend? ==> !e.crash || Apply(s, e) == s)
  {
  }

  // ---- Over whole runs --------------------------------------------------------

  ghost predicate PointSound(qs: set<Fees>, p: Point) {
    Safe(p.s) && FeesSound(qs, p.s) && EntriesSound(qs, p.s, p.entries)
  }

  lemma MoveKeepsSound(qs: set<Fees>, p: Point, m: QuotedStep)
    requires PointSound(qs, p) && FollowsPolicy(p, m) && QuotedIn(qs, [m])
    ensures PointSound(qs, Stepped(p, m))
  {
    match m
    case Do(e, quote) =>
      assert [m][0] == m;
      StepKeepsSafe(p.s, e);
      StepKeepsFees(qs, p, e, quote);
      StepKeepsEntries(qs, p, e, quote);
    case Forget(id) =>
      EntriesFewer(qs, p.s, p.entries, id);
  }

  lemma {:induction false} RunKeepsSound(qs: set<Fees>, p: Point, moves: seq<QuotedStep>)
    requires PointSound(qs, p) && AlongPolicy(p, moves) && QuotedIn(qs, moves)
    ensures PointSound(qs, RunAll(p, moves))
    decreases |moves|
  {
    if |moves| > 0 {
      MoveKeepsSound(qs, p, moves[0]);
      RunKeepsSound(qs, Stepped(p, moves[0]), moves[1..]);
    }
  }

  /**
   * Every accepted broadcast of a run priced by the policy carries a price that the
   * network quoted in that run, raised at most MAX_RETRIES times.
   */
  lemma FeesAreRaisedQuotes(s: State, moves: seq<QuotedStep>, qs: set<Fees>, b: Broadcast)
    requires Init(s) && AlongPolicy(Point(s, map[]), moves) && QuotedIn(qs, moves)
    requires b in RunAll(Point(s, map[]), moves).s.node.accepted
    ensures Priced(qs, b.tx.fees, s.cfg.maxRetries)
  {
    InitSafe(s);
    RunKeepsSound(qs, Point(s, map[]), moves);
  }

  /** Both parts lie between those of `low` and `high`. */
  predicate WithinCaps(low: Fees, fees: Fees, high: Fees) {
    low.maxFee <= fees.maxFee <= high.maxFee && low.priority <= fees.priority <= high.priority
  }

  /** Powers of five grow faster than powers of four, so fewer raises stay under the same cap. */
  lemma {:induction false} CapGrows(fee: nat, price: nat, cap: nat, k: nat, n: nat)
    requires k <= n && price <= cap && Pow(4, k) * fee <= Pow(5, k) * price
    ensures Pow(4, n) * fee <= Pow(5, n) * cap
    decreases n - k
  {
    if k == n {
      MulGrows(Pow(5, k), price, cap);
    } else {
      ChainRatioDown(Pow(5, k), Pow(4, k), price, fee, fee);
      assert (4 * Pow(4, k)) * fee <= (5 * Pow(5, k)) * price;
      CapGrows(fee, price, cap, k + 1, n);
    }
  }

  lemma MulGrows(p: nat, a: nat, b: nat)
    requires a <= b
    ensures p * a <= p * b
  {
  }

  /**
   * Fee bound: if every price the network quotes in a run lies between `low` and
   * `high`, and `low` is at least 4 in both parts, then every accepted broadcast pays
   * at least `low` and at most (5/4)^MAX_RETRIES of `high`; and its cap covers its tip
   * if every quote's does.
   */
  lemma FeesStayBounded(s: State, moves: seq<QuotedStep>, qs: set<Fees>, low: Fees, high: Fees, b: Broadcast)
    requires Init(s) && AlongPolicy(Point(s, map[]), moves) && QuotedIn(qs, moves)
    requires forall q :: q in qs ==> WithinCaps(low, q, high)
    requires b in RunAll(Point(s, map[]), moves).s.node.accepted
    ensures Pow(4, s.cfg.maxRetries) * b.tx.fees.maxFee <= Pow(5, s.cfg.maxRetries) * high.maxFee
    ensures Pow(4, s.cfg.maxRetries) * b.tx.fees.priority <= Pow(5, s.cfg.maxRetries) * high.priority
    ensures low.maxFee >= 4 ==> b.tx.fees.maxFee >= low.maxFee
    ensures low.priority >= 4 ==> b.tx.fees.priority >= low.priority
    ensures (forall q :: q in qs ==> q.priority <= q.maxFee) ==> b.tx.fees.priority <= b.tx.fees.maxFee
  {
    FeesAreRaisedQuotes(s, moves, qs, b);
    PricedIsBounded(qs, b.tx.fees, s.cfg.maxRetries, low, high);
  }

  lemma PricedIsBounded(qs: set<Fees>, fees: Fees, n: nat, low: Fees, high: Fees)
    requires Priced(qs, fees, n) && forall q :: q in qs ==> WithinCaps(low, q, high)
    ensures Pow(4, n) * fees.maxFee <= Pow(5, n) * high.maxFee
    ensures Pow(4, n) * fees.priority <= Pow(5, n) * high.priority
    ensures low.maxFee >= 4 ==> fees.maxFee >= low.maxFee
    ensures low.priority >= 4 ==> fees.priority >= low.priority
    ensures (forall q :: q in qs ==> q.priority <= q.maxFee) ==> fees.priority <= fees.maxFee
  {
    var market: Fees, k: nat :| market in qs && k <= n && fees == BumpsOf(market, k);
    FeeAfterBumps(market.maxFee, k);
    FeeAfterBumps(market.priority, k);
    CapGrows(fees.maxFee, market.maxFee, high.maxFee, k, n);
    CapGrows(fees.priority, market.priority, high.priority, k, n);
    if market.priority <= market.maxFee {
      CapCoversTip(market, k);
    }
  }
}
