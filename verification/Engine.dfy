/**
 * The settlement engine as one transition system. A state holds the database,
 * the chain with the operator's mempool, the relayer process, the listener's
 * handlers in flight and the create requests in flight. A step is one atomic
 * piece of a handler between two awaits, a move of the chain, or a crash or
 * restart of the process. Apply is total: a step that is not enabled changes
 * nothing, so a run is any sequence of steps whatever.
 */
module Engine {
  import opened Basics
  import opened Rail
  import opened Chain
  import opened SettlementState
  import opened Books
  import opened Sums

  /** A transaction the node accepted, and the settlement it was sent for. */
  datatype Broadcast = Broadcast(id: nat, tx: Tx)

  datatype Node = Node(blocks: seq<Block>, pool: set<Tx>, accepted: seq<Broadcast>)

  /** Where the single worker stands in its current job. */
  datatype Job =
    | Idle
    | Taken(id: nat)
    | Sending(id: nat, nonce: nat, retry: nat)
    | Writing(id: nat, tx: Tx, retry: nat)

  datatype Proc = Proc(up: bool, draining: bool, queue: seq<nat>, job: Job, localNonce: nat)

  /** What the listener decided to do with one settlement. */
  datatype Stage =
    | Loaded | ToFail | ToRevert | ToConfirm(block: BlockRef) | ToBook | ToFlip | Closed

  /** One listener handler: the row it loaded, and how far it has got. */
  datatype Check = Check(id: nat, row: Row, stage: Stage)

  datatype Progress =
    | Arrived | Missed | Cleared | Raced
    | Inserted(id: nat) | Approved(id: nat)
    | Returned(id: nat, created: bool) | Refused | Lost

  datatype Request = Request(instruction: InstructionId, to: Address, amount: nat, progress: Progress)

  datatype State = State(
    cfg: Config,
    db: Db,
    node: Node,
    proc: Proc,
    checks: seq<Check>,
    requests: seq<Request>,
    enqueued: seq<nat>)

  datatype Step =
    // create requests
    | Arrive(instruction: InstructionId, to: Address, amount: nat)
    | Lookup(r: nat)
    | CheckBalance(r: nat)
    | Insert(r: nat)
    | Refetch(r: nat)
    | Screen(r: nat, approve: bool)
    | Enqueue(r: nat)
    // relayer worker
    | Take
    | Load
    | Accept(gas: nat, fees: Fees)
    | Retry(resync: Option<nat>)
    | GiveUp(permanent: bool)
    | Write
    | Resume(gas: nat, fees: Fees, retries: nat, crash: bool)
    | ResumeFail(retries: nat)
    // stuck-transaction sweep and restart recovery
    | SweepResend(id: nat, gas: nat, fees: Fees, crash: bool)
    | SweepFail(id: nat)
    | SweepReject(id: nat)
    | Recover(id: nat)
    // chain listener
    | Poll(id: nat)
    | Read(k: nat, current: nat)
    | Act(k: nat)
    // environment
    | Move(drop: nat, added: seq<Block>)
    | Drop(tx: Tx)
    | Crash
    | Boot(pending: nat)
    | Drain

  // ---- Derived quantities ---------------------------------------------------

  function Sent(accepted: seq<Broadcast>): set<Tx> {
    set b | b in accepted :: b.tx
  }

  /** Ledger balance minus everything in flight: what a new settlement may draw. */
  function Available(db: Db): int {
    OperatorBalance(db.ledger) - SumOver(Amounts(db.rows), WithStatus(db.rows, IN_FLIGHT))
  }

  predicate Holds(pool: set<Tx>, nonce: nat) {
    exists t :: t in pool && t.nonce == nonce
  }

  /** getTransactionCount(operator, 'pending'): the first nonce the node has no transaction for. */
  predicate IsPendingCount(node: Node, base: nat, v: nat) {
    && v >= NextNonce(node.blocks, base)
    && (forall n :: NextNonce(node.blocks, base) <= n < v ==> Holds(node.pool, n))
    && !Holds(node.pool, v)
  }

  function PaymentOf(row: Row, nonce: nat, gas: nat, fees: Fees): Tx {
    Tx(nonce, row.to, row.amount, gas, fees)
  }

  /** The node takes a transaction; it replaces pool entries of the same nonce. */
  function Accepted(node: Node, id: nat, tx: Tx): Node {
    node.(accepted := node.accepted + [Broadcast(id, tx)],
          pool := (set t | t in node.pool && t.nonce != tx.nonce) + {tx})
  }

  function Unfinished(p: Progress): bool {
    !p.Returned? && !p.Refused?
  }

  /** Everything in memory is gone; requests in flight never answer. */
  function Crashed(s: State): State {
    s.(proc := Proc(false, false, [], Idle, 0),
       checks := [],
       requests := seq(|s.requests|, r requires 0 <= r < |s.requests| =>
         if Unfinished(s.requests[r].progress) then s.requests[r].(progress := Lost) else s.requests[r]))
  }

  // ---- Create path ----------------------------------------------------------

  function Advance(s: State, r: nat, p: Progress): State
    requires r < |s.requests|
  {
    s.(requests := s.requests[r := s.requests[r].(progress := p)])
  }

  predicate At(s: State, r: nat, p: Progress) {
    s.proc.up && r < |s.requests| && s.requests[r].progress == p
  }

  function DoArrive(s: State, instruction: InstructionId, to: Address, amount: nat): State {
    if !s.proc.up || amount == 0 then s
    else s.(requests := s.requests + [Request(instruction, to, amount, Arrived)])
  }

  function DoLookup(s: State, r: nat): State {
    if !At(s, r, Arrived) then s
    else
      var found := FindInstruction(s.db.rows, s.requests[r].instruction);
      Advance(s, r, if found.Some? then Returned(found.value, false) else Missed)
  }

  function DoCheckBalance(s: State, r: nat): State {
    if !At(s, r, Missed) then s
    else Advance(s, r, if s.requests[r].amount > Available(s.db) then Refused else Cleared)
  }

  /** The unique instruction id turns a lost race into a constraint violation. */
  function DoInsert(s: State, r: nat): State {
    if !At(s, r, Cleared) then s
    else
      var q := s.requests[r];
      if FindInstruction(s.db.rows, q.instruction).Some? then Advance(s, r, Raced)
      else
        Advance(s, r, Inserted(|s.db.rows|))
          .(db := s.db.(rows := s.db.rows + [NewRow(q.instruction, q.to, q.amount)]))
  }

  function DoRefetch(s: State, r: nat): State {
    if !At(s, r, Raced) then s
    else
      var found := FindInstruction(s.db.rows, s.requests[r].instruction);
      Advance(s, r, if found.Some? then Returned(found.value, false) else Refused)
  }

  function DoScreen(s: State, r: nat, approve: bool): State {
    if !(s.proc.up && r < |s.requests| && s.requests[r].progress.Inserted?
         && s.requests[r].progress.id < |s.db.rows|) then s
    else
      var id := s.requests[r].progress.id;
      if approve then
        Advance(s, r, Approved(id)).(db := Transitioned(s.db, id, ComplianceApproved, NO_OPTS))
      else
        Advance(s, r, Returned(id, true)).(db := Transitioned(s.db, id, RejectedCompliance, NO_OPTS))
  }

  function DoEnqueue(s: State, r: nat): State {
    if !(s.proc.up && r < |s.requests| && s.requests[r].progress.Approved?) then s
    else
      var id := s.requests[r].progress.id;
      Advance(s, r, Returned(id, true))
        .(proc := Pushed(s.proc, id), enqueued := s.enqueued + [id])
  }

  // ---- Relayer --------------------------------------------------------------

  function Pushed(p: Proc, id: nat): Proc {
    if p.draining then p else p.(queue := p.queue + [id])
  }

  function DoTake(s: State): State {
    if !(s.proc.up && !s.proc.draining && s.proc.job.Idle? && |s.proc.queue| > 0) then s
    else s.(proc := s.proc.(queue := s.proc.queue[1..], job := Taken(s.proc.queue[0])))
  }

  predicate Resumable(row: Row) {
    row.status == Submitted && row.nonce.Some?
  }

  /** A fresh job takes the local nonce; a resumable one is left to Resume. */
  function DoLoad(s: State): State {
    if !(s.proc.up && s.proc.job.Taken?) then s
    else
      var id := s.proc.job.id;
      if id >= |s.db.rows| then s.(proc := s.proc.(job := Idle))
      else
        var row := s.db.rows[id];
        if Resumable(row) then s
        else if row.status == ComplianceApproved || row.status == Submitted then
          s.(proc := s.proc.(job := Sending(id, s.proc.localNonce, row.retryCount)))
        else s.(proc := s.proc.(job := Idle))
  }

  function DoAccept(s: State, gas: nat, fees: Fees): State {
    if !(s.proc.up && s.proc.job.Sending? && s.proc.job.id < |s.db.rows|) then s
    else
      var j := s.proc.job;
      var tx := PaymentOf(s.db.rows[j.id], j.nonce, gas, fees);
      s.(node := Accepted(s.node, j.id, tx),
         proc := s.proc.(
           localNonce := if j.nonce == s.proc.localNonce then s.proc.localNonce + 1 else s.proc.localNonce,
           job := Writing(j.id, tx, j.retry)))
  }

  /** A rejected broadcast that will be tried again, with the nonce refetched or not. */
  function DoRetry(s: State, resync: Option<nat>): State {
    if !(s.proc.up && s.proc.job.Sending? && s.proc.job.retry + 1 <= s.cfg.maxRetries) then s
    else
      var j := s.proc.job;
      if resync.None? then s.(proc := s.proc.(job := Sending(j.id, j.nonce, j.retry + 1)))
      else
        s.(proc := s.proc.(job := Sending(j.id, resync.value, j.retry + 1), localNonce := resync.value))
  }

  function DoGiveUp(s: State, permanent: bool): State {
    if !(s.proc.up && s.proc.job.Sending? && s.proc.job.id < |s.db.rows|
         && (permanent || s.proc.job.retry + 1 > s.cfg.maxRetries)) then s
    else
      var j := s.proc.job;
      s.(db := Transitioned(s.db, j.id, Failed, FailWith(if permanent then j.retry else j.retry + 1)),
         proc := s.proc.(job := Idle))
  }

  function DoWrite(s: State): State {
    if !(s.proc.up && s.proc.job.Writing? && s.proc.job.id < |s.db.rows|) then s
    else
      var j := s.proc.job;
      s.(db := Transitioned(s.db, j.id, Submitted, SubmitWith(j.tx, j.retry)),
         proc := s.proc.(job := Idle))
  }

  predicate Resuming(s: State) {
    s.proc.up && s.proc.job.Taken? && s.proc.job.id < |s.db.rows| && Resumable(s.db.rows[s.proc.job.id])
  }

  /** A recovered job is sent again with its stored nonce, after some failed attempts. */
  function DoResume(s: State, gas: nat, fees: Fees, retries: nat, crash: bool): State {
    if !Resuming(s) then s
    else
      var id := s.proc.job.id;
      var row := s.db.rows[id];
      if !(retries == row.retryCount || row.retryCount < retries <= s.cfg.maxRetries) then s
      else
        var tx := PaymentOf(row, row.nonce.value, gas, fees);
        var sent := s.(node := Accepted(s.node, id, tx));
        if crash then Crashed(sent)
        else sent.(db := Transitioned(s.db, id, Submitted, SubmitWith(tx, retries)),
                   proc := s.proc.(job := Idle))
  }

  function DoResumeFail(s: State, retries: nat): State {
    if !(Resuming(s) && s.db.rows[s.proc.job.id].retryCount <= retries) then s
    else s.(db := Transitioned(s.db, s.proc.job.id, Failed, FailWith(retries)),
            proc := s.proc.(job := Idle))
  }

  // ---- Sweep and recovery ---------------------------------------------------

  /** A SUBMITTED row whose transaction has no receipt. */
  predicate Stuck(s: State, id: nat) {
    && s.proc.up && id < |s.db.rows|
    && s.db.rows[id].status == Submitted
    && s.db.rows[id].txHash.Some? && s.db.rows[id].nonce.Some?
    && ReceiptOf(s.node.blocks, s.db.rows[id].txHash.value).None?
  }

  function DoSweepResend(s: State, id: nat, gas: nat, fees: Fees, crash: bool): State {
    if !(Stuck(s, id) && s.db.rows[id].retryCount < s.cfg.maxRetries) then s
    else
      var row := s.db.rows[id];
      var tx := PaymentOf(row, row.nonce.value, gas, fees);
      var sent := s.(node := Accepted(s.node, id, tx));
      if crash then Crashed(sent)
      else sent.(db := Resent(s.db, id, tx, row.retryCount + 1))
  }

  function DoSweepFail(s: State, id: nat): State {
    if !(Stuck(s, id) && s.db.rows[id].retryCount >= s.cfg.maxRetries) then s
    else s.(db := Transitioned(s.db, id, Failed, FailWith(s.db.rows[id].retryCount)))
  }

  function DoSweepReject(s: State, id: nat): State {
    if !(Stuck(s, id) && s.db.rows[id].retryCount < s.cfg.maxRetries) then s
    else s.(db := Transitioned(s.db, id, Failed, FailWith(s.db.rows[id].retryCount + 1)))
  }

  function DoRecover(s: State, id: nat): State {
    if !(s.proc.up && id < |s.db.rows| && s.db.rows[id].status == Submitted) then s
    else
      var row := s.db.rows[id];
      if row.txHash.None? then s.(proc := Pushed(s.proc, id))
      else
        var receipt := ReceiptOf(s.node.blocks, row.txHash.value);
        if receipt.Some? then
          if receipt.value.ok then s
          else s.(db := Transitioned(s.db, id, Failed, FailWith(row.retryCount)))
        else if row.txHash.value in s.node.pool then s
        else s.(proc := Pushed(s.proc, id))
  }

  // ---- Listener -------------------------------------------------------------

  function DoPoll(s: State, id: nat): State {
    if !(s.proc.up && id < |s.db.rows| && s.db.rows[id].status in PENDING) then s
    else s.(checks := s.checks + [Check(id, s.db.rows[id], Loaded)])
  }

  /** What processReceipt does with a row, a receipt and a block number. */
  function Decide(cfg: Config, row: Row, receipt: Option<Receipt>, current: nat): Stage {
    if receipt.None? then
      if row.confirmedBlock.Some? then ToRevert else Closed
    else
      var r := receipt.value;
      if !r.ok then ToFail
      else if row.confirmedBlock.Some? && row.confirmedBlock.value.hash != r.blockHash then ToRevert
      else
        var confirmations := current as int - r.number as int + 1;
        if confirmations >= cfg.final then ToBook
        else if confirmations >= cfg.confirmed && row.status == Submitted then
          ToConfirm(BlockRef(r.blockHash, r.number))
        else Closed
  }

  /** The block number was read earlier: it is at most the head now. */
  function DoRead(s: State, k: nat, current: nat): State {
    if !(s.proc.up && k < |s.checks| && s.checks[k].stage.Loaded? && current < |s.node.blocks|) then s
    else
      var c := s.checks[k];
      var stage :=
        if c.row.txHash.None? then Closed
        else Decide(s.cfg, c.row, ReceiptOf(s.node.blocks, c.row.txHash.value), current);
      s.(checks := s.checks[k := c.(stage := stage)])
  }

  function RevertOpts(): Opts {
    NO_OPTS.(confirmedBlock := Set(None), expectedFrom := Some({Confirmed}))
  }

  function FailOpts(): Opts {
    NO_OPTS.(expectedFrom := Some({Submitted, Confirmed}))
  }

  function ConfirmOpts(row: Row, block: BlockRef): Opts {
    NO_OPTS.(txHash := Set(row.txHash), confirmedBlock := Set(Some(block)), expectedFrom := Some({Submitted}))
  }

  function FinalOpts(row: Row): Opts {
    NO_OPTS.(txHash := Set(row.txHash), expectedFrom := Some({Submitted, Confirmed}))
  }

  /** One database write of a handler; finalising takes two, booking first. */
  function DoAct(s: State, k: nat): State {
    if !(s.proc.up && k < |s.checks| && s.checks[k].id < |s.db.rows|) then s
    else
      var c := s.checks[k];
      var closed := s.(checks := s.checks[k := c.(stage := Closed)]);
      match c.stage
      case Loaded => s
      case Closed => s
      case ToFail => closed.(db := Transitioned(s.db, c.id, Failed, FailOpts()))
      case ToRevert => closed.(db := Transitioned(s.db, c.id, Submitted, RevertOpts()))
      case ToConfirm(block) => closed.(db := Transitioned(s.db, c.id, Confirmed, ConfirmOpts(c.row, block)))
      case ToBook =>
        s.(checks := s.checks[k := c.(stage := ToFlip)],
           db := s.db.(ledger := Booked(s.db.ledger, c.id, c.row.amount)))
      case ToFlip => closed.(db := Transitioned(s.db, c.id, Final, FinalOpts(c.row)))
  }

  // ---- Environment ----------------------------------------------------------

  predicate ValidMove(s: State, drop: nat, added: seq<Block>) {
    && drop < s.cfg.final && drop <= |s.node.blocks| && drop <= |added|
    && NonceOrder(Flatten(Reorganised(s.node.blocks, drop, added)), s.cfg.base)
    && (forall m :: m in Flatten(Reorganised(s.node.blocks, drop, added)) ==> m.tx in Sent(s.node.accepted))
  }

  /** Unmined transactions of removed blocks return to the pool; mined nonces leave it. */
  function DoMove(s: State, drop: nat, added: seq<Block>): State
    requires s.cfg.final >= 1
  {
    if !ValidMove(s, drop, added) then s
    else
      var next := Reorganised(s.node.blocks, drop, added);
      var known := s.node.pool + (set m | m in Flatten(s.node.blocks) :: m.tx);
      s.(node := s.node.(
        blocks := next,
        pool := set t | t in known && t.nonce >= NextNonce(next, s.cfg.base)))
  }

  function DoDrop(s: State, tx: Tx): State {
    s.(node := s.node.(pool := s.node.pool - {tx}))
  }

  function DoBoot(s: State, pending: nat): State {
    if s.proc.up then s else s.(proc := Proc(true, false, [], Idle, pending))
  }

  function DoDrain(s: State): State {
    s.(proc := s.proc.(draining := true))
  }

  // ---- The system -----------------------------------------------------------

  function Apply(s: State, e: Step): State
    requires s.cfg.final >= 1
  {
    match e
    case Arrive(instruction, to, amount) => DoArrive(s, instruction, to, amount)
    case Lookup(r) => DoLookup(s, r)
    case CheckBalance(r) => DoCheckBalance(s, r)
    case Insert(r) => DoInsert(s, r)
    case Refetch(r) => DoRefetch(s, r)
    case Screen(r, approve) => DoScreen(s, r, approve)
    case Enqueue(r) => DoEnqueue(s, r)
    case Take => DoTake(s)
    case Load => DoLoad(s)
    case Accept(gas, fees) => DoAccept(s, gas, fees)
    case Retry(resync) => DoRetry(s, resync)
    case GiveUp(permanent) => DoGiveUp(s, permanent)
    case Write => DoWrite(s)
    case Resume(gas, fees, retries, crash) => DoResume(s, gas, fees, retries, crash)
    case ResumeFail(retries) => DoResumeFail(s, retries)
    case SweepResend(id, gas, fees, crash) => DoSweepResend(s, id, gas, fees, crash)
    case SweepFail(id) => DoSweepFail(s, id)
    case SweepReject(id) => DoSweepReject(s, id)
    case Recover(id) => DoRecover(s, id)
    case Poll(id) => DoPoll(s, id)
    case Read(k, current) => DoRead(s, k, current)
    case Act(k) => DoAct(s, k)
    case Move(drop, added) => DoMove(s, drop, added)
    case Drop(tx) => DoDrop(s, tx)
    case Crash => Crashed(s)
    case Boot(pending) => DoBoot(s, pending)
    case Drain => DoDrain(s)
  }

  /** First boot: the snapshot of the operator's balance is the only ledger row. */
  predicate Init(s: State) {
    && ValidConfig(s.cfg)
    && s.db == Db([], [], [], [Entry(None, Genesis, Credit, s.cfg.opening)])
    && s.node.accepted == [] && s.node.pool == {}
    && |s.node.blocks| >= 1 && Flatten(s.node.blocks) == []
    && s.proc == Proc(false, false, [], Idle, 0)
    && s.checks == [] && s.requests == [] && s.enqueued == []
  }

  lemma ApplyKeepsConfig(s: State, e: Step)
    requires s.cfg.final >= 1
    ensures Apply(s, e).cfg == s.cfg
  {
  }

  function Run(s: State, steps: seq<Step>): (t: State)
    requires s.cfg.final >= 1
    ensures t.cfg == s.cfg
    decreases |steps|
  {
    if |steps| == 0 then s
    else
      ApplyKeepsConfig(s, steps[0]);
      Run(Apply(s, steps[0]), steps[1..])
  }

  /** Every step of the run meets a condition on the state it starts from. */
  ghost predicate Along(p: (State, Step) -> bool, s: State, steps: seq<Step>)
    requires s.cfg.final >= 1
    decreases |steps|
  {
    |steps| == 0
    || (p(s, steps[0]) && (ApplyKeepsConfig(s, steps[0]); Along(p, Apply(s, steps[0]), steps[1..])))
  }

  /** A property of every state a run goes through, its ends included. */
  ghost predicate Throughout(p: State -> bool, s: State, steps: seq<Step>)
    requires s.cfg.final >= 1
    decreases |steps|
  {
    p(s)
    && (|steps| == 0 || (ApplyKeepsConfig(s, steps[0]); Throughout(p, Apply(s, steps[0]), steps[1..])))
  }

  /** Runs compose. */
  lemma {:induction false} RunConcat(s: State, a: seq<Step>, b: seq<Step>)
    requires s.cfg.final >= 1
    ensures Run(s, a + b) == Run(Run(s, a), b)
    decreases |a|
  {
    if |a| == 0 {
      assert a + b == b;
    } else {
      ApplyKeepsConfig(s, a[0]);
      RunConcat(Apply(s, a[0]), a[1..], b);
      assert (a + b)[1..] == a[1..] + b;
    }
  }

  lemma RunThree(s: State, e: Step, f: Step, g: Step)
    requires s.cfg.final >= 1
    ensures Run(s, [e, f, g]) == Apply(Apply(Apply(s, e), f), g)
  {
    ApplyKeepsConfig(s, e);
    ApplyKeepsConfig(Apply(s, e), f);
    var t := Apply(Apply(s, e), f);
    assert [e, f, g][1..] == [f, g] && [f, g][1..] == [g] && [g][1..] == [];
    assert Run(t, [g]) == Apply(t, g);
    assert Run(Apply(s, e), [f, g]) == Run(t, [g]);
  }

  lemma {:induction false} AlongConcat(p: (State, Step) -> bool, s: State, a: seq<Step>, b: seq<Step>)
    requires s.cfg.final >= 1
    ensures Along(p, s, a + b) <==> Along(p, s, a) && Along(p, Run(s, a), b)
    decreases |a|
  {
    if |a| == 0 {
      assert a + b == b;
    } else {
      ApplyKeepsConfig(s, a[0]);
      AlongConcat(p, Apply(s, a[0]), a[1..], b);
      assert (a + b)[1..] == a[1..] + b;
    }
  }

  lemma AlongThree(p: (State, Step) -> bool, s: State, e: Step, f: Step, g: Step)
    requires s.cfg.final >= 1
    ensures Apply(s, e).cfg == s.cfg && Apply(Apply(s, e), f).cfg == s.cfg
    ensures Along(p, s, [e, f, g]) <==> p(s, e) && p(Apply(s, e), f) && p(Apply(Apply(s, e), f), g)
  {
    ApplyKeepsConfig(s, e);
    ApplyKeepsConfig(Apply(s, e), f);
    var t := Apply(Apply(s, e), f);
    ApplyKeepsConfig(t, g);
    assert [e, f, g][1..] == [f, g] && [f, g][1..] == [g] && [g][1..] == [];
    assert Along(p, t, [g]) <==> p(t, g);
    assert Along(p, Apply(s, e), [f, g]) <==> p(Apply(s, e), f) && Along(p, t, [g]);
  }
}
