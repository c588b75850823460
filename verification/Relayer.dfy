/**
 * The relayer as the source writes it: a queue, an in-flight map and a local
 * nonce updated in place, with the worker, retry, sweep and recovery loops. Each
 * method is shown to do to the database, the node and its own fields exactly what
 * a run of engine steps does, so every theorem about runs holds of it.
 */
module Relayer {
  import opened Basics
  import opened Rail
  import opened Chain
  import opened SettlementState
  import opened Services
  import opened Engine
  import opened RetryPolicy
  import opened Plans
  import Scheduling

  /** The node behind the provider; its answers are fixed in advance but arbitrary. */
  class Ethereum {
    var node: Node
    var calls: nat
    const oracle: Oracle

    constructor (node: Node, oracle: Oracle)
      ensures this.node == node && calls == 0 && this.oracle == oracle
    {
      this.node, calls, this.oracle := node, 0, oracle;
    }

    /** A broadcast either is accepted, or throws and was not. */
    method Broadcast(id: nat, tx: Tx) returns (r: Reply)
      modifies this
      ensures r == oracle.reply(old(calls)) && calls == old(calls) + 1
      ensures node == if r.Took? then Accepted(old(node), id, tx) else old(node)
    {
      r := oracle.reply(calls);
      calls := calls + 1;
      if r.Took? {
        node := Accepted(node, id, tx);
      }
    }

    /** The network's current fees. */
    function BuildFees(): Fees
      reads this
    {
      oracle.market(calls)
    }

    function EstimateGas(): nat
      reads this
    {
      oracle.estimate(calls)
    }

    function GetReceipt(tx: Tx): Option<Receipt>
      reads this
    {
      ReceiptOf(node.blocks, tx)
    }

    predicate KnowsPending(tx: Tx)
      reads this
    {
      tx in node.pool
    }
  }

  class RelayerService {
    const cfg: Config
    const stuckMs: nat
    const state: SettlementStateService
    const chain: Ethereum

    var queue: seq<nat>
    var inflight: map<nat, InflightTx>
    var localNonce: nat
    var workerRunning: bool
    var draining: bool

    constructor (cfg: Config, stuckMs: nat, state: SettlementStateService, chain: Ethereum)
      ensures this.cfg == cfg && this.stuckMs == stuckMs && this.state == state && this.chain == chain
      ensures queue == [] && inflight == map[] && localNonce == 0 && !workerRunning && !draining
    {
      this.cfg, this.stuckMs, this.state, this.chain := cfg, stuckMs, state, chain;
      queue, inflight, localNonce, workerRunning, draining := [], map[], 0, false, false;
    }

    /** The engine state `s` is what the objects hold, with the worker at `job`. */
    predicate Shows(s: State, job: Job)
      reads this, chain, state, state.db
    {
      && ValidConfig(cfg) && s.cfg == cfg
      && s.db == state.db.View()
      && s.node == chain.node
      && s.proc == Proc(true, draining, queue, job, localNonce)
    }

    /** Adds a job unless draining; the worker picks it up on its own. */
    method EnqueueId(id: nat)
      modifies this`queue
      ensures queue == if draining then old(queue) else old(queue) + [id]
    {
      if draining {
        return;
      }
      queue := queue + [id];
    }

    method Fail(id: nat, retryCount: nat)
      requires id < |state.db.rows|
      modifies this`inflight, state.db
      ensures state.db.View() == Transitioned(old(state.db.View()), id, Failed, FailWith(retryCount))
      ensures inflight == old(inflight) - {id}
    {
      inflight := inflight - {id};
      var _ := state.Transition(id, Failed, FailWith(retryCount));
    }

    /** An accepted broadcast of this job is recorded in memory and then in the database. */
    method Record(id: nat, tx: Tx, retry: nat, now: nat)
      requires id < |state.db.rows|
      modifies this`inflight, state.db
      ensures state.db.View() == Transitioned(old(state.db.View()), id, Submitted, SubmitWith(tx, retry))
      ensures inflight == old(inflight)[id := InflightTx(tx.nonce, tx.gasLimit, tx.fees, now, retry)]
    {
      inflight := inflight[id := InflightTx(tx.nonce, tx.gasLimit, tx.fees, now, retry)];
      var _ := state.Transition(id, Submitted, SubmitWith(tx, retry));
    }

    /** One broadcast; a fresh job's accepted one consumes the local nonce. */
    method Attempt(id: nat, row: Row, nonce: nat, gas: nat, fees: Fees, isResume: bool) returns (answer: Reply)
      modifies this`localNonce, chain
      ensures answer == chain.oracle.reply(old(chain.calls)) && chain.calls == old(chain.calls) + 1
      ensures chain.node == if answer.Took? then Accepted(old(chain.node), id, PaymentOf(row, nonce, gas, fees))
                            else old(chain.node)
      ensures localNonce == if answer.Took? && !isResume && nonce == old(localNonce) then old(localNonce) + 1
                            else old(localNonce)
    {
      answer := chain.Broadcast(id, PaymentOf(row, nonce, gas, fees));
      if answer.Took? && !isResume && nonce == localNonce {
        localNonce := localNonce + 1;
      }
    }

    /**
     * Broadcasts until the node takes the transaction or the policy gives up,
     * sleeping in between. A fresh job follows the local nonce, which an accepted
     * broadcast consumes and a refetch replaces; a resumed job keeps its own.
     */
    method Send(id: nat, row: Row, gas: nat) returns (o: Outcome, slept: nat)
      modifies this`localNonce, chain
      ensures o == JobOutcome(cfg, row, old(localNonce), chain.oracle, old(chain.calls))
      ensures chain.calls == old(chain.calls) + o.failures + 1
      ensures chain.node == if o.sent then Accepted(old(chain.node), id, PaymentOf(row, o.nonce, gas, o.fees))
                            else old(chain.node)
      ensures localNonce == if Resumable(row) then old(localNonce) else if o.sent then o.nonce + 1 else o.nonce
      ensures slept == SleptMs(o.failures)
    {
      var isResume := Resumable(row);
      var nonce: nat := if isResume then row.nonce.value else localNonce;
      var fees, retryCount := chain.BuildFees(), row.retryCount;
      var attempt: nat := 0;
      slept := 0;
      ghost var r, p := chain.oracle.reply, chain.oracle.pending;
      ghost var end := JobOutcome(cfg, row, localNonce, chain.oracle, chain.calls);
      while true
        invariant !isResume ==> nonce == localNonce
        invariant isResume ==> localNonce == old(localNonce)
        invariant chain.calls == old(chain.calls) + attempt
        invariant chain.node == old(chain.node) && slept == SleptMs(attempt)
        invariant end == Attempts(r, p, chain.calls, attempt, isResume, nonce, fees, retryCount, cfg.maxRetries)
        decreases if retryCount <= cfg.maxRetries then cfg.maxRetries - retryCount + 1 else 0
      {
        var count: nat := chain.oracle.pending(chain.calls);
        var answer := Attempt(id, row, nonce, gas, fees, isResume);
        if IsLast(answer, retryCount, cfg.maxRetries) {
          o := Ended(answer, nonce, fees, retryCount, attempt);
          assert o == end;
          return;
        }
        retryCount := retryCount + 1;
        if answer.cls.resync && !isResume {
          localNonce := count;
        }
        nonce := NextNonceAfter(answer, isResume, count, nonce);
        fees := NextFeesAfter(answer, fees);
        slept := slept + BackoffMs(attempt);
        attempt := attempt + 1;
      }
    }

    /**
     * Sends one job with retries and records how it ended: exactly the engine steps
     * of a job, and the in-flight entry set or removed.
     */
    method ProcessJob(id: nat, now: nat, ghost s: State) returns (slept: nat, ghost steps: seq<Step>)
      requires Shows(s, Taken(id))
      modifies this`inflight, this`localNonce, state.db, chain
      ensures steps == JobPlan(s, id, chain.oracle, old(chain.calls))
      ensures Shows(Run(s, steps), Idle)
      ensures chain.calls == old(chain.calls) + JobCalls(s, id, chain.oracle, old(chain.calls))
      ensures !Sendable(s.db.rows, id) ==> inflight == old(inflight) && slept == 0
      ensures Sendable(s.db.rows, id) ==>
                var o := JobOutcome(cfg, s.db.rows[id], old(localNonce), chain.oracle, old(chain.calls));
                && inflight == Tracked(old(inflight), id, o, chain.oracle.estimate(old(chain.calls)), now)
                && slept == SleptMs(o.failures)
                && if o.sent
                   then inflight == old(inflight)[id := InflightTx(o.nonce, chain.oracle.estimate(old(chain.calls)),
                                                                   o.fees, now, o.retry)]
                   else inflight == old(inflight) - {id}
    {
      var rows := state.db.rows;
      slept := 0;
      if id >= |rows| || (rows[id].status != ComplianceApproved && rows[id].status != Submitted) {
        steps := [Load];
        RunOne(s, Load);
        return;
      }
      var row := rows[id];
      var gas := chain.EstimateGas();
      ghost var call := chain.calls;
      var o: Outcome;
      o, slept := Send(id, row, gas);
      if o.sent {
        Record(id, PaymentOf(row, o.nonce, gas, o.fees), o.retry, now);
      } else {
        Fail(id, o.retry);
      }
      steps := JobPlan(s, id, chain.oracle, call);
      if Resumable(row) {
        ResumeJobRun(s, id, chain.oracle, call);
      } else {
        FreshJobRun(s, id, chain.oracle, call);
      }
    }

    /** Shifts one job off the queue and processes it to its end. */
    method NextJob(now: nat, ghost s: State) returns (ghost steps: seq<Step>)
      requires Shows(s, Idle) && !draining && |queue| > 0
      modifies this`queue, this`inflight, this`localNonce, state.db, chain
      ensures queue == old(queue)[1..]
      ensures steps == [Take] + JobPlan(TakenNext(s), old(queue)[0], chain.oracle, old(chain.calls))
      ensures Shows(Run(s, steps), Idle)
      ensures chain.calls
              == old(chain.calls) + JobCalls(TakenNext(s), old(queue)[0], chain.oracle, old(chain.calls))
    {
      var id := queue[0];
      queue := queue[1..];
      var _, job := ProcessJob(id, now, TakenNext(s));
      TakeTakes(s);
      RunCons(s, Take, job);
      steps := [Take] + job;
    }

    /**
     * While a method of this object awaits, everything else in the process and outside
     * takes these steps: requests, listener, sweep, chain.
     */
    method Meanwhile(world: State, steps: seq<Step>) returns (after: State)
      requires Shows(world, world.proc.job) && Run(world, steps).proc.up
      modifies this`queue, this`localNonce, this`draining, state.db, chain`node
      ensures after == Run(world, steps) && Shows(after, after.proc.job)
    {
      after := Run(world, steps);
      queue, localNonce, draining := after.proc.queue, after.proc.localNonce, after.proc.draining;
      chain.node := after.node;
      var db := after.db;
      state.db.rows, state.db.trail, state.db.outbox, state.db.ledger := db.rows, db.trail, db.outbox, db.ledger;
    }

    /** One job off the queue to its end, while everything else takes some steps. */
    method JobAmongOthers(now: nat, world: State, meanwhile: seq<Step>)
      returns (after: State, ghost steps: seq<Step>)
      requires Shows(world, Idle) && !draining && |queue| > 0 && AllElsewhere(meanwhile)
      modifies this`queue, this`inflight, this`localNonce, this`draining, state.db, chain
      ensures steps == [Take] + JobPlan(TakenNext(world), old(queue)[0], chain.oracle, old(chain.calls))
      ensures var u := Run(world, steps);
              && u.cfg == world.cfg && u.proc.up && u.proc.queue == old(queue)[1..] && !u.proc.draining
              && after == Run(u, meanwhile)
      ensures Shows(after, Idle)
      ensures chain.calls
              == old(chain.calls) + JobCalls(TakenNext(world), old(queue)[0], chain.oracle, old(chain.calls))
    {
      TakenLeavesOthers(world, chain.oracle, chain.calls);
      steps := NextJob(now, world);
      ghost var u := Run(world, steps);
      var between := world.(db := state.db.View(), node := chain.node,
                            proc := Proc(true, draining, queue, Idle, localNonce));
      TurnsFollow(u, meanwhile, Plans.Between(u.proc.queue, u.proc.draining, [], []));
      after := Meanwhile(between, meanwhile);
    }

    /** The next job of the pass. */
    method NextRound(now: nat, world: State, t: State, ghost p: Plan, started: seq<nat>, env: seq<seq<Step>>,
                     ghost call: nat, ghost first: Scheduling.Worker)
      returns (after: State, ghost plan: Plan)
      requires Shows(t, Idle) && !draining && |queue| > 0 && AllElsewhere(During(env, |started|))
      requires world.cfg.final >= 1 && Passing(world, t, p, started, chain.oracle, call, env, first)
      requires chain.calls == p.call
      modifies this`queue, this`inflight, this`localNonce, this`draining, state.db, chain
      ensures Shows(after, Idle) && chain.calls == plan.call
      ensures Passing(world, after, plan, started + [old(queue)[0]], chain.oracle, call, env, first)
      ensures |started| >= |env| ==> queue == old(queue)[1..]
    {
      ghost var job;
      var meanwhile := During(env, |started|);
      after, job := JobAmongOthers(now, t, meanwhile);
      plan := Extended(p, t, job, meanwhile, chain.calls);
      RoundFollows(world, t, p, started, chain.oracle, call, env, first, job, Run(t, job), after, plan);
    }

    /**
     * Drains the queue, one job at a time, in order, until it is empty or draining
     * begins; while the k-th job runs everything else takes the steps env[k]. A second
     * call while a worker is running returns at once; so does one while draining. To
     * the scheduling machine the pass is the start of a worker and one end per job.
     */
    method RunWorker(now: nat, world: State, env: seq<seq<Step>>)
      returns (started: seq<nat>, after: State, ghost plan: Plan)
      requires Shows(world, Idle)
      requires forall k :: 0 <= k < |env| ==> AllElsewhere(env[k])
      modifies this`queue, this`inflight, this`localNonce, this`workerRunning, this`draining, state.db, chain
      ensures workerRunning == old(workerRunning)
      ensures after == Run(world, plan.steps) && Shows(after, Idle)
      ensures old(workerRunning) || old(draining) ==>
                plan.steps == [] && started == [] && queue == old(queue)
      ensures !old(workerRunning) && !old(draining) ==>
                && plan == WorkerPlan(world, |started|, chain.oracle, old(chain.calls), env)
                && chain.calls == plan.call
                && (queue == [] || draining)
                && var idle := Scheduling.Worker(old(queue), false, false, None, [], old(queue));
                   var w := Scheduling.Run(Scheduling.RunWorker(idle), plan.turns);
                   && !w.workerRunning && w.started == started
                   && w.queue == queue && w.draining == draining
    {
      started, after, plan := [], world, Plan([], chain.calls, []);
      if workerRunning {
        return;
      }
      workerRunning := true;
      ghost var call := chain.calls;
      ghost var first := Scheduling.RunWorker(Scheduling.Worker(queue, draining, false, None, [], queue));
      FirstLook(queue, draining);
      while |queue| > 0 && !draining
        invariant workerRunning && Shows(after, Idle) && chain.calls == plan.call
        invariant Passing(world, after, plan, started, chain.oracle, call, env, first)
        invariant old(draining) ==> draining && plan.steps == [] && started == [] && queue == old(queue)
        decreases if |started| < |env| then |env| - |started| else 0, |queue|
      {
        var id := queue[0];
        after, plan := NextRound(now, world, after, plan, started, env, call, first);
        started := started + [id];
      }
      LastLook(Scheduling.Run(first, plan.turns), queue, draining, started);
      workerRunning := false;
    }

    // ---- Sweep ----------------------------------------------------------------

    /** An accepted resend is tracked and recorded, with the retry it used. */
    method NoteResend(id: nat, s: Row, gas: nat, fees: Fees, now: nat, ghost t: State)
      requires Stuck(t, id) && s == t.db.rows[id] && s.retryCount < t.cfg.maxRetries
      requires Shows(t.(node := Accepted(t.node, id, PaymentOf(s, s.nonce.value, gas, fees))), Idle)
      modifies this`inflight, state.db
      ensures Shows(Apply(t, SweepResend(id, gas, fees, false)), Idle)
      ensures inflight == old(inflight)[id := InflightTx(s.nonce.value, gas, fees, now, s.retryCount + 1)]
      ensures |state.db.rows| == |old(state.db.rows)|
      ensures forall j :: 0 <= j < |state.db.rows| && j != id ==> state.db.rows[j] == old(state.db.rows)[j]
    {
      inflight := inflight[id := InflightTx(s.nonce.value, gas, fees, now, s.retryCount + 1)];
      state.RecordResend(id, PaymentOf(s, s.nonce.value, gas, fees), s.retryCount + 1);
      SweepResendApplies(t, id, gas, fees);
    }

    /** A resend refused for good fails the settlement. */
    method RejectResend(id: nat, s: Row, ghost t: State)
      requires Stuck(t, id) && s == t.db.rows[id] && s.retryCount < t.cfg.maxRetries && Shows(t, Idle)
      modifies this`inflight, state.db
      ensures Shows(Apply(t, SweepReject(id)), Idle) && inflight == old(inflight) - {id}
      ensures |state.db.rows| == |old(state.db.rows)|
      ensures forall j :: 0 <= j < |state.db.rows| && j != id ==> state.db.rows[j] == old(state.db.rows)[j]
    {
      Fail(id, s.retryCount + 1);
      SweepRejectApplies(t, id);
    }

    /** Sends a stuck transaction again with its own nonce and fees raised by a quarter. */
    method BumpAndResend(id: nat, s: Row, time: SweepTime, ghost before: seq<Step>, ghost t: State)
      returns (ghost steps: seq<Step>)
      requires Shows(t, Idle) && id < |state.db.rows| && s == state.db.rows[id]
      requires s.status == Submitted && s.txHash.Some? && s.nonce.Some?
      requires chain.GetReceipt(s.txHash.value).None? && s.retryCount < cfg.maxRetries
      modifies this`inflight, state.db, chain
      ensures Swept(before + steps, chain.calls, inflight)
              == SweptResend(t, Swept(before, old(chain.calls), old(inflight)), id, time, chain.oracle)
      ensures Shows(Run(t, steps), Idle)
      ensures |state.db.rows| == |old(state.db.rows)|
      ensures forall j :: 0 <= j < |state.db.rows| && j != id ==> state.db.rows[j] == old(state.db.rows)[j]
      ensures chain.node.blocks == old(chain.node.blocks)
    {
      var info := EntryFor(inflight, id);
      var fees := BumpFees(PreviousFees(s, EntryFees(info), chain.node, chain.BuildFees()));
      var gas := if info.Some? then info.value.gasLimit else chain.EstimateGas();
      var tx := PaymentOf(s, s.nonce.value, gas, fees);
      steps := [];
      assert before + [] == before;
      var answer := chain.Broadcast(id, tx);
      if answer.Took? {
        NoteResend(id, s, gas, fees, time.now, t);
        steps := [SweepResend(id, gas, fees, false)];
        RunOne(t, SweepResend(id, gas, fees, false));
      } else if answer.cls.resync {
        return;
      } else if !answer.cls.retryable {
        RejectResend(id, s, t);
        steps := [SweepReject(id)];
        RunOne(t, SweepReject(id));
      }
    }

    /** One submitted row of a sweep. */
    method SweepRow(id: nat, s: Row, time: SweepTime, ghost before: seq<Step>, ghost t: State)
      returns (ghost steps: seq<Step>)
      requires Shows(t, Idle) && id < |state.db.rows| && s == state.db.rows[id] && s.status == Submitted
      requires time.stuckMs == stuckMs
      modifies this`inflight, state.db, chain
      ensures Swept(before + steps, chain.calls, inflight)
              == SweptRow(t, Swept(before, old(chain.calls), old(inflight)), id, time, chain.oracle)
      ensures Shows(Run(t, steps), Idle)
      ensures |state.db.rows| == |old(state.db.rows)|
      ensures forall j :: 0 <= j < |state.db.rows| && j != id ==> state.db.rows[j] == old(state.db.rows)[j]
      ensures chain.node.blocks == old(chain.node.blocks)
    {
      steps := [];
      assert before + [] == before;
      if s.txHash.None? || s.nonce.None? {
        return;
      }
      var receipt := chain.GetReceipt(s.txHash.value);
      if receipt.Some? {
        inflight := inflight - {id};
        return;
      }
      var info := EntryFor(inflight, id);
      var lastAt := if info.Some? then info.value.lastSubmittedAt else time.updatedAt(id);
      if time.now - lastAt < stuckMs {
        return;
      }
      if s.retryCount >= cfg.maxRetries {
        Fail(id, s.retryCount);
        steps := [SweepFail(id)];
        RunOne(t, SweepFail(id));
        return;
      }
      steps := BumpAndResend(id, s, time, before, t);
    }

    /** The sweep's loop: handling one row never changes another, so the snapshot's rows stay true. */
    method SweepRows(ids: seq<nat>, snapshot: seq<Row>, time: SweepTime, ghost s: State)
      returns (ghost steps: seq<Step>)
      requires Shows(s, Idle) && time.stuckMs == stuckMs && snapshot == state.db.rows
      requires forall j, k :: 0 <= j < k < |ids| ==> ids[j] < ids[k]
      requires forall j :: 0 <= j < |ids| ==> ids[j] < |snapshot| && snapshot[ids[j]].status == Submitted
      modifies this`inflight, state.db, chain
      ensures Shows(Run(s, steps), Idle)
      ensures Swept(steps, chain.calls, inflight)
              == SweepPlan(s, old(inflight), ids, time, chain.oracle, old(chain.calls))
    {
      steps := [];
      ghost var t := s;
      for k := 0 to |ids|
        invariant Shows(t, Idle) && t == Run(s, steps)
        invariant |state.db.rows| == |snapshot|
        invariant forall j :: k <= j < |ids| ==> state.db.rows[ids[j]] == snapshot[ids[j]]
        invariant Swept(steps, chain.calls, inflight)
                  == SweepPlan(s, old(inflight), ids[..k], time, chain.oracle, old(chain.calls))
      {
        TakeSnoc(ids, k);
        SweepPlanSnoc(s, old(inflight), ids[..k], ids[k], time, chain.oracle, old(chain.calls),
                      Swept(steps, chain.calls, inflight));
        var more := SweepRow(ids[k], snapshot[ids[k]], time, steps, t);
        RunConcat(s, steps, more);
        steps := steps + more;
        t := Run(t, more);
      }
      assert ids[..|ids|] == ids;
    }

    /** Re-examines every row that was SUBMITTED when the sweep began. */
    method SweepStuckTransactions(time: SweepTime, ghost s: State) returns (ghost steps: seq<Step>)
      requires Shows(s, Idle) && time.stuckMs == stuckMs
      modifies this`inflight, state.db, chain
      ensures Shows(Run(s, steps), Idle)
      ensures draining ==> steps == [] && inflight == old(inflight)
      ensures !draining ==>
                Swept(steps, chain.calls, inflight)
                == SweepPlan(s, old(inflight), Select(s.db.rows, {Submitted}), time, chain.oracle, old(chain.calls))
    {
      steps := [];
      if draining {
        return;
      }
      var ids := state.FindByStatuses({Submitted});
      assert forall j :: 0 <= j < |ids| ==> ids[j] in ids;
      steps := SweepRows(ids, state.db.rows, time, s);
    }

    // ---- Restart recovery -----------------------------------------------------

    /** One submitted row found at boot: failed, left, tracked again, or queued again. */
    method RecoverRow(id: nat, s: Row, now: nat, ghost t: State)
      requires Shows(t, Idle) && id < |state.db.rows| && s == state.db.rows[id] && s.status == Submitted
      modifies this`inflight, this`queue, state.db
      ensures Shows(Apply(t, Recover(id)), Idle)
      ensures inflight == Recovered(t, id, old(inflight), now)
      ensures |state.db.rows| == |old(state.db.rows)|
      ensures forall j :: 0 <= j < |state.db.rows| && j != id ==> state.db.rows[j] == old(state.db.rows)[j]
    {
      if s.txHash.None? {
        EnqueueId(id);
        return;
      }
      var tx := s.txHash.value;
      var receipt := chain.GetReceipt(tx);
      if receipt.Some? {
        if !receipt.value.ok {
          Fail(id, s.retryCount);
        }
      } else if chain.KnowsPending(tx) {
        var nonce := if s.nonce.Some? then s.nonce.value else tx.nonce;
        inflight := inflight[id := InflightTx(nonce, tx.gasLimit, tx.fees, now, s.retryCount)];
      } else {
        EnqueueId(id);
      }
    }

    /** Goes through the rows SUBMITTED at boot; handling one never changes another. */
    method RecoverInFlight(now: nat, ghost booted: State)
      requires Shows(booted, Idle)
      modifies this`inflight, this`queue, state.db
      ensures Shows(Run(booted, Recoveries(Select(booted.db.rows, {Submitted}))), Idle)
      ensures inflight == RecoveredAll(booted, Select(booted.db.rows, {Submitted}), old(inflight), now)
    {
      var ids := state.FindByStatuses({Submitted});
      assert forall j :: 0 <= j < |ids| ==> ids[j] in ids;
      RecoverRows(ids, state.db.rows, now, booted);
    }

    method RecoverRows(ids: seq<nat>, snapshot: seq<Row>, now: nat, ghost booted: State)
      requires Shows(booted, Idle) && snapshot == state.db.rows
      requires forall j, k :: 0 <= j < k < |ids| ==> ids[j] < ids[k]
      requires forall j :: 0 <= j < |ids| ==> ids[j] < |snapshot| && snapshot[ids[j]].status == Submitted
      modifies this`inflight, this`queue, state.db
      ensures Shows(Run(booted, Recoveries(ids)), Idle)
      ensures inflight == RecoveredAll(booted, ids, old(inflight), now)
    {
      ghost var t := booted;
      for k := 0 to |ids|
        invariant Shows(t, Idle) && t == Run(booted, Recoveries(ids[..k]))
        invariant inflight == RecoveredAll(booted, ids[..k], old(inflight), now)
        invariant |state.db.rows| == |snapshot|
        invariant forall j :: k <= j < |ids| ==> state.db.rows[ids[j]] == snapshot[ids[j]]
      {
        TakeSnoc(ids, k);
        RecoveriesSnoc(booted, ids[..k], ids[k]);
        RecoveredSnoc(booted, ids[..k], ids[k], old(inflight), now);
        RecoverRow(ids[k], snapshot[ids[k]], now, t);
        t := Apply(t, Recover(ids[k]));
      }
      assert ids[..|ids|] == ids;
    }

    /** Reads the pending nonce once, then recovers what was in flight. */
    method OnApplicationBootstrap(pendingCount: nat, now: nat, ghost s: State)
      requires ValidConfig(cfg) && s.cfg == cfg && s.db == state.db.View() && s.node == chain.node
      requires !s.proc.up && !draining && queue == []
      modifies this`inflight, this`queue, this`localNonce, state.db
      ensures Shows(Run(s, [Boot(pendingCount)] + Recoveries(Select(s.db.rows, {Submitted}))), Idle)
      ensures inflight == RecoveredAll(Booted(s, pendingCount), Select(s.db.rows, {Submitted}), old(inflight), now)
    {
      localNonce := pendingCount;
      BootThen(s, pendingCount, Recoveries(Select(s.db.rows, {Submitted})));
      RecoverInFlight(now, Booted(s, pendingCount));
    }
  }
}
