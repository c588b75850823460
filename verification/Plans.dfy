/**
 * What a job, a sweep, a recovery and a whole worker pass of the relayer come to, as
 * runs of the engine.
 */
module Plans {
  import opened Basics
  import opened Rail
  import opened Chain
  import opened SettlementState
  import opened Engine
  import opened RetryPolicy
  import Scheduling

  /**
   * What the node answers to its n-th broadcast, and the pending count, current
   * fees and gas estimate it reports around it.
   */
  datatype Oracle = Oracle(reply: nat -> Reply, pending: nat -> nat, market: nat -> Fees, estimate: nat -> nat)

  datatype InflightTx = InflightTx(nonce: nat, gasLimit: nat, fees: Fees, lastSubmittedAt: nat, attempts: nat)

  // ---- What one job amounts to ----------------------------------------------

  function Retries(resyncs: seq<Option<nat>>): seq<Step> {
    seq(|resyncs|, i requires 0 <= i < |resyncs| => Retry(resyncs[i]))
  }

  predicate Sendable(rows: seq<Row>, id: nat) {
    id < |rows| && (rows[id].status == ComplianceApproved || rows[id].status == Submitted)
  }

  /** The attempts a job makes, given what the node will answer from broadcast `call` on. */
  function JobOutcome(c: Config, row: Row, localNonce: nat, o: Oracle, call: nat): Outcome {
    Attempts(o.reply, o.pending, call, 0, Resumable(row), if Resumable(row) then row.nonce.value else localNonce,
             o.market(call), row.retryCount, c.maxRetries)
  }

  function JobSteps(row: Row, o: Outcome, gas: nat, refetches: seq<Option<nat>>): seq<Step> {
    if Resumable(row) then
      [if o.sent then Resume(gas, o.fees, o.retry, false) else ResumeFail(o.retry)]
    else
      [Load] + Retries(refetches)
      + (if o.sent then [Accept(gas, o.fees), Write] else [GiveUp(o.permanent)])
  }

  /** What a job leaves behind in the database and at the node. */
  function JobDone(s: State, id: nat, o: Outcome, gas: nat, localNonce: nat): State
    requires id < |s.db.rows|
  {
    var tx := PaymentOf(s.db.rows[id], o.nonce, gas, o.fees);
    s.(node := if o.sent then Accepted(s.node, id, tx) else s.node,
       db := if o.sent then Transitioned(s.db, id, Submitted, SubmitWith(tx, o.retry))
             else Transitioned(s.db, id, Failed, FailWith(o.retry)),
       proc := s.proc.(job := Idle, localNonce := localNonce))
  }

  /** The in-flight entry after a job: recorded when sent, forgotten when failed. */
  function Tracked(inflight: map<nat, InflightTx>, id: nat, o: Outcome, gas: nat, now: nat): map<nat, InflightTx> {
    if o.sent then inflight[id := InflightTx(o.nonce, gas, o.fees, now, o.retry)]
    else inflight - {id}
  }

  /** All engine steps of the job now taken. */
  function JobPlan(s: State, id: nat, o: Oracle, call: nat): seq<Step> {
    if !Sendable(s.db.rows, id) then [Load]
    else
      var row := s.db.rows[id];
      var outcome := JobOutcome(s.cfg, row, s.proc.localNonce, o, call);
      JobSteps(row, outcome, o.estimate(call), JobRefetches(row, outcome, o, call))
  }

  function JobRefetches(row: Row, outcome: Outcome, o: Oracle, call: nat): seq<Option<nat>> {
    Refetches(o.reply, o.pending, call, Resumable(row), outcome.failures)
  }

  function JobCalls(s: State, id: nat, o: Oracle, call: nat): nat {
    if !Sendable(s.db.rows, id) then 0
    else JobOutcome(s.cfg, s.db.rows[id], s.proc.localNonce, o, call).failures + 1
  }

  /** Steps taken, the number of the next broadcast, and the turns the worker's scheduling saw. */
  datatype Plan = Plan(steps: seq<Step>, call: nat, turns: seq<Scheduling.Turn>)

  /** What the rest of the system does while the k-th job runs: nothing, beyond the list. */
  function During(env: seq<seq<Step>>, k: nat): seq<Step> {
    if k < |env| then env[k] else []
  }

  /** One more job for a worker that has got to `p`, if there is one, and what happens meanwhile. */
  function TakeOne(s: State, p: Plan, o: Oracle, meanwhile: seq<Step>): Plan
    requires s.cfg.final >= 1
  {
    var t := Run(s, p.steps);
    if |t.proc.queue| == 0 || t.proc.draining then p
    else
      var id := t.proc.queue[0];
      Extended(p, t, [Take] + JobPlan(TakenNext(t), id, o, p.call), meanwhile,
               p.call + JobCalls(TakenNext(t), id, o, p.call))
  }

  /** The worker takes n jobs in queue order, each to its end, among everything else. */
  function WorkerPlan(s: State, n: nat, o: Oracle, call: nat, env: seq<seq<Step>>): Plan
    requires s.cfg.final >= 1
  {
    if n == 0 then Plan([], call, []) else TakeOne(s, WorkerPlan(s, n - 1, o, call, env), o, During(env, n - 1))
  }

  /** The state once the worker has shifted the next job off the queue. */
  function TakenNext(t: State): State
    requires |t.proc.queue| > 0
  {
    t.(proc := t.proc.(queue := t.proc.queue[1..], job := Taken(t.proc.queue[0])))
  }

  lemma TakeSnoc(ids: seq<nat>, k: nat)
    requires k < |ids|
    ensures ids[..k + 1] == ids[..k] + [ids[k]]
  {
  }

  lemma RunOne(s: State, e: Step)
    requires s.cfg.final >= 1
    ensures Run(s, [e]) == Apply(s, e)
  {
    ApplyKeepsConfig(s, e);
    assert [e][1..] == [];
  }

  lemma RunTwo(s: State, e: Step, f: Step)
    requires s.cfg.final >= 1
    ensures Run(s, [e, f]) == Apply(Apply(s, e), f)
  {
    ApplyKeepsConfig(s, e);
    assert [e, f][1..] == [f] && [f][1..] == [] && [e][1..] == [];
    assert Run(Apply(s, e), [f]) == Apply(Apply(s, e), f);
  }

  /** A failed attempt that is retried is one engine step. */
  lemma RetryApplies(s: State, id: nat, nonce: nat, retry: nat, answer: Reply, count: nat)
    requires s.proc.up && s.proc.job == Sending(id, nonce, retry) && s.proc.localNonce == nonce
    requires !IsLast(answer, retry, s.cfg.maxRetries)
    ensures var next := NextNonceAfter(answer, false, count, nonce);
            DoRetry(s, Resynced(answer, false, count))
            == s.(proc := s.proc.(job := Sending(id, next, retry + 1), localNonce := next))
  {
  }

  lemma RetriesCons(r: Option<nat>, rest: seq<Option<nat>>)
    ensures Retries([r] + rest) == [Retry(r)] + Retries(rest)
  {
  }

  lemma NoRetries()
    ensures Retries([]) == []
  {
  }

  /** A fresh job after n failed attempts, as its outcome has it. */
  predicate Retried(s: State, t: State, id: nat, o: Outcome, retry: nat, n: nat) {
    && t == s.(proc := s.proc.(job := Sending(id, o.nonce, retry + n), localNonce := o.nonce))
    && (o.sent || o.permanent ==> o.retry == retry + n)
    && (!o.sent && !o.permanent ==> o.retry == retry + n + 1 && o.retry > s.cfg.maxRetries)
  }

  lemma RetriedCons(s: State, t: State, u: State, id: nat, next: nat, retry: nat, o: Outcome, n: nat)
    requires t == s.(proc := s.proc.(job := Sending(id, next, retry + 1), localNonce := next))
    requires Retried(t, u, id, o, retry + 1, n)
    ensures Retried(s, u, id, o, retry, n + 1)
  {
  }

  lemma RetryThenRest(s: State, id: nat, nonce: nat, retry: nat, answer: Reply, count: nat, rest: seq<Option<nat>>,
                      next: nat, t: State, u: State)
    requires s.cfg.final >= 1 && s.proc.up
    requires s.proc.job == Sending(id, nonce, retry) && s.proc.localNonce == nonce
    requires !IsLast(answer, retry, s.cfg.maxRetries)
    requires next == NextNonceAfter(answer, false, count, nonce)
    requires t == s.(proc := s.proc.(job := Sending(id, next, retry + 1), localNonce := next))
    requires u == Run(t, Retries(rest))
    ensures Run(s, Retries([Resynced(answer, false, count)] + rest)) == u
  {
    var r := Resynced(answer, false, count);
    RetryApplies(s, id, nonce, retry, answer, count);
    assert Apply(s, Retry(r)) == t;
    RetriesCons(r, rest);
    RunCons(s, Retry(r), Retries(rest));
  }

  lemma RefetchesCons(reply: nat -> Reply, pending: nat -> nat, call: nat, n: nat)
    ensures Refetches(reply, pending, call, false, n + 1)
            == [Resynced(reply(call), false, pending(call))] + Refetches(reply, pending, call + 1, false, n)
    ensures Refetches(reply, pending, call, false, 0) == []
  {
  }

  /** The last attempt ends the loop at once. */
  lemma LastAttempt(s: State, id: nat, answer: Reply, made: nat, nonce: nat, fees: Fees, retry: nat)
    requires s.proc.job == Sending(id, nonce, retry) && s.proc.localNonce == nonce
    requires IsLast(answer, retry, s.cfg.maxRetries)
    ensures Retried(s, s, id, Ended(answer, nonce, fees, retry, made), retry, 0)
  {
  }

  /** The failed attempts of a fresh job, as engine steps. */
  lemma {:induction false} RetriesRun(
      s: State, id: nat, reply: nat -> Reply, pending: nat -> nat, call: nat, made: nat,
      nonce: nat, fees: Fees, retry: nat, o: Outcome)
    requires s.cfg.final >= 1 && s.proc.up
    requires s.proc.job == Sending(id, nonce, retry) && s.proc.localNonce == nonce
    requires o == Attempts(reply, pending, call, made, false, nonce, fees, retry, s.cfg.maxRetries)
    ensures o.failures >= made
    ensures Retried(s, Run(s, Retries(Refetches(reply, pending, call, false, o.failures - made))),
                    id, o, retry, o.failures - made)
    decreases if retry <= s.cfg.maxRetries then s.cfg.maxRetries - retry + 1 else 0
  {
    var answer := reply(call);
    if IsLast(answer, retry, s.cfg.maxRetries) {
      RefetchesCons(reply, pending, call, 0);
      NoRetries();
      LastAttempt(s, id, answer, made, nonce, fees, retry);
    } else {
      var next := NextNonceAfter(answer, false, pending(call), nonce);
      var t := s.(proc := s.proc.(job := Sending(id, next, retry + 1), localNonce := next));
      RetriesRun(t, id, reply, pending, call + 1, made + 1, next, NextFeesAfter(answer, fees), retry + 1, o);
      var n := o.failures - made - 1;
      var rest := Refetches(reply, pending, call + 1, false, n);
      var u := Run(t, Retries(rest));
      RefetchesCons(reply, pending, call, n);
      RetryThenRest(s, id, nonce, retry, answer, pending(call), rest, next, t, u);
      RetriedCons(s, t, u, id, next, retry, o, n);
    }
  }

  /** The node takes the transaction and the row is written. */
  lemma SentEnds(s: State, id: nat, nonce: nat, retry: nat, gas: nat, fees: Fees)
    requires s.cfg.final >= 1 && s.proc.up && id < |s.db.rows|
    requires s.proc.job == Sending(id, nonce, retry) && s.proc.localNonce == nonce
    ensures var tx := PaymentOf(s.db.rows[id], nonce, gas, fees);
            Apply(Apply(s, Accept(gas, fees)), Write)
            == s.(node := Accepted(s.node, id, tx),
                  db := Transitioned(s.db, id, Submitted, SubmitWith(tx, retry)),
                  proc := s.proc.(job := Idle, localNonce := nonce + 1))
  {
  }

  lemma FailedEnds(s: State, id: nat, nonce: nat, retry: nat, permanent: bool)
    requires s.cfg.final >= 1 && s.proc.up && id < |s.db.rows|
    requires s.proc.job == Sending(id, nonce, retry)
    requires permanent || retry + 1 > s.cfg.maxRetries
    ensures Apply(s, GiveUp(permanent))
            == s.(db := Transitioned(s.db, id, Failed, FailWith(if permanent then retry else retry + 1)),
                  proc := s.proc.(job := Idle))
  {
  }

  lemma FreshLoads(s: State, id: nat)
    requires s.cfg.final >= 1 && s.proc.up && s.proc.job == Taken(id)
    requires Sendable(s.db.rows, id) && !Resumable(s.db.rows[id])
    ensures Run(s, [Load])
            == s.(proc := s.proc.(job := Sending(id, s.proc.localNonce, s.db.rows[id].retryCount)))
  {
    RunOne(s, Load);
  }

  /** Failing, up to the attempt that ends a fresh job. */
  lemma FreshRetries(s: State, id: nat, oracle: Oracle, call: nat)
    requires s.cfg.final >= 1 && s.proc.up && s.proc.job == Taken(id)
    requires Sendable(s.db.rows, id) && !Resumable(s.db.rows[id])
    ensures var row := s.db.rows[id];
            var o := JobOutcome(s.cfg, row, s.proc.localNonce, oracle, call);
            var a := s.(proc := s.proc.(job := Sending(id, s.proc.localNonce, row.retryCount)));
            && Run(a, Retries(JobRefetches(row, o, oracle, call)))
               == s.(proc := s.proc.(job := Sending(id, o.nonce, row.retryCount + o.failures), localNonce := o.nonce))
            && (o.sent || o.permanent ==> o.retry == row.retryCount + o.failures)
            && (!o.sent && !o.permanent ==>
                  o.retry == row.retryCount + o.failures + 1 && o.retry > s.cfg.maxRetries)
  {
    var row := s.db.rows[id];
    var a := s.(proc := s.proc.(job := Sending(id, s.proc.localNonce, row.retryCount)));
    RetriesRun(a, id, oracle.reply, oracle.pending, call, 0, s.proc.localNonce, oracle.market(call), row.retryCount,
               JobOutcome(s.cfg, row, s.proc.localNonce, oracle, call));
  }

  /** A fresh job's steps do to the state exactly what the job does. */
  lemma FreshJobRun(s: State, id: nat, oracle: Oracle, call: nat)
    requires s.cfg.final >= 1 && s.proc.up && s.proc.job == Taken(id)
    requires Sendable(s.db.rows, id) && !Resumable(s.db.rows[id])
    ensures var o := JobOutcome(s.cfg, s.db.rows[id], s.proc.localNonce, oracle, call);
            Run(s, JobPlan(s, id, oracle, call))
            == JobDone(s, id, o, oracle.estimate(call), if o.sent then o.nonce + 1 else o.nonce)
  {
    var row := s.db.rows[id];
    var o := JobOutcome(s.cfg, row, s.proc.localNonce, oracle, call);
    FreshLoads(s, id);
    FreshRetries(s, id, oracle, call);
    var a := s.(proc := s.proc.(job := Sending(id, s.proc.localNonce, row.retryCount)));
    FreshJobEnds(s, id, o, oracle.estimate(call), a, JobRefetches(row, o, oracle, call), row.retryCount + o.failures);
  }

  lemma FreshJobEnds(s: State, id: nat, o: Outcome, gas: nat, a: State, refetches: seq<Option<nat>>, retry: nat)
    requires s.cfg.final >= 1 && s.proc.up && id < |s.db.rows| && !Resumable(s.db.rows[id])
    requires a == s.(proc := a.proc) && Run(s, [Load]) == a
    requires Run(a, Retries(refetches))
             == s.(proc := s.proc.(job := Sending(id, o.nonce, retry), localNonce := o.nonce))
    requires o.sent || o.permanent ==> o.retry == retry
    requires !o.sent && !o.permanent ==> o.retry == retry + 1 && o.retry > s.cfg.maxRetries
    ensures Run(s, JobSteps(s.db.rows[id], o, gas, refetches))
            == JobDone(s, id, o, gas, if o.sent then o.nonce + 1 else o.nonce)
  {
    var b := Run(a, Retries(refetches));
    var end := if o.sent then [Accept(gas, o.fees), Write] else [GiveUp(o.permanent)];
    RunConcat(s, [Load], Retries(refetches));
    RunConcat(s, [Load] + Retries(refetches), end);
    if o.sent {
      RunTwo(b, Accept(gas, o.fees), Write);
      SentEnds(b, id, o.nonce, retry, gas, o.fees);
    } else {
      RunOne(b, GiveUp(o.permanent));
      FailedEnds(b, id, o.nonce, retry, o.permanent);
    }
  }

  /** A resumed job is one engine step. */
  lemma ResumeJobEnds(s: State, id: nat, o: Outcome, gas: nat)
    requires s.cfg.final >= 1 && s.proc.up && s.proc.job == Taken(id)
    requires id < |s.db.rows| && Resumable(s.db.rows[id])
    requires o.nonce == s.db.rows[id].nonce.value && o.retry >= s.db.rows[id].retryCount
    requires o.sent ==> o.retry == s.db.rows[id].retryCount || o.retry <= s.cfg.maxRetries
    ensures Apply(s, if o.sent then Resume(gas, o.fees, o.retry, false) else ResumeFail(o.retry))
            == JobDone(s, id, o, gas, s.proc.localNonce)
  {
  }

  lemma TakeTakes(t: State)
    requires t.cfg.final >= 1 && t.proc.up && !t.proc.draining && t.proc.job.Idle? && |t.proc.queue| > 0
    ensures Apply(t, Take) == TakenNext(t)
  {
  }

  lemma RunCons(t: State, e: Step, rest: seq<Step>)
    requires t.cfg.final >= 1
    ensures Apply(t, e).cfg == t.cfg && Run(t, [e] + rest) == Run(Apply(t, e), rest)
  {
    ApplyKeepsConfig(t, e);
    assert ([e] + rest)[1..] == rest;
  }

  function Booted(s: State, pendingCount: nat): State {
    s.(proc := Proc(true, false, [], Idle, pendingCount))
  }

  lemma BootThen(s: State, pendingCount: nat, rest: seq<Step>)
    requires s.cfg.final >= 1 && !s.proc.up
    ensures Run(s, [Boot(pendingCount)] + rest) == Run(Booted(s, pendingCount), rest)
  {
    BootApplies(s, pendingCount);
    RunCons(s, Boot(pendingCount), rest);
  }

  lemma BootApplies(s: State, pendingCount: nat)
    requires !s.proc.up
    ensures DoBoot(s, pendingCount) == Booted(s, pendingCount)
  {
  }

  // ---- What happens elsewhere while the worker awaits -----------------------

  predicate OfWorker(e: Step) {
    e.Take? || e.Load? || e.Accept? || e.Retry? || e.GiveUp? || e.Write? || e.Resume? || e.ResumeFail?
  }

  /** The process ends, or starts. */
  predicate Stops(e: Step) {
    e.Crash? || e.Boot? || (e.Resume? && e.crash) || (e.SweepResend? && e.crash)
  }

  predicate Elsewhere(e: Step) {
    !OfWorker(e) && !Stops(e)
  }

  predicate AllElsewhere(steps: seq<Step>) {
    forall i :: 0 <= i < |steps| ==> Elsewhere(steps[i])
  }

  /** From elsewhere the worker sees at most one more job, or the start of draining. */
  predicate SeenByWorker(p: Proc, q: Proc) {
    && q.up && q.job == p.job && q.localNonce == p.localNonce
    && p.queue <= q.queue && |q.queue| <= |p.queue| + 1
    && (p.draining ==> q == p)
    && (q.draining ==> q.queue == p.queue)
  }

  lemma SweepSeen(s: State, e: Step)
    requires s.cfg.final >= 1 && s.proc.up && Elsewhere(e)
    requires e.SweepResend? || e.SweepFail? || e.SweepReject? || e.Recover? || e.Poll? || e.Read? || e.Act?
    ensures SeenByWorker(s.proc, Apply(s, e).proc)
  {
  }

  lemma ElsewhereSeen(s: State, e: Step)
    requires s.cfg.final >= 1 && s.proc.up && Elsewhere(e)
    ensures SeenByWorker(s.proc, Apply(s, e).proc)
  {
    if e.SweepResend? || e.SweepFail? || e.SweepReject? || e.Recover? || e.Poll? || e.Read? || e.Act? {
      SweepSeen(s, e);
    }
  }

  /** The same event as the scheduling of the worker sees it. */
  function TurnsIn(p: Proc, q: Proc): seq<Scheduling.Turn> {
    if |q.queue| > |p.queue| then [Scheduling.EnqueueId(q.queue[|p.queue|])]
    else if q.draining && !p.draining then [Scheduling.ModuleDestroy]
    else []
  }

  function TurnsOf(s: State, steps: seq<Step>): seq<Scheduling.Turn>
    requires s.cfg.final >= 1
    decreases |steps|
  {
    if |steps| == 0 then []
    else
      ApplyKeepsConfig(s, steps[0]);
      var t := Apply(s, steps[0]);
      TurnsIn(s.proc, t.proc) + TurnsOf(t, steps[1..])
  }

  /** The scheduling's view of a worker busy with a job. */
  predicate Busy(w: Scheduling.Worker, p: Proc) {
    w.workerRunning && w.queue == p.queue && w.draining == p.draining
  }

  lemma OneTurn(p: Proc, q: Proc, w: Scheduling.Worker)
    requires Busy(w, p) && SeenByWorker(p, q)
    ensures var v := Scheduling.Run(w, TurnsIn(p, q));
            Busy(v, q) && v.current == w.current && v.started == w.started
  {
    if |TurnsIn(p, q)| == 1 {
      Scheduling.RunOne(w, TurnsIn(p, q)[0]);
      assert TurnsIn(p, q) == [TurnsIn(p, q)[0]];
    }
  }

  /** Running elsewhere is, for the worker, those turns. */
  lemma {:induction false} TurnsFollow(s: State, steps: seq<Step>, w: Scheduling.Worker)
    requires s.cfg.final >= 1 && s.proc.up && AllElsewhere(steps) && Busy(w, s.proc)
    ensures var t := Run(s, steps);
            var v := Scheduling.Run(w, TurnsOf(s, steps));
            && t.proc.up && t.proc.job == s.proc.job && t.proc.localNonce == s.proc.localNonce
            && Busy(v, t.proc) && v.current == w.current && v.started == w.started
    decreases |steps|
  {
    if |steps| > 0 {
      ApplyKeepsConfig(s, steps[0]);
      var t := Apply(s, steps[0]);
      ElsewhereSeen(s, steps[0]);
      OneTurn(s.proc, t.proc, w);
      TurnsFollow(t, steps[1..], Scheduling.Run(w, TurnsIn(s.proc, t.proc)));
      Scheduling.RunConcat(w, TurnsIn(s.proc, t.proc), TurnsOf(t, steps[1..]));
    }
  }

  /** The worker between two jobs: the same worker once it has looked at its queue again. */
  function Between(queue: seq<nat>, draining: bool, started: seq<nat>, accepted: seq<nat>): Scheduling.Worker {
    Scheduling.Worker(queue, draining, true, None, started, accepted)
  }

  predicate Looked(w: Scheduling.Worker, queue: seq<nat>, draining: bool, started: seq<nat>) {
    w == Scheduling.LoopHead(Between(queue, draining, started, w.accepted))
  }

  lemma FirstLook(queue: seq<nat>, draining: bool)
    ensures Looked(Scheduling.RunWorker(Scheduling.Worker(queue, draining, false, None, [], queue)),
                   queue, draining, [])
  {
  }

  lemma LastLook(w: Scheduling.Worker, queue: seq<nat>, draining: bool, started: seq<nat>)
    requires Looked(w, queue, draining, started) && (|queue| == 0 || draining)
    ensures !w.workerRunning && w.started == started && w.queue == queue && w.draining == draining
  {
  }

  /** A job's end, after what happened meanwhile, takes the worker to its next look at the queue. */
  lemma JobTurnsFollow(w: Scheduling.Worker, queue: seq<nat>, started: seq<nat>, u: State, meanwhile: seq<Step>)
    requires |queue| > 0 && Looked(w, queue, false, started)
    requires u.cfg.final >= 1 && u.proc.up && u.proc.queue == queue[1..] && !u.proc.draining && AllElsewhere(meanwhile)
    ensures var t := Run(u, meanwhile);
            Looked(Scheduling.Run(w, TurnsOf(u, meanwhile) + [Scheduling.JobEnds(false)]),
                   t.proc.queue, t.proc.draining, started + [queue[0]])
  {
    var turns := TurnsOf(u, meanwhile);
    var v := Scheduling.Run(w, turns);
    TurnsFollow(u, meanwhile, w);
    Scheduling.RunConcat(w, turns, [Scheduling.JobEnds(false)]);
    Scheduling.RunOne(v, Scheduling.JobEnds(false));
  }

  /** The plan with one more job and what happened meanwhile. */
  function Extended(p: Plan, t: State, job: seq<Step>, meanwhile: seq<Step>, call: nat): Plan
    requires t.cfg.final >= 1
  {
    Plan(p.steps + (job + meanwhile), call, p.turns + (TurnsOf(Run(t, job), meanwhile) + [Scheduling.JobEnds(false)]))
  }

  lemma ExtendedRuns(s: State, p: Plan, job: seq<Step>, meanwhile: seq<Step>, call: nat, first: Scheduling.Worker)
    requires s.cfg.final >= 1
    ensures var t := Run(s, p.steps);
            var q := Extended(p, t, job, meanwhile, call);
            && Run(s, q.steps) == Run(Run(t, job), meanwhile)
            && Scheduling.Run(first, q.turns)
               == Scheduling.Run(Scheduling.Run(first, p.turns),
                                 TurnsOf(Run(t, job), meanwhile) + [Scheduling.JobEnds(false)])
  {
    var t := Run(s, p.steps);
    RunConcat(s, p.steps, job + meanwhile);
    RunConcat(t, job, meanwhile);
    Scheduling.RunConcat(first, p.turns, TurnsOf(Run(t, job), meanwhile) + [Scheduling.JobEnds(false)]);
  }

  lemma LoadLeavesOthers(s: State, t: State)
    requires t == DoLoad(s)
    ensures t == s.(db := t.db, node := t.node, proc := t.proc)
  {
  }

  lemma DoneLeavesOthers(s: State, t: State, id: nat, o: Outcome, gas: nat, localNonce: nat)
    requires id < |s.db.rows| && t == JobDone(s, id, o, gas, localNonce)
    ensures t == s.(db := t.db, node := t.node, proc := t.proc)
  {
  }

  /** A job changes the database, the node and the worker, nothing else. */
  lemma JobLeavesOthers(s: State, id: nat, oracle: Oracle, call: nat, t: State)
    requires s.cfg.final >= 1 && s.proc.up && s.proc.job == Taken(id)
    requires t == Run(s, JobPlan(s, id, oracle, call))
    ensures t == s.(db := t.db, node := t.node, proc := t.proc)
  {
    if !Sendable(s.db.rows, id) {
      RunOne(s, Load);
      LoadLeavesOthers(s, t);
    } else {
      var o := JobOutcome(s.cfg, s.db.rows[id], s.proc.localNonce, oracle, call);
      if Resumable(s.db.rows[id]) {
        ResumeJobRun(s, id, oracle, call);
        DoneLeavesOthers(s, t, id, o, oracle.estimate(call), s.proc.localNonce);
      } else {
        FreshJobRun(s, id, oracle, call);
        DoneLeavesOthers(s, t, id, o, oracle.estimate(call), if o.sent then o.nonce + 1 else o.nonce);
      }
    }
  }

  lemma TakenLeavesOthers(s: State, oracle: Oracle, call: nat)
    requires s.cfg.final >= 1 && s.proc.up && !s.proc.draining && s.proc.job.Idle? && |s.proc.queue| > 0
    ensures var t := Run(s, [Take] + JobPlan(TakenNext(s), s.proc.queue[0], oracle, call));
            t == s.(db := t.db, node := t.node, proc := t.proc)
  {
    TakeTakes(s);
    RunCons(s, Take, JobPlan(TakenNext(s), s.proc.queue[0], oracle, call));
    var job := JobPlan(TakenNext(s), s.proc.queue[0], oracle, call);
    JobLeavesOthers(TakenNext(s), s.proc.queue[0], oracle, call, Run(TakenNext(s), job));
  }

  /** A worker pass of one more job. */
  lemma PlanSnoc(s: State, n: nat, o: Oracle, call: nat, env: seq<seq<Step>>, p: Plan, t: State, job: seq<Step>)
    requires s.cfg.final >= 1 && p == WorkerPlan(s, n, o, call, env) && t == Run(s, p.steps)
    requires |t.proc.queue| > 0 && !t.proc.draining
    requires job == [Take] + JobPlan(TakenNext(t), t.proc.queue[0], o, p.call)
    ensures WorkerPlan(s, n + 1, o, call, env)
            == Extended(p, t, job, During(env, n), p.call + JobCalls(TakenNext(t), t.proc.queue[0], o, p.call))
  {
  }

  /** A worker pass from `s` that has started these jobs and got to `t`, as plan, state and scheduling have it. */
  ghost predicate Passing(s: State, t: State, p: Plan, started: seq<nat>, o: Oracle, call: nat, env: seq<seq<Step>>,
                          first: Scheduling.Worker)
    requires s.cfg.final >= 1
  {
    && t == Run(s, p.steps) && p == WorkerPlan(s, |started|, o, call, env)
    && Looked(Scheduling.Run(first, p.turns), t.proc.queue, t.proc.draining, started)
  }

  /** One round of a worker pass: the extended plan runs to where the round ended, and the scheduling looked again. */
  lemma RoundFollows(s: State, t: State, p: Plan, started: seq<nat>, o: Oracle, call: nat, env: seq<seq<Step>>,
                     first: Scheduling.Worker, job: seq<Step>, u: State, after: State, next: Plan)
    requires s.cfg.final >= 1 && Passing(s, t, p, started, o, call, env, first)
    requires |t.proc.queue| > 0 && !t.proc.draining && AllElsewhere(During(env, |started|))
    requires job == [Take] + JobPlan(TakenNext(t), t.proc.queue[0], o, p.call) && u == Run(t, job)
    requires u.proc.up && u.proc.queue == t.proc.queue[1..] && !u.proc.draining
    requires after == Run(u, During(env, |started|))
    requires next == Extended(p, t, job, During(env, |started|),
                              p.call + JobCalls(TakenNext(t), t.proc.queue[0], o, p.call))
    ensures Passing(s, after, next, started + [t.proc.queue[0]], o, call, env, first)
  {
    JobTurnsFollow(Scheduling.Run(first, p.turns), t.proc.queue, started, u, During(env, |started|));
    ExtendedRuns(s, p, job, During(env, |started|), next.call, first);
    PlanSnoc(s, |started|, o, call, env, p, t, job);
  }

  // ---- What one sweep and one recovery amount to ----------------------------

  datatype SweepChoice = LeaveIt | ForgetIt | GiveItUp | ResendIt

  /** What the sweep does with a submitted row. */
  function Choose(row: Row, receipt: Option<Receipt>, info: Option<InflightTx>, now: int, updatedAt: int,
                  stuckMs: int, maxRetries: nat): SweepChoice
  {
    if row.txHash.None? || row.nonce.None? then LeaveIt
    else if receipt.Some? then ForgetIt
    else if now - (if info.Some? then info.value.lastSubmittedAt else updatedAt) < stuckMs then LeaveIt
    else if row.retryCount >= maxRetries then GiveItUp
    else ResendIt
  }

  /** The fees a resend starts from: in flight, else the pending transaction's, else the market's. */
  function PreviousFees(row: Row, entry: Option<Fees>, node: Node, market: Fees): Fees
    requires row.txHash.Some?
  {
    if entry.Some? then entry.value
    else
      var fees := row.txHash.value.fees;
      if row.txHash.value in node.pool && fees.maxFee > 0 && fees.priority > 0 then fees else market
  }

  function EntryFees(info: Option<InflightTx>): Option<Fees> {
    if info.Some? then Some(info.value.fees) else None
  }

  function EntryFor(inflight: map<nat, InflightTx>, id: nat): Option<InflightTx> {
    if id in inflight then Some(inflight[id]) else None
  }

  function ReceiptFor(row: Row, node: Node): Option<Receipt> {
    if row.txHash.None? then None else ReceiptOf(node.blocks, row.txHash.value)
  }

  /** Steps taken so far by a sweep, the next broadcast number, and the in-flight map. */
  datatype Swept = Swept(steps: seq<Step>, call: nat, inflight: map<nat, InflightTx>)

  datatype SweepTime = SweepTime(now: nat, updatedAt: nat -> nat, stuckMs: nat)

  function SweptResend(s: State, p: Swept, id: nat, time: SweepTime, o: Oracle): Swept
    requires id < |s.db.rows| && s.db.rows[id].txHash.Some? && s.db.rows[id].nonce.Some?
  {
    var row := s.db.rows[id];
    var info := EntryFor(p.inflight, id);
    var fees := BumpFees(PreviousFees(row, EntryFees(info), s.node, o.market(p.call)));
    var gas := if info.Some? then info.value.gasLimit else o.estimate(p.call);
    match o.reply(p.call)
    case Took =>
      Swept(p.steps + [SweepResend(id, gas, fees, false)], p.call + 1,
            p.inflight[id := InflightTx(row.nonce.value, gas, fees, time.now, row.retryCount + 1)])
    case Threw(cls) =>
      if cls.resync || cls.retryable then p.(call := p.call + 1)
      else Swept(p.steps + [SweepReject(id)], p.call + 1, p.inflight - {id})
  }

  function SweptRow(s: State, p: Swept, id: nat, time: SweepTime, o: Oracle): Swept
    requires id < |s.db.rows|
  {
    var row := s.db.rows[id];
    match Choose(row, ReceiptFor(row, s.node), EntryFor(p.inflight, id), time.now, time.updatedAt(id), time.stuckMs,
                 s.cfg.maxRetries)
    case LeaveIt => p
    case ForgetIt => p.(inflight := p.inflight - {id})
    case GiveItUp => p.(steps := p.steps + [SweepFail(id)], inflight := p.inflight - {id})
    case ResendIt => SweptResend(s, p, id, time, o)
  }

  /** The sweep of these rows, each seeing the state the ones before it left. */
  function SweepPlan(s: State, inflight: map<nat, InflightTx>, ids: seq<nat>, time: SweepTime, o: Oracle, call: nat)
    : Swept
    requires s.cfg.final >= 1
  {
    if |ids| == 0 then Swept([], call, inflight)
    else
      var p := SweepPlan(s, inflight, ids[..|ids| - 1], time, o, call);
      var t := Run(s, p.steps);
      var id := ids[|ids| - 1];
      if id < |t.db.rows| then SweptRow(t, p, id, time, o) else p
  }

  lemma SweepPlanSnoc(s: State, inflight: map<nat, InflightTx>, ids: seq<nat>, id: nat, time: SweepTime, o: Oracle,
                      call: nat, p: Swept)
    requires s.cfg.final >= 1
    requires p == SweepPlan(s, inflight, ids, time, o, call) && id < |Run(s, p.steps).db.rows|
    ensures SweepPlan(s, inflight, ids + [id], time, o, call) == SweptRow(Run(s, p.steps), p, id, time, o)
  {
    assert (ids + [id])[..|ids|] == ids;
  }

  lemma SweepResendApplies(t: State, id: nat, gas: nat, fees: Fees)
    requires t.cfg.final >= 1 && Stuck(t, id) && t.db.rows[id].retryCount < t.cfg.maxRetries
    ensures var row := t.db.rows[id];
            var tx := PaymentOf(row, row.nonce.value, gas, fees);
            Apply(t, SweepResend(id, gas, fees, false))
            == t.(node := Accepted(t.node, id, tx), db := Resent(t.db, id, tx, row.retryCount + 1))
  {
  }

  lemma SweepRejectApplies(t: State, id: nat)
    requires t.cfg.final >= 1 && Stuck(t, id) && t.db.rows[id].retryCount < t.cfg.maxRetries
    ensures Apply(t, SweepReject(id))
            == t.(db := Transitioned(t.db, id, Failed, FailWith(t.db.rows[id].retryCount + 1)))
  {
  }

  function Recoveries(ids: seq<nat>): seq<Step> {
    seq(|ids|, k requires 0 <= k < |ids| => Recover(ids[k]))
  }

  /** The in-flight map after one recovered row: tracked again, forgotten, or as it was. */
  function Recovered(s: State, id: nat, inflight: map<nat, InflightTx>, now: nat): map<nat, InflightTx>
    requires id < |s.db.rows|
  {
    var row := s.db.rows[id];
    if row.status != Submitted || row.txHash.None? then inflight
    else
      var tx := row.txHash.value;
      var receipt := ReceiptOf(s.node.blocks, tx);
      if receipt.Some? then (if receipt.value.ok then inflight else inflight - {id})
      else if tx in s.node.pool then
        var nonce := if row.nonce.Some? then row.nonce.value else tx.nonce;
        inflight[id := InflightTx(nonce, tx.gasLimit, tx.fees, now, row.retryCount)]
      else inflight
  }

  /** And after these rows, one by one. */
  function RecoveredAll(s: State, ids: seq<nat>, inflight: map<nat, InflightTx>, now: nat): map<nat, InflightTx>
    requires s.cfg.final >= 1
  {
    if |ids| == 0 then inflight
    else
      var n := |ids| - 1;
      var t := Run(s, Recoveries(ids[..n]));
      var before := RecoveredAll(s, ids[..n], inflight, now);
      if ids[n] < |t.db.rows| then Recovered(t, ids[n], before, now) else before
  }

  lemma RecoveredSnoc(s: State, ids: seq<nat>, id: nat, inflight: map<nat, InflightTx>, now: nat)
    requires s.cfg.final >= 1 && id < |Run(s, Recoveries(ids)).db.rows|
    ensures RecoveredAll(s, ids + [id], inflight, now)
            == Recovered(Run(s, Recoveries(ids)), id, RecoveredAll(s, ids, inflight, now), now)
  {
    assert (ids + [id])[..|ids|] == ids;
  }

  lemma RecoveriesSnoc(s: State, ids: seq<nat>, id: nat)
    requires s.cfg.final >= 1
    ensures Run(s, Recoveries(ids + [id])) == Apply(Run(s, Recoveries(ids)), Recover(id))
  {
    assert Recoveries(ids + [id]) == Recoveries(ids) + [Recover(id)];
    RunConcat(s, Recoveries(ids), [Recover(id)]);
    RunOne(Run(s, Recoveries(ids)), Recover(id));
  }

  lemma ResumeJobRun(s: State, id: nat, oracle: Oracle, call: nat)
    requires s.cfg.final >= 1 && s.proc.up && s.proc.job == Taken(id)
    requires id < |s.db.rows| && Resumable(s.db.rows[id])
    ensures var o := JobOutcome(s.cfg, s.db.rows[id], s.proc.localNonce, oracle, call);
            Run(s, JobPlan(s, id, oracle, call))
            == JobDone(s, id, o, oracle.estimate(call), s.proc.localNonce)
  {
    var row, gas := s.db.rows[id], oracle.estimate(call);
    var o := JobOutcome(s.cfg, row, s.proc.localNonce, oracle, call);
    var _ := AttemptsBounded(oracle.reply, oracle.pending, call, 0, true, row.nonce.value, oracle.market(call),
                             row.retryCount, s.cfg.maxRetries);
    ResumeJobEnds(s, id, o, gas);
    RunOne(s, if o.sent then Resume(gas, o.fees, o.retry, false) else ResumeFail(o.retry));
  }
}
