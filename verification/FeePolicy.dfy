/**
 * The relayer prices by the policy: its jobs, its sweep and its recovery, taken as runs
 * with the network's quotes, satisfy it, and the policy's entries are the fees in the
 * relayer's own in-flight map throughout.
 */
module FeePolicy {
  import opened Basics
  import opened Rail
  import opened Chain
  import opened SettlementState
  import opened Engine
  import opened RetryPolicy
  import opened Plans
  import opened FeeBound

  /** The fees in the in-flight map. */
  function FeesOf(inflight: map<nat, InflightTx>): Entries {
    map id | id in inflight :: inflight[id].fees
  }

  lemma FeesOfSet(inflight: map<nat, InflightTx>, id: nat, entry: InflightTx)
    ensures FeesOf(inflight[id := entry]) == FeesOf(inflight)[id := entry.fees]
    ensures FeesOf(inflight - {id}) == FeesOf(inflight) - {id}
  {
  }

  /** These steps, all under one quote. */
  function Quoted(steps: seq<Step>, quote: Fees): seq<QuotedStep> {
    if |steps| == 0 then [] else [Do(steps[0], quote)] + Quoted(steps[1..], quote)
  }

  lemma {:induction false} QuotedConcat(a: seq<Step>, b: seq<Step>, quote: Fees)
    ensures Quoted(a + b, quote) == Quoted(a, quote) + Quoted(b, quote)
    decreases |a|
  {
    if |a| == 0 {
      assert a + b == b;
    } else {
      assert (a + b)[1..] == a[1..] + b;
      QuotedConcat(a[1..], b, quote);
    }
  }

  lemma QuotedOne(e: Step, quote: Fees)
    ensures Quoted([e], quote) == [Do(e, quote)]
  {
    assert [e][1..] == [];
  }

  lemma {:induction false} MovesConcat(p: Point, a: seq<QuotedStep>, b: seq<QuotedStep>)
    requires p.s.cfg.final >= 1
    ensures RunAll(p, a + b) == RunAll(RunAll(p, a), b)
    ensures AlongPolicy(p, a + b) <==> AlongPolicy(p, a) && AlongPolicy(RunAll(p, a), b)
    decreases |a|
  {
    if |a| == 0 {
      assert a + b == b;
    } else {
      assert (a + b)[1..] == a[1..] + b;
      MovesConcat(Stepped(p, a[0]), a[1..], b);
    }
  }

  lemma OneMove(p: Point, m: QuotedStep)
    requires p.s.cfg.final >= 1
    ensures RunAll(p, [m]) == Stepped(p, m)
    ensures AlongPolicy(p, [m]) <==> FollowsPolicy(p, m)
  {
    assert [m][1..] == [];
  }

  // ---- Jobs -------------------------------------------------------------------

  /** Steps that send nothing and touch no entry. */
  predicate Quiet(e: Step) {
    e.Take? || e.Load? || e.Retry? || e.Write?
  }

  lemma {:induction false} QuietMoves(p: Point, steps: seq<Step>, quote: Fees)
    requires p.s.cfg.final >= 1 && forall i :: 0 <= i < |steps| ==> Quiet(steps[i])
    ensures RunAll(p, Quoted(steps, quote)) == Point(Run(p.s, steps), p.entries)
    ensures AlongPolicy(p, Quoted(steps, quote))
    decreases |steps|
  {
    if |steps| > 0 {
      ApplyKeepsConfig(p.s, steps[0]);
      QuietMoves(Point(Apply(p.s, steps[0]), p.entries), steps[1..], quote);
    }
  }

  /** The last attempt of a fresh job, on a worker about to make it. */
  lemma LastAttempt(b: Point, id: nat, o: Outcome, gas: nat, quote: Fees, retry: nat)
    requires b.s.cfg.final >= 1 && b.s.proc.up && id < |b.s.db.rows|
    requires b.s.proc.job == Sending(id, o.nonce, retry)
    requires o.sent ==> RaisedFrom(quote, o.fees, retry - b.s.db.rows[id].retryCount)
    requires !o.sent ==> o.permanent || retry + 1 > b.s.cfg.maxRetries
    ensures var end := EndOf(o, gas);
            && AlongPolicy(b, Quoted(end, quote))
            && RunAll(b, Quoted(end, quote)).s == Run(b.s, end)
            && RunAll(b, Quoted(end, quote)).entries
               == if o.sent then b.entries[id := o.fees] else b.entries - {id}
  {
    if o.sent {
      var accept := Accept(gas, o.fees);
      var c := Stepped(b, Do(accept, quote));
      QuietMoves(c, [Write], quote);
      OneMove(b, Do(accept, quote));
      QuotedOne(accept, quote);
      QuotedConcat([accept], [Write], quote);
      MovesConcat(b, [Do(accept, quote)], Quoted([Write], quote));
      RunCons(b.s, accept, [Write]);
      assert [accept] + [Write] == [accept, Write];
    } else {
      OneMove(b, Do(GiveUp(o.permanent), quote));
      QuotedOne(GiveUp(o.permanent), quote);
      RunOne(b.s, GiveUp(o.permanent));
    }
  }

  /** What a job leaves of the entries. */
  function EntriesAfter(entries: Entries, id: nat, o: Outcome): Entries {
    if o.sent then entries[id := o.fees] else entries - {id}
  }

  lemma RetriesQuiet(refetches: seq<Option<nat>>)
    ensures forall i :: 0 <= i < |[Load] + Retries(refetches)| ==> Quiet(([Load] + Retries(refetches))[i])
  {
  }

  lemma AttemptsArePriced(c: Config, row: Row, localNonce: nat, o: Oracle, call: nat)
    ensures var outcome := JobOutcome(c, row, localNonce, o, call);
            outcome.sent ==> RaisedFrom(o.market(call), outcome.fees, outcome.retry - row.retryCount)
  {
    var resume := Resumable(row);
    var k := AttemptsBounded(o.reply, o.pending, call, 0, resume, if resume then row.nonce.value else localNonce,
                             o.market(call), row.retryCount, c.maxRetries);
    var outcome := JobOutcome(c, row, localNonce, o, call);
    assert outcome.fees == BumpsOf(o.market(call), k);
  }

  lemma FreshFollowsPolicy(s: State, id: nat, o: Oracle, call: nat, entries: Entries)
    requires s.cfg.final >= 1 && s.proc.up && s.proc.job == Taken(id)
    requires Sendable(s.db.rows, id) && !Resumable(s.db.rows[id])
    ensures var steps := JobPlan(s, id, o, call);
            var moves := Quoted(steps, o.market(call));
            && AlongPolicy(Point(s, entries), moves)
            && RunAll(Point(s, entries), moves)
               == Point(Run(s, steps),
                        EntriesAfter(entries, id, JobOutcome(s.cfg, s.db.rows[id], s.proc.localNonce, o, call)))
  {
    var row, quote := s.db.rows[id], o.market(call);
    var outcome := JobOutcome(s.cfg, row, s.proc.localNonce, o, call);
    var start := [Load] + Retries(JobRefetches(row, outcome, o, call));
    UntilLastAttempt(s, id, o, call);
    QuietMoves(Point(s, entries), start, quote);
    AttemptsArePriced(s.cfg, row, s.proc.localNonce, o, call);
    LastAttempt(Point(Run(s, start), entries), id, outcome, o.estimate(call), quote,
                row.retryCount + outcome.failures);
    InTwoParts(Point(s, entries), start, EndOf(outcome, o.estimate(call)), quote);
  }

  function EndOf(o: Outcome, gas: nat): seq<Step> {
    if o.sent then [Accept(gas, o.fees), Write] else [GiveUp(o.permanent)]
  }

  lemma UntilLastAttempt(s: State, id: nat, o: Oracle, call: nat)
    requires s.cfg.final >= 1 && s.proc.up && s.proc.job == Taken(id)
    requires Sendable(s.db.rows, id) && !Resumable(s.db.rows[id])
    ensures var row := s.db.rows[id];
            var outcome := JobOutcome(s.cfg, row, s.proc.localNonce, o, call);
            var start := [Load] + Retries(JobRefetches(row, outcome, o, call));
            && (forall i :: 0 <= i < |start| ==> Quiet(start[i]))
            && var b := Run(s, start);
            && b == s.(proc := b.proc) && b.proc.up
            && b.proc.job == Sending(id, outcome.nonce, row.retryCount + outcome.failures)
            && (outcome.sent ==> outcome.retry == row.retryCount + outcome.failures)
            && (!outcome.sent ==> outcome.permanent || row.retryCount + outcome.failures + 1 > s.cfg.maxRetries)
            && JobPlan(s, id, o, call) == start + EndOf(outcome, o.estimate(call))
  {
    var row := s.db.rows[id];
    var refetches := JobRefetches(row, JobOutcome(s.cfg, row, s.proc.localNonce, o, call), o, call);
    FreshLoads(s, id);
    FreshRetries(s, id, o, call);
    RunConcat(s, [Load], Retries(refetches));
    RetriesQuiet(refetches);
  }

  lemma InTwoParts(p: Point, start: seq<Step>, end: seq<Step>, quote: Fees)
    requires p.s.cfg.final >= 1
    ensures RunAll(p, Quoted(start + end, quote)) == RunAll(RunAll(p, Quoted(start, quote)), Quoted(end, quote))
    ensures AlongPolicy(p, Quoted(start + end, quote))
            <==> AlongPolicy(p, Quoted(start, quote))
                 && AlongPolicy(RunAll(p, Quoted(start, quote)), Quoted(end, quote))
    ensures Run(p.s, start + end) == Run(Run(p.s, start), end)
  {
    QuotedConcat(start, end, quote);
    MovesConcat(p, Quoted(start, quote), Quoted(end, quote));
    RunConcat(p.s, start, end);
  }

  lemma ResumeFollowsPolicy(s: State, id: nat, o: Oracle, call: nat, entries: Entries)
    requires s.cfg.final >= 1 && s.proc.up && s.proc.job == Taken(id)
    requires id < |s.db.rows| && Resumable(s.db.rows[id])
    ensures var steps := JobPlan(s, id, o, call);
            var moves := Quoted(steps, o.market(call));
            && AlongPolicy(Point(s, entries), moves)
            && RunAll(Point(s, entries), moves)
               == Point(Run(s, steps),
                        EntriesAfter(entries, id, JobOutcome(s.cfg, s.db.rows[id], s.proc.localNonce, o, call)))
  {
    var row := s.db.rows[id];
    var outcome := JobOutcome(s.cfg, row, s.proc.localNonce, o, call);
    var e := if outcome.sent then Resume(o.estimate(call), outcome.fees, outcome.retry, false)
             else ResumeFail(outcome.retry);
    ResumeMove(s, id, o, call, entries);
    OneMove(Point(s, entries), Do(e, o.market(call)));
    QuotedOne(e, o.market(call));
    RunOne(s, e);
  }

  lemma ResumeMove(s: State, id: nat, o: Oracle, call: nat, entries: Entries)
    requires s.cfg.final >= 1 && s.proc.up && s.proc.job == Taken(id)
    requires id < |s.db.rows| && Resumable(s.db.rows[id])
    ensures var outcome := JobOutcome(s.cfg, s.db.rows[id], s.proc.localNonce, o, call);
            var e := if outcome.sent then Resume(o.estimate(call), outcome.fees, outcome.retry, false)
                     else ResumeFail(outcome.retry);
            && FollowsPolicy(Point(s, entries), Do(e, o.market(call)))
            && Track(s, entries, e) == EntriesAfter(entries, id, outcome)
  {
    var row := s.db.rows[id];
    var outcome := JobOutcome(s.cfg, row, s.proc.localNonce, o, call);
    var _ := AttemptsBounded(o.reply, o.pending, call, 0, true, row.nonce.value, o.market(call), row.retryCount,
                             s.cfg.maxRetries);
    AttemptsArePriced(s.cfg, row, s.proc.localNonce, o, call);
    ResumeJobEnds(s, id, outcome, o.estimate(call));
  }

  /**
   * A job follows the policy as a run, under the one quote it starts from, and leaves
   * in the entries exactly the fees it leaves in the in-flight map.
   */
  lemma JobFollowsPolicy(s: State, id: nat, o: Oracle, call: nat, inflight: map<nat, InflightTx>, now: nat)
    requires s.cfg.final >= 1 && s.proc.up && s.proc.job == Taken(id)
    ensures var steps := JobPlan(s, id, o, call);
            var moves := Quoted(steps, o.market(call));
            var after := if !Sendable(s.db.rows, id) then inflight
                         else Tracked(inflight, id, JobOutcome(s.cfg, s.db.rows[id], s.proc.localNonce, o, call),
                                      o.estimate(call), now);
            && AlongPolicy(Point(s, FeesOf(inflight)), moves)
            && RunAll(Point(s, FeesOf(inflight)), moves) == Point(Run(s, steps), FeesOf(after))
  {
    if !Sendable(s.db.rows, id) {
      QuietMoves(Point(s, FeesOf(inflight)), [Load], o.market(call));
    } else {
      var row := s.db.rows[id];
      var outcome := JobOutcome(s.cfg, row, s.proc.localNonce, o, call);
      FeesOfSet(inflight, id, InflightTx(outcome.nonce, o.estimate(call), outcome.fees, now, outcome.retry));
      if Resumable(row) {
        ResumeFollowsPolicy(s, id, o, call, FeesOf(inflight));
      } else {
        FreshFollowsPolicy(s, id, o, call, FeesOf(inflight));
      }
    }
  }

  // ---- The sweep --------------------------------------------------------------

  /** What a sweep does with one row, as moves. */
  function SweepMove(t: State, p: Swept, id: nat, time: SweepTime, o: Oracle): seq<QuotedStep>
    requires id < |t.db.rows|
  {
    var row := t.db.rows[id];
    var q := SweptRow(t, p, id, time, o);
    if |q.steps| > |p.steps| then [Do(q.steps[|p.steps|], o.market(p.call))]
    else if Choose(row, ReceiptFor(row, t.node), EntryFor(p.inflight, id), time.now, time.updatedAt(id),
                   time.stuckMs, t.cfg.maxRetries).ForgetIt?
    then [Forget(id)]
    else []
  }

  function SweepMoves(s: State, inflight: map<nat, InflightTx>, ids: seq<nat>, time: SweepTime, o: Oracle, call: nat)
    : seq<QuotedStep>
    requires s.cfg.final >= 1
  {
    if |ids| == 0 then []
    else
      var n := |ids| - 1;
      var p := SweepPlan(s, inflight, ids[..n], time, o, call);
      var t := Run(s, p.steps);
      SweepMoves(s, inflight, ids[..n], time, o, call)
      + (if ids[n] < |t.db.rows| then SweepMove(t, p, ids[n], time, o) else [])
  }

  /** The one step, if any, that a sweep takes for a row. */
  function NewSteps(p: Swept, q: Swept): seq<Step> {
    if |q.steps| > |p.steps| then [q.steps[|p.steps|]] else []
  }

  lemma SweptAppends(t: State, p: Swept, id: nat, time: SweepTime, o: Oracle)
    requires id < |t.db.rows|
    ensures SweptRow(t, p, id, time, o).steps == p.steps + NewSteps(p, SweptRow(t, p, id, time, o))
  {
  }

  /** The step a sweep takes for a row is one of three, on that row. */
  predicate OfSweep(e: Step, id: nat) {
    e == SweepFail(id) || e == SweepReject(id) || (e.SweepResend? && e.id == id && !e.crash)
  }

  lemma SweepResendMove(t: State, entries: Entries, id: nat, gas: nat, fees: Fees, quote: Fees)
    requires t.cfg.final >= 1 && Stuck(t, id) && t.db.rows[id].retryCount < t.cfg.maxRetries
    requires ResendPrice(t, entries, id, fees, quote)
    ensures FollowsPolicy(Point(t, entries), Do(SweepResend(id, gas, fees, false), quote))
    ensures Track(t, entries, SweepResend(id, gas, fees, false)) == entries[id := fees]
  {
    var row := t.db.rows[id];
    SweepResendApplies(t, id, gas, fees);
    assert Accepted(t.node, id, PaymentOf(row, row.nonce.value, gas, fees)).accepted != t.node.accepted;
  }

  lemma SweepFailMove(t: State, entries: Entries, id: nat)
    requires t.cfg.final >= 1 && Stuck(t, id)
    ensures t.db.rows[id].retryCount < t.cfg.maxRetries ==> Track(t, entries, SweepReject(id)) == entries - {id}
    ensures t.db.rows[id].retryCount >= t.cfg.maxRetries ==> Track(t, entries, SweepFail(id)) == entries - {id}
  {
    var n := t.db.rows[id].retryCount;
    assert Transitioned(t.db, id, Failed, FailWith(n)).rows[id].status == Failed;
    assert Transitioned(t.db, id, Failed, FailWith(n + 1)).rows[id].status == Failed;
  }

  /** A resend under the policy is tracked with its fees, a refused one forgotten. */
  lemma ResendMove(t: State, p: Swept, id: nat, time: SweepTime, o: Oracle)
    requires t.cfg.final >= 1 && Stuck(t, id) && t.db.rows[id].retryCount < t.cfg.maxRetries
    ensures var q := SweptResend(t, p, id, time, o);
            if |q.steps| > |p.steps| then
              && FollowsPolicy(Point(t, FeesOf(p.inflight)), Do(q.steps[|p.steps|], o.market(p.call)))
              && Track(t, FeesOf(p.inflight), q.steps[|p.steps|]) == FeesOf(q.inflight)
            else q.inflight == p.inflight
  {
    var row := t.db.rows[id];
    var info := EntryFor(p.inflight, id);
    var fees := BumpFees(PreviousFees(row, EntryFees(info), t.node, o.market(p.call)));
    var gas := if info.Some? then info.value.gasLimit else o.estimate(p.call);
    assert EntryFees(info) == if id in FeesOf(p.inflight) then Some(FeesOf(p.inflight)[id]) else None;
    FeesOfSet(p.inflight, id, InflightTx(row.nonce.value, gas, fees, time.now, row.retryCount + 1));
    if o.reply(p.call).Took? {
      SweepResendMove(t, FeesOf(p.inflight), id, gas, fees, o.market(p.call));
    } else {
      SweepFailMove(t, FeesOf(p.inflight), id);
    }
  }

  /** The row's step, if it takes one, follows the policy and keeps entries and map together. */
  lemma RowMove(t: State, p: Swept, id: nat, time: SweepTime, o: Oracle)
    requires t.cfg.final >= 1 && t.proc.up && id < |t.db.rows| && t.db.rows[id].status == Submitted
    ensures var q := SweptRow(t, p, id, time, o);
            if |q.steps| > |p.steps| then
              && FollowsPolicy(Point(t, FeesOf(p.inflight)), Do(q.steps[|p.steps|], o.market(p.call)))
              && Track(t, FeesOf(p.inflight), q.steps[|p.steps|]) == FeesOf(q.inflight)
              && OfSweep(q.steps[|p.steps|], id)
            else q.inflight == p.inflight || q.inflight == p.inflight - {id}
  {
    var row := t.db.rows[id];
    FeesOfSet(p.inflight, id, InflightTx(0, 0, Fees(0, 0), 0, 0));
    match Choose(row, ReceiptFor(row, t.node), EntryFor(p.inflight, id), time.now, time.updatedAt(id), time.stuckMs,
                 t.cfg.maxRetries)
    case LeaveIt =>
    case ForgetIt =>
    case GiveItUp => SweepFailMove(t, FeesOf(p.inflight), id);
    case ResendIt => ResendMove(t, p, id, time, o);
  }

  lemma StepMove(t: State, entries: Entries, e: Step, quote: Fees, after: Entries, moves: seq<QuotedStep>)
    requires t.cfg.final >= 1 && moves == [Do(e, quote)]
    requires FollowsPolicy(Point(t, entries), Do(e, quote)) && after == Track(t, entries, e)
    ensures AlongPolicy(Point(t, entries), moves)
    ensures RunAll(Point(t, entries), moves) == Point(Run(t, [e]), after)
  {
    OneMove(Point(t, entries), moves[0]);
    RunOne(t, e);
  }

  /** A row without a step leaves the entries, or forgets its own. */
  lemma NoStepMove(t: State, entries: Entries, id: nat, moves: seq<QuotedStep>)
    requires t.cfg.final >= 1 && (moves == [] || moves == [Forget(id)])
    ensures AlongPolicy(Point(t, entries), moves)
    ensures RunAll(Point(t, entries), moves) == Point(Run(t, []), if moves == [] then entries else entries - {id})
  {
    if moves != [] {
      OneMove(Point(t, entries), moves[0]);
    }
  }

  lemma RowFollowsPolicy(t: State, p: Swept, id: nat, time: SweepTime, o: Oracle)
    requires t.cfg.final >= 1 && t.proc.up && id < |t.db.rows| && t.db.rows[id].status == Submitted
    ensures var q := SweptRow(t, p, id, time, o);
            var moves := SweepMove(t, p, id, time, o);
            && AlongPolicy(Point(t, FeesOf(p.inflight)), moves)
            && RunAll(Point(t, FeesOf(p.inflight)), moves) == Point(Run(t, NewSteps(p, q)), FeesOf(q.inflight))
  {
    var q, moves := SweptRow(t, p, id, time, o), SweepMove(t, p, id, time, o);
    RowMove(t, p, id, time, o);
    if |q.steps| > |p.steps| {
      StepMove(t, FeesOf(p.inflight), q.steps[|p.steps|], o.market(p.call), FeesOf(q.inflight), moves);
    } else {
      FeesOfSet(p.inflight, id, InflightTx(0, 0, Fees(0, 0), 0, 0));
      NoStepMove(t, FeesOf(p.inflight), id, moves);
    }
  }

  lemma SweepStepFrame(t: State, e: Step, id: nat)
    requires t.cfg.final >= 1 && t.proc.up && id < |t.db.rows| && OfSweep(e, id)
    ensures var u := Apply(t, e);
            && u.cfg == t.cfg && u.proc.up && |u.db.rows| == |t.db.rows|
            && forall j :: 0 <= j < |t.db.rows| && j != id ==> u.db.rows[j] == t.db.rows[j]
  {
  }

  /** Sweeping one row leaves the others, and the process, as they were. */
  lemma SweptRowFrame(t: State, p: Swept, id: nat, time: SweepTime, o: Oracle)
    requires t.cfg.final >= 1 && t.proc.up && id < |t.db.rows| && t.db.rows[id].status == Submitted
    ensures var u := Run(t, NewSteps(p, SweptRow(t, p, id, time, o)));
            && u.cfg == t.cfg && u.proc.up && |u.db.rows| == |t.db.rows|
            && forall j :: 0 <= j < |t.db.rows| && j != id ==> u.db.rows[j] == t.db.rows[j]
  {
    var q := SweptRow(t, p, id, time, o);
    RowMove(t, p, id, time, o);
    if |q.steps| > |p.steps| {
      RunOne(t, q.steps[|p.steps|]);
      SweepStepFrame(t, q.steps[|p.steps|], id);
    }
  }

  /**
   * A sweep follows the policy as a run: each resend raises once what its in-flight
   * entry holds, else the pending transaction's fees, else the quote of that moment;
   * and the entries stay the fees of the in-flight map.
   */
  lemma {:induction false} SweepFollowsPolicy(
      s: State, inflight: map<nat, InflightTx>, ids: seq<nat>, time: SweepTime, o: Oracle, call: nat)
    requires s.cfg.final >= 1 && s.proc.up
    requires forall j, k :: 0 <= j < k < |ids| ==> ids[j] < ids[k]
    requires forall j :: 0 <= j < |ids| ==> ids[j] < |s.db.rows| && s.db.rows[ids[j]].status == Submitted
    ensures var plan := SweepPlan(s, inflight, ids, time, o, call);
            var moves := SweepMoves(s, inflight, ids, time, o, call);
            && AlongPolicy(Point(s, FeesOf(inflight)), moves)
            && RunAll(Point(s, FeesOf(inflight)), moves) == Point(Run(s, plan.steps), FeesOf(plan.inflight))
    ensures var u := Run(s, SweepPlan(s, inflight, ids, time, o, call).steps);
            && u.proc.up && |u.db.rows| == |s.db.rows|
            && forall i :: 0 <= i < |s.db.rows| && i !in ids ==> u.db.rows[i] == s.db.rows[i]
    decreases |ids|
  {
    if |ids| > 0 {
      var n := |ids| - 1;
      SweepFollowsPolicy(s, inflight, ids[..n], time, o, call);
      var p := SweepPlan(s, inflight, ids[..n], time, o, call);
      var t := Run(s, p.steps);
      assert ids[n] !in ids[..n];
      var q := SweptRow(t, p, ids[n], time, o);
      RowFollowsPolicy(t, p, ids[n], time, o);
      SweptRowFrame(t, p, ids[n], time, o);
      SweptAppends(t, p, ids[n], time, o);
      RunConcat(s, p.steps, NewSteps(p, q));
      MovesConcat(Point(s, FeesOf(inflight)), SweepMoves(s, inflight, ids[..n], time, o, call),
                  SweepMove(t, p, ids[n], time, o));
    }
  }

  // ---- Recovery ---------------------------------------------------------------

  lemma RecoverFollowsPolicy(t: State, id: nat, inflight: map<nat, InflightTx>, now: nat, quote: Fees)
    requires t.cfg.final >= 1 && t.proc.up
    ensures var m := Do(Recover(id), quote);
            && FollowsPolicy(Point(t, FeesOf(inflight)), m)
            && Stepped(Point(t, FeesOf(inflight)), m)
               == Point(Apply(t, Recover(id)),
                        FeesOf(if id < |t.db.rows| then Recovered(t, id, inflight, now) else inflight))
    ensures Apply(t, Recover(id)).proc.up
  {
    if id < |t.db.rows| && t.db.rows[id].txHash.Some? {
      var row := t.db.rows[id];
      var tx := row.txHash.value;
      var nonce := if row.nonce.Some? then row.nonce.value else tx.nonce;
      FeesOfSet(inflight, id, InflightTx(nonce, tx.gasLimit, tx.fees, now, row.retryCount));
    }
  }

  /** Recovery sends nothing, and leaves in the entries what it leaves in the in-flight map. */
  lemma {:induction false} RecoveryFollowsPolicy(
      s: State, ids: seq<nat>, inflight: map<nat, InflightTx>, now: nat, quote: Fees)
    requires s.cfg.final >= 1 && s.proc.up
    ensures var moves := Quoted(Recoveries(ids), quote);
            && AlongPolicy(Point(s, FeesOf(inflight)), moves)
            && RunAll(Point(s, FeesOf(inflight)), moves)
               == Point(Run(s, Recoveries(ids)), FeesOf(RecoveredAll(s, ids, inflight, now)))
    ensures Run(s, Recoveries(ids)).proc.up
    decreases |ids|
  {
    if |ids| == 0 {
      assert Recoveries(ids) == [];
    } else {
      var n := |ids| - 1;
      RecoveryFollowsPolicy(s, ids[..n], inflight, now, quote);
      var t := Run(s, Recoveries(ids[..n]));
      var before := RecoveredAll(s, ids[..n], inflight, now);
      assert Recoveries(ids) == Recoveries(ids[..n]) + [Recover(ids[n])];
      RecoverFollowsPolicy(t, ids[n], before, now, quote);
      OneMove(Point(t, FeesOf(before)), Do(Recover(ids[n]), quote));
      QuotedOne(Recover(ids[n]), quote);
      QuotedConcat(Recoveries(ids[..n]), [Recover(ids[n])], quote);
      MovesConcat(Point(s, FeesOf(inflight)), Quoted(Recoveries(ids[..n]), quote), Quoted([Recover(ids[n])], quote));
      RunConcat(s, Recoveries(ids[..n]), [Recover(ids[n])]);
      RunOne(t, Recover(ids[n]));
    }
  }
}
