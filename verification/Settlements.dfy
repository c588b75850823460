/**
 * The create path as the source writes it, one await at a time. At each await the rest
 * of the system, other create requests included, takes any steps; the whole call is
 * shown to be a run of the engine.
 */
module Settlements {
  import opened Basics
  import opened Rail
  import opened SettlementState
  import opened Services
  import opened Engine
  import opened Plans
  import opened Relayer
  import BalanceChecks

  /** What everything else does at the four awaits of a request. */
  datatype Waits = Waits(lookup: seq<Step>, balance: seq<Step>, insert: seq<Step>, screening: seq<Step>)

  predicate OfRequest(e: Step, r: nat) {
    (e.Lookup? || e.CheckBalance? || e.Insert? || e.Refetch? || e.Screen? || e.Enqueue?) && e.r == r
  }

  /** Not a step of this request, and not the end of the process. */
  predicate Foreign(e: Step, r: nat) {
    !Stops(e) && !OfRequest(e, r)
  }

  predicate AllForeign(steps: seq<Step>, r: nat) {
    forall i :: 0 <= i < |steps| ==> Foreign(steps[i], r)
  }

  predicate WaitsForeign(w: Waits, r: nat) {
    AllForeign(w.lookup, r) && AllForeign(w.balance, r) && AllForeign(w.insert, r) && AllForeign(w.screening, r)
  }

  /** What a request can rely on after others have moved: itself, the process, and the rows' identities. */
  predicate Undisturbed(s: State, t: State, r: nat) {
    && t.cfg == s.cfg && t.proc.up
    && r < |s.requests| <= |t.requests| && t.requests[r] == s.requests[r]
    && |s.db.rows| <= |t.db.rows|
    && forall i :: 0 <= i < |s.db.rows| ==> t.db.rows[i].instruction == s.db.rows[i].instruction
  }

  lemma RequestsUndisturb(s: State, e: Step, r: nat)
    requires s.cfg.final >= 1 && s.proc.up && r < |s.requests| && Foreign(e, r)
    requires e.Arrive? || e.Lookup? || e.CheckBalance? || e.Insert? || e.Refetch? || e.Screen? || e.Enqueue?
    ensures Undisturbed(s, Apply(s, e), r)
  {
  }

  lemma WorkUndisturbs(s: State, e: Step, r: nat)
    requires s.cfg.final >= 1 && s.proc.up && r < |s.requests| && Foreign(e, r) && OfWorker(e)
    ensures Undisturbed(s, Apply(s, e), r)
  {
  }

  lemma SweepUndisturbs(s: State, e: Step, r: nat)
    requires s.cfg.final >= 1 && s.proc.up && r < |s.requests| && Foreign(e, r)
    requires e.SweepResend? || e.SweepFail? || e.SweepReject? || e.Recover?
    ensures Undisturbed(s, Apply(s, e), r)
  {
  }

  lemma StepUndisturbs(s: State, e: Step, r: nat)
    requires s.cfg.final >= 1 && s.proc.up && r < |s.requests| && Foreign(e, r)
    ensures Undisturbed(s, Apply(s, e), r)
  {
    if OfWorker(e) {
      WorkUndisturbs(s, e, r);
    } else if e.SweepResend? || e.SweepFail? || e.SweepReject? || e.Recover? {
      SweepUndisturbs(s, e, r);
    } else if e.Arrive? || e.Lookup? || e.CheckBalance? || e.Insert? || e.Refetch? || e.Screen? || e.Enqueue? {
      RequestsUndisturb(s, e, r);
    }
  }

  lemma {:induction false} OthersUndisturb(s: State, steps: seq<Step>, r: nat)
    requires s.cfg.final >= 1 && s.proc.up && r < |s.requests| && AllForeign(steps, r)
    ensures Undisturbed(s, Run(s, steps), r)
    decreases |steps|
  {
    if |steps| > 0 {
      var t := Apply(s, steps[0]);
      ApplyKeepsConfig(s, steps[0]);
      StepUndisturbs(s, steps[0], r);
      OthersUndisturb(t, steps[1..], r);
    }
  }

  /** A row seen once is found again. */
  lemma FoundAgain(s: State, t: State, r: nat, instruction: InstructionId)
    requires Undisturbed(s, t, r) && FindInstruction(s.db.rows, instruction).Some?
    ensures FindInstruction(t.db.rows, instruction).Some?
  {
    var i := FindInstruction(s.db.rows, instruction).value;
    assert t.db.rows[i].instruction == instruction;
  }

  // ---- The request's own steps ----------------------------------------------

  function AssessPlan(s: State, q: Request, w: Waits): seq<Step> {
    var r := |s.requests|;
    [Arrive(q.instruction, q.to, q.amount), Lookup(r)]
    + (if FindInstruction(s.db.rows, q.instruction).Some? then [] else w.lookup + [CheckBalance(r)])
  }

  predicate HasInstruction(rows: seq<Row>, instruction: InstructionId) {
    exists i :: 0 <= i < |rows| && rows[i].instruction == instruction
  }

  /** The state in which the balance of a request is checked. */
  function CheckState(s: State, q: Request, w: Waits): State
    requires s.cfg.final >= 1
  {
    Run(s, [Arrive(q.instruction, q.to, q.amount), Lookup(|s.requests|)] + w.lookup)
  }

  /** The answer to a request whose instruction is known: the row it has, and nothing is done. */
  predicate AnswersKnown(s: State, t: State, instruction: InstructionId, p: Progress) {
    && p.Returned? && !p.created && p.id < |s.db.rows| && s.db.rows[p.id].instruction == instruction
    && t.db == s.db && t.proc == s.proc && t.enqueued == s.enqueued && t.node == s.node
  }

  /** The settlement has just joined the worker's queue. */
  predicate IsQueuedLast(s: State, id: nat) {
    |s.proc.queue| > 0 && s.proc.queue[|s.proc.queue| - 1] == id
  }

  function EnterPlan(r: nat, w: Waits): seq<Step> {
    w.balance + ([Insert(r)] + (w.insert + [Refetch(r)]))
  }

  function FinishPlan(r: nat, approve: bool, w: Waits): seq<Step> {
    [Screen(r, approve)] + (if approve then w.screening + [Enqueue(r)] else [])
  }

  /** A whole call: assessed; if cleared, entered; if its own row was inserted, screened and queued. */
  function CreatePlan(s: State, q: Request, approve: bool, w: Waits): seq<Step>
    requires s.cfg.final >= 1
  {
    var r, a := |s.requests|, AssessPlan(s, q, w);
    var t := Run(s, a);
    if !(r < |t.requests| && t.requests[r].progress.Cleared?) then a
    else
      var u := Run(t, EnterPlan(r, w));
      a + (EnterPlan(r, w)
           + if r < |u.requests| && u.requests[r].progress.Inserted? then FinishPlan(r, approve, w) else [])
  }

  lemma ArriveLooksUp(s: State, q: Request)
    requires s.cfg.final >= 1 && s.proc.up && q.amount > 0
    ensures var found := FindInstruction(s.db.rows, q.instruction);
            Run(s, [Arrive(q.instruction, q.to, q.amount), Lookup(|s.requests|)])
            == s.(requests := s.requests
                              + [q.(progress := if found.Some? then Returned(found.value, false) else Missed)])
  {
    var r := |s.requests|;
    var arrived := s.requests + [q.(progress := Arrived)];
    var found := FindInstruction(s.db.rows, q.instruction);
    RunTwo(s, Arrive(q.instruction, q.to, q.amount), Lookup(r));
    var p := if found.Some? then Returned(found.value, false) else Missed;
    assert arrived[r := q.(progress := p)] == s.requests + [q.(progress := p)];
  }

  lemma RunSnoc(s: State, steps: seq<Step>, e: Step)
    requires s.cfg.final >= 1
    ensures Run(s, steps + [e]) == Apply(Run(s, steps), e)
  {
    RunConcat(s, steps, [e]);
    RunOne(Run(s, steps), e);
  }

  /** The insert, what happens before the answer is read, and the second fetch if it lost a race. */
  lemma EnterRuns(s: State, r: nat, w: Waits)
    requires s.cfg.final >= 1
    ensures var t := Run(s, w.balance);
            Run(s, EnterPlan(r, w)) == Apply(Run(Apply(t, Insert(r)), w.insert), Refetch(r))
  {
    var t := Run(s, w.balance);
    RunConcat(s, w.balance, [Insert(r)] + (w.insert + [Refetch(r)]));
    RunCons(t, Insert(r), w.insert + [Refetch(r)]);
    RunSnoc(Apply(t, Insert(r)), w.insert, Refetch(r));
  }

  lemma FinishRuns(s: State, r: nat, approve: bool, w: Waits)
    requires s.cfg.final >= 1
    ensures var t := Apply(s, Screen(r, approve));
            && t.cfg == s.cfg
            && Run(s, FinishPlan(r, approve, w))
               == if approve then Apply(Run(t, w.screening), Enqueue(r)) else t
  {
    ApplyKeepsConfig(s, Screen(r, approve));
    var t := Apply(s, Screen(r, approve));
    if approve {
      RunCons(s, Screen(r, approve), w.screening + [Enqueue(r)]);
      RunSnoc(t, w.screening, Enqueue(r));
    } else {
      RunOne(s, Screen(r, approve));
      assert [Screen(r, approve)] + [] == [Screen(r, approve)];
    }
  }

  class SettlementsService {
    const state: SettlementStateService
    const ledger: LedgerService
    const relayer: RelayerService
    /** The screening provider's verdict on a recipient. */
    const approves: Address -> bool

    constructor (state: SettlementStateService, ledger: LedgerService, relayer: RelayerService,
                 approves: Address -> bool)
      ensures this.state == state && this.ledger == ledger && this.relayer == relayer && this.approves == approves
    {
      this.state, this.ledger, this.relayer, this.approves := state, ledger, relayer, approves;
    }

    predicate Sees(s: State)
      reads this, ledger, state, state.db, relayer, relayer.chain
    {
      ledger.db == state.db && relayer.state == state && relayer.Shows(s, s.proc.job)
    }

    function AvailableBalance(): (r: int)
      reads this, ledger, state, state.db
      requires ledger.db == state.db
      ensures r == Available(state.db.View())
    {
      ledger.GetOperatorBalance() - state.SumByStatuses(IN_FLIGHT)
    }

    /** The lookup and the balance check. */
    method Assess(q: Request, world: State, w: Waits) returns (after: State)
      requires Sees(world) && q.amount > 0 && WaitsForeign(w, |world.requests|)
      modifies relayer`queue, relayer`localNonce, relayer`draining, state.db, relayer.chain`node
      ensures Sees(after) && after == Run(world, AssessPlan(world, q, w))
      ensures |world.requests| < |after.requests|
      ensures var p := after.requests[|world.requests|];
              && p == q.(progress := p.progress)
              && if HasInstruction(world.db.rows, q.instruction)
                 then AnswersKnown(world, after, q.instruction, p.progress)
                 else p.progress == if q.amount > BalanceChecks.Spendable(CheckState(world, q, w).db) then Refused
                                    else Cleared
    {
      var r := |world.requests|;
      var existing := FindInstruction(state.db.rows, q.instruction);
      ArriveLooksUp(world, q);
      if existing.Some? {
        after := world.(requests := world.requests + [q.(progress := Returned(existing.value, false))]);
        assert AssessPlan(world, q, w) == [Arrive(q.instruction, q.to, q.amount), Lookup(r)];
        return;
      }
      after := world.(requests := world.requests + [q.(progress := Missed)]);
      OthersUndisturb(after, w.lookup, r);
      RunConcat(world, [Arrive(q.instruction, q.to, q.amount), Lookup(r)], w.lookup + [CheckBalance(r)]);
      RunSnoc(after, w.lookup, CheckBalance(r));
      RunConcat(world, [Arrive(q.instruction, q.to, q.amount), Lookup(r)], w.lookup);
      after := relayer.Meanwhile(after, w.lookup);
      BalanceChecks.AvailableIsSpendable(after.db);
      after := Advance(after, r, if q.amount > AvailableBalance() then Refused else Cleared);
    }

    /** The insert, or the row of whoever came first. */
    method Enter(r: nat, world: State, w: Waits) returns (after: State)
      requires Sees(world) && At(world, r, Cleared) && WaitsForeign(w, r)
      modifies relayer`queue, relayer`localNonce, relayer`draining, state.db, relayer.chain`node
      ensures Sees(after) && after == Run(world, EnterPlan(r, w))
      ensures r < |after.requests|
      ensures var p := after.requests[r];
              && p == world.requests[r].(progress := p.progress)
              && ((p.progress.Returned? && !p.progress.created)
                  || (p.progress.Inserted? && p.progress.id < |after.db.rows|))
    {
      var q := world.requests[r];
      EnterRuns(world, r, w);
      OthersUndisturb(world, w.balance, r);
      after := relayer.Meanwhile(world, w.balance);
      ghost var t := after;
      var id := state.Create(q.instruction, q.to, q.amount);
      after := Advance(after, r, if id.None? then Raced else Inserted(id.value)).(db := state.db.View());
      assert after == DoInsert(t, r);
      OthersUndisturb(after, w.insert, r);
      ghost var u := after;
      after := relayer.Meanwhile(after, w.insert);
      if id.None? {
        FoundAgain(u, after, r, q.instruction);
        var raced := FindInstruction(state.db.rows, q.instruction);
        after := Advance(after, r, Returned(raced.value, false));
      }
    }

    /** A row of one's own is screened, and queued if approved. */
    method Finish(r: nat, world: State, w: Waits) returns (after: State)
      requires Sees(world) && r < |world.requests| && world.proc.up && WaitsForeign(w, r)
      requires world.requests[r].progress.Inserted? && world.requests[r].progress.id < |world.db.rows|
      modifies relayer`queue, relayer`localNonce, relayer`draining, state.db, relayer.chain`node
      ensures Sees(after)
      ensures after == Run(world, FinishPlan(r, approves(world.requests[r].to), w))
      ensures r < |after.requests|
      ensures after.requests[r] == world.requests[r].(progress := Returned(world.requests[r].progress.id, true))
      ensures approves(world.requests[r].to) && !after.proc.draining ==>
                IsQueuedLast(after, world.requests[r].progress.id)
    {
      var q, id := world.requests[r], world.requests[r].progress.id;
      FinishRuns(world, r, approves(q.to), w);
      if !approves(q.to) {
        var _ := state.Transition(id, RejectedCompliance, NO_OPTS);
        after := Advance(world, r, Returned(id, true)).(db := state.db.View());
        return;
      }
      var _ := state.Transition(id, ComplianceApproved, NO_OPTS);
      after := Advance(world, r, Approved(id)).(db := state.db.View());
      OthersUndisturb(after, w.screening, r);
      after := relayer.Meanwhile(after, w.screening);
      relayer.EnqueueId(id);
      after := Advance(after, r, Returned(id, true)).(
        proc := Pushed(after.proc, id), enqueued := after.enqueued + [id]);
    }

    /**
     * Submits one instruction. Whatever everything else does at its awaits, the answer,
     * the tables and the queue are those of the engine's create steps among those. A
     * request for a known instruction gets its row; any other is refused exactly when
     * its amount exceeds what can be spent in the state of its check. An approved one
     * ends up queued, unless draining has begun.
     */
    method Create(instruction: InstructionId, to: Address, amount: nat, world: State, w: Waits)
      returns (answer: Progress, after: State)
      requires Sees(world) && amount > 0 && WaitsForeign(w, |world.requests|)
      modifies relayer`queue, relayer`localNonce, relayer`draining, state.db, relayer.chain`node
      ensures Sees(after)
      ensures after == Run(world, CreatePlan(world, Request(instruction, to, amount, Arrived), approves(to), w))
      ensures |world.requests| < |after.requests|
      ensures after.requests[|world.requests|] == Request(instruction, to, amount, answer)
      ensures answer.Returned? || answer.Refused?
      ensures HasInstruction(world.db.rows, instruction) ==> AnswersKnown(world, after, instruction, answer)
      ensures !HasInstruction(world.db.rows, instruction) ==>
                (answer.Refused?
                 <==> amount > BalanceChecks.Spendable(
                        CheckState(world, Request(instruction, to, amount, Arrived), w).db))
      ensures answer.Returned? && answer.created && approves(to) && !after.proc.draining ==>
                IsQueuedLast(after, answer.id)
    {
      var r, q := |world.requests|, Request(instruction, to, amount, Arrived);
      ghost var a := AssessPlan(world, q, w);
      after := Assess(q, world, w);
      answer := after.requests[r].progress;
      if !answer.Cleared? {
        return;
      }
      ghost var t := after;
      ghost var b := EnterPlan(r, w);
      assert b + [] == b;
      RunConcat(world, a, b);
      after := Enter(r, after, w);
      answer := after.requests[r].progress;
      if answer.Inserted? {
        ghost var u := after;
        ghost var c := FinishPlan(r, approves(to), w);
        RunConcat(world, a, b + c);
        RunConcat(t, b, c);
        after := Finish(r, after, w);
        answer := after.requests[r].progress;
      }
    }
  }
}
