/**
 * What the screening verdict decides: nobody the provider rejects is ever paid, and
 * every payment is one that a request asked for.
 */
module Screening {
  import opened Basics
  import opened Rail
  import opened SettlementState
  import opened Engine
  import opened SendSafety
  import opened AuditTrail
  import opened CreateOnce
  import opened BalanceChecks

  /** The step, if it ends a screening, ends it with the provider's verdict on the recipient. */
  predicate ByVerdict(approves: Address -> bool, s: State, e: Step) {
    e.Screen? && e.r < |s.requests| ==> e.approve == approves(s.requests[e.r].to)
  }

  function Verdicts(approves: Address -> bool): (State, Step) -> bool {
    (s: State, e: Step) => ByVerdict(approves, s, e)
  }

  /** The row is what the request asked for. */
  predicate IsAsk(q: Request, row: Row) {
    row.instruction == q.instruction && row.to == q.to && row.amount == q.amount
  }

  // ---- Rows and requests belong together ------------------------------------

  predicate AskedBy(s: State, i: nat) {
    i < |s.db.rows| && exists r :: 0 <= r < |s.requests| && IsAsk(s.requests[r], s.db.rows[i])
  }

  predicate OwnsAsk(s: State, q: Request) {
    OwnerOf(q.progress).Some? ==>
      OwnerOf(q.progress).value < |s.db.rows| && IsAsk(q, s.db.rows[OwnerOf(q.progress).value])
  }

  predicate Asked(s: State) {
    && (forall i :: 0 <= i < |s.db.rows| ==> AskedBy(s, i))
    && (forall r :: 0 <= r < |s.requests| ==> OwnsAsk(s, s.requests[r]))
  }

  /** A request keeps what it asks; a step of its own may give it a row, by inserting it. */
  lemma RequestGoesOn(s: State, e: Step, r: nat)
    requires s.cfg.final >= 1 && r < |s.requests|
    ensures var t := Apply(s, e);
            && r < |t.requests| && t.requests[r] == s.requests[r].(progress := t.requests[r].progress)
            && (OwnerOf(t.requests[r].progress).Some? ==>
                  OwnerOf(t.requests[r].progress) == OwnerOf(s.requests[r].progress)
                  || (t.requests[r].progress == Inserted(|s.db.rows|) && |s.db.rows| < |t.db.rows|
                      && IsAsk(s.requests[r], t.db.rows[|s.db.rows|])))
  {
    RequestsOnlyGrow(s, e);
    if StepOf(e, r) {
      OwnStepOwns(s, e, r);
    } else {
      StepLeaves(s, e, r);
    }
  }

  lemma RequestsOnlyGrow(s: State, e: Step)
    requires s.cfg.final >= 1
    ensures |Apply(s, e).requests| >= |s.requests|
  {
    if e.Crash? || e.Resume? || e.SweepResend? {
      assert Apply(s, e).requests == s.requests || Apply(s, e).requests == Crashed(s).requests;
    } else if !OfRequest(e) {
      OthersLeaveRequests(s, e);
    }
  }

  lemma OwnStepOwns(s: State, e: Step, r: nat)
    requires s.cfg.final >= 1 && StepOf(e, r) && r < |s.requests|
    ensures var t := Apply(s, e);
            && r < |t.requests| && t.requests[r] == s.requests[r].(progress := t.requests[r].progress)
            && (OwnerOf(t.requests[r].progress).Some? ==>
                  OwnerOf(t.requests[r].progress) == OwnerOf(s.requests[r].progress)
                  || (t.requests[r].progress == Inserted(|s.db.rows|) && |s.db.rows| < |t.db.rows|
                      && IsAsk(s.requests[r], t.db.rows[|s.db.rows|])))
  {
  }

  /** A new row is the one a request has just inserted. */
  lemma NewRowIsAsked(s: State, e: Step, i: nat)
    requires s.cfg.final >= 1 && |s.db.rows| <= i < |Apply(s, e).db.rows|
    ensures e.Insert? && e.r < |s.requests| && IsAsk(s.requests[e.r], Apply(s, e).db.rows[i])
    ensures Apply(s, e).db.rows[i].status == Received
  {
  }

  lemma StepKeepsAsked(s: State, e: Step)
    requires Safe(s) && Asked(s)
    ensures Asked(Apply(s, e))
  {
    var t := Apply(s, e);
    StepExtends(s, e);
    forall i | 0 <= i < |t.db.rows|
      ensures AskedBy(t, i)
    {
      if i < |s.db.rows| {
        assert AskedBy(s, i);
        var r :| 0 <= r < |s.requests| && IsAsk(s.requests[r], s.db.rows[i]);
        RequestGoesOn(s, e, r);
        assert SameIdentity(s.db.rows[i], t.db.rows[i]) && IsAsk(t.requests[r], t.db.rows[i]);
      } else {
        NewRowIsAsked(s, e, i);
        RequestGoesOn(s, e, e.r);
        assert IsAsk(t.requests[e.r], t.db.rows[i]);
      }
    }
    forall r | 0 <= r < |t.requests|
      ensures OwnsAsk(t, t.requests[r])
    {
      if r < |s.requests| {
        assert OwnsAsk(s, s.requests[r]);
        RequestGoesOn(s, e, r);
      } else {
        StepLeaves(s, e, r);
      }
    }
  }

  // ---- The verdict ----------------------------------------------------------

  /** Rejected only if not approved, and past screening only if approved. */
  predicate Judged(approves: Address -> bool, row: Row) {
    && (row.status == RejectedCompliance ==> !approves(row.to))
    && (row.status in {ComplianceApproved, Submitted, Confirmed, Final, Failed} ==> approves(row.to))
  }

  predicate AllJudged(approves: Address -> bool, rows: seq<Row>) {
    forall i :: 0 <= i < |rows| ==> Judged(approves, rows[i])
  }

  /** The row is on the same side of screening, and of its verdict, as before. */
  predicate SameSide(row: Row, next: Row) {
    next.status == row.status || (Screened(row.status) && Screened(next.status))
  }

  predicate SameSides(rows: seq<Row>, next: seq<Row>) {
    |rows| <= |next| && forall i :: 0 <= i < |rows| ==> SameSide(rows[i], next[i])
  }

  lemma JobsKeepSides(s: State, e: Step)
    requires Safe(s) && (e.GiveUp? || e.Write?)
    ensures SameSides(s.db.rows, Apply(s, e).db.rows)
  {
  }

  lemma ResumesKeepSides(s: State, e: Step)
    requires Safe(s) && (e.Resume? || e.ResumeFail? || e.SweepResend?)
    ensures SameSides(s.db.rows, Apply(s, e).db.rows)
  {
  }

  lemma FailingKeepsSides(s: State, e: Step, id: nat)
    requires s.cfg.final >= 1 && (e == SweepFail(id) || e == SweepReject(id) || e == Recover(id))
    ensures SameSides(s.db.rows, Apply(s, e).db.rows)
  {
    FailingSteps(s, e, id);
  }

  lemma ActKeepsSides(s: State, k: nat)
    requires Safe(s)
    ensures SameSides(s.db.rows, DoAct(s, k).db.rows)
  {
  }

  /** Only screening takes a row to the other side. */
  lemma OthersKeepSides(s: State, e: Step)
    requires Safe(s) && !e.Screen?
    ensures SameSides(s.db.rows, Apply(s, e).db.rows)
  {
    match e
    case GiveUp(_) => JobsKeepSides(s, e);
    case Write => JobsKeepSides(s, e);
    case Resume(_, _, _, _) => ResumesKeepSides(s, e);
    case ResumeFail(_) => ResumesKeepSides(s, e);
    case SweepResend(_, _, _, _) => ResumesKeepSides(s, e);
    case SweepFail(id) => FailingKeepsSides(s, e, id);
    case SweepReject(id) => FailingKeepsSides(s, e, id);
    case Recover(id) => FailingKeepsSides(s, e, id);
    case Act(k) => ActKeepsSides(s, k);
    case Insert(r) => InsertExtends(s, r);
    case Arrive(_, _, _) => RequestLeavesTrail(s, e);
    case Lookup(_) => RequestLeavesTrail(s, e);
    case CheckBalance(_) => RequestLeavesTrail(s, e);
    case Refetch(_) => RequestLeavesTrail(s, e);
    case Enqueue(_) => RequestLeavesTrail(s, e);
    case _ => OtherLeavesTrail(s, e);
  }

  /** What ends a screening: the row's own verdict, and the answer or the way to the queue. */
  lemma ScreenJudges(s: State, r: nat, approve: bool)
    requires Safe(s) && s.proc.up && r < |s.requests| && s.requests[r].progress.Inserted?
    ensures var t, id := DoScreen(s, r, approve), s.requests[r].progress.id;
            && id < |s.db.rows| == |t.db.rows| && s.db.rows[id].status == Received
            && t.db.rows[id] == s.db.rows[id].(status := if approve then ComplianceApproved else RejectedCompliance)
            && (forall i :: 0 <= i < |s.db.rows| && i != id ==> t.db.rows[i] == s.db.rows[i])
            && t.requests == s.requests[r := s.requests[r].(progress := if approve then Approved(id)
                                                                        else Returned(id, true))]
            && t.enqueued == s.enqueued && t.proc == s.proc
  {
    assert RequestSound(s, s.requests[r]);
  }

  lemma StepKeepsJudged(approves: Address -> bool, s: State, e: Step)
    requires Safe(s) && Asked(s) && AllJudged(approves, s.db.rows) && ByVerdict(approves, s, e)
    ensures AllJudged(approves, Apply(s, e).db.rows)
  {
    var t := Apply(s, e);
    StepExtends(s, e);
    forall i | 0 <= i < |t.db.rows|
      ensures Judged(approves, t.db.rows[i])
    {
      if i >= |s.db.rows| {
        NewRowIsAsked(s, e, i);
      } else if e.Screen? && s.proc.up && e.r < |s.requests| && s.requests[e.r].progress.Inserted? {
        assert OwnsAsk(s, s.requests[e.r]);
        ScreenJudges(s, e.r, e.approve);
      } else {
        assert SameIdentity(s.db.rows[i], t.db.rows[i]);
        if !e.Screen? {
          OthersKeepSides(s, e);
        }
      }
    }
  }

  // ---- Answers and the queue ------------------------------------------------

  /** A request answered "created" is screened, and queued exactly if it was approved. */
  predicate AnsweredRight(s: State, q: Request) {
    q.progress.Returned? && q.progress.created ==>
      var id := q.progress.id;
      && id < |s.db.rows| && s.db.rows[id].status != Received
      && (Screened(s.db.rows[id].status) <==> id in s.enqueued)
  }

  predicate Answered(s: State) {
    && (forall r :: 0 <= r < |s.requests| ==> AnsweredRight(s, s.requests[r]))
    && (forall id :: id in s.enqueued ==> id < |s.db.rows| && Screened(s.db.rows[id].status))
  }

  lemma StepKeepsQueued(s: State, e: Step)
    requires Safe(s) && Answered(s)
    ensures var t := Apply(s, e);
            forall id :: id in t.enqueued ==> id < |t.db.rows| && Screened(t.db.rows[id].status)
  {
    if e.Enqueue? {
      if e.r < |s.requests| && s.requests[e.r].progress.Approved? {
        assert RequestSound(s, s.requests[e.r]);
      }
    } else if e.Screen? {
      if s.proc.up && e.r < |s.requests| && s.requests[e.r].progress.Inserted? {
        ScreenJudges(s, e.r, e.approve);
      }
    } else {
      OthersKeepSides(s, e);
      EnqueuedStays(s, e);
    }
  }

  lemma EnqueuedStays(s: State, e: Step)
    requires s.cfg.final >= 1 && !e.Enqueue?
    ensures Apply(s, e).enqueued == s.enqueued
  {
  }

  /** How a request comes to be answered "created". */
  lemma AnsweredInStep(s: State, e: Step, r: nat)
    requires Safe(s) && r < |Apply(s, e).requests|
    requires Apply(s, e).requests[r].progress.Returned? && Apply(s, e).requests[r].progress.created
    ensures r < |s.requests|
    ensures s.requests[r] == Apply(s, e).requests[r]
            || (e.Enqueue? && e.r == r && s.proc.up && s.requests[r].progress.Approved?)
            || (e.Screen? && e.r == r && s.proc.up && s.requests[r].progress.Inserted? && !e.approve)
  {
    if !StepOf(e, r) || r >= |s.requests| {
      StepLeaves(s, e, r);
    }
  }

  /** Nothing but its own enqueue queues a settlement whose request is answered. */
  lemma OthersQueueOthers(s: State, e: Step, r: nat)
    requires Safe(s) && r < |s.requests| && e.Enqueue?
    requires s.requests[r].progress.Returned? && s.requests[r].progress.created
    ensures Apply(s, e).db == s.db
    ensures s.requests[r].progress.id in Apply(s, e).enqueued <==> s.requests[r].progress.id in s.enqueued
  {
    if s.proc.up && e.r < |s.requests| && s.requests[e.r].progress.Approved? {
      assert OwnerOf(s.requests[r].progress).Some? && OwnerOf(s.requests[e.r].progress).Some?;
      assert e.r != r;
      assert OwnerOf(s.requests[r].progress) != OwnerOf(s.requests[e.r].progress);
    }
  }

  /** A screening ends for a row no request has been answered about. */
  lemma OthersScreenOthers(s: State, e: Step, r: nat)
    requires Safe(s) && r < |s.requests| && e.Screen?
    requires s.requests[r].progress.Returned? && s.requests[r].progress.created
    ensures var id := s.requests[r].progress.id;
            id < |s.db.rows| == |Apply(s, e).db.rows| && Apply(s, e).db.rows[id] == s.db.rows[id]
  {
    assert RequestSound(s, s.requests[r]);
    if s.proc.up && e.r < |s.requests| && s.requests[e.r].progress.Inserted? {
      ScreenJudges(s, e.r, e.approve);
      assert OwnerOf(s.requests[r].progress).Some? && OwnerOf(s.requests[e.r].progress).Some?;
      assert OwnerOf(s.requests[r].progress) != OwnerOf(s.requests[e.r].progress);
    }
  }

  lemma AnswerStays(s: State, e: Step, r: nat)
    requires Safe(s) && Answered(s) && r < |s.requests| && r < |Apply(s, e).requests|
    requires Apply(s, e).requests[r] == s.requests[r]
    ensures AnsweredRight(Apply(s, e), s.requests[r])
  {
    var q := s.requests[r];
    assert AnsweredRight(s, q);
    if q.progress.Returned? && q.progress.created {
      if e.Enqueue? {
        OthersQueueOthers(s, e, r);
      } else {
        EnqueuedStays(s, e);
        if e.Screen? {
          OthersScreenOthers(s, e, r);
        } else {
          OthersKeepSides(s, e);
        }
      }
    }
  }

  lemma JustAnswered(s: State, e: Step, r: nat)
    requires Safe(s) && CreatesOnce(s) && r < |s.requests| && s.proc.up
    requires (e == Enqueue(r) && s.requests[r].progress.Approved?)
             || (e == Screen(r, false) && s.requests[r].progress.Inserted?)
    ensures r < |Apply(s, e).requests| && AnsweredRight(Apply(s, e), Apply(s, e).requests[r])
  {
    assert RequestSound(s, s.requests[r]);
    if e.Screen? {
      ScreenJudges(s, r, false);
    }
  }

  lemma StepKeepsAnswered(s: State, e: Step)
    requires Safe(s) && CreatesOnce(s) && Answered(s)
    ensures Answered(Apply(s, e))
  {
    var t := Apply(s, e);
    StepKeepsQueued(s, e);
    forall r | 0 <= r < |t.requests|
      ensures AnsweredRight(t, t.requests[r])
    {
      if t.requests[r].progress.Returned? && t.requests[r].progress.created {
        AnsweredInStep(s, e, r);
        if t.requests[r] == s.requests[r] {
          AnswerStays(s, e, r);
        } else {
          JustAnswered(s, e, r);
        }
      }
    }
  }

  // ---- Over runs ------------------------------------------------------------

  ghost predicate Fair(approves: Address -> bool, s: State) {
    Safe(s) && CreatesOnce(s) && Asked(s) && Answered(s) && AllJudged(approves, s.db.rows)
  }

  lemma StepKeepsFair(approves: Address -> bool, s: State, e: Step)
    requires Fair(approves, s) && ByVerdict(approves, s, e)
    ensures Fair(approves, Apply(s, e))
  {
    StepKeepsSafe(s, e);
    StepKeepsOnce(s, e);
    StepKeepsAsked(s, e);
    StepKeepsAnswered(s, e);
    StepKeepsJudged(approves, s, e);
  }

  lemma {:induction false} RunKeepsFair(approves: Address -> bool, s: State, steps: seq<Step>)
    requires Fair(approves, s) && Along(Verdicts(approves), s, steps)
    ensures Fair(approves, Run(s, steps))
    decreases |steps|
  {
    if |steps| > 0 {
      ApplyKeepsConfig(s, steps[0]);
      StepKeepsFair(approves, s, steps[0]);
      RunKeepsFair(approves, Apply(s, steps[0]), steps[1..]);
    }
  }

  /** A request for exactly this payment to an approved recipient. */
  predicate AskedAndApproved(approves: Address -> bool, s: State, tx: Tx) {
    && approves(tx.to)
    && exists r :: 0 <= r < |s.requests| && s.requests[r].to == tx.to && s.requests[r].amount == tx.amount
  }

  /**
   * In every run whose screenings end with the provider's verdicts: a settlement is
   * rejected only if its recipient is, and gets past screening only if its recipient
   * is approved; so every broadcast the node ever took pays an approved recipient what
   * some request asked for it.
   */
  lemma OnlyApprovedArePaid(approves: Address -> bool, s: State, steps: seq<Step>)
    requires Init(s) && Along(Verdicts(approves), s, steps)
    ensures var t := Run(s, steps);
            && (forall i :: 0 <= i < |t.db.rows| ==> Judged(approves, t.db.rows[i]) && AskedBy(t, i))
            && (forall b :: b in t.node.accepted ==> AskedAndApproved(approves, t, b.tx))
  {
    InitSafe(s);
    RunKeepsFair(approves, s, steps);
    var t := Run(s, steps);
    forall b | b in t.node.accepted
      ensures AskedAndApproved(approves, t, b.tx)
    {
      assert Covers(t.db.rows, b) && Judged(approves, t.db.rows[b.id]) && AskedBy(t, b.id);
      var r :| 0 <= r < |t.requests| && IsAsk(t.requests[r], t.db.rows[b.id]);
      assert t.requests[r].to == b.tx.to && t.requests[r].amount == b.tx.amount;
    }
  }

  /** The answer "created" names a row with what was asked, screened, and queued exactly if approved. */
  predicate CreatedRight(approves: Address -> bool, s: State, q: Request) {
    q.progress.Returned? && q.progress.created ==>
      var id := q.progress.id;
      && id < |s.db.rows| && IsAsk(q, s.db.rows[id]) && s.db.rows[id].status != Received
      && (s.db.rows[id].status == RejectedCompliance <==> !approves(q.to))
      && (id in s.enqueued <==> approves(q.to))
  }

  /** And every request answered "created" has its row, judged, and queued exactly if approved. */
  lemma CreatedMeansScreened(approves: Address -> bool, s: State, steps: seq<Step>)
    requires Init(s) && Along(Verdicts(approves), s, steps)
    ensures var t := Run(s, steps);
            forall r :: 0 <= r < |t.requests| ==> CreatedRight(approves, t, t.requests[r])
  {
    InitSafe(s);
    RunKeepsFair(approves, s, steps);
    var t := Run(s, steps);
    forall r | 0 <= r < |t.requests|
      ensures CreatedRight(approves, t, t.requests[r])
    {
      var q := t.requests[r];
      assert OwnsAsk(t, q) && AnsweredRight(t, q);
      if q.progress.Returned? && q.progress.created {
        assert Judged(approves, t.db.rows[q.progress.id]);
      }
    }
  }
}
