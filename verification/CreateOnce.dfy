/**
 * Idempotent creation: any number of interleaved requests with one instruction
 * id converge on one settlement, created once and enqueued once.
 */
module CreateOnce {
  import opened Basics
  import opened Rail
  import opened SettlementState
  import opened Engine
  import opened SendSafety

  predicate InstructionsUnique(rows: seq<Row>) {
    forall i, j :: 0 <= i < j < |rows| ==> rows[i].instruction != rows[j].instruction
  }

  function Target(p: Progress): Option<nat> {
    match p
    case Inserted(id) => Some(id)
    case Approved(id) => Some(id)
    case Returned(id, _) => Some(id)
    case _ => None
  }

  predicate Answers(q: Request, rows: seq<Row>) {
    Target(q.progress).Some? ==>
      Target(q.progress).value < |rows| && rows[Target(q.progress).value].instruction == q.instruction
  }

  predicate Distinct(ids: seq<nat>) {
    forall i, j :: 0 <= i < j < |ids| ==> ids[i] != ids[j]
  }

  predicate CreatesOnce(s: State) {
    && InstructionsUnique(s.db.rows)
    && (forall r :: 0 <= r < |s.requests| ==> Answers(s.requests[r], s.db.rows))
    && Distinct(s.enqueued)
    && (forall id :: id in s.enqueued ==> id < |s.db.rows|)
    && (forall r :: 0 <= r < |s.requests| ==>
          var p := s.requests[r].progress;
          p.Inserted? || p.Approved? ==> p.id !in s.enqueued)
  }

  lemma QuietKeepsOnce(s: State, t: State)
    requires Safe(s) && CreatesOnce(s)
    requires |s.db.rows| == |t.db.rows| && t.requests == s.requests && t.enqueued == s.enqueued
    requires forall i :: 0 <= i < |s.db.rows| ==> SameIdentity(s.db.rows[i], t.db.rows[i])
    ensures CreatesOnce(t)
  {
  }

  lemma RequestKeepsOnce(s: State, e: Step)
    requires Safe(s) && CreatesOnce(s)
    requires e.Arrive? || e.Lookup? || e.CheckBalance? || e.Refetch?
    ensures CreatesOnce(Apply(s, e))
  {
  }

  lemma EnqueueKeepsOnce(s: State, r: nat)
    requires Safe(s) && CreatesOnce(s)
    ensures CreatesOnce(DoEnqueue(s, r))
  {
  }

  lemma ScreenKeepsOnce(s: State, r: nat, approve: bool)
    requires Safe(s) && CreatesOnce(s)
    ensures CreatesOnce(DoScreen(s, r, approve))
  {
  }

  lemma InsertKeepsOnce(s: State, r: nat)
    requires Safe(s) && CreatesOnce(s)
    ensures CreatesOnce(DoInsert(s, r))
  {
  }

  lemma CrashKeepsOnce(s: State)
    requires Safe(s) && CreatesOnce(s)
    ensures CreatesOnce(Crashed(s))
  {
    var t := Crashed(s);
    forall r | 0 <= r < |t.requests|
      ensures Answers(t.requests[r], t.db.rows)
      ensures !t.requests[r].progress.Inserted? && !t.requests[r].progress.Approved?
    {
      assert Answers(s.requests[r], s.db.rows);
    }
  }

  /** A send that ends in a crash changes no row. */
  lemma SendKeepsOnce(s: State, e: Step)
    requires Safe(s) && CreatesOnce(s)
    requires e.Resume? || e.SweepResend?
    ensures CreatesOnce(Apply(s, e))
  {
    StepExtends(s, e);
    var t := Apply(s, e);
    if e.crash && t != s {
      var id := if e.Resume? then s.proc.job.id else e.id;
      var row := s.db.rows[id];
      var sent := s.(node := Accepted(s.node, id, PaymentOf(row, row.nonce.value, e.gas, e.fees)));
      AcceptedKeepsSafe(s, id, PaymentOf(row, row.nonce.value, e.gas, e.fees));
      CrashKeepsOnce(sent);
    } else {
      QuietKeepsOnce(s, t);
    }
  }

  predicate OfRequest(e: Step) {
    e.Arrive? || e.Lookup? || e.CheckBalance? || e.Insert? || e.Refetch? || e.Screen? || e.Enqueue?
  }

  /** Steps of other actors add no rows, and answer and queue nothing. */
  lemma OthersLeaveRequests(s: State, e: Step)
    requires s.cfg.final >= 1 && !OfRequest(e) && !e.Crash? && !e.Resume? && !e.SweepResend?
    ensures var t := Apply(s, e);
            |t.db.rows| == |s.db.rows| && t.requests == s.requests && t.enqueued == s.enqueued
  {
  }

  lemma OtherKeepsOnce(s: State, t: State)
    requires Safe(s) && CreatesOnce(s) && Extends(s, t)
    requires |t.db.rows| == |s.db.rows| && t.requests == s.requests && t.enqueued == s.enqueued
    ensures CreatesOnce(t)
  {
    QuietKeepsOnce(s, t);
  }

  lemma StepKeepsOnce(s: State, e: Step)
    requires Safe(s) && CreatesOnce(s)
    ensures CreatesOnce(Apply(s, e))
  {
    if e.Arrive? || e.Lookup? || e.CheckBalance? || e.Refetch? {
      RequestKeepsOnce(s, e);
    } else if e.Enqueue? {
      EnqueueKeepsOnce(s, e.r);
    } else if e.Screen? {
      ScreenKeepsOnce(s, e.r, e.approve);
    } else if e.Insert? {
      InsertKeepsOnce(s, e.r);
    } else if e.Crash? {
      CrashKeepsOnce(s);
    } else if e.Resume? || e.SweepResend? {
      SendKeepsOnce(s, e);
    } else {
      StepExtends(s, e);
      OthersLeaveRequests(s, e);
      OtherKeepsOnce(s, Apply(s, e));
    }
  }

  lemma {:induction false} RunKeepsOnce(s: State, steps: seq<Step>)
    requires Safe(s) && CreatesOnce(s)
    ensures Safe(Run(s, steps)) && CreatesOnce(Run(s, steps))
    decreases |steps|
  {
    if |steps| > 0 {
      StepKeepsSafe(s, steps[0]);
      StepKeepsOnce(s, steps[0]);
      RunKeepsOnce(Apply(s, steps[0]), steps[1..]);
    }
  }

  /** Two answers for one instruction name one settlement and are not both "created". */
  predicate Agree(q: Request, r: Request) {
    q.progress.Returned? && r.progress.Returned? && q.instruction == r.instruction ==>
      && q.progress.id == r.progress.id
      && !(q.progress.created && r.progress.created)
  }

  /**
   * However requests interleave with each other, with lost races, crashes and
   * everything else: one row per instruction id, every request that answers does
   * so with that row, at most one of them says it created it, and the relayer was
   * asked to send it at most once.
   */
  lemma CreateIsIdempotent(s: State, steps: seq<Step>)
    requires Init(s)
    ensures var t := Run(s, steps);
            && InstructionsUnique(t.db.rows)
            && (forall r :: 0 <= r < |t.requests| && t.requests[r].progress.Returned? ==>
                  Answers(t.requests[r], t.db.rows))
            && (forall q, r :: 0 <= q < r < |t.requests| ==> Agree(t.requests[q], t.requests[r]))
            && Distinct(t.enqueued)
  {
    InitSafe(s);
    RunKeepsOnce(s, steps);
    var t := Run(s, steps);
    forall q, r | 0 <= q < r < |t.requests|
      ensures Agree(t.requests[q], t.requests[r])
    {
      assert Answers(t.requests[q], t.db.rows) && Answers(t.requests[r], t.db.rows);
      assert OwnerOf(t.requests[q].progress).Some? ==>
          OwnerOf(t.requests[r].progress) != OwnerOf(t.requests[q].progress);
    }
  }
}
