/**
 * The balance check over whole runs: a request is refused exactly when its amount
 * exceeds what the operator can spend in the state of its check, and nothing is
 * inserted without such a check before it.
 */
module BalanceChecks {
  import opened Basics
  import opened Sums
  import opened Rail
  import opened SettlementState
  import opened Books
  import opened Engine
  import opened SendSafety
  import opened Permanence
  import opened CreateOnce
  import opened Solvency

  /** The ledger balance less every settlement not yet rejected, final or failed. */
  function Spendable(db: Db): int {
    OperatorBalance(db.ledger)
    - SumOver(Amounts(db.rows),
              set i: nat | i < |db.rows| && db.rows[i].status !in {RejectedCompliance, Final, Failed})
  }

  lemma AvailableIsSpendable(db: Db)
    ensures Available(db) == Spendable(db)
  {
    forall i: nat | i < |db.rows|
      ensures i in WithStatus(db.rows, IN_FLIGHT) <==> db.rows[i].status !in {RejectedCompliance, Final, Failed}
    {
      match db.rows[i].status
      case Received => case RejectedCompliance => case ComplianceApproved =>
      case Submitted => case Confirmed => case Final => case Failed =>
    }
    assert WithStatus(db.rows, IN_FLIGHT)
        == set i: nat | i < |db.rows| && db.rows[i].status !in {RejectedCompliance, Final, Failed};
  }

  /** The request waits for its check, and passes it or not. */
  predicate Passes(s: State, r: nat, cleared: bool) {
    && r < |s.requests| && s.requests[r].progress == Missed
    && (cleared <==> s.requests[r].amount <= Spendable(s.db))
  }

  lemma CheckDecides(s: State, r: nat)
    requires s.proc.up && r < |s.requests| && s.requests[r].progress == Missed
    ensures var t := DoCheckBalance(s, r);
            && t == s.(requests := s.requests[r := t.requests[r]])
            && t.requests[r] == s.requests[r].(progress := if Passes(s, r, true) then Cleared else Refused)
  {
    AvailableIsSpendable(s.db);
  }

  // ---- How requests move ----------------------------------------------------

  predicate StepOf(e: Step, r: nat) {
    (e.Lookup? || e.CheckBalance? || e.Insert? || e.Refetch? || e.Screen? || e.Enqueue?) && e.r == r
  }

  /** The request is as it was, or was lost in a crash, or has just arrived. */
  predicate Left(s: State, t: State, r: nat)
    requires r < |t.requests|
  {
    if r < |s.requests| then
      t.requests[r] == s.requests[r] || t.requests[r] == s.requests[r].(progress := Lost)
    else t.requests[r].progress.Arrived?
  }

  lemma RequestsLeave(s: State, e: Step, r: nat)
    requires s.cfg.final >= 1 && OfRequest(e) && !StepOf(e, r) && r < |Apply(s, e).requests|
    ensures Left(s, Apply(s, e), r)
  {
  }

  lemma SendsLeave(s: State, e: Step, r: nat)
    requires s.cfg.final >= 1 && (e.Crash? || e.Resume? || e.SweepResend?) && r < |Apply(s, e).requests|
    ensures Left(s, Apply(s, e), r)
  {
    assert Apply(s, e).requests == s.requests || Apply(s, e).requests == Crashed(s).requests;
  }

  lemma StepLeaves(s: State, e: Step, r: nat)
    requires s.cfg.final >= 1 && !StepOf(e, r) && r < |Apply(s, e).requests|
    ensures Left(s, Apply(s, e), r)
  {
    if OfRequest(e) {
      RequestsLeave(s, e, r);
    } else if e.Crash? || e.Resume? || e.SweepResend? {
      SendsLeave(s, e, r);
    } else {
      OthersLeaveRequests(s, e);
    }
  }

  /** One's own steps: only the check clears, and only it or a vanished rival's row refuses. */
  lemma OwnStep(s: State, e: Step, r: nat)
    requires s.cfg.final >= 1 && StepOf(e, r) && r < |s.requests|
    ensures var t := Apply(s, e);
            && r < |t.requests| && t.requests[r] == s.requests[r].(progress := t.requests[r].progress)
            && (t.requests[r] != s.requests[r] && t.requests[r].progress.Cleared? ==>
                  e.CheckBalance? && Passes(s, r, true))
            && (t.requests[r] != s.requests[r] && t.requests[r].progress.Refused? ==>
                  (e.CheckBalance? && Passes(s, r, false))
                  || (s.requests[r].progress.Raced?
                      && FindInstruction(s.db.rows, s.requests[r].instruction).None?))
            && (t.requests[r] != s.requests[r] && t.requests[r].progress.Raced? ==>
                  FindInstruction(s.db.rows, s.requests[r].instruction).Some? && t.db == s.db)
  {
    AvailableIsSpendable(s.db);
  }

  // ---- Nothing is inserted, and nothing refused, without a check ------------

  /** A request that lost the race for its instruction lost it to a row that is still there. */
  predicate RacedFinds(s: State, r: nat) {
    r < |s.requests| && s.requests[r].progress.Raced? ==>
      FindInstruction(s.db.rows, s.requests[r].instruction).Some?
  }

  lemma StillFound(s: State, t: State, instruction: InstructionId)
    requires s.cfg.final >= 1 && Extends(s, t) && FindInstruction(s.db.rows, instruction).Some?
    ensures FindInstruction(t.db.rows, instruction).Some?
  {
    var i := FindInstruction(s.db.rows, instruction).value;
    assert SameIdentity(s.db.rows[i], t.db.rows[i]);
  }

  lemma StepKeepsRaced(s: State, e: Step, r: nat)
    requires Safe(s) && RacedFinds(s, r)
    ensures RacedFinds(Apply(s, e), r)
  {
    var t := Apply(s, e);
    StepExtends(s, e);
    if r < |t.requests| && t.requests[r].progress.Raced? {
      if StepOf(e, r) && r < |s.requests| {
        OwnStep(s, e, r);
      } else {
        StepLeaves(s, e, r);
      }
      StillFound(s, t, t.requests[r].instruction);
    }
  }

  /** Step j checked the request, and it passed, or did not, in the state of that step. */
  ghost predicate CheckedAt(s: State, steps: seq<Step>, j: nat, q: Request, r: nat, cleared: bool)
    requires s.cfg.final >= 1
  {
    && j < |steps| && steps[j] == CheckBalance(r)
    && Passes(Run(s, steps[..j]), r, cleared)
    && Run(s, steps[..j]).requests[r] == q.(progress := Missed)
  }

  lemma {:induction false} RunSnoc(s: State, steps: seq<Step>, n: nat)
    requires s.cfg.final >= 1 && n < |steps|
    ensures Run(s, steps[..n + 1]) == Apply(Run(s, steps[..n]), steps[n])
  {
    var t := Run(s, steps[..n]);
    RunConcat(s, steps[..n], [steps[n]]);
    assert steps[..n + 1] == steps[..n] + [steps[n]];
    ApplyKeepsConfig(t, steps[n]);
    assert [steps[n]][1..] == [];
    assert Run(t, [steps[n]]) == Apply(t, steps[n]);
  }

  /** How a request that is cleared, or refused, came to be so. */
  lemma DecidedInStep(s: State, e: Step, r: nat, cleared: bool)
    requires s.cfg.final >= 1 && RacedFinds(s, r)
    requires var t := Apply(s, e);
             r < |t.requests| && t.requests[r].progress == if cleared then Cleared else Refused
    ensures r < |s.requests| && s.requests[r] == Apply(s, e).requests[r].(progress := s.requests[r].progress)
    ensures s.requests[r] == Apply(s, e).requests[r] || (e == CheckBalance(r) && Passes(s, r, cleared))
  {
    if StepOf(e, r) && r < |s.requests| {
      OwnStep(s, e, r);
    } else {
      StepLeaves(s, e, r);
    }
  }

  lemma {:induction false} DecidedWasChecked(s: State, steps: seq<Step>, n: nat, r: nat, q: Request, cleared: bool)
    requires Init(s) && n <= |steps|
    requires var t := Run(s, steps[..n]);
             r < |t.requests| && t.requests[r] == q && q.progress == if cleared then Cleared else Refused
    ensures exists j: nat :: j < n && CheckedAt(s, steps, j, q, r, cleared)
    decreases n
  {
    if n > 0 {
      var u := Run(s, steps[..n - 1]);
      RunSnoc(s, steps, n - 1);
      RunRaces(s, steps[..n - 1], r);
      DecidedInStep(u, steps[n - 1], r, cleared);
      if u.requests[r] == q {
        DecidedWasChecked(s, steps, n - 1, r, q, cleared);
      } else {
        assert CheckedAt(s, steps, n - 1, q, r, cleared);
      }
    }
  }

  lemma {:induction false} RunKeepsRaced(s: State, steps: seq<Step>, r: nat)
    requires Safe(s) && RacedFinds(s, r)
    ensures RacedFinds(Run(s, steps), r)
    decreases |steps|
  {
    if |steps| > 0 {
      StepKeepsSafe(s, steps[0]);
      StepKeepsRaced(s, steps[0], r);
      RunKeepsRaced(Apply(s, steps[0]), steps[1..], r);
    }
  }

  lemma RunRaces(s: State, steps: seq<Step>, r: nat)
    requires Init(s)
    ensures RacedFinds(Run(s, steps), r)
  {
    InitSafe(s);
    RunKeepsRaced(s, steps, r);
  }

  /** Every insert of every run follows a check that the same request passed. */
  lemma InsertsAreChecked(s: State, steps: seq<Step>, k: nat)
    requires Init(s) && k < |steps| && Inserts(Run(s, steps[..k]), steps[k])
    ensures var q := Run(s, steps[..k]).requests[steps[k].r];
            exists j: nat :: j < k && CheckedAt(s, steps, j, q, steps[k].r, true)
  {
    DecidedWasChecked(s, steps, k, steps[k].r, Run(s, steps[..k]).requests[steps[k].r], true);
  }

  /** And every refusal follows one that it did not pass. */
  lemma RefusalsAreChecked(s: State, steps: seq<Step>, r: nat)
    requires Init(s) && r < |Run(s, steps).requests| && Run(s, steps).requests[r].progress == Refused
    ensures var q := Run(s, steps).requests[r];
            exists j: nat :: CheckedAt(s, steps, j, q, r, false)
  {
    assert steps[..|steps|] == steps;
    DecidedWasChecked(s, steps, |steps|, r, Run(s, steps).requests[r], false);
  }

  // ---- Check and insert as one section --------------------------------------

  predicate NoneCleared(s: State) {
    forall r :: 0 <= r < |s.requests| ==> !s.requests[r].progress.Cleared?
  }

  /** Every check is followed at once by its own insert. */
  predicate InSection(steps: seq<Step>) {
    forall k :: 0 <= k < |steps| && steps[k].CheckBalance? ==>
      k + 1 < |steps| && steps[k + 1] == Insert(steps[k].r)
  }

  lemma NoneClearedStays(s: State, e: Step)
    requires s.cfg.final >= 1 && NoneCleared(s) && !e.CheckBalance?
    ensures NoneCleared(Apply(s, e))
  {
    var t := Apply(s, e);
    forall r | 0 <= r < |t.requests|
      ensures !t.requests[r].progress.Cleared?
    {
      if StepOf(e, r) && r < |s.requests| {
        OwnStep(s, e, r);
      } else {
        StepLeaves(s, e, r);
      }
    }
  }

  lemma SectionSerialised(s: State, r: nat)
    requires s.cfg.final >= 1 && NoneCleared(s)
    ensures Apply(s, CheckBalance(r)).cfg == s.cfg
    ensures Serialised(Apply(s, CheckBalance(r)), Insert(r))
    ensures NoneCleared(Apply(Apply(s, CheckBalance(r)), Insert(r)))
  {
    var t := Apply(s, CheckBalance(r));
    if At(s, r, Missed) {
      CheckDecides(s, r);
      AvailableIsSpendable(s.db);
    }
    var u := Apply(t, Insert(r));
    forall i | 0 <= i < |u.requests|
      ensures !u.requests[i].progress.Cleared?
    {
    }
  }

  lemma {:induction false} SectionsSerialise(s: State, steps: seq<Step>)
    requires s.cfg.final >= 1 && NoneCleared(s) && InSection(steps)
    ensures Along(Serialised, s, steps)
    decreases |steps|
  {
    if |steps| > 0 {
      ApplyKeepsConfig(s, steps[0]);
      var t, rest := Apply(s, steps[0]), steps[1..];
      if steps[0].CheckBalance? {
        assert steps[1] == Insert(steps[0].r);
        SectionSerialised(s, steps[0].r);
        ApplyKeepsConfig(t, rest[0]);
        assert InSection(rest[1..]) by {
          assert forall k :: 0 <= k < |rest[1..]| ==> rest[1..][k] == steps[k + 2];
        }
        SectionsSerialise(Apply(t, rest[0]), rest[1..]);
      } else {
        NoneClearedStays(s, steps[0]);
        assert forall k :: 0 <= k < |rest| ==> rest[k] == steps[k + 1];
        SectionsSerialise(t, rest);
      }
    }
  }

  /** A late booking, if the step is one, fits what is left. */
  predicate LateFits(s: State, e: Step) {
    Late(s, e) ==> s.db.rows[s.checks[e.k].id].amount <= Commitment(s)
  }

  lemma {:induction false} SerialisedLateFits(s: State, steps: seq<Step>)
    requires Sound(s) && Along(Serialised, s, steps)
    ensures Along(Fits, s, steps) <==> Along(LateFits, s, steps)
    decreases |steps|
  {
    if |steps| > 0 {
      ApplyKeepsConfig(s, steps[0]);
      StepKeepsSound(s, steps[0]);
      FitsIfLateFits(s, steps[0]);
      SerialisedLateFits(Apply(s, steps[0]), steps[1..]);
    }
  }

  lemma FitsIfLateFits(s: State, e: Step)
    requires Sound(s) && Serialised(s, e)
    ensures Fits(s, e) <==> LateFits(s, e)
  {
    AvailableAgainstCommitment(s);
    if Late(s, e) {
      assert RowShape(s.db.rows[s.checks[e.k].id]);
    }
  }

  /**
   * When nothing moves between a check and its insert every insert fits, so the run is
   * solvent throughout exactly when every late booking fits too.
   */
  lemma SectionsStaySolvent(s: State, steps: seq<Step>)
    requires Init(s) && InSection(steps)
    ensures Along(Serialised, s, steps)
    ensures Throughout(Solvent, s, steps) <==> Along(LateFits, s, steps)
  {
    InitSound(s);
    SectionsSerialise(s, steps);
    CommitmentStaysSolvent(s, steps);
    SerialisedLateFits(s, steps);
  }
}
