/**
 * Commitments: what the create path has promised exceeds what the operator had
 * exactly when an insert, or the late booking of a settlement already given up, does
 * not fit what is left.
 */
module Solvency {
  import opened Basics
  import opened Sums
  import opened Rail
  import opened Chain
  import opened SettlementState
  import opened Books
  import opened Engine
  import opened SendSafety
  import opened Permanence
  import opened AuditTrail

  /** Settlements whose amount is gone or promised: booked, or still in flight. */
  function Committed(db: Db): set<nat> {
    BookedIds(db.ledger) + WithStatus(db.rows, IN_FLIGHT)
  }

  /** Booked in the ledger but not yet flipped out of the in-flight statuses. */
  function HalfFinal(db: Db): set<nat> {
    BookedIds(db.ledger) * WithStatus(db.rows, IN_FLIGHT)
  }

  /** Opening balance minus booked minus in-flight-and-unbooked. */
  function Commitment(s: State): int {
    s.cfg.opening - SumOver(Amounts(s.db.rows), Committed(s.db))
  }

  predicate Inserts(s: State, e: Step) {
    e.Insert? && At(s, e.r, Cleared) && FindInstruction(s.db.rows, s.requests[e.r].instruction).None?
  }

  /** A handler books a settlement that is neither booked nor in flight any more. */
  predicate Late(s: State, e: Step) {
    && e.Act? && s.proc.up && e.k < |s.checks| && s.checks[e.k].stage.ToBook?
    && s.checks[e.k].id < |s.db.rows|
    && s.db.rows[s.checks[e.k].id].status !in IN_FLIGHT
    && !IsBooked(s.db.ledger, s.checks[e.k].id)
  }

  /** What a step newly commits. */
  function Takes(s: State, e: Step): nat {
    if Inserts(s, e) then s.requests[e.r].amount
    else if Late(s, e) then s.db.rows[s.checks[e.k].id].amount
    else 0
  }

  /** What the step takes, if anything, is still there. */
  predicate Fits(s: State, e: Step) {
    Takes(s, e) > 0 ==> Takes(s, e) <= Commitment(s)
  }

  /** An insert only happens while its balance check still holds. */
  predicate Serialised(s: State, e: Step) {
    Inserts(s, e) ==> s.requests[e.r].amount <= Available(s.db)
  }

  predicate SerialisedNotLate(s: State, e: Step) {
    Serialised(s, e) && !Late(s, e)
  }

  predicate Solvent(s: State) {
    Commitment(s) >= 0
  }

  ghost predicate Whole(s: State) {
    Sound(s) && TrailSound(s.db)
  }

  /**
   * The reported available balance is the commitment minus whatever is counted
   * twice, so it never exceeds it and equals it exactly when nothing is
   * half-finalised.
   */
  lemma AvailableAgainstCommitment(s: State)
    requires Sound(s)
    ensures Available(s.db) == Commitment(s) - SumOver(Amounts(s.db.rows), HalfFinal(s.db))
    ensures Available(s.db) <= Commitment(s)
    ensures Available(s.db) == Commitment(s)
            <==> forall i :: 0 <= i < |s.db.rows| ==> i !in HalfFinal(s.db)
  {
    var w := Amounts(s.db.rows);
    PairedBalances(s.db.ledger, s.cfg.opening, w);
    InclusionExclusion(w, BookedIds(s.db.ledger), WithStatus(s.db.rows, IN_FLIGHT));
    forall i | 0 <= i < |w|
      ensures w[i] > 0
    {
      assert RowShape(s.db.rows[i]);
    }
    SumZero(w, HalfFinal(s.db));
  }

  /** An insert takes exactly the new amount, so it keeps solvency iff the amount fits. */
  lemma InsertTakesAmount(s: State, r: nat)
    requires Sound(s) && Inserts(s, Insert(r))
    ensures Commitment(DoInsert(s, r)) == Commitment(s) - s.requests[r].amount
    ensures Commitment(DoInsert(s, r)) >= 0 <==> s.requests[r].amount <= Commitment(s)
  {
    var t := DoInsert(s, r);
    var w := Amounts(s.db.rows);
    var n := |w|;
    assert Amounts(t.db.rows) == w + [s.requests[r].amount];
    SumSnoc(w, s.requests[r].amount, Committed(t.db));
    forall i | 0 <= i < n
      ensures i in Committed(t.db) <==> i in Committed(s.db)
    {
    }
    SumAgree(w, Committed(t.db), Committed(s.db));
    assert n in WithStatus(t.db.rows, IN_FLIGHT);
  }

  /** No step reopens a settlement that has left the in-flight statuses. */
  lemma NeverReopens(s: State, e: Step, i: nat)
    requires Safe(s) && TrailSound(s.db) && i < |s.db.rows|
    requires s.db.rows[i].status !in IN_FLIGHT
    ensures i < |Apply(s, e).db.rows| && Apply(s, e).db.rows[i].status == s.db.rows[i].status
  {
    StepExtends(s, e);
    StepKeepsTrail(s, e);
    var t := Apply(s, e).db;
    assert t.trail[..|s.db.trail|] == s.db.trail;
    TerminalStays(t.trail, |s.db.trail|, i);
    assert StatusAfter(t.trail, i) == t.rows[i].status;
  }

  /** Apart from late bookings, what is newly booked was in flight. */
  lemma BooksInFlight(s: State, e: Step, id: nat)
    requires s.cfg.final >= 1 && !Late(s, e)
    requires IsBooked(Apply(s, e).db.ledger, id)
    ensures IsBooked(s.db.ledger, id) || (id < |s.db.rows| && s.db.rows[id].status in IN_FLIGHT)
  {
    if e.Act? && e.k < |s.checks| && s.checks[e.k].stage.ToBook? {
      var c := s.checks[e.k];
      if s.proc.up && c.id < |s.db.rows| {
        BookedAddsOnly(s.db.ledger, c.id, c.row.amount, id);
      }
    } else {
      OnlyBookingsBook(s, e);
    }
  }

  lemma OnlyBookingsBook(s: State, e: Step)
    requires s.cfg.final >= 1
    requires e.Act? && e.k < |s.checks| ==> !s.checks[e.k].stage.ToBook?
    ensures Apply(s, e).db.ledger == s.db.ledger
  {
  }

  /** Apart from inserts and late bookings, no step commits anything new. */
  lemma StepNeverCommits(s: State, e: Step)
    requires Whole(s) && !Inserts(s, e) && !Late(s, e)
    requires |Apply(s, e).db.rows| == |s.db.rows|
    ensures Commitment(Apply(s, e)) >= Commitment(s)
  {
    var t := Apply(s, e);
    StepExtends(s, e);
    AmountsGrow(s, t);
    assert Amounts(t.db.rows) == Amounts(s.db.rows);
    forall i | i in Committed(t.db)
      ensures i in Committed(s.db)
    {
      if i in BookedIds(t.db.ledger) {
        BookedIdsMeaning(t.db.ledger, i);
        BooksInFlight(s, e, i);
        BookedIdsMeaning(s.db.ledger, i);
      } else if s.db.rows[i].status !in IN_FLIGHT {
        NeverReopens(s, e, i);
      }
    }
    SumMonotone(Amounts(s.db.rows), Committed(t.db), Committed(s.db));
  }

  lemma OneMoreBooked(ledger: seq<Entry>, opening: nat, amounts: seq<nat>, id: nat)
    requires Paired(ledger, opening, amounts) && id < |amounts|
    ensures BookedIds(Booked(ledger, id, amounts[id])) == BookedIds(ledger) + {id}
  {
    var next := Booked(ledger, id, amounts[id]);
    BookedKeepsPaired(ledger, opening, amounts, id);
    forall i: nat
      ensures i in BookedIds(next) <==> i in BookedIds(ledger) + {id}
    {
      BookedIdsMeaning(next, i);
      BookedIdsMeaning(ledger, i);
    }
  }

  lemma LateBooks(s: State, k: nat)
    requires Safe(s) && Late(s, Act(k))
    ensures var id := s.checks[k].id;
            && id < |s.db.rows| && DoAct(s, k).cfg == s.cfg
            && DoAct(s, k).db == s.db.(ledger := Booked(s.db.ledger, id, Amounts(s.db.rows)[id]))
  {
    assert CheckSound(s.checks[k], s.db.rows, s.node.accepted);
  }

  /** A late booking takes exactly the settlement's amount. */
  lemma LateTakesAmount(s: State, k: nat)
    requires Sound(s) && Late(s, Act(k))
    ensures Commitment(DoAct(s, k)) == Commitment(s) - s.db.rows[s.checks[k].id].amount
  {
    var id := s.checks[k].id;
    LateBooks(s, k);
    OneMoreBooked(s.db.ledger, s.cfg.opening, Amounts(s.db.rows), id);
    assert Committed(DoAct(s, k).db) == Committed(s.db) + {id};
    BookedIdsMeaning(s.db.ledger, id);
    SumAdd(Amounts(s.db.rows), Committed(s.db), id);
  }

  lemma OnlyInsertsGrow(s: State, e: Step)
    requires s.cfg.final >= 1 && !Inserts(s, e)
    ensures |Apply(s, e).db.rows| == |s.db.rows|
  {
  }

  /** The commitment never falls by anything but what a step takes, and then by exactly that. */
  lemma StepCommits(s: State, e: Step)
    requires Whole(s)
    ensures Takes(s, e) > 0 ==> Commitment(Apply(s, e)) == Commitment(s) - Takes(s, e)
    ensures Takes(s, e) == 0 ==> Commitment(Apply(s, e)) >= Commitment(s)
  {
    if Inserts(s, e) {
      InsertTakesAmount(s, e.r);
    } else if Late(s, e) {
      LateTakesAmount(s, e.k);
    } else {
      OnlyInsertsGrow(s, e);
      StepNeverCommits(s, e);
    }
  }

  lemma StepKeepsWhole(s: State, e: Step)
    requires Whole(s)
    ensures Whole(Apply(s, e))
  {
    StepKeepsSound(s, e);
    StepKeepsTrail(s, e);
  }

  lemma {:induction false} SolventThroughout(s: State, steps: seq<Step>)
    requires Whole(s) && Solvent(s)
    ensures Throughout(Solvent, s, steps) <==> Along(Fits, s, steps)
    decreases |steps|
  {
    if |steps| > 0 {
      var t := Apply(s, steps[0]);
      ApplyKeepsConfig(s, steps[0]);
      StepCommits(s, steps[0]);
      StepKeepsWhole(s, steps[0]);
      if Solvent(t) {
        SolventThroughout(t, steps[1..]);
      }
    }
  }

  /**
   * Commitment solvency, exactly: opening minus booked minus in-flight-and-unbooked is
   * non-negative in every state of a run if and only if every insert, and every late
   * booking of a settlement already given up, fits what is left when it happens.
   */
  lemma CommitmentStaysSolvent(s: State, steps: seq<Step>)
    requires Init(s)
    ensures Throughout(Solvent, s, steps) <==> Along(Fits, s, steps)
  {
    InitSound(s);
    NothingCommitted(s);
    SolventThroughout(s, steps);
  }

  /** A balance check that is still true at the insert makes the insert fit. */
  lemma CheckedInsertFits(s: State, e: Step)
    requires Sound(s) && SerialisedNotLate(s, e)
    ensures Fits(s, e)
  {
    AvailableAgainstCommitment(s);
  }

  lemma {:induction false} SerialisedFit(s: State, steps: seq<Step>)
    requires Sound(s) && Along(SerialisedNotLate, s, steps)
    ensures Along(Fits, s, steps)
    decreases |steps|
  {
    if |steps| > 0 {
      ApplyKeepsConfig(s, steps[0]);
      StepKeepsSound(s, steps[0]);
      CheckedInsertFits(s, steps[0]);
      SerialisedFit(Apply(s, steps[0]), steps[1..]);
    }
  }

  /** So serialised checks keep a run solvent as long as nothing is booked late. */
  lemma SerialisedChecksSuffice(s: State, steps: seq<Step>)
    requires Init(s) && Along(SerialisedNotLate, s, steps)
    ensures Throughout(Solvent, s, steps)
  {
    InitSound(s);
    SerialisedFit(s, steps);
    CommitmentStaysSolvent(s, steps);
  }

  lemma NothingCommitted(s: State)
    requires Init(s)
    ensures Solvent(s)
  {
    assert Committed(s.db) == {};
    SumEmpty(Amounts(s.db.rows));
  }

  /** Two requests race: each checks the balance before either inserts. */
  const ARRIVALS := [Boot(0), Arrive(1, 9, 5), Arrive(2, 9, 5)]
  const LOOKUPS := [Lookup(0), Lookup(1), CheckBalance(0)]
  const INSERTS := [CheckBalance(1), Insert(0), Insert(1)]

  predicate Untouched(s: State) {
    s.db == Db([], [], [], [Entry(None, Genesis, Credit, s.cfg.opening)])
  }

  lemma OpeningAvailable(s: State)
    requires Untouched(s)
    ensures Available(s.db) == s.cfg.opening
  {
    var ledger := s.db.ledger;
    assert |ledger| == 1 && ledger[..|ledger| - 1] == [];
    assert SumEntries(ledger, Operator, Credit) == SumEntries(ledger[..|ledger| - 1], Operator, Credit) == 0;
    assert SumEntries(ledger, Operator, Debit) == SumEntries(ledger[..|ledger| - 1], Operator, Debit) == 0;
    assert Opening(ledger) == ledger[0].amount;
    assert |Amounts(s.db.rows)| == 0;
  }

  lemma TwoPromises(s: State)
    requires s.db.rows == [NewRow(1, 9, 5), NewRow(2, 9, 5)]
    ensures Commitment(s) <= s.cfg.opening - 10
  {
    var w := Amounts(s.db.rows);
    var both := {0, 1};
    assert w == [5] + [5] && [5] == [] + [5];
    SumSnoc([5], 5, both);
    SumSnoc([], 5, both);
    assert both <= Committed(s.db) by {
      assert 0 in WithStatus(s.db.rows, IN_FLIGHT) && 1 in WithStatus(s.db.rows, IN_FLIGHT);
    }
    SumMonotone(w, both, Committed(s.db));
  }

  /** Where the race ends: both requests have inserted, and nothing else has happened. */
  predicate BothInserted(s: State, t: State) {
    && t.cfg == s.cfg && t.node == s.node && t.checks == []
    && t.db.rows == [NewRow(1, 9, 5), NewRow(2, 9, 5)]
    && t.db.ledger == s.db.ledger
    && t.proc == Proc(true, false, [], Idle, 0)
    && t.requests == [Request(1, 9, 5, Inserted(0)), Request(2, 9, 5, Inserted(1))]
  }

  lemma RaceInserts(s: State)
    requires Init(s) && s.cfg.opening >= 5
    ensures BothInserted(s, Run(s, ARRIVALS + LOOKUPS + INSERTS))
  {
    var a := Run(s, ARRIVALS);
    RunThree(s, Boot(0), Arrive(1, 9, 5), Arrive(2, 9, 5));
    OpeningAvailable(s);
    assert a.requests == [Request(1, 9, 5, Arrived), Request(2, 9, 5, Arrived)];
    var b := Run(a, LOOKUPS);
    RunThree(a, Lookup(0), Lookup(1), CheckBalance(0));
    assert b.requests == [Request(1, 9, 5, Cleared), Request(2, 9, 5, Missed)];
    RunThree(b, CheckBalance(1), Insert(0), Insert(1));
    SecondInsert(b);
    RunConcat(s, ARRIVALS, LOOKUPS);
    RunConcat(s, ARRIVALS + LOOKUPS, INSERTS);
  }

  lemma SecondInsert(b: State)
    requires b.cfg.final >= 1 && b.cfg.opening >= 5 && Untouched(b) && b.proc.up
    requires b.requests == [Request(1, 9, 5, Cleared), Request(2, 9, 5, Missed)]
    ensures var e := Apply(Apply(Apply(b, CheckBalance(1)), Insert(0)), Insert(1));
            && e.db.rows == [NewRow(1, 9, 5), NewRow(2, 9, 5)]
            && e == b.(db := e.db, requests := e.requests) && e.db.ledger == b.db.ledger
            && e.requests == [Request(1, 9, 5, Inserted(0)), Request(2, 9, 5, Inserted(1))]
  {
    OpeningAvailable(b);
    var c := Apply(b, CheckBalance(1));
    assert c.requests == [Request(1, 9, 5, Cleared), Request(2, 9, 5, Cleared)];
    var d := Apply(c, Insert(0));
    assert d.db.rows == [NewRow(1, 9, 5)];
    assert d.requests == [Request(1, 9, 5, Inserted(0)), Request(2, 9, 5, Cleared)];
  }

  /**
   * Serialising is needed: two requests that both pass the check before either
   * inserts promise more than the operator has.
   */
  lemma UnserialisedOvercommits(s: State)
    requires Init(s) && 5 <= s.cfg.opening < 10
    ensures Commitment(Run(s, ARRIVALS + LOOKUPS + INSERTS)) < 0
  {
    RaceInserts(s);
    TwoPromises(Run(s, ARRIVALS + LOOKUPS + INSERTS));
  }
}
