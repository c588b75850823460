/**
 * A booking that comes too late. A handler finds a transaction at final depth; before
 * it books, a recovered job gives the settlement up, which frees its amount; another
 * settlement takes that amount; then the handler books all the same. Every balance
 * check in this run is still true when its settlement is inserted.
 */
module LateBooking {
  import opened Basics
  import opened Sums
  import opened Rail
  import opened Chain
  import opened SettlementState
  import opened Books
  import opened Engine
  import opened SendSafety
  import opened Permanence
  import opened StaleAnswers
  import opened Solvency
  import opened Reconcile
  import opened SharedTransaction

  const FIRST_CHECK := [Boot(0), Arrive(1, 9, 5), Lookup(0)]
  const FIRST_INSERT := [CheckBalance(0), Insert(0), Screen(0, true)]
  const FIRST_TAKEN := [Enqueue(0), Take, Load]
  const RESTART := [Crash, Boot(0), Recover(0)]
  const DEEP := [Move(0, [Block(1, [Mined(SHARED, true)])]), Poll(0), Read(0, 1)]
  const GIVEN_UP := [Take, ResumeFail(4), Arrive(2, 9, 5)]
  const SECOND_INSERT := [Lookup(1), CheckBalance(1), Insert(1)]

  const SUBMITTED := FIRST_CHECK + FIRST_INSERT + FIRST_TAKEN + FIRST_SEND
  const REPLACED := SUBMITTED + RESTART + DEEP + GIVEN_UP + SECOND_INSERT
  const LATE_RUN := REPLACED + [Act(0)]

  predicate Begins(s: State) {
    Init(s) && s.cfg == Config(1, 1, 3, 0, 5) && s.node.blocks == [Block(0, [])]
  }

  function GivenUpRow(): Row {
    SentRow(1, 4).(status := Failed)
  }

  /** The snapshot of 5 and these rows. */
  predicate Holding(t: State, rows: seq<Row>) {
    && t.cfg == Config(1, 1, 3, 0, 5)
    && t.db.rows == rows && t.db.ledger == [Entry(None, Genesis, Credit, 5)]
  }

  lemma FiveAvailable(t: State, rows: seq<Row>)
    requires Holding(t, rows) && (rows == [] || rows == [GivenUpRow()])
    ensures Available(t.db) == 5
  {
    var ledger := t.db.ledger;
    assert |ledger| == 1 && ledger[..0] == [];
    assert SumEntries(ledger[..0], Operator, Credit) == 0 && SumEntries(ledger[..0], Operator, Debit) == 0;
    assert SumEntries(ledger, Operator, Credit) == 0 && SumEntries(ledger, Operator, Debit) == 0;
    assert Opening(ledger) == 5;
    assert WithStatus(t.db.rows, IN_FLIGHT) == {};
    SumEmpty(Amounts(t.db.rows));
  }

  lemma FirstChecked(s: State)
    requires Begins(s)
    ensures var t := Run(s, FIRST_CHECK);
            && Holding(t, []) && t.node == s.node && t.checks == []
            && t.proc == Proc(true, false, [], Idle, 0)
            && t.requests == [Request(1, 9, 5, Missed)]
            && Along(Serialised, s, FIRST_CHECK)
  {
    RunThree(s, Boot(0), Arrive(1, 9, 5), Lookup(0));
    AlongThree(Serialised, s, Boot(0), Arrive(1, 9, 5), Lookup(0));
    var a := Apply(s, Boot(0));
    var b := Apply(a, Arrive(1, 9, 5));
    assert b.requests == [Request(1, 9, 5, Arrived)];
  }

  lemma FirstInserted(t: State)
    requires Holding(t, []) && t.checks == [] && t.proc == Proc(true, false, [], Idle, 0)
    requires t.requests == [Request(1, 9, 5, Missed)]
    ensures var u := Run(t, FIRST_INSERT);
            && Holding(u, [ApprovedRow(1)]) && u.node == t.node && u.checks == [] && u.proc == t.proc
            && u.requests == [Request(1, 9, 5, Approved(0))]
            && Along(Serialised, t, FIRST_INSERT)
  {
    RunThree(t, CheckBalance(0), Insert(0), Screen(0, true));
    AlongThree(Serialised, t, CheckBalance(0), Insert(0), Screen(0, true));
    FiveAvailable(t, []);
    var a := Apply(t, CheckBalance(0));
    assert a.requests == [Request(1, 9, 5, Cleared)] && a.db == t.db;
    var b := Apply(a, Insert(0));
    assert b.requests == [Request(1, 9, 5, Inserted(0))] && b.db.rows == [NewRow(1, 9, 5)];
  }

  lemma FirstTaken(t: State)
    requires Holding(t, [ApprovedRow(1)]) && t.checks == [] && t.proc == Proc(true, false, [], Idle, 0)
    requires t.requests == [Request(1, 9, 5, Approved(0))]
    ensures var u := Run(t, FIRST_TAKEN);
            && Holding(u, [ApprovedRow(1)]) && u.node == t.node && u.checks == []
            && u.proc == Proc(true, false, [], Sending(0, 0, 0), 0)
            && u.requests == [Request(1, 9, 5, Returned(0, true))]
            && Along(Serialised, t, FIRST_TAKEN)
  {
    RunThree(t, Enqueue(0), Take, Load);
    AlongThree(Serialised, t, Enqueue(0), Take, Load);
    var a := Apply(t, Enqueue(0));
    assert a.proc.queue == [0];
  }

  lemma FirstSubmitted(t: State)
    requires Holding(t, [ApprovedRow(1)]) && t.checks == []
    requires t.proc == Proc(true, false, [], Sending(0, 0, 0), 0)
    requires t.requests == [Request(1, 9, 5, Returned(0, true))]
    requires t.node == Node([Block(0, [])], {}, [])
    ensures var u := Run(t, FIRST_SEND);
            && Holding(u, [SentRow(1, 0)]) && u.checks == [] && u.proc == Proc(true, false, [], Idle, 1)
            && u.requests == t.requests && u.node == Node([Block(0, [])], {}, [Broadcast(0, SHARED)])
            && Along(Serialised, t, FIRST_SEND)
  {
    RunThree(t, Accept(21, GWEI), Write, Drop(SHARED));
    AlongThree(Serialised, t, Accept(21, GWEI), Write, Drop(SHARED));
    FirstAccepted(t);
    FirstWritten(Apply(t, Accept(21, GWEI)));
  }

  lemma FirstAccepted(t: State)
    requires Holding(t, [ApprovedRow(1)]) && t.proc == Proc(true, false, [], Sending(0, 0, 0), 0)
    requires t.node == Node([Block(0, [])], {}, [])
    ensures Apply(t, Accept(21, GWEI))
            == t.(node := Node([Block(0, [])], {SHARED}, [Broadcast(0, SHARED)]),
                  proc := Proc(true, false, [], Writing(0, SHARED, 0), 1))
  {
    assert Accepted(t.node, 0, SHARED) == Node([Block(0, [])], {SHARED}, [Broadcast(0, SHARED)]);
  }

  lemma FirstWritten(t: State)
    requires Holding(t, [ApprovedRow(1)]) && t.proc == Proc(true, false, [], Writing(0, SHARED, 0), 1)
    ensures var u := Apply(t, Write);
            Holding(u, [SentRow(1, 0)]) && u == t.(db := u.db, proc := Proc(true, false, [], Idle, 1))
  {
  }

  /** Dropped, not mined: the row is queued again. */
  lemma Restarted(t: State)
    requires Holding(t, [SentRow(1, 0)]) && t.checks == []
    requires t.requests == [Request(1, 9, 5, Returned(0, true))]
    requires t.node == Node([Block(0, [])], {}, [Broadcast(0, SHARED)])
    ensures var u := Run(t, RESTART);
            && Holding(u, [SentRow(1, 0)]) && u.checks == [] && u.proc == Proc(true, false, [0], Idle, 0)
            && u.requests == t.requests && u.node == t.node
            && Along(Serialised, t, RESTART)
  {
    RunThree(t, Crash, Boot(0), Recover(0));
    AlongThree(Serialised, t, Crash, Boot(0), Recover(0));
    assert Crashed(t).requests == t.requests;
    assert t.node.blocks[..0] == [] && FindIn([], SHARED) == None;
    assert ReceiptOf(t.node.blocks, SHARED) == None;
  }

  /** It is mined after all, and a handler decides to book it. */
  lemma FoundDeep(t: State)
    requires Holding(t, [SentRow(1, 0)]) && t.checks == [] && t.proc == Proc(true, false, [0], Idle, 0)
    requires t.node == Node([Block(0, [])], {}, [Broadcast(0, SHARED)])
    ensures var u := Run(t, DEEP);
            && Holding(u, [SentRow(1, 0)]) && u.proc == t.proc && u.requests == t.requests
            && u.checks == [Check(0, SentRow(1, 0), ToBook)]
            && u.node.blocks == [Block(0, []), Block(1, [Mined(SHARED, true)])]
            && u.node.accepted == t.node.accepted
            && Along(Serialised, t, DEEP)
  {
    var move := Move(0, [Block(1, [Mined(SHARED, true)])]);
    RunThree(t, move, Poll(0), Read(0, 1));
    AlongThree(Serialised, t, move, Poll(0), Read(0, 1));
    OneTransfer(t.node.blocks);
    assert ValidMove(t, 0, [Block(1, [Mined(SHARED, true)])]);
    var a := Apply(t, move);
    var b := Apply(a, Poll(0));
    assert b.checks == [Check(0, SentRow(1, 0), Loaded)];
  }

  /** The resumed send of a mined nonce is refused until the retries run out. */
  lemma GaveUp(t: State)
    requires Holding(t, [SentRow(1, 0)]) && t.proc == Proc(true, false, [0], Idle, 0)
    requires t.requests == [Request(1, 9, 5, Returned(0, true))]
    ensures var u := Run(t, GIVEN_UP);
            && Holding(u, [GivenUpRow()]) && u.checks == t.checks && u.node == t.node
            && u.proc == Proc(true, false, [], Idle, 0)
            && u.requests == t.requests + [Request(2, 9, 5, Arrived)]
            && Along(Serialised, t, GIVEN_UP)
  {
    RunThree(t, Take, ResumeFail(4), Arrive(2, 9, 5));
    AlongThree(Serialised, t, Take, ResumeFail(4), Arrive(2, 9, 5));
    var a := Apply(t, Take);
    assert a.proc == Proc(true, false, [], Taken(0), 0);
    var b := Apply(a, ResumeFail(4));
    assert b.db.rows == [GivenUpRow()];
  }

  lemma SecondInserted(t: State)
    requires Holding(t, [GivenUpRow()]) && t.proc == Proc(true, false, [], Idle, 0)
    requires t.requests == [Request(1, 9, 5, Returned(0, true)), Request(2, 9, 5, Arrived)]
    ensures var u := Run(t, SECOND_INSERT);
            && Holding(u, [GivenUpRow(), NewRow(2, 9, 5)]) && u.checks == t.checks && u.node == t.node
            && u.proc == t.proc
            && Along(Serialised, t, SECOND_INSERT)
  {
    RunThree(t, Lookup(1), CheckBalance(1), Insert(1));
    AlongThree(Serialised, t, Lookup(1), CheckBalance(1), Insert(1));
    FiveAvailable(t, [GivenUpRow()]);
    assert t.db.rows[..0] == [];
    assert FindInstruction(t.db.rows, 2) == None;
    var a := Apply(t, Lookup(1));
    assert a.requests[1] == Request(2, 9, 5, Missed) && a.db == t.db;
    var b := Apply(a, CheckBalance(1));
    assert b.requests[1] == Request(2, 9, 5, Cleared) && b.db == t.db;
  }

  lemma RunPrefix(s: State, a: seq<Step>, b: seq<Step>)
    requires s.cfg.final >= 1
    ensures Run(s, a + b) == Run(Run(s, a), b)
    ensures Along(Serialised, s, a) && Along(Serialised, Run(s, a), b) ==> Along(Serialised, s, a + b)
  {
    RunConcat(s, a, b);
    AlongConcat(Serialised, s, a, b);
  }

  lemma UntilSubmitted(s: State)
    requires Begins(s)
    ensures var t := Run(s, SUBMITTED);
            && Holding(t, [SentRow(1, 0)]) && t.checks == []
            && t.requests == [Request(1, 9, 5, Returned(0, true))]
            && t.node == Node([Block(0, [])], {}, [Broadcast(0, SHARED)])
            && Along(Serialised, s, SUBMITTED)
  {
    FirstChecked(s);
    FirstInserted(Run(s, FIRST_CHECK));
    RunPrefix(s, FIRST_CHECK, FIRST_INSERT);
    FirstTaken(Run(s, FIRST_CHECK + FIRST_INSERT));
    RunPrefix(s, FIRST_CHECK + FIRST_INSERT, FIRST_TAKEN);
    FirstSubmitted(Run(s, FIRST_CHECK + FIRST_INSERT + FIRST_TAKEN));
    RunPrefix(s, FIRST_CHECK + FIRST_INSERT + FIRST_TAKEN, FIRST_SEND);
  }

  /** Just before the late booking: the amount of 5 has been promised again. */
  predicate Replaced(t: State) {
    && Holding(t, [GivenUpRow(), NewRow(2, 9, 5)]) && t.proc == Proc(true, false, [], Idle, 0)
    && t.checks == [Check(0, SentRow(1, 0), ToBook)]
    && t.node.blocks == [Block(0, []), Block(1, [Mined(SHARED, true)])]
    && t.node.accepted == [Broadcast(0, SHARED)]
  }

  lemma UntilReplaced(s: State)
    requires Begins(s)
    ensures Replaced(Run(s, REPLACED)) && Along(Serialised, s, REPLACED)
  {
    UntilSubmitted(s);
    Restarted(Run(s, SUBMITTED));
    RunPrefix(s, SUBMITTED, RESTART);
    FoundDeep(Run(s, SUBMITTED + RESTART));
    RunPrefix(s, SUBMITTED + RESTART, DEEP);
    GaveUp(Run(s, SUBMITTED + RESTART + DEEP));
    RunPrefix(s, SUBMITTED + RESTART + DEEP, GIVEN_UP);
    SecondInserted(Run(s, SUBMITTED + RESTART + DEEP + GIVEN_UP));
    RunPrefix(s, SUBMITTED + RESTART + DEEP + GIVEN_UP, SECOND_INSERT);
  }

  /** Where the run ends: one settlement booked and FAILED, the other waiting to be screened. */
  predicate BookedLate(t: State) {
    && t.cfg == Config(1, 1, 3, 0, 5)
    && t.db.rows == [GivenUpRow(), NewRow(2, 9, 5)]
    && t.db.ledger == [Entry(None, Genesis, Credit, 5), DebitOf(0, 5), CreditOf(0, 5)]
    && t.node.blocks == [Block(0, []), Block(1, [Mined(SHARED, true)])]
    && t.node.accepted == [Broadcast(0, SHARED)]
  }

  lemma LastAct(t: State)
    requires Replaced(t)
    ensures Late(t, Act(0)) && BookedLate(Run(t, [Act(0)])) && Along(Serialised, t, [Act(0)])
  {
    ApplyKeepsConfig(t, Act(0));
    assert [Act(0)][1..] == [];
    var g := Entry(None, Genesis, Credit, 5);
    assert Booked([g], 0, 5) == [g, DebitOf(0, 5), CreditOf(0, 5)];
  }

  lemma RunsToBookedLate(s: State)
    requires Begins(s)
    ensures BookedLate(Run(s, LATE_RUN)) && Along(Serialised, s, LATE_RUN)
  {
    UntilReplaced(s);
    LastAct(Run(s, REPLACED));
    RunPrefix(s, REPLACED, [Act(0)]);
  }

  lemma TwiceCommitted(t: State)
    requires BookedLate(t)
    ensures Commitment(t) == -5
  {
    var w := Amounts(t.db.rows);
    assert t.db.ledger[1] in t.db.ledger;
    BookedIdsMeaning(t.db.ledger, 0);
    assert 1 in WithStatus(t.db.rows, IN_FLIGHT);
    SumAgree(w, Committed(t.db), {0, 1});
    assert w == [5] + [5] && [5] == [] + [5];
    SumSnoc([5], 5, {0, 1});
    SumSnoc([], 5, {0, 1});
  }

  /**
   * Serialised balance checks are not enough: in this run every insert happens while
   * its balance check holds, and the late booking still overcommits the operator.
   */
  lemma LateBookingOvercommits(s: State)
    requires Begins(s)
    ensures Along(Serialised, s, LATE_RUN) && Commitment(Run(s, LATE_RUN)) == -5
  {
    RunsToBookedLate(s);
    TwiceCommitted(Run(s, LATE_RUN));
  }

  // ---- What the reconciler then sees ----------------------------------------

  lemma NothingLeft(t: State)
    requires BookedLate(t)
    ensures OperatorBalance(t.db.ledger) == 0 && ChainBalance(t) == 0 && MinedPending(t) == 0
  {
    OnePairLeft(t.db.ledger, 5, 0, 5);
    OneTransfer([Block(0, [])]);
    assert Counted(t) == {};
    SumEmpty(Amounts(t.db.rows));
  }

  lemma OnlyBookedLate(t: State)
    requires BookedLate(t)
    ensures NotYetFinal(t) == {0} && Unaccounted(t) == {}
    ensures SharesNothing(t) && !Settling(t)
  {
    assert t.db.ledger[1] in t.db.ledger;
    BookedIdsMeaning(t.db.ledger, 0);
    forall i | i in Paid(t)
      ensures i == 0
    {
      var m :| m in Flatten(t.node.blocks) && m.ok && SentFor(t.node.accepted, i, m.tx);
      assert Broadcast(i, m.tx) in t.node.accepted;
    }
    assert !WellBooked(t, 0);
  }

  /**
   * The plain reconciliation identity fails of this run: nothing is shared, diff is
   * zero, nothing is unaccounted for, and yet 5 is booked that will never be FINAL.
   */
  lemma LateBookingHidesFromDiff(s: State)
    requires Begins(s)
    ensures var t := Run(s, LATE_RUN);
            var w := Amounts(t.db.rows);
            && SharesNothing(t) && !Settling(t) && Diff(t) == 0
            && SumOver(w, Unaccounted(t)) == 0 && SumOver(w, NotYetFinal(t)) == 5
  {
    RunsToBookedLate(s);
    var t := Run(s, LATE_RUN);
    NothingLeft(t);
    OnlyBookedLate(t);
    SumEmpty(Amounts(t.db.rows));
    SumOne(Amounts(t.db.rows), 0);
  }
}
