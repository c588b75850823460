/**
 * Why the reconciliation theorems speak of shared transactions: after a mempool
 * drop a second settlement with the same recipient, amount and fees can be sent
 * as the very same transaction, and one transfer is then booked twice.
 */
module SharedTransaction {
  import opened Basics
  import opened Sums
  import opened Rail
  import opened Chain
  import opened SettlementState
  import opened Books
  import opened Engine
  import opened Solvency
  import opened Reconcile

  const GWEI := Fees(2, 1)
  const SHARED := Tx(0, 9, 5, 21, GWEI)

  const APPROVALS := [Screen(0, true), Screen(1, true), Enqueue(0)]
  const FIRST_JOB := [Enqueue(1), Take, Load]
  const FIRST_SEND := [Accept(21, GWEI), Write, Drop(SHARED)]
  const SECOND_JOB := [Take, Load, Retry(Some(0))]
  const SECOND_SEND := [Accept(21, GWEI), Write, Move(0, [Block(1, [Mined(SHARED, true)])])]
  const FIRST_BOOKING := [Poll(0), Read(0, 1), Act(0)]
  const SECOND_BOOKING := [Poll(1), Read(1, 1), Act(1)]

  function ApprovedRow(instruction: InstructionId): Row {
    NewRow(instruction, 9, 5).(status := ComplianceApproved)
  }

  function SentRow(instruction: InstructionId, retryCount: nat): Row {
    NewRow(instruction, 9, 5).(status := Submitted, txHash := Some(SHARED), nonce := Some(0), retryCount := retryCount)
  }

  /** One block of confirmation is final; the node starts with one empty block. */
  predicate Start(s: State) {
    Init(s) && s.cfg == Config(1, 1, 3, 0, 10) && s.node.blocks == [Block(0, [])]
  }

  predicate Stands(t: State, rows: seq<Row>, queue: seq<nat>, job: Job, localNonce: nat) {
    && t.cfg == Config(1, 1, 3, 0, 10)
    && t.db.rows == rows && t.db.ledger == [Entry(None, Genesis, Credit, 10)] && t.checks == []
    && t.proc == Proc(true, false, queue, job, localNonce)
    && t.node.blocks == [Block(0, [])]
  }

  lemma BothApproved(t: State)
    requires Stands(t, [NewRow(1, 9, 5), NewRow(2, 9, 5)], [], Idle, 0)
    requires t.requests == [Request(1, 9, 5, Inserted(0)), Request(2, 9, 5, Inserted(1))]
    ensures var u := Run(t, APPROVALS);
            && Stands(u, [ApprovedRow(1), ApprovedRow(2)], [0], Idle, 0)
            && u.node == t.node && |u.requests| == 2 && u.requests[1].progress == Approved(1)
  {
    RunThree(t, Screen(0, true), Screen(1, true), Enqueue(0));
    var a := Apply(t, Screen(0, true));
    assert a.db.rows == [ApprovedRow(1), NewRow(2, 9, 5)];
    var b := Apply(a, Screen(1, true));
    assert b.db.rows == [ApprovedRow(1), ApprovedRow(2)];
  }

  lemma SecondQueued(t: State)
    requires Stands(t, [ApprovedRow(1), ApprovedRow(2)], [0], Idle, 0)
    requires |t.requests| == 2 && t.requests[1].progress == Approved(1)
    ensures var u := Apply(t, Enqueue(1));
            Stands(u, [ApprovedRow(1), ApprovedRow(2)], [0, 1], Idle, 0) && u.node == t.node
  {
    assert [0] + [1] == [0, 1];
  }

  lemma FirstLoaded(t: State)
    requires Stands(t, [ApprovedRow(1), ApprovedRow(2)], [0, 1], Idle, 0)
    ensures var u := Apply(Apply(t, Take), Load);
            && Stands(u, [ApprovedRow(1), ApprovedRow(2)], [1], Sending(0, 0, 0), 0)
            && u.node == t.node
  {
    assert [0, 1][1..] == [1];
  }

  lemma FirstJob(t: State)
    requires Stands(t, [ApprovedRow(1), ApprovedRow(2)], [0], Idle, 0)
    requires |t.requests| == 2 && t.requests[1].progress == Approved(1)
    ensures var u := Run(t, FIRST_JOB);
            && Stands(u, [ApprovedRow(1), ApprovedRow(2)], [1], Sending(0, 0, 0), 0)
            && u.node == t.node
  {
    RunThree(t, Enqueue(1), Take, Load);
    SecondQueued(t);
    FirstLoaded(Apply(t, Enqueue(1)));
  }

  lemma FirstSend(t: State)
    requires Stands(t, [ApprovedRow(1), ApprovedRow(2)], [1], Sending(0, 0, 0), 0)
    requires t.node.accepted == [] && t.node.pool == {}
    ensures var u := Run(t, FIRST_SEND);
            && Stands(u, [SentRow(1, 0), ApprovedRow(2)], [1], Idle, 1)
            && u.node.accepted == [Broadcast(0, SHARED)] && u.node.pool == {}
  {
    RunThree(t, Accept(21, GWEI), Write, Drop(SHARED));
    var a := Apply(t, Accept(21, GWEI));
    assert a.node.accepted == [Broadcast(0, SHARED)] && a.node.pool == {SHARED};
    var b := Apply(a, Write);
    assert b.db.rows == [SentRow(1, 0), ApprovedRow(2)];
  }

  /** The refetched nonce is the node's true pending count: the pool is empty again. */
  lemma SecondJob(t: State)
    requires Stands(t, [SentRow(1, 0), ApprovedRow(2)], [1], Idle, 1)
    requires t.node.pool == {}
    ensures var u := Run(t, SECOND_JOB);
            && Stands(u, [SentRow(1, 0), ApprovedRow(2)], [], Sending(1, 0, 1), 0)
            && u.node == t.node
            && IsPendingCount(t.node, 0, 0)
  {
    assert t.node.blocks[..0] == [];
    assert Flatten(t.node.blocks) == [];
    RunThree(t, Take, Load, Retry(Some(0)));
  }

  predicate SentTwice(t: State) {
    && t.cfg == Config(1, 1, 3, 0, 10)
    && t.db.rows == [SentRow(1, 0), SentRow(2, 1)]
    && t.db.ledger == [Entry(None, Genesis, Credit, 10)]
    && t.checks == [] && t.proc.up
    && t.node.blocks == [Block(0, []), Block(1, [Mined(SHARED, true)])]
    && t.node.accepted == [Broadcast(0, SHARED), Broadcast(1, SHARED)]
  }

  lemma SecondAccepted(t: State)
    requires Stands(t, [SentRow(1, 0), ApprovedRow(2)], [], Sending(1, 0, 1), 0)
    requires t.node.accepted == [Broadcast(0, SHARED)]
    ensures var u := Apply(t, Accept(21, GWEI));
            && Stands(u, [SentRow(1, 0), ApprovedRow(2)], [], Writing(1, SHARED, 1), 1)
            && u.node.accepted == [Broadcast(0, SHARED), Broadcast(1, SHARED)]
  {
  }

  lemma SecondWritten(t: State)
    requires Stands(t, [SentRow(1, 0), ApprovedRow(2)], [], Writing(1, SHARED, 1), 1)
    ensures var u := Apply(t, Write);
            Stands(u, [SentRow(1, 0), SentRow(2, 1)], [], Idle, 1) && u.node == t.node
  {
  }

  lemma SecondSend(t: State)
    requires Stands(t, [SentRow(1, 0), ApprovedRow(2)], [], Sending(1, 0, 1), 0)
    requires t.node.accepted == [Broadcast(0, SHARED)]
    ensures SentTwice(Run(t, SECOND_SEND))
  {
    RunThree(t, Accept(21, GWEI), Write, Move(0, [Block(1, [Mined(SHARED, true)])]));
    SecondAccepted(t);
    SecondWritten(Apply(t, Accept(21, GWEI)));
    MineShared(Apply(Apply(t, Accept(21, GWEI)), Write));
  }

  lemma MineShared(t: State)
    requires t.cfg == Config(1, 1, 3, 0, 10) && t.node.blocks == [Block(0, [])]
    requires Broadcast(0, SHARED) in t.node.accepted
    ensures var u := Apply(t, Move(0, [Block(1, [Mined(SHARED, true)])]));
            && u == t.(node := u.node) && u.node.accepted == t.node.accepted
            && u.node.blocks == [Block(0, []), Block(1, [Mined(SHARED, true)])]
  {
    OneTransfer(t.node.blocks);
    assert ValidMove(t, 0, [Block(1, [Mined(SHARED, true)])]);
  }

  lemma OneTransfer(blocks: seq<Block>)
    requires blocks == [Block(0, [])]
    ensures var next := Reorganised(blocks, 0, [Block(1, [Mined(SHARED, true)])]);
            && next == [Block(0, []), Block(1, [Mined(SHARED, true)])]
            && Flatten(next) == [Mined(SHARED, true)]
            && ReceiptOf(next, SHARED) == Some(Receipt(1, 1, true))
            && SumOk(Flatten(next)) == 5
  {
    var next := Reorganised(blocks, 0, [Block(1, [Mined(SHARED, true)])]);
    assert next == [Block(0, []), Block(1, [Mined(SHARED, true)])];
    assert next[..1] == blocks && blocks[..0] == [];
    assert Flatten(blocks) == [];
    assert FindIn([Mined(SHARED, true)], SHARED) == Some(true);
    assert Flatten(next) == [Mined(SHARED, true)];
    assert [Mined(SHARED, true)][..0] == [];
    assert SumOk([]) == 0;
  }

  lemma BookedOne(t: State, i: nat)
    requires t.cfg == Config(1, 1, 3, 0, 10) && t.proc.up
    requires t.node.blocks == [Block(0, []), Block(1, [Mined(SHARED, true)])]
    requires t.db.rows == [SentRow(1, 0), SentRow(2, 1)]
    requires i < 2 && |t.checks| == i
    ensures var u := Run(t, [Poll(i), Read(i, 1), Act(i)]);
            && u.cfg == t.cfg && u.proc == t.proc && u.node == t.node && u.db.rows == t.db.rows
            && u.db.ledger == Booked(t.db.ledger, i, 5) && |u.checks| == i + 1
  {
    RunThree(t, Poll(i), Read(i, 1), Act(i));
    ReadsDeep(t, i);
  }

  /** Loaded, then found at final depth. */
  lemma ReadsDeep(t: State, i: nat)
    requires t.cfg == Config(1, 1, 3, 0, 10) && t.proc.up
    requires t.node.blocks == [Block(0, []), Block(1, [Mined(SHARED, true)])]
    requires t.db.rows == [SentRow(1, 0), SentRow(2, 1)]
    requires i < 2 && |t.checks| == i
    ensures Apply(Apply(t, Poll(i)), Read(i, 1)) == t.(checks := t.checks + [Check(i, t.db.rows[i], ToBook)])
  {
    OneTransfer([Block(0, [])]);
    var a := Apply(t, Poll(i));
    assert a.checks[i] == Check(i, t.db.rows[i], Loaded);
  }

  lemma TwicePaired(ledger: seq<Entry>)
    requires ledger == Booked(Booked([Entry(None, Genesis, Credit, 10)], 0, 5), 1, 5)
    ensures OperatorBalance(ledger) == 0
  {
    var g := Entry(None, Genesis, Credit, 10);
    assert Booked([g], 0, 5) == [g, DebitOf(0, 5), CreditOf(0, 5)];
    assert ledger == [g, DebitOf(0, 5), CreditOf(0, 5), DebitOf(1, 5), CreditOf(1, 5)];
    SumFive(ledger, Credit);
    SumFive(ledger, Debit);
  }

  lemma SumFive(ledger: seq<Entry>, d: Direction)
    requires |ledger| == 5
    ensures SumEntries(ledger, Operator, d)
            == Counts(ledger[0], d) + Counts(ledger[1], d) + Counts(ledger[2], d)
               + Counts(ledger[3], d) + Counts(ledger[4], d)
  {
    assert ledger[..4][..3] == ledger[..3] && ledger[..3][..2] == ledger[..2];
    assert ledger[..2][..1] == ledger[..1] && ledger[..1][..0] == [];
    assert SumEntries(ledger[..1], Operator, d) == Counts(ledger[0], d);
    assert SumEntries(ledger[..2], Operator, d) == SumEntries(ledger[..1], Operator, d) + Counts(ledger[1], d);
    assert SumEntries(ledger[..3], Operator, d) == SumEntries(ledger[..2], Operator, d) + Counts(ledger[2], d);
    assert SumEntries(ledger[..4], Operator, d) == SumEntries(ledger[..3], Operator, d) + Counts(ledger[3], d);
  }

  function Counts(e: Entry, d: Direction): nat {
    if e.account == Operator && e.direction == d then e.amount else 0
  }

  /** Everything up to both sends of the one transaction, which is then mined. */
  const SENT_TWICE :=
    ARRIVALS + LOOKUPS + INSERTS + APPROVALS + FIRST_JOB + FIRST_SEND + SECOND_JOB + SECOND_SEND

  lemma UntilSentTwice(s: State)
    requires Start(s)
    ensures SentTwice(Run(s, SENT_TWICE))
  {
    var p := ARRIVALS + LOOKUPS + INSERTS;
    RaceInserts(s);
    BothApproved(Run(s, p));
    RunConcat(s, p, APPROVALS);
    FirstJob(Run(s, p + APPROVALS));
    RunConcat(s, p + APPROVALS, FIRST_JOB);
    FirstSend(Run(s, p + APPROVALS + FIRST_JOB));
    RunConcat(s, p + APPROVALS + FIRST_JOB, FIRST_SEND);
    var q := p + APPROVALS + FIRST_JOB + FIRST_SEND;
    SecondJob(Run(s, q));
    RunConcat(s, q, SECOND_JOB);
    SecondSend(Run(s, q + SECOND_JOB));
    RunConcat(s, q + SECOND_JOB, SECOND_SEND);
  }

  lemma ChainFellByFive(t: State)
    requires t.cfg == Config(1, 1, 3, 0, 10)
    requires t.node.blocks == [Block(0, []), Block(1, [Mined(SHARED, true)])]
    ensures ChainBalance(t) == 5 && Mined(SHARED, true) in Flatten(t.node.blocks)
  {
    OneTransfer([Block(0, [])]);
  }

  /**
   * With one dropped transaction and a nonce refetched after it, the ledger ends
   * below the chain: two settlements of 5 are booked, one transfer of 5 is mined.
   */
  lemma DropsCanShareATransaction(s: State)
    requires Start(s)
    ensures var t := Run(s, SENT_TWICE + FIRST_BOOKING + SECOND_BOOKING);
            && OperatorBalance(t.db.ledger) == 0 && ChainBalance(t) == 5
  {
    UntilSentTwice(s);
    var c := Run(s, SENT_TWICE);
    BookedOne(c, 0);
    RunConcat(s, SENT_TWICE, FIRST_BOOKING);
    var d := Run(s, SENT_TWICE + FIRST_BOOKING);
    BookedOne(d, 1);
    RunConcat(s, SENT_TWICE + FIRST_BOOKING, SECOND_BOOKING);
    var e := Run(s, SENT_TWICE + FIRST_BOOKING + SECOND_BOOKING);
    TwicePaired(e.db.ledger);
    ChainFellByFive(e);
  }

  /**
   * A shared transfer does no harm until its second settlement is booked: with one
   * booking made, ledger and chain agree although the transfer is shared.
   */
  lemma SharedButNotYetBelow(s: State)
    requires Start(s)
    ensures var t := Run(s, SENT_TWICE + FIRST_BOOKING);
            && !SharesNothing(t)
            && OperatorBalance(t.db.ledger) == 5 && ChainBalance(t) == 5
  {
    UntilSentTwice(s);
    var c := Run(s, SENT_TWICE);
    BookedOne(c, 0);
    RunConcat(s, SENT_TWICE, FIRST_BOOKING);
    var t := Run(s, SENT_TWICE + FIRST_BOOKING);
    assert t.db.ledger == [Entry(None, Genesis, Credit, 10), DebitOf(0, 5), CreditOf(0, 5)];
    OnePairLeft(t.db.ledger, 10, 0, 5);
    ChainFellByFive(t);
    assert SentFor(t.node.accepted, 0, Mined(SHARED, true).tx) && SentFor(t.node.accepted, 1, Mined(SHARED, true).tx);
  }

  /** The snapshot and one pair: the balance is what is left. */
  lemma OnePairLeft(ledger: seq<Entry>, opening: nat, id: nat, amount: nat)
    requires ledger == [Entry(None, Genesis, Credit, opening), DebitOf(id, amount), CreditOf(id, amount)]
    ensures OperatorBalance(ledger) == opening - amount
  {
    SumThree(ledger, Credit);
    SumThree(ledger, Debit);
  }

  lemma SumThree(ledger: seq<Entry>, d: Direction)
    requires |ledger| == 3
    ensures SumEntries(ledger, Operator, d) == Counts(ledger[0], d) + Counts(ledger[1], d) + Counts(ledger[2], d)
  {
    assert ledger[..2][..1] == ledger[..1] && ledger[..1][..0] == [];
    assert SumEntries(ledger[..1], Operator, d) == Counts(ledger[0], d);
    assert SumEntries(ledger[..2], Operator, d) == SumEntries(ledger[..1], Operator, d) + Counts(ledger[1], d);
  }
}
