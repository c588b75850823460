/**
 * What the reconciler's difference means: mined transfers nobody accounts for,
 * minus booked settlements still counted as pending.
 */
module Reconcile {
  import opened Basics
  import opened Sums
  import opened Rail
  import opened Chain
  import opened Books
  import opened Engine
  import opened SendSafety
  import opened Permanence
  import opened StaleAnswers
  import opened Nonces

  /** The operator's token balance: only the relayer moves it, and never to itself. */
  function ChainBalance(s: State): int {
    s.cfg.opening - SumOk(Flatten(s.node.blocks))
  }

  /** Open settlements whose stored transaction is mined and successful. */
  predicate IsCounted(s: State, i: nat) {
    && i < |s.db.rows| && s.db.rows[i].status in PENDING && s.db.rows[i].txHash.Some?
    && var receipt := ReceiptOf(s.node.blocks, s.db.rows[i].txHash.value);
       receipt.Some? && receipt.value.ok
  }

  function Counted(s: State): set<nat> {
    set i: nat | i < |s.db.rows| && IsCounted(s, i)
  }

  function MinedPending(s: State): nat {
    SumOver(Amounts(s.db.rows), Counted(s))
  }

  function Diff(s: State): int {
    OperatorBalance(s.db.ledger) - MinedPending(s) - ChainBalance(s)
  }

  /** |diff| below one base unit. */
  predicate Matched(s: State) {
    -1 < Diff(s) < 1
  }

  // ---- Mined transfers as a set of settlements ------------------------------

  predicate SentFor(accepted: seq<Broadcast>, i: nat, tx: Tx) {
    Broadcast(i, tx) in accepted
  }

  ghost predicate IsPaidBy(mined: seq<Mined>, accepted: seq<Broadcast>, i: nat) {
    exists m :: m in mined && m.ok && SentFor(accepted, i, m.tx)
  }

  ghost function PaidBy(mined: seq<Mined>, accepted: seq<Broadcast>, n: nat): set<nat> {
    set i: nat | i < n && IsPaidBy(mined, accepted, i)
  }

  ghost function Paid(s: State): set<nat> {
    PaidBy(Flatten(s.node.blocks), s.node.accepted, |s.db.rows|)
  }

  ghost predicate Attributable(mined: seq<Mined>, accepted: seq<Broadcast>, base: nat, amounts: seq<nat>) {
    && NonceOrder(mined, base)
    && (forall m :: m in mined ==> m.tx in Sent(accepted))
    && (forall b :: b in accepted ==> b.id < |amounts| && b.tx.amount == amounts[b.id])
    && (forall i :: 0 <= i < |amounts| ==> amounts[i] > 0)
    && OneNonce(accepted)
  }

  /** No successful transfer is the transaction of two settlements. */
  ghost predicate NoSharedPayment(mined: seq<Mined>, accepted: seq<Broadcast>) {
    forall m, i, j :: m in mined && m.ok && SentFor(accepted, i, m.tx) && SentFor(accepted, j, m.tx) ==> i == j
  }

  ghost function PayersOf(accepted: seq<Broadcast>, tx: Tx): set<nat> {
    set b | b in accepted && b.tx == tx :: b.id
  }

  lemma OneNonceEach(accepted: seq<Broadcast>, id: nat, a: Tx, b: Tx)
    requires OneNonce(accepted) && SentFor(accepted, id, a) && SentFor(accepted, id, b)
    ensures a.nonce == b.nonce
  {
    assert Broadcast(id, a).tx.nonce == Broadcast(id, b).tx.nonce;
  }

  lemma PayersMeaning(accepted: seq<Broadcast>, tx: Tx, i: nat)
    ensures i in PayersOf(accepted, tx) <==> SentFor(accepted, i, tx)
  {
    if SentFor(accepted, i, tx) {
      assert Broadcast(i, tx) in accepted && Broadcast(i, tx).tx == tx;
    }
  }

  /** The newest transfer pays settlements no earlier one paid. */
  lemma LastPayersAreNew(init: seq<Mined>, last: Mined, accepted: seq<Broadcast>, base: nat, amounts: seq<nat>)
    requires Attributable(init + [last], accepted, base, amounts)
    ensures PayersOf(accepted, last.tx) !! PaidBy(init, accepted, |amounts|)
  {
    var mined := init + [last];
    forall m | m in init
      ensures m.tx.nonce < base + |init|
    {
      var k :| 0 <= k < |init| && init[k] == m;
      assert mined[k] == m;
    }
    assert mined[|init|].tx.nonce == base + |init|;
    forall i, m | i in PayersOf(accepted, last.tx) && m in init && m.ok
      ensures !SentFor(accepted, i, m.tx)
    {
      PayersMeaning(accepted, last.tx, i);
      if SentFor(accepted, i, m.tx) {
        OneNonceEach(accepted, i, m.tx, last.tx);
      }
    }
  }

  /** Its payers add up to at least its amount, and to more exactly when there are several. */
  lemma PayersSum(accepted: seq<Broadcast>, tx: Tx, amounts: seq<nat>)
    requires tx in Sent(accepted)
    requires forall b :: b in accepted ==> b.id < |amounts| && b.tx.amount == amounts[b.id]
    requires forall i :: 0 <= i < |amounts| ==> amounts[i] > 0
    ensures SumOver(amounts, PayersOf(accepted, tx)) >= tx.amount
    ensures SumOver(amounts, PayersOf(accepted, tx)) == tx.amount
            <==> (forall i, j :: SentFor(accepted, i, tx) && SentFor(accepted, j, tx) ==> i == j)
  {
    var payers := PayersOf(accepted, tx);
    var b :| b in accepted && b.tx == tx;
    assert b.id in payers;
    var others := payers - {b.id};
    assert others + {b.id} == payers;
    SumAdd(amounts, others, b.id);
    SumZero(amounts, others);
    forall i: nat
      ensures i in payers <==> SentFor(accepted, i, tx)
    {
      PayersMeaning(accepted, tx, i);
    }
    if i :| i in others {
      assert 0 <= i < |amounts| && SentFor(accepted, i, tx) && SentFor(accepted, b.id, tx);
    } else {
      assert payers == {b.id};
    }
  }

  /** Adding one mined transaction adds its payers, if it succeeded. */
  lemma PaidBySnoc(init: seq<Mined>, last: Mined, accepted: seq<Broadcast>, n: nat)
    requires forall b :: b in accepted ==> b.id < n
    ensures PaidBy(init + [last], accepted, n)
            == PaidBy(init, accepted, n) + (if last.ok then PayersOf(accepted, last.tx) else {})
  {
    var mined := init + [last];
    assert last in mined;
    assert forall m :: m in mined <==> m in init || m == last;
    forall i: nat
      ensures i in PayersOf(accepted, last.tx) <==> SentFor(accepted, i, last.tx)
    {
      PayersMeaning(accepted, last.tx, i);
    }
    forall i | i in PaidBy(init, accepted, n)
      ensures IsPaidBy(mined, accepted, i)
    {
      var m :| m in init && m.ok && SentFor(accepted, i, m.tx);
      assert m in mined;
    }
  }

  /**
   * The settlements paid add up to at least the successful transfers, with
   * equality exactly when no transfer is shared.
   */
  lemma {:induction false} TransfersBySettlement(
      mined: seq<Mined>, accepted: seq<Broadcast>, base: nat, amounts: seq<nat>)
    requires Attributable(mined, accepted, base, amounts)
    ensures SumOk(mined) <= SumOver(amounts, PaidBy(mined, accepted, |amounts|))
    ensures SumOk(mined) == SumOver(amounts, PaidBy(mined, accepted, |amounts|))
            <==> NoSharedPayment(mined, accepted)
  {
    if |mined| == 0 {
      assert PaidBy(mined, accepted, |amounts|) == {};
      SumEmpty(amounts);
    } else {
      var init, last := mined[..|mined| - 1], mined[|mined| - 1];
      assert mined == init + [last];
      assert last in mined;
      TransfersBySettlement(init, accepted, base, amounts);
      PaidBySnoc(init, last, accepted, |amounts|);
      LastPayersAreNew(init, last, accepted, base, amounts);
      PayersSum(accepted, last.tx, amounts);
      var before, payers := PaidBy(init, accepted, |amounts|), PayersOf(accepted, last.tx);
      InclusionExclusion(amounts, before, payers);
      assert before * payers == {} && before + {} == before;
      SumEmpty(amounts);
      SharedSnoc(init, last, accepted);
      assert SumOk(mined) == SumOk(init) + (if last.ok then last.tx.amount else 0);
    }
  }

  lemma SharedSnoc(init: seq<Mined>, last: Mined, accepted: seq<Broadcast>)
    ensures NoSharedPayment(init + [last], accepted)
            <==> && NoSharedPayment(init, accepted)
                 && (last.ok ==> forall i, j ::
                       SentFor(accepted, i, last.tx) && SentFor(accepted, j, last.tx) ==> i == j)
  {
    assert last in init + [last];
    assert forall m :: m in init ==> m in init + [last];
  }

  lemma StateAttributable(s: State)
    requires Safe(s)
    ensures Attributable(Flatten(s.node.blocks), s.node.accepted, s.cfg.base, Amounts(s.db.rows))
  {
    forall b | b in s.node.accepted
      ensures b.id < |s.db.rows| && b.tx.amount == s.db.rows[b.id].amount
    {
      assert Covers(s.db.rows, b);
    }
    forall i | 0 <= i < |s.db.rows|
      ensures s.db.rows[i].amount > 0
    {
      assert RowShape(s.db.rows[i]);
    }
  }

  lemma BookedArePaid(s: State)
    requires Sound(s)
    ensures BookedIds(s.db.ledger) <= Paid(s)
  {
    forall i | i in BookedIds(s.db.ledger)
      ensures i in Paid(s)
    {
      BookedIdsMeaning(s.db.ledger, i);
      assert PaidForGood(s, i);
      var b :| b in s.node.accepted && b.id == i && Mined(b.tx, true) in Settled(s.node.blocks, s.cfg.final);
      SettledIsMined(s.node.blocks, s.cfg.final, Mined(b.tx, true));
      assert Covers(s.db.rows, b);
      assert SentFor(s.node.accepted, i, Mined(b.tx, true).tx);
    }
  }

  lemma CountedArePaid(s: State)
    requires Safe(s)
    ensures Counted(s) <= Paid(s)
  {
    forall i | i in Counted(s)
      ensures i in Paid(s)
    {
      var tx := s.db.rows[i].txHash.value;
      ReceiptSound(s.node.blocks, tx);
      assert Mined(tx, true) in Flatten(s.node.blocks);
      assert SentFor(s.node.accepted, i, Mined(tx, true).tx);
    }
  }

  // ---- The identity ---------------------------------------------------------

  /** SUBMITTED or CONFIRMED, and its own stored transaction succeeded on the chain. */
  ghost predicate IsOpenAndMined(s: State, i: nat) {
    && i < |s.db.rows|
    && (s.db.rows[i].status == Submitted || s.db.rows[i].status == Confirmed)
    && s.db.rows[i].txHash.Some? && Mined(s.db.rows[i].txHash.value, true) in Flatten(s.node.blocks)
  }

  ghost function OpenAndMined(s: State): set<nat> {
    set i: nat | i < |s.db.rows| && IsOpenAndMined(s, i)
  }

  /** What the reconciler counts by receipts is what is open with its transfer on the chain. */
  lemma CountedIsOpenAndMined(s: State)
    requires Safe(s)
    ensures Counted(s) == OpenAndMined(s)
  {
    forall i: nat | i < |s.db.rows|
      ensures IsCounted(s, i) <==> IsOpenAndMined(s, i)
    {
      if s.db.rows[i].txHash.Some? {
        var tx := s.db.rows[i].txHash.value;
        if ReceiptOf(s.node.blocks, tx).Some? {
          ReceiptSound(s.node.blocks, tx);
        }
        if Mined(tx, true) in Flatten(s.node.blocks) {
          ReceiptComplete(s.node.blocks, s.cfg.base, Mined(tx, true));
        }
      }
    }
  }

  /** Mined, but neither booked nor still open on a mined transaction. */
  ghost function Unaccounted(s: State): set<nat> {
    Paid(s) - (BookedIds(s.db.ledger) + OpenAndMined(s))
  }

  ghost function Explained(s: State): int {
    SumOver(Amounts(s.db.rows), Unaccounted(s)) as int
    - SumOver(Amounts(s.db.rows), BookedIds(s.db.ledger) * OpenAndMined(s)) as int
  }

  /** The difference is explained exactly when no successful transfer is shared. */
  lemma DiffIdentity(s: State)
    requires Sound(s)
    ensures Diff(s) <= Explained(s)
    ensures Diff(s) == Explained(s) <==> NoSharedPayment(Flatten(s.node.blocks), s.node.accepted)
  {
    var w := Amounts(s.db.rows);
    var booked := BookedIds(s.db.ledger);
    CountedIsOpenAndMined(s);
    PairedBalances(s.db.ledger, s.cfg.opening, w);
    StateAttributable(s);
    TransfersBySettlement(Flatten(s.node.blocks), s.node.accepted, s.cfg.base, w);
    BookedArePaid(s);
    CountedArePaid(s);
    InclusionExclusion(w, booked, Counted(s));
    SumMinus(w, Paid(s), booked + Counted(s));
  }

  /** Booked but not FINAL. */
  function NotYetFinal(s: State): set<nat> {
    set i | i in BookedIds(s.db.ledger) && i < |s.db.rows| && s.db.rows[i].status != Final
  }

  /** Every mined transfer is booked, or its settlement is still open on it. */
  ghost predicate AllAccounted(s: State) {
    forall i :: i in Paid(s) ==> i in BookedIds(s.db.ledger) || i in OpenAndMined(s)
  }

  ghost predicate SharesNothing(s: State) {
    NoSharedPayment(Flatten(s.node.blocks), s.node.accepted)
  }

  /**
   * Reconciliation identity, after any run: diff is what is mined but neither booked
   * nor still open, minus what is booked and still open on a mined transaction, exactly
   * when no successful transfer on the chain is the transaction of two settlements.
   */
  lemma ReconciliationIdentity(s: State, steps: seq<Step>)
    requires Init(s)
    ensures var t := Run(s, steps);
            Diff(t) == Explained(t) <==> SharesNothing(t)
  {
    InitSound(s);
    RunKeepsSound(s, steps);
    DiffIdentity(Run(s, steps));
  }

  lemma PositiveAmounts(s: State)
    requires Safe(s)
    ensures forall i :: 0 <= i < |Amounts(s.db.rows)| ==> Amounts(s.db.rows)[i] > 0
  {
    forall i | 0 <= i < |s.db.rows|
      ensures s.db.rows[i].amount > 0
    {
      assert RowShape(s.db.rows[i]);
    }
  }

  /**
   * What MATCHED means, after any run without a shared transfer: when nothing is
   * half-finalised, every mined transfer is booked or still open.
   */
  lemma MatchedMeansAccounted(s: State, steps: seq<Step>)
    requires Init(s)
    requires SharesNothing(Run(s, steps)) && NotYetFinal(Run(s, steps)) == {}
    ensures Matched(Run(s, steps)) <==> AllAccounted(Run(s, steps))
  {
    InitSound(s);
    RunKeepsSound(s, steps);
    var t := Run(s, steps);
    var w := Amounts(t.db.rows);
    DiffIdentity(t);
    CountedIsOpenAndMined(t);
    NothingCountedTwice(t);
    PositiveAmounts(t);
    SumZero(w, Unaccounted(t));
    UnaccountedInside(t);
  }

  lemma NothingCountedTwice(t: State)
    requires Sound(t) && NotYetFinal(t) == {}
    ensures SumOver(Amounts(t.db.rows), BookedIds(t.db.ledger) * Counted(t)) == 0
  {
    assert BookedIds(t.db.ledger) * Counted(t) <= NotYetFinal(t);
    assert BookedIds(t.db.ledger) * Counted(t) == {};
    SumEmpty(Amounts(t.db.rows));
  }

  lemma UnaccountedInside(t: State)
    ensures AllAccounted(t) <==> forall i :: 0 <= i < |t.db.rows| ==> i !in Unaccounted(t)
  {
    if i :| i in Paid(t) && i !in BookedIds(t.db.ledger) && i !in OpenAndMined(t) {
      assert i in Unaccounted(t) && 0 <= i < |t.db.rows|;
    }
  }

  // ---- Booked but not FINAL -------------------------------------------------

  /** A booked settlement that is not FINAL is counted exactly when it is open on its settled transaction. */
  lemma CountedIsSettling(s: State)
    requires Sound(s)
    ensures NotYetFinal(s) <= Counted(s) <==> Settling(s)
  {
    if Settling(s) {
      forall i | i in NotYetFinal(s)
        ensures i in Counted(s)
      {
        BookedIdsMeaning(s.db.ledger, i);
        assert WellBooked(s, i);
        SettledReceipt(s, s.db.rows[i].txHash.value);
      }
    }
    if NotYetFinal(s) <= Counted(s) {
      forall id: nat | IsBooked(s.db.ledger, id)
        ensures WellBooked(s, id)
      {
        BookedIdsMeaning(s.db.ledger, id);
        CountedIsWellBooked(s, id);
      }
    }
  }

  lemma CountedIsWellBooked(s: State, id: nat)
    requires Sound(s) && IsBooked(s.db.ledger, id)
    requires id in NotYetFinal(s) ==> id in Counted(s)
    ensures WellBooked(s, id)
  {
    assert PaidForGood(s, id);
    var b :| b in s.node.accepted && b.id == id && Mined(b.tx, true) in Settled(s.node.blocks, s.cfg.final);
    assert Covers(s.db.rows, b);
    BookedIdsMeaning(s.db.ledger, id);
    if s.db.rows[id].status != Final {
      var tx := s.db.rows[id].txHash.value;
      ReceiptSound(s.node.blocks, tx);
      SettledIsMined(s.node.blocks, s.cfg.final, Mined(b.tx, true));
      OneNonceEach(s.node.accepted, id, b.tx, tx);
      MinedOnce(s, b.tx, tx);
    }
  }

  /**
   * The plain identity, after any run without a shared transfer: diff is the amount
   * unaccounted for minus the amount booked but not FINAL exactly when every booked
   * settlement is FINAL or still open on its settled transaction.
   */
  lemma PlainIdentity(s: State, steps: seq<Step>)
    requires Init(s) && SharesNothing(Run(s, steps))
    ensures var t := Run(s, steps);
            var w := Amounts(t.db.rows);
            Diff(t) == SumOver(w, Unaccounted(t)) - SumOver(w, NotYetFinal(t)) <==> Settling(t)
  {
    InitSound(s);
    RunKeepsSound(s, steps);
    PlainExactly(Run(s, steps));
  }

  lemma PlainExactly(t: State)
    requires Sound(t) && SharesNothing(t)
    ensures var w := Amounts(t.db.rows);
            Diff(t) == SumOver(w, Unaccounted(t)) - SumOver(w, NotYetFinal(t)) <==> Settling(t)
  {
    DiffIdentity(t);
    CountedIsOpenAndMined(t);
    CountedIsSettling(t);
    PartOfNotYetFinal(t);
  }

  lemma PartOfNotYetFinal(t: State)
    requires Sound(t)
    ensures var w := Amounts(t.db.rows);
            SumOver(w, BookedIds(t.db.ledger) * Counted(t)) == SumOver(w, NotYetFinal(t))
            <==> NotYetFinal(t) <= Counted(t)
  {
    var w := Amounts(t.db.rows);
    var both := BookedIds(t.db.ledger) * Counted(t);
    var rest := NotYetFinal(t) - both;
    assert both <= NotYetFinal(t);
    SumMinus(w, NotYetFinal(t), both);
    PositiveAmounts(t);
    SumZero(w, rest);
    if NotYetFinal(t) <= Counted(t) {
      assert rest == {};
    } else {
      var i :| i in NotYetFinal(t) && i !in Counted(t);
      assert i in rest;
    }
  }

  // ---- Ledger and chain -----------------------------------------------------

  /** The broadcast the node takes in a step, if any. */
  function TakenIn(s: State, e: Step): Option<Broadcast> {
    match e
    case Accept(gas, fees) =>
      if s.proc.up && s.proc.job.Sending? && s.proc.job.id < |s.db.rows| then
        Some(Broadcast(s.proc.job.id, PaymentOf(s.db.rows[s.proc.job.id], s.proc.job.nonce, gas, fees)))
      else None
    case Resume(gas, fees, retries, _) =>
      if Resuming(s) && (retries == s.db.rows[s.proc.job.id].retryCount
                         || s.db.rows[s.proc.job.id].retryCount < retries <= s.cfg.maxRetries) then
        var row := s.db.rows[s.proc.job.id];
        Some(Broadcast(s.proc.job.id, PaymentOf(row, row.nonce.value, gas, fees)))
      else None
    case SweepResend(id, gas, fees, _) =>
      if Stuck(s, id) && s.db.rows[id].retryCount < s.cfg.maxRetries then
        Some(Broadcast(id, PaymentOf(s.db.rows[id], s.db.rows[id].nonce.value, gas, fees)))
      else None
    case _ => None
  }

  lemma TakenIsAppended(s: State, e: Step)
    requires s.cfg.final >= 1
    ensures Apply(s, e).node.accepted
            == s.node.accepted + (if TakenIn(s, e).Some? then [TakenIn(s, e).value] else [])
  {
  }

  /** The step does not send what was already sent for another settlement. */
  predicate SendsItsOwn(s: State, e: Step) {
    TakenIn(s, e).Some? ==>
      forall b :: b in s.node.accepted && b.tx == TakenIn(s, e).value.tx ==> b.id == TakenIn(s, e).value.id
  }

  lemma {:induction false} SharedOnlyBySending(s: State, steps: seq<Step>)
    requires Safe(s)
    ensures NoSharedHash(Run(s, steps).node.accepted)
            <==> NoSharedHash(s.node.accepted) && Along(SendsItsOwn, s, steps)
    decreases |steps|
  {
    if |steps| > 0 {
      var t := Apply(s, steps[0]);
      ApplyKeepsConfig(s, steps[0]);
      StepKeepsSafe(s, steps[0]);
      SharedOnlyBySending(t, steps[1..]);
      TakenIsAppended(s, steps[0]);
      SharedByOne(s, steps[0], t.node.accepted);
    }
  }

  lemma SharedByOne(s: State, e: Step, next: seq<Broadcast>)
    requires next == s.node.accepted + (if TakenIn(s, e).Some? then [TakenIn(s, e).value] else [])
    ensures NoSharedHash(next) <==> NoSharedHash(s.node.accepted) && SendsItsOwn(s, e)
  {
    forall b | b in s.node.accepted
      ensures b in next
    {
    }
    if TakenIn(s, e).Some? {
      assert next[|s.node.accepted|] == TakenIn(s, e).value;
    }
  }

  /**
   * No transaction is ever accepted for two settlements exactly when no step of the
   * run sends a transaction that was already accepted for another one.
   */
  lemma HashesAreOwn(s: State, steps: seq<Step>)
    requires Init(s)
    ensures NoSharedHash(Run(s, steps).node.accepted) <==> Along(SendsItsOwn, s, steps)
  {
    InitSafe(s);
    SharedOnlyBySending(s, steps);
  }

  lemma OwnHashesOwnPayments(t: State)
    requires NoSharedHash(t.node.accepted)
    ensures SharesNothing(t)
  {
    forall m, i, j | m in Flatten(t.node.blocks) && m.ok
                     && SentFor(t.node.accepted, i, m.tx) && SentFor(t.node.accepted, j, m.tx)
      ensures i == j
    {
      assert Broadcast(i, m.tx).tx == Broadcast(j, m.tx).tx;
    }
  }

  lemma LedgerAgainstChain(t: State)
    requires Sound(t)
    ensures SharesNothing(t) ==> OperatorBalance(t.db.ledger) >= ChainBalance(t)
    ensures Paid(t) <= BookedIds(t.db.ledger) ==>
              (OperatorBalance(t.db.ledger) >= ChainBalance(t) <==> SharesNothing(t))
  {
    var w := Amounts(t.db.rows);
    PairedBalances(t.db.ledger, t.cfg.opening, w);
    StateAttributable(t);
    TransfersBySettlement(Flatten(t.node.blocks), t.node.accepted, t.cfg.base, w);
    BookedArePaid(t);
    SumMonotone(w, BookedIds(t.db.ledger), Paid(t));
    if Paid(t) <= BookedIds(t.db.ledger) {
      assert Paid(t) == BookedIds(t.db.ledger);
    }
  }

  /**
   * The ledger is not below the chain as long as every send is of the settlement's own
   * transaction; and once every mined transfer is booked it is not below exactly when
   * no mined transfer is shared.
   */
  lemma LedgerNotBelowChain(s: State, steps: seq<Step>)
    requires Init(s)
    ensures var t := Run(s, steps);
            && (Along(SendsItsOwn, s, steps) ==> OperatorBalance(t.db.ledger) >= ChainBalance(t))
            && (Paid(t) <= BookedIds(t.db.ledger) ==>
                  (OperatorBalance(t.db.ledger) >= ChainBalance(t) <==> SharesNothing(t)))
  {
    InitSound(s);
    RunKeepsSound(s, steps);
    HashesAreOwn(s, steps);
    var t := Run(s, steps);
    LedgerAgainstChain(t);
    if Along(SendsItsOwn, s, steps) {
      OwnHashesOwnPayments(t);
    }
  }

  /** Without drops every send is of the settlement's own transaction. */
  lemma DropFreeSendsItsOwn(s: State, steps: seq<Step>)
    requires Init(s) && Along(DropFree, s, steps)
    ensures Along(SendsItsOwn, s, steps)
  {
    NoncesAreNotShared(s, steps);
    HashesAreOwn(s, steps);
  }
}
