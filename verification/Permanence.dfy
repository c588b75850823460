/**
 * Booking is idempotent, crash-safe and permanent: a ledger pair is only
 * written for a transfer that every later canonical chain contains.
 */
module Permanence {
  import opened Basics
  import opened Sums
  import opened Rail
  import opened Chain
  import opened SettlementState
  import opened Books
  import opened Engine
  import opened SendSafety

  // ---- The shape of the ledger ----------------------------------------------

  predicate Mentions(ledger: seq<Entry>, id: nat) {
    exists e :: e in ledger && e.id == Some(id)
  }

  /** The snapshot, then one DEBIT/CREDIT pair per booked settlement. */
  predicate Paired(ledger: seq<Entry>, opening: nat, amounts: seq<nat>) {
    if |ledger| <= 1 then ledger == [Entry(None, Genesis, Credit, opening)]
    else
      var n := |ledger| - 2;
      var id := ledger[n].id;
      && id.Some? && id.value < |amounts|
      && ledger[n] == DebitOf(id.value, amounts[id.value])
      && ledger[n + 1] == CreditOf(id.value, amounts[id.value])
      && !Mentions(ledger[..n], id.value)
      && Paired(ledger[..n], opening, amounts)
  }

  lemma {:induction false} PairedGrows(ledger: seq<Entry>, opening: nat, amounts: seq<nat>, more: seq<nat>)
    requires Paired(ledger, opening, amounts) && amounts <= more
    ensures Paired(ledger, opening, more)
  {
    if |ledger| > 1 {
      PairedGrows(ledger[..|ledger| - 2], opening, amounts, more);
    }
  }

  lemma EntriesOfTwo(ledger: seq<Entry>, n: nat)
    requires n + 2 == |ledger|
    ensures forall e :: e in ledger <==> e in ledger[..n] || e == ledger[n] || e == ledger[n + 1]
  {
    assert ledger == ledger[..n] + [ledger[n], ledger[n + 1]];
  }

  lemma {:induction false} PairedMentions(ledger: seq<Entry>, opening: nat, amounts: seq<nat>, id: nat)
    requires Paired(ledger, opening, amounts)
    ensures Mentions(ledger, id) <==> HasEntry(ledger, id, Operator)
    ensures Mentions(ledger, id) <==> HasEntry(ledger, id, SettledOut)
    ensures Mentions(ledger, id) ==> id < |amounts|
  {
    if |ledger| > 1 {
      var n := |ledger| - 2;
      PairedMentions(ledger[..n], opening, amounts, id);
      EntriesOfTwo(ledger, n);
    }
  }

  lemma BookedKeepsPaired(ledger: seq<Entry>, opening: nat, amounts: seq<nat>, id: nat)
    requires Paired(ledger, opening, amounts)
    requires id < |amounts|
    ensures Paired(Booked(ledger, id, amounts[id]), opening, amounts)
    ensures IsBooked(Booked(ledger, id, amounts[id]), id)
    ensures forall j :: j != id ==> (IsBooked(Booked(ledger, id, amounts[id]), j) <==> IsBooked(ledger, j))
  {
    var next := Booked(ledger, id, amounts[id]);
    PairedMentions(ledger, opening, amounts, id);
    if next != ledger {
      assert next[..|ledger|] == ledger;
      assert next[|ledger|] in next;
    }
  }

  /** No rows at all, or exactly one pair, adjacent and for the settlement's own amount. */
  ghost predicate NoneOrOnePair(ledger: seq<Entry>, id: nat, amount: nat) {
    || !Mentions(ledger, id)
    || exists k :: 0 <= k < |ledger| - 1 && OnlyPairAt(ledger, id, amount, k)
  }

  predicate OnlyPairAt(ledger: seq<Entry>, id: nat, amount: nat, k: int)
    requires 0 <= k < |ledger| - 1
  {
    && ledger[k] == DebitOf(id, amount) && ledger[k + 1] == CreditOf(id, amount)
    && (forall j :: 0 <= j < |ledger| && j != k && j != k + 1 ==> ledger[j].id != Some(id))
  }

  lemma {:induction false} PairedMeansOnePair(ledger: seq<Entry>, opening: nat, amounts: seq<nat>, id: nat)
    requires Paired(ledger, opening, amounts) && id < |amounts|
    ensures NoneOrOnePair(ledger, id, amounts[id])
  {
    if |ledger| > 1 {
      var n := |ledger| - 2;
      PairedMeansOnePair(ledger[..n], opening, amounts, id);
      if ledger[n].id == Some(id) {
        forall j | 0 <= j < n
          ensures ledger[j].id != Some(id)
        {
          assert ledger[j] in ledger[..n];
        }
        assert OnlyPairAt(ledger, id, amounts[id], n);
      } else if Mentions(ledger[..n], id) {
        var k :| 0 <= k < n - 1 && OnlyPairAt(ledger[..n], id, amounts[id], k);
        assert OnlyPairAt(ledger, id, amounts[id], k);
      } else {
        assert ledger == ledger[..n] + [ledger[n], ledger[n + 1]];
      }
    }
  }

  /** Debits equal credits equal the booked amounts; the balance is what is left. */
  lemma {:induction false} PairedBalances(ledger: seq<Entry>, opening: nat, amounts: seq<nat>)
    requires Paired(ledger, opening, amounts)
    ensures SumEntries(ledger, Operator, Debit) == SumOver(amounts, BookedIds(ledger))
    ensures SumEntries(ledger, SettledOut, Credit) == SumOver(amounts, BookedIds(ledger))
    ensures SumEntries(ledger, Operator, Credit) == 0
    ensures |ledger| >= 1 && ledger[0].account == Genesis && ledger[0].amount == opening
    ensures OperatorBalance(ledger) == opening - SumOver(amounts, BookedIds(ledger))
  {
    if |ledger| <= 1 {
      assert BookedIds(ledger) == {};
      SumEmpty(amounts);
      assert ledger[..|ledger| - 1] == [];
    } else {
      var n := |ledger| - 2;
      var id := ledger[n].id.value;
      PairedBalances(ledger[..n], opening, amounts);
      assert ledger[..n + 1][..n] == ledger[..n];
      assert ledger == ledger[..n] + [ledger[n], ledger[n + 1]];
      assert BookedIds(ledger) == BookedIds(ledger[..n]) + {id};
      assert id !in BookedIds(ledger[..n]) by {
        BookedIdsMeaning(ledger[..n], id);
      }
      SumAdd(amounts, BookedIds(ledger[..n]), id);
    }
  }

  // ---- The invariant --------------------------------------------------------

  /** The settlement's transfer succeeded in a block no reorganisation reaches. */
  ghost predicate PaidForGood(s: State, id: nat)
    requires s.cfg.final >= 1
  {
    exists b :: b in s.node.accepted && b.id == id && Mined(b.tx, true) in Settled(s.node.blocks, s.cfg.final)
  }

  ghost predicate CheckPaid(s: State, c: Check)
    requires s.cfg.final >= 1
  {
    && (c.stage.ToBook? ==>
          c.row.txHash.Some? && Mined(c.row.txHash.value, true) in Settled(s.node.blocks, s.cfg.final))
    && (c.stage.ToFlip? ==> IsBooked(s.db.ledger, c.id))
  }

  ghost predicate BooksSound(s: State)
    requires s.cfg.final >= 1
  {
    && Paired(s.db.ledger, s.cfg.opening, Amounts(s.db.rows))
    && (forall id :: IsBooked(s.db.ledger, id) ==> PaidForGood(s, id))
    && (forall id :: 0 <= id < |s.db.rows| && s.db.rows[id].status == Final ==> IsBooked(s.db.ledger, id))
    && (forall k :: 0 <= k < |s.checks| ==> CheckPaid(s, s.checks[k]))
  }

  ghost predicate Sound(s: State) {
    Safe(s) && BooksSound(s)
  }

  lemma PaidForGoodExtends(s: State, t: State, id: nat)
    requires s.cfg.final >= 1 && Extends(s, t) && PaidForGood(s, id)
    ensures PaidForGood(t, id)
  {
    var b :| b in s.node.accepted && b.id == id && Mined(b.tx, true) in Settled(s.node.blocks, s.cfg.final);
    assert b in t.node.accepted;
  }

  lemma AmountsGrow(s: State, t: State)
    requires s.cfg.final >= 1 && Extends(s, t)
    ensures Amounts(s.db.rows) <= Amounts(t.db.rows)
  {
    forall i | 0 <= i < |s.db.rows|
      ensures Amounts(s.db.rows)[i] == Amounts(t.db.rows)[i]
    {
      assert SameIdentity(s.db.rows[i], t.db.rows[i]);
    }
  }

  /** Steps that neither book nor finalise only have to carry the facts along. */
  lemma QuietKeepsBooks(s: State, t: State)
    requires Sound(s) && Extends(s, t)
    requires t.db.ledger == s.db.ledger
    requires forall id :: 0 <= id < |t.db.rows| && t.db.rows[id].status == Final ==>
                            IsBooked(s.db.ledger, id)
    requires forall k :: 0 <= k < |t.checks| ==>
                           CheckPaid(t, t.checks[k]) || (k < |s.checks| && t.checks[k] == s.checks[k])
    ensures BooksSound(t)
  {
    AmountsGrow(s, t);
    PairedGrows(s.db.ledger, s.cfg.opening, Amounts(s.db.rows), Amounts(t.db.rows));
    forall id | IsBooked(t.db.ledger, id)
      ensures PaidForGood(t, id)
    {
      PaidForGoodExtends(s, t, id);
    }
    forall k | 0 <= k < |t.checks|
      ensures CheckPaid(t, t.checks[k])
    {
      if k < |s.checks| && t.checks[k] == s.checks[k] {
        assert CheckPaid(s, s.checks[k]);
      }
    }
  }

  /** A handler decides to book only on a receipt that is already settled. */
  lemma ReadFindsSettled(s: State, k: nat, current: nat)
    requires Safe(s) && k < |s.checks| && !s.checks[k].stage.ToBook?
    ensures var t := DoRead(s, k, current);
            && t.db == s.db && t.node == s.node && |t.checks| == |s.checks|
            && (forall j :: 0 <= j < |s.checks| && j != k ==> t.checks[j] == s.checks[j])
            && (t.checks[k] == s.checks[k] || (!t.checks[k].stage.ToFlip? && CheckPaid(t, t.checks[k])))
  {
    var t := DoRead(s, k, current);
    if t.checks[k].stage.ToBook? {
      DeepReceiptSettled(s.node.blocks, s.cfg.final, s.checks[k].row.txHash.value, current);
    }
  }

  lemma ReadKeepsBooks(s: State, k: nat, current: nat)
    requires Sound(s)
    ensures BooksSound(DoRead(s, k, current))
  {
    var t := DoRead(s, k, current);
    if t != s {
      ReadFindsSettled(s, k, current);
      forall j | 0 <= j < |t.checks|
        ensures CheckPaid(t, t.checks[j])
      {
        if j != k || t.checks[k] == s.checks[k] {
          assert CheckPaid(s, s.checks[j]);
        }
      }
      forall id | IsBooked(t.db.ledger, id)
        ensures PaidForGood(t, id)
      {
        assert PaidForGood(s, id);
      }
    }
  }

  lemma BookingSettled(s: State, k: nat)
    requires Sound(s)
    requires s.proc.up && k < |s.checks| && s.checks[k].stage.ToBook?
    ensures var c := s.checks[k];
            && c.id < |s.db.rows| && c.row.amount == s.db.rows[c.id].amount
            && PaidForGood(s, c.id)
            && DoAct(s, k) == s.(checks := s.checks[k := c.(stage := ToFlip)],
                                 db := s.db.(ledger := Booked(s.db.ledger, c.id, c.row.amount)))
  {
    var c := s.checks[k];
    assert CheckSound(c, s.db.rows, s.node.accepted) && CheckPaid(s, c);
    assert Broadcast(c.id, c.row.txHash.value) in s.node.accepted;
  }

  /** Only the ledger and the handler's stage change when a settled transfer is booked. */
  lemma BookedKeepsBooks(s: State, t: State, k: nat)
    requires Sound(s) && k < |s.checks|
    requires var c := s.checks[k];
             && c.id < |s.db.rows| && PaidForGood(s, c.id)
             && t == s.(checks := s.checks[k := c.(stage := ToFlip)],
                        db := s.db.(ledger := Booked(s.db.ledger, c.id, s.db.rows[c.id].amount)))
    ensures BooksSound(t)
  {
    var c := s.checks[k];
    BookedKeepsPaired(s.db.ledger, s.cfg.opening, Amounts(s.db.rows), c.id);
    forall id | IsBooked(t.db.ledger, id)
      ensures PaidForGood(t, id)
    {
      assert PaidForGood(s, id);
    }
    forall j | 0 <= j < |t.checks|
      ensures CheckPaid(t, t.checks[j])
    {
      assert CheckPaid(s, s.checks[j]);
    }
  }

  lemma BookKeepsBooks(s: State, k: nat)
    requires Sound(s)
    requires s.proc.up && k < |s.checks| && s.checks[k].stage.ToBook?
    ensures BooksSound(DoAct(s, k))
  {
    BookingSettled(s, k);
    BookedKeepsBooks(s, DoAct(s, k), k);
  }

  /** Only a handler at its last stage writes FINAL, and only on its own row. */
  lemma OnlyFlipWritesFinal(s: State, k: nat)
    requires s.proc.up && k < |s.checks| && !s.checks[k].stage.ToBook?
    ensures var t := DoAct(s, k);
            && t.db.ledger == s.db.ledger && |t.checks| == |s.checks| && |t.db.rows| == |s.db.rows|
            && (forall j :: 0 <= j < |s.checks| && j != k ==> t.checks[j] == s.checks[j])
            && (t.checks[k] == s.checks[k] || t.checks[k].stage.Closed?)
            && (forall id :: 0 <= id < |t.db.rows| && t.db.rows[id].status == Final ==>
                  s.db.rows[id].status == Final || (s.checks[k].stage.ToFlip? && id == s.checks[k].id))
  {
  }

  /** Only a handler that has booked writes FINAL. */
  lemma FlipWritesBooked(s: State, k: nat)
    requires Sound(s)
    requires s.proc.up && k < |s.checks| && !s.checks[k].stage.ToBook?
    ensures forall id :: 0 <= id < |DoAct(s, k).db.rows| && DoAct(s, k).db.rows[id].status == Final ==>
              IsBooked(s.db.ledger, id)
  {
    OnlyFlipWritesFinal(s, k);
    assert CheckPaid(s, s.checks[k]);
  }

  lemma ClosingKeepsBooks(s: State, t: State, k: nat)
    requires Sound(s) && Extends(s, t)
    requires k < |s.checks| == |t.checks| && t.db.ledger == s.db.ledger
    requires forall j :: 0 <= j < |s.checks| && j != k ==> t.checks[j] == s.checks[j]
    requires t.checks[k] == s.checks[k] || t.checks[k].stage.Closed?
    requires forall id :: 0 <= id < |t.db.rows| && t.db.rows[id].status == Final ==> IsBooked(s.db.ledger, id)
    ensures BooksSound(t)
  {
    QuietKeepsBooks(s, t);
  }

  lemma FlipKeepsBooks(s: State, k: nat)
    requires Sound(s)
    requires s.proc.up && k < |s.checks| && !s.checks[k].stage.ToBook?
    ensures BooksSound(DoAct(s, k))
  {
    ActExtends(s, k);
    OnlyFlipWritesFinal(s, k);
    FlipWritesBooked(s, k);
    ClosingKeepsBooks(s, DoAct(s, k), k);
  }

  lemma ActKeepsBooks(s: State, k: nat)
    requires Sound(s)
    ensures BooksSound(DoAct(s, k))
  {
    if !s.proc.up || k >= |s.checks| {
      assert DoAct(s, k) == s;
    } else if s.checks[k].stage.ToBook? {
      BookKeepsBooks(s, k);
    } else {
      FlipKeepsBooks(s, k);
    }
  }

  /** No settlement becomes FINAL. */
  predicate NoNewFinal(rows: seq<Row>, next: seq<Row>) {
    |rows| <= |next|
    && forall i :: 0 <= i < |next| && next[i].status == Final ==> i < |rows| && rows[i].status == Final
  }

  lemma SameBooks(s: State, t: State)
    requires Sound(s) && Extends(s, t)
    requires t.db.ledger == s.db.ledger && (t.checks == s.checks || t.checks == [])
    requires NoNewFinal(s.db.rows, t.db.rows)
    ensures BooksSound(t)
  {
    QuietKeepsBooks(s, t);
  }

  lemma RequestLeavesBooks(s: State, e: Step)
    requires s.cfg.final >= 1
    requires e.Arrive? || e.Lookup? || e.CheckBalance? || e.Refetch? || e.Insert? || e.Screen? || e.Enqueue?
    ensures var t := Apply(s, e);
            t.db.ledger == s.db.ledger && t.checks == s.checks && NoNewFinal(s.db.rows, t.db.rows)
  {
  }

  lemma RequestKeepsBooks(s: State, e: Step)
    requires Sound(s)
    requires e.Arrive? || e.Lookup? || e.CheckBalance? || e.Refetch? || e.Insert? || e.Screen? || e.Enqueue?
    ensures BooksSound(Apply(s, e))
  {
    StepExtends(s, e);
    RequestLeavesBooks(s, e);
    SameBooks(s, Apply(s, e));
  }

  lemma WorkerLeavesBooks(s: State, e: Step)
    requires s.cfg.final >= 1
    requires e.Take? || e.Load? || e.Retry? || e.Accept? || e.GiveUp? || e.Write?
    ensures var t := Apply(s, e);
            t.db.ledger == s.db.ledger && t.checks == s.checks && NoNewFinal(s.db.rows, t.db.rows)
  {
  }

  lemma WorkerKeepsBooks(s: State, e: Step)
    requires Sound(s)
    requires e.Take? || e.Load? || e.Retry? || e.Accept? || e.GiveUp? || e.Write?
    ensures BooksSound(Apply(s, e))
  {
    StepExtends(s, e);
    WorkerLeavesBooks(s, e);
    SameBooks(s, Apply(s, e));
  }

  lemma ResumeLeavesBooks(s: State, e: Step)
    requires s.cfg.final >= 1
    requires e.Resume? || e.ResumeFail?
    ensures var t := Apply(s, e);
            t.db.ledger == s.db.ledger && (t.checks == s.checks || t.checks == []) && NoNewFinal(s.db.rows, t.db.rows)
  {
  }

  lemma ResumeKeepsBooks(s: State, e: Step)
    requires Sound(s)
    requires e.Resume? || e.ResumeFail?
    ensures BooksSound(Apply(s, e))
  {
    StepExtends(s, e);
    ResumeLeavesBooks(s, e);
    SameBooks(s, Apply(s, e));
  }

  lemma SweepLeavesBooks(s: State, e: Step)
    requires s.cfg.final >= 1
    requires e.SweepResend? || e.SweepFail? || e.SweepReject? || e.Recover?
    ensures var t := Apply(s, e);
            t.db.ledger == s.db.ledger && (t.checks == s.checks || t.checks == []) && NoNewFinal(s.db.rows, t.db.rows)
  {
  }

  lemma OtherLeavesBooks(s: State, e: Step)
    requires s.cfg.final >= 1
    requires e.Crash? || e.Move? || e.Drop? || e.Boot? || e.Drain?
    ensures var t := Apply(s, e);
            t.db == s.db && (t.checks == s.checks || t.checks == [])
  {
  }

  lemma SweepKeepsBooks(s: State, e: Step)
    requires Sound(s)
    requires e.SweepResend? || e.SweepFail? || e.SweepReject? || e.Recover?
    ensures BooksSound(Apply(s, e))
  {
    StepExtends(s, e);
    SweepLeavesBooks(s, e);
    SameBooks(s, Apply(s, e));
  }

  lemma PollKeepsBooks(s: State, id: nat)
    requires Sound(s)
    ensures BooksSound(DoPoll(s, id))
  {
    var t := DoPoll(s, id);
    StepExtends(s, Poll(id));
    forall k | 0 <= k < |t.checks|
      ensures CheckPaid(t, t.checks[k]) || (k < |s.checks| && t.checks[k] == s.checks[k])
    {
    }
    QuietKeepsBooks(s, t);
  }

  lemma OtherKeepsBooks(s: State, e: Step)
    requires Sound(s)
    requires e.Crash? || e.Move? || e.Drop? || e.Boot? || e.Drain?
    ensures BooksSound(Apply(s, e))
  {
    StepExtends(s, e);
    OtherLeavesBooks(s, e);
    SameBooks(s, Apply(s, e));
  }

  lemma StepKeepsBooks(s: State, e: Step)
    requires Sound(s)
    ensures BooksSound(Apply(s, e))
  {
    if e.Read? {
      ReadKeepsBooks(s, e.k, e.current);
    } else if e.Act? {
      ActKeepsBooks(s, e.k);
    } else if e.Take? || e.Load? || e.Retry? || e.Accept? || e.GiveUp? || e.Write? {
      WorkerKeepsBooks(s, e);
    } else if e.Poll? {
      PollKeepsBooks(s, e.id);
    } else if e.Crash? || e.Move? || e.Drop? || e.Boot? || e.Drain? {
      OtherKeepsBooks(s, e);
    } else if e.Resume? || e.ResumeFail? {
      ResumeKeepsBooks(s, e);
    } else if e.SweepResend? || e.SweepFail? || e.SweepReject? || e.Recover? {
      SweepKeepsBooks(s, e);
    } else {
      RequestKeepsBooks(s, e);
    }
  }

  lemma StepKeepsSound(s: State, e: Step)
    requires Sound(s)
    ensures Sound(Apply(s, e))
  {
    StepKeepsSafe(s, e);
    StepKeepsBooks(s, e);
  }

  lemma InitSound(s: State)
    requires Init(s)
    ensures Sound(s)
  {
  }

  lemma {:induction false} RunKeepsSound(s: State, steps: seq<Step>)
    requires Sound(s)
    ensures Sound(Run(s, steps))
    decreases |steps|
  {
    if |steps| > 0 {
      StepKeepsSound(s, steps[0]);
      RunKeepsSound(Apply(s, steps[0]), steps[1..]);
    }
  }

  // ---- Consequences ---------------------------------------------------------

  /** The settlement's successful transfer is in this chain. */
  ghost predicate PaidOn(s: State, id: nat) {
    exists b :: b in s.node.accepted && b.id == id && Mined(b.tx, true) in Flatten(s.node.blocks)
  }

  /**
   * Booked means permanent: if a run books a settlement, then however the run
   * continues, its successful transfer is in the canonical chain.
   */
  lemma BookedIsPermanent(s: State, before: seq<Step>, after: seq<Step>, id: nat)
    requires Init(s)
    requires IsBooked(Run(s, before).db.ledger, id)
    ensures PaidOn(Run(Run(s, before), after), id)
    ensures IsBooked(Run(Run(s, before), after).db.ledger, id)
  {
    InitSound(s);
    RunKeepsSound(s, before);
    var t := Run(s, before);
    RunKeepsSound(t, after);
    RunExtends(t, after);
    var u := Run(t, after);
    assert IsBooked(u.db.ledger, id) by {
      var e :| e in t.db.ledger && e.id == Some(id) && e.account == Operator;
      assert e in u.db.ledger;
    }
    assert PaidForGood(u, id);
    var b :| b in u.node.accepted && b.id == id && Mined(b.tx, true) in Settled(u.node.blocks, u.cfg.final);
    SettledIsMined(u.node.blocks, u.cfg.final, Mined(b.tx, true));
  }

  /**
   * Booking before flipping is crash-safe: after any run every settlement has no
   * ledger rows or exactly one equal pair for its own amount, no other ledger row
   * names a settlement, and FINAL means booked.
   */
  lemma BookingIsExact(s: State, steps: seq<Step>)
    requires Init(s)
    ensures var db := Run(s, steps).db;
            && (forall id :: 0 <= id < |db.rows| ==> NoneOrOnePair(db.ledger, id, db.rows[id].amount))
            && (forall id: nat :: Mentions(db.ledger, id) ==> id < |db.rows|)
            && (forall id :: 0 <= id < |db.rows| && db.rows[id].status == Final ==> IsBooked(db.ledger, id))
  {
    InitSound(s);
    RunKeepsSound(s, steps);
    var t := Run(s, steps);
    var amounts := Amounts(t.db.rows);
    forall id | 0 <= id < |t.db.rows|
      ensures NoneOrOnePair(t.db.ledger, id, t.db.rows[id].amount)
    {
      PairedMeansOnePair(t.db.ledger, s.cfg.opening, amounts, id);
    }
    forall id: nat | Mentions(t.db.ledger, id)
      ensures id < |t.db.rows|
    {
      PairedMentions(t.db.ledger, s.cfg.opening, amounts, id);
    }
  }

  /**
   * Double entry: after any run OPERATOR debits equal SETTLED_OUT credits, and the
   * operator balance is the opening snapshot minus the booked amounts.
   */
  lemma LedgerBalances(s: State, steps: seq<Step>)
    requires Init(s)
    ensures var db := Run(s, steps).db;
            && SumEntries(db.ledger, Operator, Debit) == SumEntries(db.ledger, SettledOut, Credit)
            && OperatorBalance(db.ledger) == s.cfg.opening - SumOver(Amounts(db.rows), BookedIds(db.ledger))
  {
    InitSound(s);
    RunKeepsSound(s, steps);
    var t := Run(s, steps);
    PairedBalances(t.db.ledger, s.cfg.opening, Amounts(t.db.rows));
  }
}
