/**
 * The stuck-transaction sweep, row by row: which rows it leaves alone, which it gives
 * up, which it sends again, and what each of them looks like afterwards.
 */
module StuckSweep {
  import opened Basics
  import opened Rail
  import opened Chain
  import opened SettlementState
  import opened Services
  import opened Engine
  import opened RetryPolicy
  import opened Plans
  import opened FeePolicy

  /** Sent, not mined, and as long ago as the threshold: by its entry, else by its last update. */
  predicate IsDue(row: Row, blocks: seq<Block>, info: Option<InflightTx>, time: SweepTime, id: nat) {
    && row.status == Submitted && row.txHash.Some? && row.nonce.Some?
    && ReceiptOf(blocks, row.txHash.value).None?
    && time.now >= (if info.Some? then info.value.lastSubmittedAt else time.updatedAt(id)) + time.stuckMs
  }

  predicate IsMined(row: Row, blocks: seq<Block>) {
    row.txHash.Some? && row.nonce.Some? && ReceiptOf(blocks, row.txHash.value).Some?
  }

  /** A due row with a retry left is broadcast once, and the answer decides. */
  predicate Resent(row: Row, info: Option<InflightTx>, answer: Reply, estimate: nat, now: nat,
                   next: Row, entry: Option<InflightTx>)
    requires row.nonce.Some?
  {
    match answer
    case Took =>
      && next.txHash.Some?
      && var gas, fees := if info.Some? then info.value.gasLimit else estimate, next.txHash.value.fees;
         && next == row.(txHash := Some(Tx(row.nonce.value, row.to, row.amount, gas, fees)),
                         retryCount := row.retryCount + 1)
         && entry == Some(InflightTx(row.nonce.value, gas, fees, now, row.retryCount + 1))
    case Threw(cls) =>
      if cls.resync || cls.retryable then next == row && entry == info
      else next == row.(status := Failed, retryCount := row.retryCount + 1) && entry == None
  }

  /** A submitted row and its entry, before and after a sweep that got this answer if it asked. */
  predicate RowSwept(row: Row, blocks: seq<Block>, info: Option<InflightTx>, time: SweepTime, id: nat, maxRetries: nat,
                     answer: Reply, estimate: nat, next: Row, entry: Option<InflightTx>)
  {
    if !IsDue(row, blocks, info, time, id) then
      next == row && entry == (if IsMined(row, blocks) then None else info)
    else if row.retryCount >= maxRetries then
      next == row.(status := Failed) && entry == None
    else Resent(row, info, answer, estimate, time.now, next, entry)
  }

  predicate ToSend(s: State, inflight: map<nat, InflightTx>, time: SweepTime, i: nat) {
    && i < |s.db.rows| && IsDue(s.db.rows[i], s.node.blocks, EntryFor(inflight, i), time, i)
    && s.db.rows[i].retryCount < s.cfg.maxRetries
  }

  /** How many of the first n rows the sweep broadcasts. */
  function SendsBefore(s: State, inflight: map<nat, InflightTx>, time: SweepTime, n: nat): nat {
    if n == 0 then 0
    else SendsBefore(s, inflight, time, n - 1) + (if ToSend(s, inflight, time, n - 1) then 1 else 0)
  }

  // ---- One row --------------------------------------------------------------

  lemma SweepFailApplies(t: State, id: nat)
    requires t.cfg.final >= 1 && Stuck(t, id) && t.db.rows[id].retryCount >= t.cfg.maxRetries
    ensures Apply(t, SweepFail(id))
            == t.(db := Transitioned(t.db, id, Failed, FailWith(t.db.rows[id].retryCount)))
  {
  }

  /** What sweeping one row does to everything but the row and its entry. */
  ghost predicate RowFrame(t: State, u: State, p: Swept, q: Swept, id: nat) {
    && u == t.(db := u.db, node := u.node) && u.node.blocks == t.node.blocks
    && |u.db.rows| == |t.db.rows| && u.db.ledger == t.db.ledger
    && (forall j :: 0 <= j < |t.db.rows| && j != id ==> u.db.rows[j] == t.db.rows[j])
    && (forall j: nat :: j != id ==> EntryFor(q.inflight, j) == EntryFor(p.inflight, j))
  }

  /** What it adds to the broadcasts the node took. */
  function NewlyTaken(u: State, id: nat, sends: bool, answer: Reply): seq<Broadcast> {
    if sends && answer.Took? && id < |u.db.rows| && u.db.rows[id].txHash.Some?
    then [Broadcast(id, u.db.rows[id].txHash.value)] else []
  }

  ghost predicate RowDone(t: State, u: State, p: Swept, q: Swept, id: nat, time: SweepTime, o: Oracle)
    requires id < |t.db.rows| == |u.db.rows|
  {
    && RowFrame(t, u, p, q, id)
    && RowSwept(t.db.rows[id], t.node.blocks, EntryFor(p.inflight, id), time, id, t.cfg.maxRetries,
                o.reply(p.call), o.estimate(p.call), u.db.rows[id], EntryFor(q.inflight, id))
    && q.call == p.call + (if ToSend(t, p.inflight, time, id) then 1 else 0)
    && u.node.accepted
       == t.node.accepted + NewlyTaken(u, id, ToSend(t, p.inflight, time, id), o.reply(p.call))
  }

  lemma TookDone(t: State, p: Swept, id: nat, time: SweepTime, o: Oracle, q: Swept, u: State, gas: nat, fees: Fees)
    requires t.cfg.final >= 1 && ToSend(t, p.inflight, time, id) && t.proc.up && o.reply(p.call).Took?
    requires gas == if id in p.inflight then p.inflight[id].gasLimit else o.estimate(p.call)
    requires q.call == p.call + 1
    requires q.inflight == p.inflight[id := InflightTx(t.db.rows[id].nonce.value, gas, fees, time.now,
                                                       t.db.rows[id].retryCount + 1)]
    requires u == Apply(t, SweepResend(id, gas, fees, false))
    ensures |u.db.rows| == |t.db.rows| && RowDone(t, u, p, q, id, time, o)
  {
    SweepResendApplies(t, id, gas, fees);
  }

  lemma ThrewDone(t: State, p: Swept, id: nat, time: SweepTime, o: Oracle, q: Swept, u: State)
    requires t.cfg.final >= 1 && ToSend(t, p.inflight, time, id) && t.proc.up && o.reply(p.call).Threw?
    requires q == SweptResend(t, p, id, time, o) && u == Run(t, NewSteps(p, q))
    ensures |u.db.rows| == |t.db.rows| && RowDone(t, u, p, q, id, time, o)
  {
    RunOne(t, SweepReject(id));
    SweepRejectApplies(t, id);
  }

  lemma ResendDone(t: State, p: Swept, id: nat, time: SweepTime, o: Oracle, q: Swept, u: State)
    requires t.cfg.final >= 1 && ToSend(t, p.inflight, time, id) && t.proc.up
    requires q == SweptResend(t, p, id, time, o) && u == Run(t, NewSteps(p, q))
    ensures |u.db.rows| == |t.db.rows| && RowDone(t, u, p, q, id, time, o)
  {
    if o.reply(p.call).Took? {
      var row, info := t.db.rows[id], EntryFor(p.inflight, id);
      var fees := BumpFees(PreviousFees(row, EntryFees(info), t.node, o.market(p.call)));
      var gas := if info.Some? then info.value.gasLimit else o.estimate(p.call);
      assert NewSteps(p, q) == [SweepResend(id, gas, fees, false)];
      RunOne(t, SweepResend(id, gas, fees, false));
      TookDone(t, p, id, time, o, q, u, gas, fees);
    } else {
      ThrewDone(t, p, id, time, o, q, u);
    }
  }

  lemma RowIsSwept(t: State, p: Swept, id: nat, time: SweepTime, o: Oracle, q: Swept, u: State)
    requires t.cfg.final >= 1 && t.proc.up && id < |t.db.rows| && t.db.rows[id].status == Submitted
    requires q == SweptRow(t, p, id, time, o) && u == Run(t, NewSteps(p, q))
    ensures |u.db.rows| == |t.db.rows| && RowDone(t, u, p, q, id, time, o)
  {
    if ToSend(t, p.inflight, time, id) {
      ResendDone(t, p, id, time, o, q, u);
    } else if IsDue(t.db.rows[id], t.node.blocks, EntryFor(p.inflight, id), time, id) {
      RunOne(t, SweepFail(id));
      SweepFailApplies(t, id);
    }
  }

  // ---- The whole sweep ------------------------------------------------------

  /** Row i, submitted or not, and what has become of it and of its entry when it had its turn. */
  predicate RowTurn(s: State, inflight: map<nat, InflightTx>, i: nat, time: SweepTime, o: Oracle, call: nat,
                    next: Row, entry: Option<InflightTx>)
    requires i < |s.db.rows|
  {
    var c := call + SendsBefore(s, inflight, time, i);
    if s.db.rows[i].status == Submitted then
      RowSwept(s.db.rows[i], s.node.blocks, EntryFor(inflight, i), time, i, s.cfg.maxRetries,
               o.reply(c), o.estimate(c), next, entry)
    else next == s.db.rows[i] && entry == EntryFor(inflight, i)
  }

  /** The broadcasts the node took for the first n rows, each with the hash its row now stores. */
  function TakenFor(s: State, inflight: map<nat, InflightTx>, time: SweepTime, o: Oracle, call: nat,
                    rows: seq<Row>, n: nat): seq<Broadcast>
    requires n <= |rows|
  {
    if n == 0 then []
    else
      TakenFor(s, inflight, time, o, call, rows, n - 1)
      + (if ToSend(s, inflight, time, n - 1) && o.reply(call + SendsBefore(s, inflight, time, n - 1)).Took?
            && rows[n - 1].txHash.Some?
         then [Broadcast(n - 1, rows[n - 1].txHash.value)] else [])
  }

  lemma {:induction false} TakenForAgrees(s: State, inflight: map<nat, InflightTx>, time: SweepTime, o: Oracle,
                                          call: nat, rows: seq<Row>, next: seq<Row>, n: nat)
    requires n <= |rows| == |next| && forall i :: 0 <= i < n ==> next[i] == rows[i]
    ensures TakenFor(s, inflight, time, o, call, next, n) == TakenFor(s, inflight, time, o, call, rows, n)
  {
    if n > 0 {
      TakenForAgrees(s, inflight, time, o, call, rows, next, n - 1);
    }
  }

  /** Each of the first n rows has been swept with the answer that was its turn. */
  ghost predicate RowsSwept(s: State, t: State, inflight: map<nat, InflightTx>, after: map<nat, InflightTx>, n: nat,
                            time: SweepTime, o: Oracle, call: nat)
  {
    && n <= |s.db.rows| == |t.db.rows|
    && forall i :: 0 <= i < n ==> RowTurn(s, inflight, i, time, o, call, t.db.rows[i], EntryFor(after, i))
  }

  /** The other rows and entries are as they were. */
  ghost predicate RestLeft(s: State, t: State, inflight: map<nat, InflightTx>, after: map<nat, InflightTx>, n: nat) {
    && |s.db.rows| == |t.db.rows|
    && (forall i :: n <= i < |s.db.rows| ==> t.db.rows[i] == s.db.rows[i])
    && (forall i: nat :: n <= i ==> EntryFor(after, i) == EntryFor(inflight, i))
  }

  ghost predicate SweptTo(s: State, inflight: map<nat, InflightTx>, n: nat, time: SweepTime, o: Oracle, call: nat,
                          p: Swept, t: State)
  {
    && t == s.(db := t.db, node := t.node) && t.node.blocks == s.node.blocks && t.db.ledger == s.db.ledger
    && RowsSwept(s, t, inflight, p.inflight, n, time, o, call)
    && RestLeft(s, t, inflight, p.inflight, n)
    && p.call == call + SendsBefore(s, inflight, time, n)
    && t.node.accepted == s.node.accepted + TakenFor(s, inflight, time, o, call, t.db.rows, n)
  }

  /** Rows and entries that do not change after they are swept stay swept. */
  lemma RowsStay(s: State, t: State, u: State, inflight: map<nat, InflightTx>, before: map<nat, InflightTx>,
                 after: map<nat, InflightTx>, n: nat, time: SweepTime, o: Oracle, call: nat)
    requires RowsSwept(s, t, inflight, before, n, time, o, call) && n < |s.db.rows| == |u.db.rows|
    requires forall i :: 0 <= i < n ==> u.db.rows[i] == t.db.rows[i] && EntryFor(after, i) == EntryFor(before, i)
    requires RowTurn(s, inflight, n, time, o, call, u.db.rows[n], EntryFor(after, n))
    ensures RowsSwept(s, u, inflight, after, n + 1, time, o, call)
  {
    forall i | 0 <= i < n + 1
      ensures RowTurn(s, inflight, i, time, o, call, u.db.rows[i], EntryFor(after, i))
    {
      assert i < n ==> RowTurn(s, inflight, i, time, o, call, t.db.rows[i], EntryFor(before, i));
    }
  }

  lemma TakenNow(s: State, inflight: map<nat, InflightTx>, n: nat, time: SweepTime, o: Oracle, call: nat,
                 t: State, u: State, answer: Reply)
    requires n < |t.db.rows| == |u.db.rows| && forall i :: 0 <= i < n ==> u.db.rows[i] == t.db.rows[i]
    requires answer == o.reply(call + SendsBefore(s, inflight, time, n))
    ensures TakenFor(s, inflight, time, o, call, u.db.rows, n + 1)
            == TakenFor(s, inflight, time, o, call, t.db.rows, n)
               + NewlyTaken(u, n, ToSend(s, inflight, time, n), answer)
  {
    TakenForAgrees(s, inflight, time, o, call, t.db.rows, u.db.rows, n);
  }

  /** What the row's turn comes to does not depend on the rows before it. */
  lemma TurnFollows(s: State, inflight: map<nat, InflightTx>, n: nat, time: SweepTime, o: Oracle, call: nat,
                    p: Swept, t: State, q: Swept, u: State)
    requires n < |s.db.rows| == |t.db.rows| == |u.db.rows| && s.db.rows[n].status == Submitted
    requires t.db.rows[n] == s.db.rows[n] && t.node.blocks == s.node.blocks && t.cfg == s.cfg
    requires EntryFor(p.inflight, n) == EntryFor(inflight, n) && p.call == call + SendsBefore(s, inflight, time, n)
    requires RowDone(t, u, p, q, n, time, o)
    ensures RowTurn(s, inflight, n, time, o, call, u.db.rows[n], EntryFor(q.inflight, n))
    ensures ToSend(t, p.inflight, time, n) == ToSend(s, inflight, time, n)
  {
  }

  lemma RestStays(s: State, inflight: map<nat, InflightTx>, n: nat, p: Swept, t: State, q: Swept, u: State)
    requires n < |s.db.rows| && RestLeft(s, t, inflight, p.inflight, n) && |u.db.rows| == |t.db.rows|
    requires RowFrame(t, u, p, q, n)
    ensures RestLeft(s, u, inflight, q.inflight, n + 1)
    ensures forall i :: 0 <= i < n ==> u.db.rows[i] == t.db.rows[i]
    ensures forall i :: 0 <= i < n ==> EntryFor(q.inflight, i) == EntryFor(p.inflight, i)
  {
  }

  lemma NextRow(s: State, inflight: map<nat, InflightTx>, n: nat, time: SweepTime, o: Oracle, call: nat,
                p: Swept, t: State, q: Swept, u: State)
    requires n < |s.db.rows| && SweptTo(s, inflight, n, time, o, call, p, t)
    requires |u.db.rows| == |t.db.rows| && s.db.rows[n].status == Submitted && RowDone(t, u, p, q, n, time, o)
    ensures SweptTo(s, inflight, n + 1, time, o, call, q, u)
  {
    TurnFollows(s, inflight, n, time, o, call, p, t, q, u);
    RestStays(s, inflight, n, p, t, q, u);
    RowsStay(s, t, u, inflight, p.inflight, q.inflight, n, time, o, call);
    TakenNow(s, inflight, n, time, o, call, t, u, o.reply(p.call));
  }

  lemma SkippedRow(s: State, inflight: map<nat, InflightTx>, n: nat, time: SweepTime, o: Oracle, call: nat,
                   p: Swept, t: State)
    requires n < |s.db.rows| && SweptTo(s, inflight, n, time, o, call, p, t)
    requires s.db.rows[n].status != Submitted
    ensures SweptTo(s, inflight, n + 1, time, o, call, p, t)
  {
    assert !ToSend(s, inflight, time, n);
    RowsStay(s, t, t, inflight, p.inflight, p.inflight, n, time, o, call);
    TakenNow(s, inflight, n, time, o, call, t, t, o.reply(p.call));
  }

  lemma SelectSnoc(rows: seq<Row>, n: nat, statuses: set<Status>)
    requires n < |rows|
    ensures Select(rows[..n + 1], statuses)
            == Select(rows[..n], statuses) + (if rows[n].status in statuses then [n] else [])
  {
    assert rows[..n + 1][..n] == rows[..n];
  }

  /** One more submitted row. */
  lemma SweepOne(s: State, inflight: map<nat, InflightTx>, n: nat, time: SweepTime, o: Oracle, call: nat,
                 p: Swept, t: State, q: Swept)
    requires s.cfg.final >= 1 && s.proc.up && n < |s.db.rows| && s.db.rows[n].status == Submitted
    requires SweptTo(s, inflight, n, time, o, call, p, t) && t == Run(s, p.steps)
    requires q == SweptRow(t, p, n, time, o)
    ensures SweptTo(s, inflight, n + 1, time, o, call, q, Run(s, q.steps))
  {
    SweptAppends(t, p, n, time, o);
    RunConcat(s, p.steps, NewSteps(p, q));
    var u := Run(t, NewSteps(p, q));
    RowIsSwept(t, p, n, time, o, q, u);
    NextRow(s, inflight, n, time, o, call, p, t, q, u);
  }

  /** The sweep as it stands before row n. */
  function PlanTo(s: State, inflight: map<nat, InflightTx>, n: nat, time: SweepTime, o: Oracle, call: nat): Swept
    requires s.cfg.final >= 1 && n <= |s.db.rows|
  {
    SweepPlan(s, inflight, Select(s.db.rows[..n], {Submitted}), time, o, call)
  }

  lemma PlanToNext(s: State, inflight: map<nat, InflightTx>, n: nat, time: SweepTime, o: Oracle, call: nat,
                   p: Swept, t: State)
    requires s.cfg.final >= 1 && n < |s.db.rows| && p == PlanTo(s, inflight, n, time, o, call) && t == Run(s, p.steps)
    requires |t.db.rows| == |s.db.rows|
    ensures PlanTo(s, inflight, n + 1, time, o, call)
            == if s.db.rows[n].status == Submitted then SweptRow(t, p, n, time, o) else p
  {
    SelectSnoc(s.db.rows, n, {Submitted});
    var ids := Select(s.db.rows[..n], {Submitted});
    if s.db.rows[n].status == Submitted {
      SweepPlanSnoc(s, inflight, ids, n, time, o, call, p);
    } else {
      assert Select(s.db.rows[..n + 1], {Submitted}) == ids;
    }
  }

  lemma {:induction false} SweepTo(s: State, inflight: map<nat, InflightTx>, n: nat, time: SweepTime, o: Oracle,
                                   call: nat, p: Swept, t: State)
    requires s.cfg.final >= 1 && s.proc.up && n <= |s.db.rows|
    requires p == PlanTo(s, inflight, n, time, o, call) && t == Run(s, p.steps)
    ensures SweptTo(s, inflight, n, time, o, call, p, t)
    decreases n
  {
    if n == 0 {
      NothingSwept(s, inflight, time, o, call);
    } else {
      var before := PlanTo(s, inflight, n - 1, time, o, call);
      var earlier := Run(s, before.steps);
      SweepTo(s, inflight, n - 1, time, o, call, before, earlier);
      PlanToNext(s, inflight, n - 1, time, o, call, before, earlier);
      if s.db.rows[n - 1].status == Submitted {
        SweepOne(s, inflight, n - 1, time, o, call, before, earlier, p);
      } else {
        SkippedRow(s, inflight, n - 1, time, o, call, before, earlier);
      }
    }
  }

  lemma NothingSwept(s: State, inflight: map<nat, InflightTx>, time: SweepTime, o: Oracle, call: nat)
    requires s.cfg.final >= 1
    ensures SweptTo(s, inflight, 0, time, o, call, Swept([], call, inflight), Run(s, []))
  {
  }

  /**
   * A whole sweep, row by row: a submitted row that is due is failed if it has used up
   * its retries and is otherwise broadcast exactly once, under its own nonce, with what
   * the answer says coming of it; every other row is left as it is, and only a mined
   * one loses its entry.
   */
  lemma SweepHandlesDueRows(s: State, inflight: map<nat, InflightTx>, time: SweepTime, o: Oracle, call: nat)
    requires s.cfg.final >= 1 && s.proc.up
    ensures var p := SweepPlan(s, inflight, Select(s.db.rows, {Submitted}), time, o, call);
            SweptTo(s, inflight, |s.db.rows|, time, o, call, p, Run(s, p.steps))
  {
    assert s.db.rows[..|s.db.rows|] == s.db.rows;
    var p := SweepPlan(s, inflight, Select(s.db.rows, {Submitted}), time, o, call);
    SweepTo(s, inflight, |s.db.rows|, time, o, call, p, Run(s, p.steps));
  }
}
