/**
 * A whole poll of the listener, row by row: every settlement that is SUBMITTED or
 * CONFIRMED gets what its receipt calls for, and nothing else changes.
 */
module Polling {
  import opened Basics
  import opened Rail
  import opened Chain
  import opened Books
  import opened Services
  import opened Engine
  import opened SendSafety
  import opened Permanence
  import opened Solvency
  import opened Listener

  predicate IsOpen(row: Row) {
    row.status == Submitted || row.status == Confirmed
  }

  /** An open row whose transfer is deep, successful and where the row has it. */
  predicate ToFinalise(cfg: Config, blocks: seq<Block>, row: Row, current: nat) {
    IsOpen(row) && row.txHash.Some? && Finalisable(cfg, row, ReceiptOf(blocks, row.txHash.value), current)
  }

  /** What a poll may rely on: rows in shape, and a ledger of whole bookings. */
  predicate Pollable(cfg: Config, db: Db) {
    && ValidConfig(cfg) && Paired(db.ledger, cfg.opening, Amounts(db.rows))
    && forall i :: 0 <= i < |db.rows| ==> RowShape(db.rows[i])
  }

  /** One row before and after it had its turn. */
  predicate RowHandled(cfg: Config, blocks: seq<Block>, row: Row, next: Row, current: nat) {
    if IsOpen(row) then row.txHash.Some? && HandledReceipt(cfg, blocks, row, next, current) else next == row
  }

  predicate Ascending(ids: seq<nat>) {
    forall j, k :: 0 <= j < k < |ids| ==> ids[j] < ids[k]
  }

  function FinalisedIn(cfg: Config, blocks: seq<Block>, rows: seq<Row>, ids: seq<nat>, n: nat, current: nat): set<nat>
    requires Within(ids, |rows|) && n <= |ids|
  {
    set j: nat | j < n && ToFinalise(cfg, blocks, rows[ids[j]], current) :: ids[j]
  }

  /** The first n of the open rows have had their turn, the others are as they were. */
  predicate RowsPolled(cfg: Config, blocks: seq<Block>, rows: seq<Row>, next: seq<Row>, ids: seq<nat>, n: nat,
                       current: nat)
  {
    && Within(ids, |rows|) && n <= |ids| && |next| == |rows|
    && (forall j :: 0 <= j < n ==> RowHandled(cfg, blocks, rows[ids[j]], next[ids[j]], current))
    && (forall i :: 0 <= i < |rows| && i !in ids[..n] ==> next[i] == rows[i])
  }

  /** And exactly those of them to be finalised are booked beside the ones that were. */
  ghost predicate BooksPolled(cfg: Config, blocks: seq<Block>, db: Db, ledger: seq<Entry>, ids: seq<nat>, n: nat,
                              current: nat)
  {
    && Within(ids, |db.rows|) && n <= |ids|
    && Paired(ledger, cfg.opening, Amounts(db.rows))
    && BookedIds(ledger) == BookedIds(db.ledger) + FinalisedIn(cfg, blocks, db.rows, ids, n, current)
  }

  lemma RowsOneMore(cfg: Config, blocks: seq<Block>, rows: seq<Row>, before: seq<Row>, next: seq<Row>, ids: seq<nat>,
                    n: nat, current: nat)
    requires n < |ids| && Ascending(ids) && RowsPolled(cfg, blocks, rows, before, ids, n, current)
    requires |next| == |rows| && forall i :: 0 <= i < |rows| && i != ids[n] ==> next[i] == before[i]
    requires RowHandled(cfg, blocks, rows[ids[n]], next[ids[n]], current)
    ensures RowsPolled(cfg, blocks, rows, next, ids, n + 1, current)
  {
    assert ids[..n + 1] == ids[..n] + [ids[n]];
    forall j | 0 <= j < n + 1
      ensures RowHandled(cfg, blocks, rows[ids[j]], next[ids[j]], current)
    {
      if j < n {
        assert ids[j] < ids[n];
        assert next[ids[j]] == before[ids[j]];
      }
    }
  }

  lemma FinalisedOneMore(cfg: Config, blocks: seq<Block>, rows: seq<Row>, ids: seq<nat>, n: nat, current: nat)
    requires Within(ids, |rows|) && n < |ids|
    ensures FinalisedIn(cfg, blocks, rows, ids, n + 1, current)
            == FinalisedIn(cfg, blocks, rows, ids, n, current)
               + (if ToFinalise(cfg, blocks, rows[ids[n]], current) then {ids[n]} else {})
  {
  }

  lemma BooksOneMore(cfg: Config, blocks: seq<Block>, db: Db, ledger: seq<Entry>, next: seq<Entry>, ids: seq<nat>,
                     n: nat, current: nat)
    requires n < |ids| && BooksPolled(cfg, blocks, db, ledger, ids, n, current)
    requires next == if ToFinalise(cfg, blocks, db.rows[ids[n]], current)
                     then Booked(ledger, ids[n], Amounts(db.rows)[ids[n]]) else ledger
    ensures BooksPolled(cfg, blocks, db, next, ids, n + 1, current)
  {
    FinalisedOneMore(cfg, blocks, db.rows, ids, n, current);
    OneMoreBooked(ledger, cfg.opening, Amounts(db.rows), ids[n]);
    BookedKeepsPaired(ledger, cfg.opening, Amounts(db.rows), ids[n]);
  }

  /** One turn, from rows and ledger as the turns before left them. */
  lemma TurnHandles(cfg: Config, db: Db, before: Db, next: Db, blocks: seq<Block>, id: nat, current: nat)
    requires Pollable(cfg, db) && id < |db.rows| == |before.rows| && before.rows[id] == db.rows[id]
    requires db.rows[id].status in PENDING
    requires next == Processed(cfg, before, blocks, id, db.rows[id], current)
    ensures |next.rows| == |db.rows| && RowHandled(cfg, blocks, db.rows[id], next.rows[id], current)
    ensures forall i :: 0 <= i < |db.rows| && i != id ==> next.rows[i] == before.rows[i]
    ensures next.ledger == if ToFinalise(cfg, blocks, db.rows[id], current)
                           then Booked(before.ledger, id, Amounts(db.rows)[id]) else before.ledger
  {
    ProcessedReceipt(cfg, before, blocks, id, current);
  }

  lemma PollOneMore(cfg: Config, db: Db, before: Db, next: Db, blocks: seq<Block>, ids: seq<nat>, n: nat, current: nat)
    requires Pollable(cfg, db) && Within(ids, |db.rows|) && n < |ids| && Ascending(ids)
    requires db.rows[ids[n]].status in PENDING
    requires RowsPolled(cfg, blocks, db.rows, before.rows, ids, n, current)
    requires BooksPolled(cfg, blocks, db, before.ledger, ids, n, current)
    requires next == Processed(cfg, before, blocks, ids[n], db.rows[ids[n]], current)
    ensures RowsPolled(cfg, blocks, db.rows, next.rows, ids, n + 1, current)
    ensures BooksPolled(cfg, blocks, db, next.ledger, ids, n + 1, current)
  {
    assert ids[n] !in ids[..n];
    TurnHandles(cfg, db, before, next, blocks, ids[n], current);
    RowsOneMore(cfg, blocks, db.rows, before.rows, next.rows, ids, n, current);
    BooksOneMore(cfg, blocks, db, before.ledger, next.ledger, ids, n, current);
  }

  lemma {:induction false} PollTo(cfg: Config, db: Db, blocks: seq<Block>, ids: seq<nat>, n: nat, current: nat)
    returns (next: Db)
    requires Pollable(cfg, db) && Within(ids, |db.rows|) && n <= |ids| && Ascending(ids)
    requires forall j :: 0 <= j < |ids| ==> db.rows[ids[j]].status in PENDING
    ensures next == PolledAll(cfg, db, blocks, db.rows, ids, n, current)
    ensures RowsPolled(cfg, blocks, db.rows, next.rows, ids, n, current)
    ensures BooksPolled(cfg, blocks, db, next.ledger, ids, n, current)
    decreases n
  {
    next := PolledAll(cfg, db, blocks, db.rows, ids, n, current);
    if n > 0 {
      var before := PollTo(cfg, db, blocks, ids, n - 1, current);
      PollOneMore(cfg, db, before, next, blocks, ids, n - 1, current);
    }
  }

  /** Every open row has had its turn, and what is to be finalised is booked. */
  ghost predicate AllHandled(cfg: Config, blocks: seq<Block>, db: Db, next: Db, current: nat) {
    && |next.rows| == |db.rows|
    && (forall i :: 0 <= i < |db.rows| ==> RowHandled(cfg, blocks, db.rows[i], next.rows[i], current))
    && BookedIds(next.ledger)
       == BookedIds(db.ledger) + set i: nat | i < |db.rows| && ToFinalise(cfg, blocks, db.rows[i], current)
  }

  lemma AllPolled(cfg: Config, blocks: seq<Block>, db: Db, next: Db, ids: seq<nat>, current: nat)
    requires RowsPolled(cfg, blocks, db.rows, next.rows, ids, |ids|, current)
    requires BooksPolled(cfg, blocks, db, next.ledger, ids, |ids|, current)
    requires forall i: nat | i < |db.rows| :: i in ids <==> IsOpen(db.rows[i])
    ensures AllHandled(cfg, blocks, db, next, current)
  {
    assert ids[..|ids|] == ids;
    forall i | 0 <= i < |db.rows|
      ensures RowHandled(cfg, blocks, db.rows[i], next.rows[i], current)
      ensures ToFinalise(cfg, blocks, db.rows[i], current) ==>
                i in FinalisedIn(cfg, blocks, db.rows, ids, |ids|, current)
    {
      if i in ids {
        var j :| 0 <= j < |ids| && ids[j] == i;
      }
    }
    assert FinalisedIn(cfg, blocks, db.rows, ids, |ids|, current)
        == set i: nat | i < |db.rows| && ToFinalise(cfg, blocks, db.rows[i], current);
  }

  /** The receipts of all open rows handled with one block number. */
  lemma PolledHandlesAll(cfg: Config, db: Db, blocks: seq<Block>, current: nat)
    requires Pollable(cfg, db)
    ensures AllHandled(cfg, blocks, db, Polled(cfg, db, blocks, current), current)
  {
    var ids := Select(db.rows, PENDING);
    SelectWithin(db.rows, PENDING);
    var next := PollTo(cfg, db, blocks, ids, |ids|, current);
    AllPolled(cfg, blocks, db, next, ids, current);
  }

  /**
   * In any reachable state an uninterrupted poll finalises, fails, confirms, reverts or
   * leaves every open row as its receipt says, leaves all other rows alone, and books
   * exactly the settlements it finalises beside those already booked.
   */
  lemma PollHandlesEveryOpenRow(s: State, steps: seq<Step>, current: nat)
    requires Init(s) && Run(s, steps).proc.up && current < |Run(s, steps).node.blocks|
    ensures var t := Run(s, steps);
            var ids := Select(t.db.rows, PENDING);
            var u := Run(t, Polls(ids, |ids|) + Handles(|t.checks|, |ids|, current));
            AllHandled(t.cfg, t.node.blocks, t.db, u.db, current)
  {
    InitSound(s);
    RunKeepsSound(s, steps);
    var t := Run(s, steps);
    PollIsRun(t, current);
    PolledHandlesAll(t.cfg, t.db, t.node.blocks, current);
  }
}
