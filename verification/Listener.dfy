/**
 * The chain listener as the source writes it, and what handling one receipt
 * without interruption amounts to.
 */
module Listener {
  import opened Basics
  import opened Rail
  import opened Chain
  import opened SettlementState
  import opened Books
  import opened Services
  import opened Engine
  import opened SendSafety
  import opened Plans
  import opened Relayer

  /** What a decision does to the database in the end. */
  function Enacted(db: Db, id: nat, row: Row, stage: Stage): Db
    requires id < |db.rows|
  {
    match stage
    case ToFail => Transitioned(db, id, Failed, FailOpts())
    case ToRevert => Transitioned(db, id, Submitted, RevertOpts())
    case ToConfirm(block) => Transitioned(db, id, Confirmed, ConfirmOpts(row, block))
    case ToBook =>
      Transitioned(db.(ledger := Booked(db.ledger, id, row.amount)), id, Final, FinalOpts(row))
    case _ => db
  }

  /** The database after one receipt has been handled from start to end. */
  function Processed(cfg: Config, db: Db, blocks: seq<Block>, id: nat, row: Row, current: nat): Db
    requires id < |db.rows|
  {
    if row.txHash.None? then db
    else Enacted(db, id, row, Decide(cfg, row, ReceiptOf(blocks, row.txHash.value), current))
  }

  /** Deep enough, successful, and in the block recorded at CONFIRMED, if one was. */
  predicate Finalisable(cfg: Config, row: Row, receipt: Option<Receipt>, current: nat) {
    && receipt.Some? && receipt.value.ok
    && (row.confirmedBlock.Some? ==> row.confirmedBlock.value.hash == receipt.value.blockHash)
    && current as int - receipt.value.number as int + 1 >= cfg.final
  }

  /** Recorded in a block that the chain no longer has the transaction in. */
  predicate ReorgedAway(row: Row, receipt: Option<Receipt>) {
    && row.confirmedBlock.Some?
    && (receipt.None? || (receipt.value.ok && receipt.value.blockHash != row.confirmedBlock.value.hash))
  }

  /** Successful, not where the row recorded it elsewhere, but not deep enough to finalise. */
  predicate Confirmable(cfg: Config, row: Row, receipt: Option<Receipt>, current: nat) {
    && receipt.Some? && receipt.value.ok
    && !ReorgedAway(row, receipt)
    && cfg.confirmed <= current as int - receipt.value.number as int + 1 < cfg.final
  }

  /** What handling the receipt of an open row leaves in it, case by case. */
  predicate HandledReceipt(cfg: Config, blocks: seq<Block>, row: Row, next: Row, current: nat)
    requires row.txHash.Some?
  {
    var receipt := ReceiptOf(blocks, row.txHash.value);
    && (next.status == Final <==> Finalisable(cfg, row, receipt, current))
    && (next.status == Failed <==> receipt.Some? && !receipt.value.ok)
    && (row.status == Confirmed ==> (next.status == Submitted <==> ReorgedAway(row, receipt)))
    && (row.status == Submitted ==> (next.status == Confirmed <==> Confirmable(cfg, row, receipt, current)))
    && next.status in {Submitted, Confirmed, Final, Failed}
    && (next.status == Submitted ==> next.confirmedBlock.None?)
    && (next.status == Confirmed && row.status == Submitted ==>
          next.confirmedBlock == Some(BlockRef(receipt.value.blockHash, receipt.value.number)))
    && (next.status == row.status ==> next == row)
    && next == row.(status := next.status, confirmedBlock := next.confirmedBlock)
  }

  /** Handling a receipt books exactly a transfer that is finalised, and touches no other row. */
  predicate BooksReceipt(cfg: Config, blocks: seq<Block>, db: Db, next: Db, id: nat, current: nat)
    requires id < |db.rows| && db.rows[id].txHash.Some?
  {
    var receipt := ReceiptOf(blocks, db.rows[id].txHash.value);
    && next.ledger == (if Finalisable(cfg, db.rows[id], receipt, current)
                       then Booked(db.ledger, id, db.rows[id].amount) else db.ledger)
    && |next.rows| == |db.rows| && (forall i :: 0 <= i < |db.rows| && i != id ==> next.rows[i] == db.rows[i])
  }

  lemma ProcessedReceipt(cfg: Config, db: Db, blocks: seq<Block>, id: nat, current: nat)
    requires ValidConfig(cfg) && id < |db.rows|
    requires RowShape(db.rows[id]) && db.rows[id].status in PENDING
    ensures HandledReceipt(cfg, blocks, db.rows[id],
                           Processed(cfg, db, blocks, id, db.rows[id], current).rows[id], current)
    ensures BooksReceipt(cfg, blocks, db, Processed(cfg, db, blocks, id, db.rows[id], current), id, current)
  {
  }

  // ---- As engine steps ------------------------------------------------------

  function Handle(k: nat, current: nat): seq<Step> {
    [Read(k, current), Act(k), Act(k)]
  }

  /** What the handler decides once it has the receipt. */
  function Decision(s: State, c: Check, current: nat): Stage {
    if c.row.txHash.None? then Closed
    else Decide(s.cfg, c.row, ReceiptOf(s.node.blocks, c.row.txHash.value), current)
  }

  /** Acting twice on any decision but booking changes the database once. */
  lemma ActTwice(s: State, k: nat)
    requires s.proc.up && k < |s.checks| && s.checks[k].id < |s.db.rows|
    requires !s.checks[k].stage.Loaded? && !s.checks[k].stage.ToFlip?
    ensures var c := s.checks[k];
            DoAct(DoAct(s, k), k)
            == s.(db := Enacted(s.db, c.id, c.row, c.stage), checks := s.checks[k := c.(stage := Closed)])
  {
    var c := s.checks[k];
    assert c.stage.Closed? ==> s.checks[k := c.(stage := Closed)] == s.checks;
  }

  lemma ReadActAct(s: State, k: nat, current: nat)
    requires s.proc.up && k < |s.checks| && current < |s.node.blocks|
    requires s.checks[k].stage.Loaded? && s.checks[k].id < |s.db.rows|
    ensures var c := s.checks[k];
            DoAct(DoAct(DoRead(s, k, current), k), k)
            == s.(db := Enacted(s.db, c.id, c.row, Decision(s, c, current)),
                  checks := s.checks[k := c.(stage := Closed)])
  {
    var c, stage := s.checks[k], Decision(s, s.checks[k], current);
    var t := s.(checks := s.checks[k := c.(stage := stage)]);
    ReadDecides(s, k, current);
    ActTwice(t, k);
    assert t.checks[k := c.(stage := Closed)] == s.checks[k := c.(stage := Closed)];
  }

  /** Reading, acting, and acting again if it booked, is handling the receipt. */
  lemma HandleRun(s: State, k: nat, current: nat)
    requires s.cfg.final >= 1 && s.proc.up && k < |s.checks| && current < |s.node.blocks|
    requires s.checks[k].stage.Loaded? && s.checks[k].id < |s.db.rows|
    ensures var c := s.checks[k];
            Run(s, Handle(k, current))
            == s.(db := Processed(s.cfg, s.db, s.node.blocks, c.id, c.row, current),
                  checks := s.checks[k := c.(stage := Closed)])
  {
    RunThree(s, Read(k, current), Act(k), Act(k));
    ReadActAct(s, k, current);
  }

  lemma ReadDecides(s: State, k: nat, current: nat)
    requires s.proc.up && k < |s.checks| && current < |s.node.blocks| && s.checks[k].stage.Loaded?
    ensures DoRead(s, k, current)
            == s.(checks := s.checks[k := s.checks[k].(stage := Decision(s, s.checks[k], current))])
  {
  }

  /**
   * Reorg bookkeeping over every run: an open settlement has a hash and a nonce, its
   * block is recorded exactly when it is CONFIRMED rather than SUBMITTED, and a nonce,
   * once set, is never changed by whatever happens later.
   */
  lemma OpenRowsAreTracked(s: State, before: seq<Step>, after: seq<Step>, id: nat)
    requires Init(s) && id < |Run(s, before).db.rows|
    ensures var row := Run(s, before).db.rows[id];
            row.status in PENDING ==>
              && row.txHash.Some? && row.nonce.Some? && row.txHash.value.nonce == row.nonce.value
              && (row.confirmedBlock.Some? <==> row.status == Confirmed)
    ensures id < |Run(s, before + after).db.rows|
    ensures var row := Run(s, before).db.rows[id];
            row.nonce.Some? ==> Run(s, before + after).db.rows[id].nonce == row.nonce
  {
    InitSafe(s);
    RunKeepsSafe(s, before);
    RunConcat(s, before, after);
    RunExtends(Run(s, before), after);
    HashHasRowNonce(Run(s, before), id);
  }

  /**
   * In any reachable state, a receipt handled without interruption finalises its
   * settlement exactly when the transfer is deep, successful and in the recorded
   * block, fails it exactly when it reverted, and returns a CONFIRMED one to SUBMITTED
   * exactly when the recorded block no longer holds it.
   */
  lemma AtomicReceipt(s: State, steps: seq<Step>, k: nat, current: nat)
    requires Init(s)
    requires var t := Run(s, steps);
             && t.proc.up && k < |t.checks| && t.checks[k].stage.Loaded? && current < |t.node.blocks|
             && t.checks[k].id < |t.db.rows|
             && t.checks[k].row == t.db.rows[t.checks[k].id]
    ensures var t := Run(s, steps);
            var c := t.checks[k];
            var u := Run(t, Handle(k, current));
            c.row.status in PENDING ==>
              && c.row.txHash.Some? && c.id < |u.db.rows|
              && HandledReceipt(t.cfg, t.node.blocks, c.row, u.db.rows[c.id], current)
  {
    InitSafe(s);
    RunKeepsSafe(s, steps);
    var t := Run(s, steps);
    var id := t.checks[k].id;
    HashHasRowNonce(t, id);
    HandleRun(t, k, current);
    if t.db.rows[id].status in PENDING {
      ProcessedReceipt(t.cfg, t.db, t.node.blocks, id, current);
    }
  }

  predicate Within(ids: seq<nat>, n: nat) {
    forall j :: 0 <= j < |ids| ==> ids[j] < n
  }

  /** The first n open rows of a snapshot, handled in turn with one block number. */
  function PolledAll(
      cfg: Config, db: Db, blocks: seq<Block>, snapshot: seq<Row>, ids: seq<nat>, n: nat, current: nat): (r: Db)
    requires |db.rows| == |snapshot| && Within(ids, |snapshot|) && n <= |ids|
    ensures |r.rows| == |snapshot|
  {
    if n == 0 then db
    else
      Processed(cfg, PolledAll(cfg, db, blocks, snapshot, ids, n - 1, current), blocks,
                ids[n - 1], snapshot[ids[n - 1]], current)
  }

  /** Every open row handled with the block number read once, the rows as they were first read. */
  function Polled(cfg: Config, db: Db, blocks: seq<Block>, current: nat): Db {
    var ids := Select(db.rows, PENDING);
    SelectWithin(db.rows, PENDING);
    PolledAll(cfg, db, blocks, db.rows, ids, |ids|, current)
  }

  lemma SelectWithin(rows: seq<Row>, statuses: set<Status>)
    ensures Within(Select(rows, statuses), |rows|)
    ensures forall j :: 0 <= j < |Select(rows, statuses)| ==> rows[Select(rows, statuses)[j]].status in statuses
  {
    var ids := Select(rows, statuses);
    forall j | 0 <= j < |ids|
      ensures ids[j] < |rows| && rows[ids[j]].status in statuses
    {
      assert ids[j] in ids;
    }
  }

  function Polls(ids: seq<nat>, n: nat): seq<Step>
    requires n <= |ids|
  {
    if n == 0 then [] else Polls(ids, n - 1) + [Poll(ids[n - 1])]
  }

  function Handles(first: nat, n: nat, current: nat): seq<Step> {
    if n == 0 then [] else Handles(first, n - 1, current) + Handle(first + n - 1, current)
  }

  function Loads(rows: seq<Row>, ids: seq<nat>, n: nat): (r: seq<Check>)
    requires Within(ids, |rows|) && n <= |ids|
    ensures |r| == n
    ensures forall j :: 0 <= j < n ==> r[j] == Check(ids[j], rows[ids[j]], Loaded)
  {
    if n == 0 then [] else Loads(rows, ids, n - 1) + [Check(ids[n - 1], rows[ids[n - 1]], Loaded)]
  }

  lemma PollOne(s: State, loaded: seq<Check>, id: nat)
    requires s.cfg.final >= 1 && s.proc.up && id < |s.db.rows| && s.db.rows[id].status in PENDING
    ensures Apply(s.(checks := s.checks + loaded), Poll(id))
            == s.(checks := s.checks + (loaded + [Check(id, s.db.rows[id], Loaded)]))
  {
    var c := Check(id, s.db.rows[id], Loaded);
    assert s.checks + loaded + [c] == s.checks + (loaded + [c]);
  }

  /** Loading the open rows one by one. */
  lemma {:induction false} PollsRun(s: State, ids: seq<nat>, n: nat)
    requires s.cfg.final >= 1 && s.proc.up && n <= |ids| && Within(ids, |s.db.rows|)
    requires forall j :: 0 <= j < |ids| ==> s.db.rows[ids[j]].status in PENDING
    ensures Run(s, Polls(ids, n)) == s.(checks := s.checks + Loads(s.db.rows, ids, n))
  {
    if n == 0 {
      assert s.checks + Loads(s.db.rows, ids, 0) == s.checks;
    } else {
      PollsRun(s, ids, n - 1);
      RunConcat(s, Polls(ids, n - 1), [Poll(ids[n - 1])]);
      RunOne(Run(s, Polls(ids, n - 1)), Poll(ids[n - 1]));
      PollOne(s, Loads(s.db.rows, ids, n - 1), ids[n - 1]);
    }
  }

  /** Check number `first + j` is still as loaded, from the n-th on. */
  predicate StillLoaded(checks: seq<Check>, first: nat, snapshot: seq<Row>, ids: seq<nat>, n: nat) {
    && Within(ids, |snapshot|)
    && first + |ids| <= |checks|
    && forall j :: first + n <= j < first + |ids| ==>
         checks[j] == Check(ids[j - first], snapshot[ids[j - first]], Loaded)
  }

  /** Handling the first n loaded checks, one after the other. */
  lemma {:induction false} HandlesRun(s: State, first: nat, snapshot: seq<Row>, ids: seq<nat>, n: nat, current: nat)
    requires s.cfg.final >= 1 && s.proc.up && current < |s.node.blocks|
    requires |snapshot| == |s.db.rows| && n <= |ids|
    requires StillLoaded(s.checks, first, snapshot, ids, 0)
    ensures var t := Run(s, Handles(first, n, current));
            && t == s.(db := PolledAll(s.cfg, s.db, s.node.blocks, snapshot, ids, n, current), checks := t.checks)
            && StillLoaded(t.checks, first, snapshot, ids, n)
  {
    if n > 0 {
      HandlesRun(s, first, snapshot, ids, n - 1, current);
      RunConcat(s, Handles(first, n - 1, current), Handle(first + n - 1, current));
      HandleNext(Run(s, Handles(first, n - 1, current)), first, snapshot, ids, n, current);
    }
  }

  lemma HandleNext(t: State, first: nat, snapshot: seq<Row>, ids: seq<nat>, n: nat, current: nat)
    requires t.cfg.final >= 1 && t.proc.up && current < |t.node.blocks|
    requires |snapshot| == |t.db.rows| && 0 < n <= |ids|
    requires StillLoaded(t.checks, first, snapshot, ids, n - 1)
    ensures var u := Run(t, Handle(first + n - 1, current));
            && u == t.(db := Processed(t.cfg, t.db, t.node.blocks, ids[n - 1], snapshot[ids[n - 1]], current),
                       checks := u.checks)
            && StillLoaded(u.checks, first, snapshot, ids, n)
  {
    assert t.checks[first + n - 1] == Check(ids[n - 1], snapshot[ids[n - 1]], Loaded);
    HandleRun(t, first + n - 1, current);
  }

  /** A whole poll is a run of the engine: load every open row, then handle each. */
  lemma PollIsRun(s: State, current: nat)
    requires s.cfg.final >= 1 && s.proc.up && current < |s.node.blocks|
    ensures var ids := Select(s.db.rows, PENDING);
            Run(s, Polls(ids, |ids|) + Handles(|s.checks|, |ids|, current)).db
            == Polled(s.cfg, s.db, s.node.blocks, current)
  {
    var ids := Select(s.db.rows, PENDING);
    SelectWithin(s.db.rows, PENDING);
    var loads := Loads(s.db.rows, ids, |ids|);
    RunConcat(s, Polls(ids, |ids|), Handles(|s.checks|, |ids|, current));
    PollsRun(s, ids, |ids|);
    LoadedAfter(s.checks, s.db.rows, ids);
    HandlesRun(s.(checks := s.checks + loads), |s.checks|, s.db.rows, ids, |ids|, current);
  }

  lemma LoadedAfter(checks: seq<Check>, rows: seq<Row>, ids: seq<nat>)
    requires Within(ids, |rows|)
    ensures StillLoaded(checks + Loads(rows, ids, |ids|), |checks|, rows, ids, 0)
  {
  }

  /** The first row that stores this hash. */
  function FindByTxHash(rows: seq<Row>, tx: Tx): (r: Option<nat>)
    ensures r.Some? ==> r.value < |rows| && rows[r.value].txHash == Some(tx)
    ensures r.Some? ==> forall i :: 0 <= i < r.value ==> rows[i].txHash != Some(tx)
    ensures r.None? ==> forall i :: 0 <= i < |rows| ==> rows[i].txHash != Some(tx)
  {
    if |rows| == 0 then None
    else
      var earlier := FindByTxHash(rows[..|rows| - 1], tx);
      if earlier.Some? then earlier
      else if rows[|rows| - 1].txHash == Some(tx) then Some(|rows| - 1) else None
  }

  class ChainListenerService {
    const cfg: Config
    const state: SettlementStateService
    const ledger: LedgerService
    const chain: Ethereum
    var polling: bool

    constructor (cfg: Config, state: SettlementStateService, ledger: LedgerService, chain: Ethereum)
      ensures this.cfg == cfg && this.state == state && this.ledger == ledger && this.chain == chain && !polling
    {
      this.cfg, this.state, this.ledger, this.chain, polling := cfg, state, ledger, chain, false;
    }

    method HandleReorg(id: nat)
      requires id < |state.db.rows|
      modifies state.db
      ensures state.db.View() == Transitioned(old(state.db.View()), id, Submitted, RevertOpts())
    {
      var _ := state.Transition(id, Submitted, RevertOpts());
    }

    /** Books first, then flips. */
    method Finalize(id: nat, row: Row)
      requires ledger.db == state.db && id < |state.db.rows|
      modifies state.db
      ensures var db := old(state.db.View());
              state.db.View()
              == Transitioned(db.(ledger := Booked(db.ledger, id, row.amount)), id, Final, FinalOpts(row))
    {
      var _ := ledger.RecordSettlementFinalized(id, row.amount);
      var _ := state.Transition(id, Final, FinalOpts(row));
    }

    method ProcessReceipt(id: nat, row: Row, current: nat)
      requires ledger.db == state.db && id < |state.db.rows|
      modifies state.db
      ensures state.db.View() == Processed(cfg, old(state.db.View()), chain.node.blocks, id, row, current)
    {
      if row.txHash.None? {
        return;
      }
      var receipt := chain.GetReceipt(row.txHash.value);
      if receipt.None? {
        if row.confirmedBlock.Some? {
          HandleReorg(id);
        }
        return;
      }
      var r := receipt.value;
      if !r.ok {
        var _ := state.Transition(id, Failed, FailOpts());
        return;
      }
      if row.confirmedBlock.Some? && row.confirmedBlock.value.hash != r.blockHash {
        HandleReorg(id);
        return;
      }
      var confirmations := current as int - r.number as int + 1;
      if confirmations >= cfg.final {
        Finalize(id, row);
      } else if confirmations >= cfg.confirmed && row.status == Submitted {
        var _ := state.Transition(id, Confirmed, ConfirmOpts(row, BlockRef(r.blockHash, r.number)));
      }
    }

    /** The poll's loop: each open row as it was read, with the block number read before it. */
    method ProcessOpen(open: seq<nat>, snapshot: seq<Row>, currentBlock: nat)
      requires ledger.db == state.db && snapshot == state.db.rows && Within(open, |snapshot|)
      modifies state.db
      ensures state.db.View()
              == PolledAll(cfg, old(state.db.View()), chain.node.blocks, snapshot, open, |open|, currentBlock)
    {
      for k := 0 to |open|
        invariant state.db.View()
                  == PolledAll(cfg, old(state.db.View()), chain.node.blocks, snapshot, open, k, currentBlock)
      {
        ProcessReceipt(open[k], snapshot[open[k]], currentBlock);
      }
    }

    /** Reads the open rows, then the block number once, then handles each row. */
    method PollConfirmations()
      requires ledger.db == state.db && |chain.node.blocks| >= 1
      modifies state.db, this`polling
      ensures polling == old(polling)
      ensures old(polling) ==> state.db.View() == old(state.db.View())
      ensures !old(polling) ==>
                state.db.View() == Polled(cfg, old(state.db.View()), chain.node.blocks, |chain.node.blocks| - 1)
    {
      if polling {
        return;
      }
      polling := true;
      var open := state.FindByStatuses(PENDING);
      SelectWithin(state.db.rows, PENDING);
      ProcessOpen(open, state.db.rows, |chain.node.blocks| - 1);
      polling := false;
    }

    /** A Transfer event: the row storing that hash is handled at once, if it is open. */
    method ProcessByTxHash(txHash: Tx)
      requires ledger.db == state.db && |chain.node.blocks| >= 1
      modifies state.db
      ensures var db := old(state.db.View());
              var found := FindByTxHash(db.rows, txHash);
              state.db.View()
              == if found.None? || db.rows[found.value].status !in PENDING then db
                 else Processed(cfg, db, chain.node.blocks, found.value, db.rows[found.value], |chain.node.blocks| - 1)
    {
      var found := FindByTxHash(state.db.rows, txHash);
      if found.None? {
        return;
      }
      var row := state.db.rows[found.value];
      if row.status != Submitted && row.status != Confirmed {
        return;
      }
      ProcessReceipt(found.value, row, |chain.node.blocks| - 1);
    }
  }
}
