/** The database and the two services that write it, updating their tables in place. */
module Services {
  import opened Basics
  import opened Sums
  import opened Rail
  import opened SettlementState
  import opened Books

  /** The FINAL pseudo-settlement that anchors the snapshot: it pays the operator itself. */
  datatype GenesisRow = GenesisRow(to: Address, amount: nat)

  class Database {
    var genesis: Option<GenesisRow>
    var rows: seq<Row>
    var trail: seq<Audit>
    var outbox: seq<Event>
    var ledger: seq<Entry>

    constructor ()
      ensures View() == Db([], [], [], []) && genesis == None
    {
      genesis := None;
      rows, trail, outbox, ledger := [], [], [], [];
    }

    function View(): Db
      reads this
    {
      Db(rows, trail, outbox, ledger)
    }
  }

  datatype TransitionResult = NotFound | Skipped | Moved(row: Row)

  class SettlementStateService {
    const db: Database

    constructor (db: Database)
      ensures this.db == db
    {
      this.db := db;
    }

    /** Inserts a RECEIVED row; None is the unique-constraint violation. */
    method Create(instruction: InstructionId, to: Address, amount: nat) returns (id: Option<nat>)
      modifies db
      ensures id == if FindInstruction(old(db.rows), instruction).Some? then None else Some(|old(db.rows)|)
      ensures db.View() == if id.None? then old(db.View())
                           else old(db.View()).(rows := old(db.rows) + [NewRow(instruction, to, amount)])
    {
      if FindInstruction(db.rows, instruction).Some? {
        return None;
      }
      id := Some(|db.rows|);
      db.rows := db.rows + [NewRow(instruction, to, amount)];
    }

    /**
     * Updates the row, appends its audit row and, where the status is emitted, its
     * event: all three or, when the guard rejects, none. Skipped is the null result.
     */
    method Transition(id: nat, to: Status, o: Opts) returns (r: TransitionResult)
      modifies db
      ensures id >= |old(db.rows)| ==> r == NotFound && db.View() == old(db.View())
      ensures id < |old(db.rows)| ==>
                && db.View() == Transitioned(old(db.View()), id, to, o)
                && (r.Skipped? <==> !Allowed(old(db.rows)[id].status, o))
                && (r.Moved? <==> Allowed(old(db.rows)[id].status, o))
                && (r.Moved? ==> r.row == db.rows[id])
                && (r.Moved? && (o.txHash.Set? ==> o.txHash.value.Some?) ==>
                      db.trail == old(db.trail) + [Audit(id, old(db.rows)[id].status, to, r.row.txHash)])
                && |db.outbox| == |old(db.outbox)|
                                  + (if r.Moved? && to in {Submitted, Confirmed, Final, Failed} then 1 else 0)
    {
      if id >= |db.rows| {
        return NotFound;
      }
      var current := db.rows[id];
      if o.expectedFrom.Some? && current.status !in o.expectedFrom.value {
        return Skipped;
      }
      var next := current.(status := to);
      if o.txHash.Set? { next := next.(txHash := o.txHash.value); }
      if o.nonce.Set? { next := next.(nonce := o.nonce.value); }
      if o.retryCount.Set? { next := next.(retryCount := o.retryCount.value); }
      if o.confirmedBlock.Set? { next := next.(confirmedBlock := o.confirmedBlock.value); }
      assert next == PatchedRow(current, to, o);
      db.rows := db.rows[id := next];
      db.trail := db.trail + [Audit(id, current.status, to, AuditHash(current, o))];
      if Emits(to) {
        db.outbox := db.outbox + [EventOf(id, next)];
      }
      r := Moved(next);
    }

    method RecordResend(id: nat, txHash: Tx, retryCount: nat)
      requires id < |db.rows|
      modifies db
      ensures db.View() == Resent(old(db.View()), id, txHash, retryCount)
    {
      db.rows := db.rows[id := db.rows[id].(txHash := Some(txHash), retryCount := retryCount)];
    }

    /** The ids of the rows in these statuses, oldest first. */
    function FindByStatuses(statuses: set<Status>): (ids: seq<nat>)
      reads db
      ensures forall i :: i in ids <==> 0 <= i < |db.rows| && db.rows[i].status in statuses
      ensures forall j, k :: 0 <= j < k < |ids| ==> ids[j] < ids[k]
    {
      Select(db.rows, statuses)
    }

    function SumByStatuses(statuses: set<Status>): nat
      reads db
    {
      SumOver(Amounts(db.rows), WithStatus(db.rows, statuses))
    }
  }

  function Select(rows: seq<Row>, statuses: set<Status>): (ids: seq<nat>)
    ensures forall i :: i in ids <==> 0 <= i < |rows| && rows[i].status in statuses
    ensures forall j, k :: 0 <= j < k < |ids| ==> ids[j] < ids[k]
  {
    if |rows| == 0 then []
    else
      var init := Select(rows[..|rows| - 1], statuses);
      assert forall k :: 0 <= k < |init| ==> init[k] in init;
      if rows[|rows| - 1].status in statuses then init + [|rows| - 1] else init
  }

  predicate HasSnapshot(ledger: seq<Entry>) {
    exists e :: e in ledger && e.account == Genesis
  }

  lemma {:induction false} SnapshotIsOpening(ledger: seq<Entry>, amount: nat)
    requires !HasSnapshot(ledger)
    ensures Opening(ledger) == 0
    ensures Opening(ledger + [Entry(None, Genesis, Credit, amount)]) == amount
  {
    if |ledger| > 0 {
      assert ledger[0] in ledger;
      forall e | e in ledger[1..]
        ensures e in ledger
      {
      }
      SnapshotIsOpening(ledger[1..], amount);
      assert (ledger + [Entry(None, Genesis, Credit, amount)])[1..]
          == ledger[1..] + [Entry(None, Genesis, Credit, amount)];
    }
  }

  lemma {:induction false} OpeningStays(ledger: seq<Entry>, more: seq<Entry>)
    requires HasSnapshot(ledger)
    ensures Opening(ledger + more) == Opening(ledger)
  {
    assert (ledger + more)[0] == ledger[0];
    if ledger[0].account != Genesis {
      var e :| e in ledger && e.account == Genesis;
      assert e in ledger[1..];
      OpeningStays(ledger[1..], more);
      assert (ledger + more)[1..] == ledger[1..] + more;
    }
  }

  class LedgerService {
    const db: Database

    constructor (db: Database)
      ensures this.db == db
    {
      this.db := db;
    }

    /**
     * First boot records the balance, and the pseudo-settlement it hangs off unless that
     * is already there; every later boot finds the snapshot and does nothing.
     */
    method EnsureOpeningSnapshot(operator: Address, chainBalance: nat)
      modifies db`ledger, db`genesis
      ensures HasSnapshot(db.ledger)
      ensures HasSnapshot(old(db.ledger)) ==> db.ledger == old(db.ledger) && db.genesis == old(db.genesis)
      ensures !HasSnapshot(old(db.ledger)) ==>
                && db.ledger == old(db.ledger) + [Entry(None, Genesis, Credit, chainBalance)]
                && Opening(db.ledger) == chainBalance
                && db.genesis == if old(db.genesis).Some? then old(db.genesis)
                                 else Some(GenesisRow(operator, chainBalance))
    {
      if HasSnapshot(db.ledger) {
        return;
      }
      SnapshotIsOpening(db.ledger, chainBalance);
      if db.genesis.None? {
        db.genesis := Some(GenesisRow(operator, chainBalance));
      }
      db.ledger := db.ledger + [Entry(None, Genesis, Credit, chainBalance)];
      assert db.ledger[|db.ledger| - 1] in db.ledger;
    }

    /** One insert under unique(settlementId, account). */
    method InsertEntry(e: Entry) returns (ok: bool)
      requires e.id.Some?
      modifies db`ledger
      ensures ok == !HasEntry(old(db.ledger), e.id.value, e.account)
      ensures db.ledger == if ok then old(db.ledger) + [e] else old(db.ledger)
    {
      ok := !HasEntry(db.ledger, e.id.value, e.account);
      if ok {
        db.ledger := db.ledger + [e];
      }
    }

    /** Both rows or neither: a violation rolls the transaction back and reports false. */
    method RecordSettlementFinalized(id: nat, amount: nat) returns (booked: bool)
      modifies db`ledger
      ensures db.ledger == Booked(old(db.ledger), id, amount)
      ensures booked <==> db.ledger != old(db.ledger)
      ensures IsBooked(db.ledger, id) || HasEntry(db.ledger, id, SettledOut)
    {
      var before := db.ledger;
      booked := InsertEntry(DebitOf(id, amount));
      if booked {
        assert db.ledger == before + [DebitOf(id, amount)];
        assert HasEntry(db.ledger, id, SettledOut) <==> HasEntry(before, id, SettledOut);
        booked := InsertEntry(CreditOf(id, amount));
        if !booked {
          db.ledger := before;
        } else {
          assert db.ledger == before + [DebitOf(id, amount), CreditOf(id, amount)];
          assert db.ledger[|before|] in db.ledger;
        }
      }
    }

    function GetOperatorBalance(): int
      reads db
    {
      OperatorBalance(db.ledger)
    }
  }
}
