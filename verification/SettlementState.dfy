/**
 * The one place that changes a settlement's status: the guarded update of the
 * row together with its audit row and, for externally meaningful statuses, an
 * outbox event.
 */
module SettlementState {
  import opened Basics
  import opened Rail

  /** Optional fields of a transition; `expectedFrom` turns it into a guarded one. */
  datatype Opts = Opts(
    txHash: Patch<Option<Tx>>,
    nonce: Patch<Option<nat>>,
    retryCount: Patch<nat>,
    confirmedBlock: Patch<Option<BlockRef>>,
    expectedFrom: Option<set<Status>>)

  const NO_OPTS := Opts(Keep, Keep, Keep, Keep, None)

  predicate Emits(status: Status) {
    status in {Submitted, Confirmed, Final, Failed}
  }

  predicate Allowed(from: Status, o: Opts) {
    o.expectedFrom.None? || from in o.expectedFrom.value
  }

  function PatchedRow(row: Row, to: Status, o: Opts): Row {
    row.(status := to,
         txHash := Patched(row.txHash, o.txHash),
         nonce := Patched(row.nonce, o.nonce),
         retryCount := Patched(row.retryCount, o.retryCount),
         confirmedBlock := Patched(row.confirmedBlock, o.confirmedBlock))
  }

  /** A hash given in the options wins over the stored one, but not a null. */
  function AuditHash(row: Row, o: Opts): Option<Tx> {
    if o.txHash.Set? && o.txHash.value.Some? then o.txHash.value else row.txHash
  }

  function EventOf(id: nat, row: Row): Event {
    Event(id, row.status, row.instruction, row.to, row.amount, row.txHash)
  }

  /** Row, audit row and outbox event in one database transaction. */
  function Transitioned(db: Db, id: nat, to: Status, o: Opts): Db
    requires id < |db.rows|
  {
    var row := db.rows[id];
    if !Allowed(row.status, o) then db
    else
      var next := PatchedRow(row, to, o);
      db.(rows := db.rows[id := next],
          trail := db.trail + [Audit(id, row.status, to, AuditHash(row, o))],
          outbox := if Emits(to) then db.outbox + [EventOf(id, next)] else db.outbox)
  }

  /** A gas-bump resend: new hash and retry count, no status change, no audit row. */
  function Resent(db: Db, id: nat, txHash: Tx, retryCount: nat): Db
    requires id < |db.rows|
  {
    db.(rows := db.rows[id := db.rows[id].(txHash := Some(txHash), retryCount := retryCount)])
  }

  /** The row holding an instruction id, if any (the column is unique). */
  function FindInstruction(rows: seq<Row>, instruction: InstructionId): (r: Option<nat>)
    ensures r.Some? ==> r.value < |rows| && rows[r.value].instruction == instruction
    ensures r.None? ==> forall i :: 0 <= i < |rows| ==> rows[i].instruction != instruction
  {
    if |rows| == 0 then None
    else if rows[|rows| - 1].instruction == instruction then Some(|rows| - 1)
    else FindInstruction(rows[..|rows| - 1], instruction)
  }

  function NewRow(instruction: InstructionId, to: Address, amount: nat): Row {
    Row(instruction, to, amount, Received, None, None, 0, None)
  }

  function FailWith(retryCount: nat): Opts {
    NO_OPTS.(retryCount := Set(retryCount))
  }

  function SubmitWith(tx: Tx, retryCount: nat): Opts {
    NO_OPTS.(txHash := Set(Some(tx)), nonce := Set(Some(tx.nonce)), retryCount := Set(retryCount))
  }
}
