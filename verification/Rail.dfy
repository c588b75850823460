/**
 * The entities of the settlement rail as values: settlement rows, the audit
 * trail, outbox events and ledger entries of the database, and the operator's
 * transactions as the chain sees them.
 *
 * A settlement's id is its position in the table. Amounts are base units of a
 * six-decimal token. A transaction hash is modelled by the transaction itself,
 * so two hashes are equal exactly when nonce, recipient, amount, gas limit and
 * fees all are.
 */
module Rail {
  import opened Basics

  type Address = nat
  type InstructionId = nat

  datatype Status =
    | Received | RejectedCompliance | ComplianceApproved
    | Submitted | Confirmed | Final | Failed

  datatype Fees = Fees(maxFee: nat, priority: nat)

  datatype Tx = Tx(nonce: nat, to: Address, amount: nat, gasLimit: nat, fees: Fees)

  /** An operator transaction in a block, and whether the transfer succeeded. */
  datatype Mined = Mined(tx: Tx, ok: bool)

  datatype Block = Block(hash: nat, txs: seq<Mined>)

  datatype BlockRef = BlockRef(hash: nat, number: nat)

  datatype Row = Row(
    instruction: InstructionId,
    to: Address,
    amount: nat,
    status: Status,
    txHash: Option<Tx>,
    nonce: Option<nat>,
    retryCount: nat,
    confirmedBlock: Option<BlockRef>)

  datatype Audit = Audit(id: nat, from: Status, to: Status, txHash: Option<Tx>)

  datatype Event = Event(
    id: nat, status: Status, instruction: InstructionId, to: Address, amount: nat, txHash: Option<Tx>)

  datatype Account = Operator | SettledOut | Genesis

  datatype Direction = Debit | Credit

  /** The GENESIS row hangs off a pseudo-settlement; it has no id here. */
  datatype Entry = Entry(id: Option<nat>, account: Account, direction: Direction, amount: nat)

  /** Every table of the database that the rail writes. */
  datatype Db = Db(rows: seq<Row>, trail: seq<Audit>, outbox: seq<Event>, ledger: seq<Entry>)

  datatype Config = Config(confirmed: nat, final: nat, maxRetries: nat, base: nat, opening: nat)

  predicate ValidConfig(c: Config) {
    1 <= c.confirmed <= c.final
  }

  const IN_FLIGHT: set<Status> := {Received, ComplianceApproved, Submitted, Confirmed}
  const PENDING: set<Status> := {Submitted, Confirmed}

  function Amounts(rows: seq<Row>): (w: seq<nat>)
    ensures |w| == |rows|
    ensures forall i :: 0 <= i < |rows| ==> w[i] == rows[i].amount
  {
    seq(|rows|, i requires 0 <= i < |rows| => rows[i].amount)
  }

  function WithStatus(rows: seq<Row>, statuses: set<Status>): set<nat> {
    set i: nat | i < |rows| && rows[i].status in statuses
  }
}
