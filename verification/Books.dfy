/** The append-only ledger as values: entries, balances and idempotent booking. */
module Books {
  import opened Basics
  import opened Rail

  predicate HasEntry(ledger: seq<Entry>, id: nat, account: Account) {
    exists e :: e in ledger && e.id == Some(id) && e.account == account
  }

  predicate IsBooked(ledger: seq<Entry>, id: nat) {
    HasEntry(ledger, id, Operator)
  }

  function DebitOf(id: nat, amount: nat): Entry {
    Entry(Some(id), Operator, Debit, amount)
  }

  function CreditOf(id: nat, amount: nat): Entry {
    Entry(Some(id), SettledOut, Credit, amount)
  }

  /**
   * Both rows in one transaction, or neither: unique(settlementId, account)
   * turns a second booking into a no-op.
   */
  function Booked(ledger: seq<Entry>, id: nat, amount: nat): seq<Entry> {
    if HasEntry(ledger, id, Operator) || HasEntry(ledger, id, SettledOut) then ledger
    else ledger + [DebitOf(id, amount), CreditOf(id, amount)]
  }

  lemma BookedAddsOnly(ledger: seq<Entry>, id: nat, amount: nat, j: nat)
    requires IsBooked(Booked(ledger, id, amount), j)
    ensures j == id || IsBooked(ledger, j)
  {
  }

  function SumEntries(ledger: seq<Entry>, account: Account, direction: Direction): nat {
    if |ledger| == 0 then 0
    else
      var last := ledger[|ledger| - 1];
      SumEntries(ledger[..|ledger| - 1], account, direction)
      + (if last.account == account && last.direction == direction then last.amount else 0)
  }

  /** The snapshot row, if it has been taken. */
  function Opening(ledger: seq<Entry>): nat {
    if |ledger| == 0 then 0
    else if ledger[0].account == Genesis then ledger[0].amount
    else Opening(ledger[1..])
  }

  function OperatorBalance(ledger: seq<Entry>): int {
    Opening(ledger) + SumEntries(ledger, Operator, Credit) - SumEntries(ledger, Operator, Debit)
  }

  function BookedIds(ledger: seq<Entry>): set<nat> {
    set e | e in ledger && e.id.Some? && e.account == Operator :: e.id.value
  }

  lemma BookedIdsMeaning(ledger: seq<Entry>, id: nat)
    ensures id in BookedIds(ledger) <==> IsBooked(ledger, id)
  {
  }
}
