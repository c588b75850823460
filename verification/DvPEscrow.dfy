/**
 * The escrow contract as written: the deal is updated first, then the token is called,
 * and a revert of the token undoes the update. The token in this repository never
 * answers false, so a transfer either returns or reverts.
 */
module EscrowContract {
  import opened Token
  import opened Escrow

  /** The outcome of a call, as its caller sees it. */
  predicate Answers(r: Result<()>, expected: Result<World>) {
    (r.Ok? <==> expected.Ok?) && (r.Reverted? ==> r.why == expected.why)
  }

  class DvPEscrow {
    const token: MockERC20
    const settler: Address
    const self: Address
    var deals: map<DealId, Deal>
    var events: seq<Event>

    constructor (token: MockERC20, settler: Address, self: Address)
      ensures this.token == token && this.settler == settler && this.self == self
      ensures deals == map[] && events == []
    {
      this.token, this.settler, this.self, deals, events := token, settler, self, map[], [];
    }

    function View(now: nat): World
      reads this, token
    {
      World(token.View(), deals, events, now, self, settler)
    }

    method FundDeal(sender: Address, now: nat, id: DealId, beneficiary: Address, amount: uint256, deadline: uint64)
      returns (r: Result<()>)
      modifies this, token
      ensures Answers(r, TryFund(old(View(now)), sender, id, beneficiary, amount, deadline))
      ensures View(now) == Committed(old(View(now)), TryFund(old(View(now)), sender, id, beneficiary, amount, deadline))
    {
      if amount == 0 {
        return Reverted(ZeroAmount);
      }
      if deadline <= now {
        return Reverted(DeadlinePassed);
      }
      if id in deals {
        return Reverted(BadState);
      }
      var before := deals;
      deals := deals[id := Deal(sender, beneficiary, amount, deadline, Funded)];
      r := token.DoTransferFrom(self, sender, self, amount);
      if r.Reverted? {
        deals := before;
        return;
      }
      events := events + [FundedEvent(id, sender, beneficiary, amount, deadline)];
    }

    /** Closes a funded deal and sends its amount. */
    method Close(id: DealId, to: Address, closed: DealState, event: Event, ghost now: nat) returns (r: Result<()>)
      requires id in deals
      modifies this, token
      ensures Answers(r, PayOut(old(View(now)), id, to, closed, event))
      ensures View(now) == Committed(old(View(now)), PayOut(old(View(now)), id, to, closed, event))
    {
      var before := deals;
      deals := deals[id := deals[id].(state := closed)];
      r := token.MoveTokens(self, to, deals[id].amount);
      if r.Reverted? {
        deals := before;
        return;
      }
      events := events + [event];
    }

    method ReleaseDeal(sender: Address, now: nat, id: DealId) returns (r: Result<()>)
      modifies this, token
      ensures Answers(r, TryRelease(old(View(now)), sender, id))
      ensures View(now) == Committed(old(View(now)), TryRelease(old(View(now)), sender, id))
    {
      if sender != settler {
        return Reverted(NotSettler);
      }
      if id !in deals || !deals[id].state.Funded? {
        return Reverted(BadState);
      }
      var d := deals[id];
      if now > d.deadline {
        return Reverted(DeadlinePassed);
      }
      r := Close(id, d.beneficiary, Released, ReleasedEvent(id, d.beneficiary, d.amount), now);
    }

    method RefundDeal(now: nat, id: DealId) returns (r: Result<()>)
      modifies this, token
      ensures Answers(r, TryRefund(old(View(now)), id))
      ensures View(now) == Committed(old(View(now)), TryRefund(old(View(now)), id))
    {
      if id !in deals || !deals[id].state.Funded? {
        return Reverted(BadState);
      }
      var d := deals[id];
      if now <= d.deadline {
        return Reverted(DeadlineNotReached);
      }
      r := Close(id, d.depositor, Refunded, RefundedEvent(id, d.depositor, d.amount), now);
    }

    method CancelDeal(sender: Address, now: nat, id: DealId) returns (r: Result<()>)
      modifies this, token
      ensures Answers(r, TryCancel(old(View(now)), sender, id))
      ensures View(now) == Committed(old(View(now)), TryCancel(old(View(now)), sender, id))
    {
      if sender != settler {
        return Reverted(NotSettler);
      }
      if id !in deals || !deals[id].state.Funded? {
        return Reverted(BadState);
      }
      var d := deals[id];
      r := Close(id, d.depositor, Refunded, RefundedEvent(id, d.depositor, d.amount), now);
    }
  }
}
