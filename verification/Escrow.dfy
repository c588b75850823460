/**
 * The delivery-versus-payment escrow together with the token it holds. A world is the
 * two contracts and the clock; a call either goes through or reverts and changes
 * nothing. The escrow is a contract: no call comes from its own address.
 */
module Escrow {
  import opened MapSums
  import opened Token

  type DealId = nat

  const MAX_UINT64: nat := 0xFFFF_FFFF_FFFF_FFFF

  type uint64 = x: nat | x <= MAX_UINT64

  /** A deal id that was never funded is absent: that is the source's None. */
  datatype DealState = Funded | Released | Refunded

  datatype Deal = Deal(depositor: Address, beneficiary: Address, amount: uint256, deadline: uint64, state: DealState)

  datatype Event =
    | FundedEvent(id: DealId, depositor: Address, beneficiary: Address, amount: nat, deadline: nat)
    | ReleasedEvent(id: DealId, to: Address, amount: nat)
    | RefundedEvent(id: DealId, to: Address, amount: nat)

  datatype World = World(
    token: Erc20, deals: map<DealId, Deal>, events: seq<Event>, now: nat, escrow: Address, settler: Address)

  datatype Call =
    | MintCall(to: Address, amount: uint256)
    | ApproveCall(caller: Address, spender: Address, amount: uint256)
    | TransferCall(caller: Address, to: Address, amount: uint256)
    | TransferFromCall(caller: Address, from: Address, to: Address, amount: uint256)
    | Fund(caller: Address, id: DealId, beneficiary: Address, amount: uint256, deadline: uint64)
    | Release(caller: Address, id: DealId)
    | Refund(id: DealId)
    | Cancel(caller: Address, id: DealId)
    | Wait(seconds: nat)

  predicate IsFunded(w: World, id: DealId) {
    id in w.deals && w.deals[id].state.Funded?
  }

  function TryFund(w: World, caller: Address, id: DealId, beneficiary: Address, amount: uint256, deadline: uint64)
    : Result<World>
  {
    if amount == 0 then Reverted(ZeroAmount)
    else if deadline <= w.now then Reverted(DeadlinePassed)
    else if id in w.deals then Reverted(BadState)
    else
      match TransferFrom(w.token, w.escrow, caller, w.escrow, amount)
      case Reverted(why) => Reverted(why)
      case Ok(token) =>
        Ok(w.(token := token,
              deals := w.deals[id := Deal(caller, beneficiary, amount, deadline, Funded)],
              events := w.events + [FundedEvent(id, caller, beneficiary, amount, deadline)]))
  }

  /** A funded deal is closed and its amount transferred out of the escrow. */
  function PayOut(w: World, id: DealId, to: Address, closed: DealState, event: Event): Result<World>
    requires id in w.deals
  {
    match Transfer(w.token, w.escrow, to, w.deals[id].amount)
    case Reverted(why) => Reverted(why)
    case Ok(token) =>
      Ok(w.(token := token, deals := w.deals[id := w.deals[id].(state := closed)], events := w.events + [event]))
  }

  function PayBeneficiary(w: World, id: DealId): Result<World>
    requires id in w.deals
  {
    var d := w.deals[id];
    PayOut(w, id, d.beneficiary, Released, ReleasedEvent(id, d.beneficiary, d.amount))
  }

  function PayDepositor(w: World, id: DealId): Result<World>
    requires id in w.deals
  {
    var d := w.deals[id];
    PayOut(w, id, d.depositor, Refunded, RefundedEvent(id, d.depositor, d.amount))
  }

  function TryRelease(w: World, caller: Address, id: DealId): Result<World> {
    if caller != w.settler then Reverted(NotSettler)
    else if !IsFunded(w, id) then Reverted(BadState)
    else if w.now > w.deals[id].deadline then Reverted(DeadlinePassed)
    else PayBeneficiary(w, id)
  }

  function TryRefund(w: World, id: DealId): Result<World> {
    if !IsFunded(w, id) then Reverted(BadState)
    else if w.now <= w.deals[id].deadline then Reverted(DeadlineNotReached)
    else PayDepositor(w, id)
  }

  function TryCancel(w: World, caller: Address, id: DealId): Result<World> {
    if caller != w.settler then Reverted(NotSettler)
    else if !IsFunded(w, id) then Reverted(BadState)
    else PayDepositor(w, id)
  }

  function TokenCall(w: World, r: Result<Erc20>): World {
    w.(token := After(r, w.token))
  }

  function Committed(w: World, r: Result<World>): World {
    if r.Ok? then r.value else w
  }

  predicate FromEscrow(w: World, c: Call) {
    match c
    case ApproveCall(caller, _, _) => caller == w.escrow
    case TransferCall(caller, _, _) => caller == w.escrow
    case TransferFromCall(caller, _, _, _) => caller == w.escrow
    case Fund(caller, _, _, _, _) => caller == w.escrow
    case Release(caller, _) => caller == w.escrow
    case Cancel(caller, _) => caller == w.escrow
    case _ => false
  }

  function Apply(w: World, c: Call): World {
    if FromEscrow(w, c) then w
    else
      match c
      case MintCall(to, amount) => TokenCall(w, Mint(w.token, to, amount))
      case ApproveCall(caller, spender, amount) => w.(token := Approve(w.token, caller, spender, amount))
      case TransferCall(caller, to, amount) => TokenCall(w, Transfer(w.token, caller, to, amount))
      case TransferFromCall(caller, from, to, amount) => TokenCall(w, TransferFrom(w.token, caller, from, to, amount))
      case Fund(caller, id, beneficiary, amount, deadline) =>
        Committed(w, TryFund(w, caller, id, beneficiary, amount, deadline))
      case Release(caller, id) => Committed(w, TryRelease(w, caller, id))
      case Refund(id) => Committed(w, TryRefund(w, id))
      case Cancel(caller, id) => Committed(w, TryCancel(w, caller, id))
      case Wait(seconds) => w.(now := w.now + seconds)
  }

  function Run(w: World, calls: seq<Call>): World
    decreases |calls|
  {
    if |calls| == 0 then w else Run(Apply(w, calls[0]), calls[1..])
  }

  /** Both contracts just deployed. */
  predicate Init(w: World) {
    w.token == Erc20(0, map[], map[], []) && w.deals == map[] && w.events == [] && w.escrow != 0
  }

  // ---- Solvency -------------------------------------------------------------

  function FundedAmounts(deals: map<DealId, Deal>): map<nat, nat> {
    map id | id in deals && deals[id].state.Funded? :: deals[id].amount
  }

  predicate GrantsNothing(t: Erc20, owner: Address) {
    forall p :: p in t.allowances && p.0 == owner ==> t.allowances[p] == 0
  }

  /**
   * Balances sum to the supply, the escrow holds at least every funded deal's amount,
   * and nobody may spend for it.
   */
  ghost predicate Solvent(w: World) {
    && Balanced(w.token)
    && BalanceOf(w.token, w.escrow) >= SumMap(FundedAmounts(w.deals))
    && GrantsNothing(w.token, w.escrow)
    && (forall id :: id in w.deals ==> w.deals[id].amount > 0)
  }

  lemma FundedAdds(deals: map<DealId, Deal>, id: DealId, d: Deal)
    requires d.state.Funded?
    ensures FundedAmounts(deals[id := d]) == FundedAmounts(deals)[id := d.amount]
  {
  }

  lemma FundedMore(deals: map<DealId, Deal>, id: DealId, d: Deal, next: map<DealId, Deal>)
    requires id !in deals && d.state.Funded? && next == deals[id := d]
    ensures SumMap(FundedAmounts(next)) == SumMap(FundedAmounts(deals)) + d.amount
  {
    FundedAdds(deals, id, d);
    SumWith(FundedAmounts(deals), id, d.amount, FundedAmounts(next));
  }

  lemma FundedLess(deals: map<DealId, Deal>, id: DealId, closed: DealState, next: map<DealId, Deal>)
    requires id in deals && deals[id].state.Funded? && !closed.Funded?
    requires next == deals[id := deals[id].(state := closed)]
    ensures SumMap(FundedAmounts(next)) == SumMap(FundedAmounts(deals)) - deals[id].amount
  {
    assert FundedAmounts(next) == FundedAmounts(deals) - {id};
    SumWithout(FundedAmounts(deals), id);
  }

  /** The escrow can always pay a funded deal, whoever it goes to. */
  lemma PayOutSucceeds(w: World, id: DealId, to: Address, closed: DealState, event: Event)
    requires Solvent(w) && IsFunded(w, id) && !closed.Funded?
    ensures PayOut(w, id, to, closed, event).Ok?
    ensures Solvent(PayOut(w, id, to, closed, event).value)
  {
    var amount := w.deals[id].amount;
    SumHolds(FundedAmounts(w.deals), id);
    TransferKeepsBalanced(w.token, w.escrow, to, amount);
    TransferMoves(w.token, w.escrow, to, amount);
    FundedLess(w.deals, id, closed, w.deals[id := w.deals[id].(state := closed)]);
  }

  /** Nobody but the escrow can lower its balance, and its grants stay empty. */
  lemma OthersTransfer(t: Erc20, escrow: Address, from: Address, to: Address, amount: uint256)
    requires Balanced(t) && from != escrow && Transfer(t, from, to, amount).Ok?
    ensures var u := Transfer(t, from, to, amount).value;
            && Balanced(u) && u.allowances == t.allowances
            && BalanceOf(u, escrow) == BalanceOf(t, escrow) + (if to == escrow then amount else 0)
  {
    TransferKeepsBalanced(t, from, to, amount);
    TransferMoves(t, from, to, amount);
  }

  lemma OthersTransferFrom(t: Erc20, escrow: Address, caller: Address, from: Address, to: Address, amount: uint256)
    requires Balanced(t) && GrantsNothing(t, escrow) && TransferFrom(t, caller, from, to, amount).Ok?
    ensures var u := TransferFrom(t, caller, from, to, amount).value;
            && Balanced(u) && GrantsNothing(u, escrow)
            && BalanceOf(u, escrow) == BalanceOf(t, escrow) + (if to == escrow && from != escrow then amount else 0)
  {
    TransferFromSpends(t, caller, from, to, amount);
    var used := Used(t, caller, from, amount);
    TransferMoves(used, from, to, amount);
  }

  lemma TokenCallKeepsSolvent(w: World, c: Call)
    requires Solvent(w) && !FromEscrow(w, c)
    requires c.MintCall? || c.ApproveCall? || c.TransferCall? || c.TransferFromCall?
    ensures Solvent(Apply(w, c))
  {
    match c
    case MintCall(to, amount) =>
      MintKeepsBalanced(w.token, to, amount);
    case ApproveCall(_, _, _) =>
    case TransferCall(caller, to, amount) =>
      if Transfer(w.token, caller, to, amount).Ok? {
        OthersTransfer(w.token, w.escrow, caller, to, amount);
      }
    case TransferFromCall(caller, from, to, amount) =>
      if TransferFrom(w.token, caller, from, to, amount).Ok? {
        OthersTransferFrom(w.token, w.escrow, caller, from, to, amount);
      }
  }

  lemma FundKeepsSolvent(w: World, caller: Address, id: DealId, beneficiary: Address, amount: uint256, deadline: uint64)
    requires Solvent(w) && caller != w.escrow
    ensures var r := TryFund(w, caller, id, beneficiary, amount, deadline); r.Ok? ==> Solvent(r.value)
  {
    var r := TryFund(w, caller, id, beneficiary, amount, deadline);
    if r.Ok? {
      OthersTransferFrom(w.token, w.escrow, w.escrow, caller, w.escrow, amount);
      FundedMore(w.deals, id, Deal(caller, beneficiary, amount, deadline, Funded), r.value.deals);
    }
  }

  lemma PaymentsKeepSolvent(w: World, id: DealId)
    requires Solvent(w) && IsFunded(w, id)
    ensures PayBeneficiary(w, id).Ok? && Solvent(PayBeneficiary(w, id).value)
    ensures PayDepositor(w, id).Ok? && Solvent(PayDepositor(w, id).value)
  {
    var d := w.deals[id];
    PayOutSucceeds(w, id, d.beneficiary, Released, ReleasedEvent(id, d.beneficiary, d.amount));
    PayOutSucceeds(w, id, d.depositor, Refunded, RefundedEvent(id, d.depositor, d.amount));
  }

  /** The three ways out of a funded deal are the two payments. */
  lemma ClosingCalls(w: World, c: Call, id: DealId)
    requires (c.Release? || c.Refund? || c.Cancel?) && c.id == id
    ensures Apply(w, c) == w
            || (IsFunded(w, id) && (Apply(w, c) == Committed(w, PayBeneficiary(w, id))
                                    || Apply(w, c) == Committed(w, PayDepositor(w, id))))
  {
  }

  lemma CallKeepsSolvent(w: World, c: Call)
    requires Solvent(w)
    ensures Solvent(Apply(w, c))
  {
    if !FromEscrow(w, c) {
      match c
      case Fund(caller, id, beneficiary, amount, deadline) =>
        FundKeepsSolvent(w, caller, id, beneficiary, amount, deadline);
      case Wait(_) =>
      case MintCall(_, _) => TokenCallKeepsSolvent(w, c);
      case ApproveCall(_, _, _) => TokenCallKeepsSolvent(w, c);
      case TransferCall(_, _, _) => TokenCallKeepsSolvent(w, c);
      case TransferFromCall(_, _, _, _) => TokenCallKeepsSolvent(w, c);
      case _ =>
        ClosingCalls(w, c, c.id);
        if IsFunded(w, c.id) {
          PaymentsKeepSolvent(w, c.id);
        }
    }
  }

  lemma {:induction false} RunKeepsSolvent(w: World, calls: seq<Call>)
    requires Solvent(w)
    ensures Solvent(Run(w, calls))
    decreases |calls|
  {
    if |calls| > 0 {
      CallKeepsSolvent(w, calls[0]);
      RunKeepsSolvent(Apply(w, calls[0]), calls[1..]);
    }
  }

  lemma InitSolvent(w: World)
    requires Init(w)
    ensures Solvent(w)
  {
    assert FundedAmounts(w.deals) == map[];
  }

  /**
   * Solvency across both contracts: after any calls by anyone, the escrow's balance
   * covers every funded deal, nobody may spend for the escrow, and balances sum to
   * the supply; so a release before, a refund after the deadline and a settler's
   * cancel of a funded deal always go through, and nothing else does.
   */
  lemma EscrowStaysSolvent(w: World, calls: seq<Call>, caller: Address, id: DealId)
    requires Init(w)
    ensures var t := Run(w, calls);
            && BalanceOf(t.token, t.escrow) >= SumMap(FundedAmounts(t.deals))
            && SumMap(t.token.balances) == t.token.totalSupply <= MAX_UINT256
            && (forall spender :: Allowance(t.token, t.escrow, spender) == 0)
            && (TryRefund(t, id).Ok? <==> IsFunded(t, id) && t.now > t.deals[id].deadline)
            && (TryCancel(t, caller, id).Ok? <==> IsFunded(t, id) && caller == t.settler)
            && (TryRelease(t, caller, id).Ok? <==>
                  IsFunded(t, id) && caller == t.settler && t.now <= t.deals[id].deadline)
  {
    InitSolvent(w);
    RunKeepsSolvent(w, calls);
    var t := Run(w, calls);
    if IsFunded(t, id) {
      PaymentsKeepSolvent(t, id);
    }
  }

  /**
   * In any reachable world a deal can be funded exactly when its terms are in order and
   * the caller holds the amount and has approved it.
   */
  lemma FundingGoesThrough(w: World, calls: seq<Call>, caller: Address, id: DealId, beneficiary: Address,
                           amount: uint256, deadline: uint64)
    requires Init(w)
    ensures var t := Run(w, calls);
            TryFund(t, caller, id, beneficiary, amount, deadline).Ok? <==>
              && amount > 0 && deadline > t.now && id !in t.deals
              && Allowance(t.token, caller, t.escrow) >= amount && BalanceOf(t.token, caller) >= amount
  {
    InitSolvent(w);
    RunKeepsSolvent(w, calls);
    var t := Run(w, calls);
    TransferFromSpends(t.token, t.escrow, caller, t.escrow, amount);
  }

  /** A deal of 5 funded for one second, and the clock two seconds on. */
  function FundedAndLate(w: World, depositor: Address, deadline: uint64): seq<Call> {
    [MintCall(depositor, 5), ApproveCall(depositor, w.escrow, 5), Fund(depositor, 7, 2, 5, deadline), Wait(2)]
  }

  /** Cancelling is not confined to the time before the deadline: this deal is past its own, and is cancelled. */
  lemma LateCancelGoesThrough(w: World, depositor: Address)
    requires Init(w) && depositor != w.escrow && w.now + 1 <= MAX_UINT64
    ensures var t := Run(w, FundedAndLate(w, depositor, w.now + 1));
            && IsFunded(t, 7) && t.now > t.deals[7].deadline
            && TryCancel(t, t.settler, 7).Ok?
  {
    var calls := FundedAndLate(w, depositor, w.now + 1);
    var a := Apply(w, calls[0]);
    assert a.token.balances == map[depositor := 5];
    var b := Apply(a, calls[1]);
    assert Allowance(b.token, depositor, w.escrow) == 5 && BalanceOf(b.token, depositor) == 5;
    var c := Apply(b, calls[2]);
    assert IsFunded(c, 7);
    RunFour(w, calls);
    EscrowStaysSolvent(w, calls, w.settler, 7);
  }

  lemma RunFirst(w: World, calls: seq<Call>)
    requires |calls| > 0
    ensures Run(w, calls) == Run(Apply(w, calls[0]), calls[1..])
  {
  }

  lemma RunFour(w: World, calls: seq<Call>)
    requires |calls| == 4
    ensures Run(w, calls) == Apply(Apply(Apply(Apply(w, calls[0]), calls[1]), calls[2]), calls[3])
  {
    var a := Apply(w, calls[0]);
    var b := Apply(a, calls[1]);
    var c := Apply(b, calls[2]);
    RunFirst(w, calls);
    RunFirst(a, calls[1..]);
    assert calls[1..][1..] == calls[2..];
    RunFirst(b, calls[2..]);
    assert calls[2..][1..] == calls[3..];
    RunFirst(c, calls[3..]);
    assert calls[3..][1..] == [];
  }
}
