/**
 * Who pays whom: what a funding call records and takes, and that whatever closes a deal
 * later pays the people that call named.
 */
module Deals {
  import opened MapSums
  import opened Token
  import opened Escrow
  import opened Payouts

  /** The amount moves from one address to another; every other balance, and the supply, stay. */
  ghost predicate Shifted(t: Erc20, u: Erc20, from: Address, to: Address, amount: nat) {
    && u.totalSupply == t.totalSupply && u.log == t.log + [Movement(from, to, amount)]
    && forall a ::
         BalanceOf(u, a) + (if a == from then amount else 0) == BalanceOf(t, a) + (if a == to then amount else 0)
  }

  predicate OthersSame(w: World, u: World, id: DealId) {
    && u.now == w.now && u.escrow == w.escrow && u.settler == w.settler
    && u.deals.Keys == w.deals.Keys + {id}
    && forall j :: j in w.deals && j != id ==> u.deals[j] == w.deals[j]
  }

  predicate CanFund(w: World, c: Call)
    requires c.Fund?
  {
    && c.caller != w.escrow && c.amount > 0 && c.deadline > w.now && c.id !in w.deals
    && Allowance(w.token, c.caller, w.escrow) >= c.amount && BalanceOf(w.token, c.caller) >= c.amount
  }

  /** The deal is the caller's, on the terms of the call, and the caller has paid for it. */
  ghost predicate FundedBy(w: World, u: World, c: Call)
    requires c.Fund?
  {
    && OthersSame(w, u, c.id)
    && u.deals[c.id].depositor == c.caller && u.deals[c.id].beneficiary == c.beneficiary
    && u.deals[c.id].amount == c.amount && u.deals[c.id].deadline == c.deadline
    && u.deals[c.id].state.Funded?
    && Shifted(w.token, u.token, c.caller, w.escrow, c.amount)
    && Spends(w.token, u.token, w.escrow, c.caller, c.amount)
    && u.events == w.events + [FundedEvent(c.id, c.caller, c.beneficiary, c.amount, c.deadline)]
  }

  /** A funding call that may go through does, for the caller and on its terms; any other changes nothing. */
  lemma FundRecords(w: World, c: Call)
    requires Solvent(w) && c.Fund?
    ensures if CanFund(w, c) then FundedBy(w, Apply(w, c), c) else Apply(w, c) == w
  {
    if c.caller != w.escrow {
      TransferFromSpends(w.token, w.escrow, c.caller, w.escrow, c.amount);
    }
  }

  /** Which closing calls may go through. */
  predicate CanClose(w: World, c: Call)
    requires c.Release? || c.Refund? || c.Cancel?
  {
    && c.id in w.deals && w.deals[c.id].state.Funded?
    && match c
       case Release(caller, id) => caller == w.settler && caller != w.escrow && w.now <= w.deals[id].deadline
       case Refund(id) => w.now > w.deals[id].deadline
       case Cancel(caller, id) => caller == w.settler && caller != w.escrow
  }

  /** The deal is closed, keeps its terms, and its amount has gone from the escrow to one address. */
  ghost predicate PaidTo(w: World, u: World, id: DealId, to: Address, closed: DealState) {
    && id in w.deals && OthersSame(w, u, id)
    && u.deals[id] == w.deals[id].(state := closed)
    && Shifted(w.token, u.token, w.escrow, to, w.deals[id].amount)
    && u.token.allowances == w.token.allowances
  }

  lemma PayOutPays(w: World, id: DealId, to: Address, closed: DealState, event: Event)
    requires Solvent(w) && IsFunded(w, id) && !closed.Funded?
    ensures var r := PayOut(w, id, to, closed, event);
            r.Ok? && PaidTo(w, r.value, id, to, closed) && r.value.events == w.events + [event]
  {
    var amount := w.deals[id].amount;
    PayOutSucceeds(w, id, to, closed, event);
    TransferKeepsBalanced(w.token, w.escrow, to, amount);
    TransferMoves(w.token, w.escrow, to, amount);
  }

  /** The event a closed deal leaves. */
  function ClosedEvent(id: DealId, d: Deal, release: bool): Event {
    if release then ReleasedEvent(id, d.beneficiary, d.amount) else RefundedEvent(id, d.depositor, d.amount)
  }

  /** A release pays the recorded beneficiary, a refund or a cancel the recorded depositor, or nothing happens. */
  lemma ClosingPays(w: World, c: Call)
    requires Solvent(w) && (c.Release? || c.Refund? || c.Cancel?)
    ensures var u := Apply(w, c);
            if !CanClose(w, c) then u == w
            else
              var d := w.deals[c.id];
              && PaidTo(w, u, c.id, if c.Release? then d.beneficiary else d.depositor,
                        if c.Release? then Released else Refunded)
              && u.events == w.events + [ClosedEvent(c.id, d, c.Release?)]
  {
    if CanClose(w, c) {
      var d := w.deals[c.id];
      PayOutPays(w, c.id, d.beneficiary, Released, ReleasedEvent(c.id, d.beneficiary, d.amount));
      PayOutPays(w, c.id, d.depositor, Refunded, RefundedEvent(c.id, d.depositor, d.amount));
    }
  }

  // ---- Over runs ------------------------------------------------------------

  lemma {:induction false} RunSnoc(w: World, calls: seq<Call>, n: nat)
    requires n < |calls|
    ensures Run(w, calls[..n + 1]) == Apply(Run(w, calls[..n]), calls[n])
    decreases n
  {
    if n > 0 {
      RunSnoc(Apply(w, calls[0]), calls[1..], n - 1);
      assert calls[..n + 1][1..] == calls[1..][..n];
      assert calls[..n][1..] == calls[1..][..n - 1];
    } else {
      assert calls[..1][1..] == [];
    }
  }

  /** Call k opened the deal: it is the depositor's own call, on these terms, and there was no such deal before. */
  predicate Opened(w: World, calls: seq<Call>, k: nat, id: DealId, d: Deal) {
    && k < |calls|
    && calls[k] == Fund(d.depositor, id, d.beneficiary, d.amount, d.deadline)
    && id !in Run(w, calls[..k]).deals && id in Run(w, calls[..k + 1]).deals
  }

  /** Only funding opens a deal, and no call changes its terms. */
  lemma CallKeepsTerms(w: World, c: Call, id: DealId)
    requires Solvent(w) && id in Apply(w, c).deals
    ensures if id in w.deals then Apply(w, c).deals[id].(state := w.deals[id].state) == w.deals[id]
            else c.Fund? && c.id == id && CanFund(w, c)
  {
    if c.Fund? {
      FundRecords(w, c);
    } else if c.Release? || c.Refund? || c.Cancel? {
      ClosingPays(w, c);
    }
  }

  lemma SameTerms(w: World, calls: seq<Call>, k: nat, id: DealId, d: Deal, e: Deal)
    requires Opened(w, calls, k, id, d) && e.(state := d.state) == d
    ensures Opened(w, calls, k, id, e)
  {
  }

  /** The last call opens the deal. */
  lemma OpensLast(w: World, calls: seq<Call>, n: nat, id: DealId, t: World, u: World)
    requires n < |calls| && t == Run(w, calls[..n]) && u == Run(w, calls[..n + 1]) && u == Apply(t, calls[n])
    requires Solvent(t) && id !in t.deals && id in u.deals
    ensures Opened(w, calls, n, id, u.deals[id])
  {
    CallKeepsTerms(t, calls[n], id);
    FundRecords(t, calls[n]);
  }

  lemma {:induction false} OpenedAmong(w: World, calls: seq<Call>, n: nat, id: DealId, d: Deal)
    requires Init(w) && n <= |calls| && id in Run(w, calls[..n]).deals && d == Run(w, calls[..n]).deals[id]
    ensures exists k: nat :: k < n && Opened(w, calls, k, id, d)
    decreases n
  {
    if n > 0 {
      var t, u := Run(w, calls[..n - 1]), Run(w, calls[..n]);
      InitSolvent(w);
      RunKeepsSolvent(w, calls[..n - 1]);
      RunSnoc(w, calls, n - 1);
      if id in t.deals {
        CallKeepsTerms(t, calls[n - 1], id);
        OpenedAmong(w, calls, n - 1, id, t.deals[id]);
        var k: nat :| k < n - 1 && Opened(w, calls, k, id, t.deals[id]);
        SameTerms(w, calls, k, id, t.deals[id], d);
      } else {
        OpensLast(w, calls, n - 1, id, t, u);
      }
    }
  }

  /**
   * After any calls, every deal was opened by one funding call: its depositor made that
   * call, and its beneficiary, amount and deadline are the call's.
   */
  lemma DealsFollowTheirFunding(w: World, calls: seq<Call>, id: DealId)
    requires Init(w) && id in Run(w, calls).deals
    ensures exists k: nat :: Opened(w, calls, k, id, Run(w, calls).deals[id])
  {
    assert calls[..|calls|] == calls;
    OpenedAmong(w, calls, |calls|, id, Run(w, calls).deals[id]);
  }

  /** Call k opened the deal that c closes, and the money goes to whom that call named. */
  ghost predicate PaysAsFunded(w: World, calls: seq<Call>, k: nat, c: Call)
    requires c.Release? || c.Refund? || c.Cancel?
  {
    && k < |calls| && calls[k].Fund? && calls[k].id == c.id
    && c.id !in Run(w, calls[..k]).deals && c.id in Run(w, calls[..k + 1]).deals
    && var t := Run(w, calls);
       var to := if c.Release? then calls[k].beneficiary else calls[k].caller;
       && PaidTo(t, Apply(t, c), c.id, to, if c.Release? then Released else Refunded)
       && t.deals[c.id].amount == calls[k].amount
  }

  /**
   * After any calls, a release, refund or cancel goes through exactly when it may, and
   * then a release pays the beneficiary named in the call that opened the deal, and a
   * refund or a cancel pays that call's caller, the amount of that call.
   */
  lemma ClosingPaysAsFunded(w: World, calls: seq<Call>, c: Call)
    requires Init(w) && (c.Release? || c.Refund? || c.Cancel?)
    ensures var t := Run(w, calls);
            if CanClose(t, c) then exists k: nat :: PaysAsFunded(w, calls, k, c) else Apply(t, c) == t
  {
    InitSolvent(w);
    RunKeepsSolvent(w, calls);
    var t := Run(w, calls);
    ClosingPays(t, c);
    if CanClose(t, c) {
      DealsFollowTheirFunding(w, calls, c.id);
      var k: nat :| Opened(w, calls, k, c.id, t.deals[c.id]);
      assert PaysAsFunded(w, calls, k, c);
    }
  }

  /** In any reachable world a funding call records and takes what it says, or changes nothing. */
  lemma FundingRecordsItsCall(w: World, calls: seq<Call>, c: Call)
    requires Init(w) && c.Fund?
    ensures var t := Run(w, calls);
            if CanFund(t, c) then FundedBy(t, Apply(t, c), c) else Apply(t, c) == t
  {
    InitSolvent(w);
    RunKeepsSolvent(w, calls);
    FundRecords(Run(w, calls), c);
  }

  // ---- What a revert says ---------------------------------------------------

  /** A funding that reverts names the first thing wrong with it. */
  lemma FundingRevertsBecause(w: World, c: Call)
    requires Solvent(w) && c.Fund? && c.caller != w.escrow && !CanFund(w, c)
    ensures TryFund(w, c.caller, c.id, c.beneficiary, c.amount, c.deadline)
            == Reverted(if c.amount == 0 then ZeroAmount
                        else if c.deadline <= w.now then DeadlinePassed
                        else if c.id in w.deals then BadState
                        else if Allowance(w.token, c.caller, w.escrow) < c.amount then NoAllowance
                        else NoBalance)
  {
    TransferFromSpends(w.token, w.escrow, c.caller, w.escrow, c.amount);
  }

  /** A closing that reverts does so for a reason of its own, never for the token's. */
  lemma ClosingRevertsBecause(w: World, caller: Address, id: DealId)
    requires Solvent(w)
    ensures var open := id in w.deals && w.deals[id].state.Funded?;
            var late := open && w.now > w.deals[id].deadline;
            && (!(open && !late && caller == w.settler) ==>
                  TryRelease(w, caller, id) == Reverted(if caller != w.settler then NotSettler
                                                        else if !open then BadState else DeadlinePassed))
            && (!late ==> TryRefund(w, id) == Reverted(if open then DeadlineNotReached else BadState))
            && (!(open && caller == w.settler) ==>
                  TryCancel(w, caller, id) == Reverted(if caller != w.settler then NotSettler else BadState))
            && (open ==> PayBeneficiary(w, id).Ok? && PayDepositor(w, id).Ok?)
  {
    if IsFunded(w, id) {
      PaymentsKeepSolvent(w, id);
    }
  }
}
