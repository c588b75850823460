/**
 * What becomes of each escrow deal: paid out at most once, in full, to one side, with
 * the token leaving the escrow exactly as its events say.
 */
module Payouts {
  import opened MapSums
  import opened Token
  import opened Escrow

  predicate IsPayout(e: Event) {
    e.ReleasedEvent? || e.RefundedEvent?
  }

  /** The event tells the truth about its deal. */
  predicate Tells(deals: map<DealId, Deal>, e: Event) {
    && e.id in deals
    && var d := deals[e.id];
       match e
       case FundedEvent(_, depositor, beneficiary, amount, deadline) =>
         d.depositor == depositor && d.beneficiary == beneficiary && d.amount == amount && d.deadline == deadline
       case ReleasedEvent(_, to, amount) => d.state.Released? && to == d.beneficiary && amount == d.amount
       case RefundedEvent(_, to, amount) => d.state.Refunded? && to == d.depositor && amount == d.amount
  }

  /** The event a deal must have left: how it was closed, or that it was funded. */
  function LastEvent(id: DealId, d: Deal): Event {
    match d.state
    case Funded => FundedEvent(id, d.depositor, d.beneficiary, d.amount, d.deadline)
    case Released => ReleasedEvent(id, d.beneficiary, d.amount)
    case Refunded => RefundedEvent(id, d.depositor, d.amount)
  }

  /** Two events of one kind belong to different deals. */
  predicate NoRepeats(events: seq<Event>) {
    forall j, k :: 0 <= j < k < |events| && IsPayout(events[j]) == IsPayout(events[k]) ==>
      events[j].id != events[k].id
  }

  /** Transfers of a positive amount out of an address. */
  function Outgoing(log: seq<Movement>, from: Address): seq<Movement> {
    if |log| == 0 then []
    else
      var m := log[|log| - 1];
      Outgoing(log[..|log| - 1], from) + (if m.from == from && m.value > 0 then [m] else [])
  }

  /** The transfers that the payout events announce. */
  function Announced(events: seq<Event>, escrow: Address): seq<Movement> {
    if |events| == 0 then []
    else
      var e := events[|events| - 1];
      Announced(events[..|events| - 1], escrow) + (if IsPayout(e) then [Movement(escrow, e.to, e.amount)] else [])
  }

  function TotalFunded(events: seq<Event>): nat {
    if |events| == 0 then 0
    else
      var e := events[|events| - 1];
      TotalFunded(events[..|events| - 1]) + (if IsPayout(e) then 0 else e.amount)
  }

  function TotalPaid(events: seq<Event>): nat {
    if |events| == 0 then 0
    else
      var e := events[|events| - 1];
      TotalPaid(events[..|events| - 1]) + (if IsPayout(e) then e.amount else 0)
  }

  predicate AllTell(deals: map<DealId, Deal>, events: seq<Event>) {
    forall k :: 0 <= k < |events| ==> Tells(deals, events[k])
  }

  predicate AllLast(deals: map<DealId, Deal>, events: seq<Event>) {
    forall id :: id in deals ==> LastEvent(id, deals[id]) in events
  }

  predicate Told(deals: map<DealId, Deal>, events: seq<Event>) {
    AllTell(deals, events) && AllLast(deals, events) && NoRepeats(events)
  }

  ghost predicate Recorded(w: World) {
    && w.escrow != 0
    && Told(w.deals, w.events)
    && Outgoing(w.token.log, w.escrow) == Announced(w.events, w.escrow)
    && TotalFunded(w.events) == TotalPaid(w.events) + SumMap(FundedAmounts(w.deals))
  }

  lemma EventSnoc(events: seq<Event>, e: Event, escrow: Address, more: seq<Event>)
    requires more == events + [e]
    ensures Announced(more, escrow)
            == Announced(events, escrow) + (if IsPayout(e) then [Movement(escrow, e.to, e.amount)] else [])
    ensures TotalFunded(more) == TotalFunded(events) + (if IsPayout(e) then 0 else e.amount)
    ensures TotalPaid(more) == TotalPaid(events) + (if IsPayout(e) then e.amount else 0)
  {
    assert more[..|events|] == events;
  }

  lemma OutgoingSnoc(log: seq<Movement>, m: Movement, from: Address)
    ensures Outgoing(log + [m], from) == Outgoing(log, from) + (if m.from == from && m.value > 0 then [m] else [])
  {
    assert (log + [m])[..|log|] == log;
  }

  /** An event's deal exists; a payout's is no longer open. */
  lemma EventOf(deals: map<DealId, Deal>, events: seq<Event>, k: nat)
    requires Told(deals, events) && k < |events|
    ensures Tells(deals, events[k]) && events[k].id in deals
    ensures IsPayout(events[k]) ==> !deals[events[k].id].state.Funded?
  {
    assert Tells(deals, events[k]);
  }

  lemma NoRepeatsSnoc(events: seq<Event>, e: Event, more: seq<Event>)
    requires NoRepeats(events) && more == events + [e]
    requires forall k :: 0 <= k < |events| && IsPayout(events[k]) == IsPayout(e) ==> events[k].id != e.id
    ensures NoRepeats(more)
  {
  }

  lemma TruthSnoc(next: map<DealId, Deal>, events: seq<Event>, e: Event, more: seq<Event>)
    requires AllTell(next, events) && Tells(next, e) && more == events + [e]
    ensures AllTell(next, more)
  {
  }

  /** Every deal's last event is there: the new one for its own deal, the old ones for the others. */
  lemma LastSnoc(deals: map<DealId, Deal>, events: seq<Event>, id: DealId, d: Deal, next: map<DealId, Deal>,
                 more: seq<Event>)
    requires AllLast(deals, events) && next == deals[id := d] && more == events + [LastEvent(id, d)]
    ensures AllLast(next, more)
  {
    assert more[|events|] == LastEvent(id, d);
    forall i | i in next
      ensures LastEvent(i, next[i]) in more
    {
      if i != id {
        assert LastEvent(i, deals[i]) in events;
      }
    }
  }

  /** An event about another deal, or the funding of one that stays on its terms, stays true. */
  lemma StaysTrue(deals: map<DealId, Deal>, id: DealId, d: Deal, next: map<DealId, Deal>, e: Event)
    requires Tells(deals, e) && next == deals[id := d]
    requires e.id == id ==> !IsPayout(e) && d.(state := deals[id].state) == deals[id]
    ensures Tells(next, e)
  {
  }

  lemma ToldFund(deals: map<DealId, Deal>, events: seq<Event>, id: DealId, d: Deal, next: map<DealId, Deal>,
                 more: seq<Event>)
    requires Told(deals, events) && id !in deals && d.state.Funded?
    requires next == deals[id := d] && more == events + [LastEvent(id, d)]
    ensures Told(next, more)
  {
    forall k | 0 <= k < |events|
      ensures events[k].id != id && Tells(next, events[k])
    {
      EventOf(deals, events, k);
      StaysTrue(deals, id, d, next, events[k]);
    }
    NoRepeatsSnoc(events, LastEvent(id, d), more);
    TruthSnoc(next, events, LastEvent(id, d), more);
    LastSnoc(deals, events, id, d, next, more);
  }

  lemma ToldPayOut(deals: map<DealId, Deal>, events: seq<Event>, id: DealId, d: Deal, next: map<DealId, Deal>,
                   more: seq<Event>)
    requires Told(deals, events) && id in deals && deals[id].state.Funded?
    requires d.(state := Funded) == deals[id] && !d.state.Funded?
    requires next == deals[id := d] && more == events + [LastEvent(id, d)]
    ensures Told(next, more)
  {
    forall k | 0 <= k < |events|
      ensures Tells(next, events[k])
      ensures IsPayout(events[k]) ==> events[k].id != id
    {
      EventOf(deals, events, k);
      StaysTrue(deals, id, d, next, events[k]);
    }
    NoRepeatsSnoc(events, LastEvent(id, d), more);
    TruthSnoc(next, events, LastEvent(id, d), more);
    LastSnoc(deals, events, id, d, next, more);
  }

  /** What the totals and the transfers become when a funding, or a payout, is announced. */
  lemma TalliesFollow(w: World, t: World, e: Event)
    requires Recorded(w) && t.escrow == w.escrow && Told(t.deals, t.events) && t.events == w.events + [e]
    requires Outgoing(t.token.log, w.escrow)
             == Outgoing(w.token.log, w.escrow)
                + (if IsPayout(e) then [Movement(w.escrow, e.to, e.amount)] else [])
    requires SumMap(FundedAmounts(t.deals)) + (if IsPayout(e) then e.amount else 0)
             == SumMap(FundedAmounts(w.deals)) + (if IsPayout(e) then 0 else e.amount)
    ensures Recorded(t)
  {
    EventSnoc(w.events, e, w.escrow, t.events);
  }

  lemma PayOutKeepsRecorded(w: World, id: DealId, closed: DealState, to: Address, event: Event)
    requires Solvent(w) && Recorded(w) && IsFunded(w, id) && !closed.Funded?
    requires event == LastEvent(id, w.deals[id].(state := closed)) && to == event.to
    ensures PayOut(w, id, to, closed, event).Ok?
    ensures Recorded(PayOut(w, id, to, closed, event).value)
  {
    var d := w.deals[id].(state := closed);
    PayOutSucceeds(w, id, to, closed, event);
    var t := PayOut(w, id, to, closed, event).value;
    TransferMoves(w.token, w.escrow, to, d.amount);
    OutgoingSnoc(w.token.log, Movement(w.escrow, to, d.amount), w.escrow);
    ToldPayOut(w.deals, w.events, id, d, t.deals, t.events);
    FundedLess(w.deals, id, closed, t.deals);
    TalliesFollow(w, t, event);
  }

  lemma OthersKeepOutgoing(t: Erc20, escrow: Address, caller: Address, from: Address, to: Address, amount: uint256)
    requires Balanced(t) && GrantsNothing(t, escrow) && TransferFrom(t, caller, from, to, amount).Ok?
    ensures var u := TransferFrom(t, caller, from, to, amount).value;
            Outgoing(u.log, escrow) == Outgoing(t.log, escrow)
  {
    TransferFromSpends(t, caller, from, to, amount);
    TransferMoves(Used(t, caller, from, amount), from, to, amount);
    OutgoingSnoc(t.log, Movement(from, to, amount), escrow);
  }

  lemma TokenCallKeepsRecorded(w: World, c: Call)
    requires Solvent(w) && Recorded(w) && !FromEscrow(w, c)
    requires c.MintCall? || c.ApproveCall? || c.TransferCall? || c.TransferFromCall?
    ensures Recorded(Apply(w, c))
  {
    match c
    case MintCall(to, amount) =>
      OutgoingSnoc(w.token.log, Movement(0, to, amount), w.escrow);
    case ApproveCall(_, _, _) =>
    case TransferCall(caller, to, amount) =>
      if Transfer(w.token, caller, to, amount).Ok? {
        TransferMoves(w.token, caller, to, amount);
        OutgoingSnoc(w.token.log, Movement(caller, to, amount), w.escrow);
      }
    case TransferFromCall(caller, from, to, amount) =>
      if TransferFrom(w.token, caller, from, to, amount).Ok? {
        OthersKeepOutgoing(w.token, w.escrow, caller, from, to, amount);
      }
  }

  lemma FundKeepsRecorded(w: World, caller: Address, id: DealId, beneficiary: Address, amount: uint256,
                          deadline: uint64)
    requires Solvent(w) && Recorded(w) && caller != w.escrow
    ensures var r := TryFund(w, caller, id, beneficiary, amount, deadline); r.Ok? ==> Recorded(r.value)
  {
    var r := TryFund(w, caller, id, beneficiary, amount, deadline);
    if r.Ok? {
      OthersKeepOutgoing(w.token, w.escrow, w.escrow, caller, w.escrow, amount);
      FundedIsRecorded(w, r.value, id, Deal(caller, beneficiary, amount, deadline, Funded));
    }
  }

  lemma FundedIsRecorded(w: World, t: World, id: DealId, d: Deal)
    requires Recorded(w) && id !in w.deals && d.state.Funded?
    requires t.escrow == w.escrow && Outgoing(t.token.log, t.escrow) == Outgoing(w.token.log, w.escrow)
    requires t.deals == w.deals[id := d] && t.events == w.events + [LastEvent(id, d)]
    ensures Recorded(t)
  {
    ToldFund(w.deals, w.events, id, d, t.deals, t.events);
    FundedMore(w.deals, id, d, t.deals);
    TalliesFollow(w, t, LastEvent(id, d));
  }

  lemma PaymentsKeepRecorded(w: World, id: DealId)
    requires Solvent(w) && Recorded(w) && IsFunded(w, id)
    ensures PayBeneficiary(w, id).Ok? && Recorded(PayBeneficiary(w, id).value)
    ensures PayDepositor(w, id).Ok? && Recorded(PayDepositor(w, id).value)
  {
    var d := w.deals[id];
    PayOutKeepsRecorded(w, id, Released, d.beneficiary, ReleasedEvent(id, d.beneficiary, d.amount));
    PayOutKeepsRecorded(w, id, Refunded, d.depositor, RefundedEvent(id, d.depositor, d.amount));
  }

  lemma CallKeepsRecorded(w: World, c: Call)
    requires Solvent(w) && Recorded(w)
    ensures Recorded(Apply(w, c))
  {
    if !FromEscrow(w, c) {
      match c
      case Fund(caller, id, beneficiary, amount, deadline) =>
        FundKeepsRecorded(w, caller, id, beneficiary, amount, deadline);
      case Wait(_) =>
      case MintCall(_, _) => TokenCallKeepsRecorded(w, c);
      case ApproveCall(_, _, _) => TokenCallKeepsRecorded(w, c);
      case TransferCall(_, _, _) => TokenCallKeepsRecorded(w, c);
      case TransferFromCall(_, _, _, _) => TokenCallKeepsRecorded(w, c);
      case _ =>
        ClosingCalls(w, c, c.id);
        if IsFunded(w, c.id) {
          PaymentsKeepRecorded(w, c.id);
        }
    }
  }

  lemma {:induction false} RunKeepsRecorded(w: World, calls: seq<Call>)
    requires Solvent(w) && Recorded(w)
    ensures Solvent(Run(w, calls)) && Recorded(Run(w, calls))
    decreases |calls|
  {
    if |calls| > 0 {
      CallKeepsSolvent(w, calls[0]);
      CallKeepsRecorded(w, calls[0]);
      RunKeepsRecorded(Apply(w, calls[0]), calls[1..]);
    }
  }

  /**
   * Per-deal conservation: in every reachable world a deal is Released exactly when its
   * beneficiary was paid its whole amount, Refunded exactly when its depositor was, and
   * Funded exactly when nobody was; no deal is paid twice; the positive transfers out of
   * the escrow are the announced payouts, one for one and in order; and what was ever
   * funded is what was paid plus what is still funded.
   */
  lemma EachDealIsPaidOnce(w: World, calls: seq<Call>)
    requires Init(w)
    ensures var t := Run(w, calls);
            && (forall id :: id in t.deals ==>
                  var d := t.deals[id];
                  && (d.state.Released? <==> ReleasedEvent(id, d.beneficiary, d.amount) in t.events)
                  && (d.state.Refunded? <==> RefundedEvent(id, d.depositor, d.amount) in t.events)
                  && (d.state.Funded? <==> forall e :: e in t.events && IsPayout(e) ==> e.id != id))
            && NoRepeats(t.events)
            && Outgoing(t.token.log, t.escrow) == Announced(t.events, t.escrow)
            && TotalFunded(t.events) == TotalPaid(t.events) + SumMap(FundedAmounts(t.deals))
  {
    InitSolvent(w);
    RunKeepsRecorded(w, calls);
    var t := Run(w, calls);
    forall id | id in t.deals
      ensures var d := t.deals[id];
              && (d.state.Released? <==> ReleasedEvent(id, d.beneficiary, d.amount) in t.events)
              && (d.state.Refunded? <==> RefundedEvent(id, d.depositor, d.amount) in t.events)
              && (d.state.Funded? <==> forall e :: e in t.events && IsPayout(e) ==> e.id != id)
    {
      DealIsTold(t.deals, t.events, id);
    }
  }

  lemma DealIsTold(deals: map<DealId, Deal>, events: seq<Event>, id: DealId)
    requires Told(deals, events) && id in deals
    ensures var d := deals[id];
            && (d.state.Released? <==> ReleasedEvent(id, d.beneficiary, d.amount) in events)
            && (d.state.Refunded? <==> RefundedEvent(id, d.depositor, d.amount) in events)
            && (d.state.Funded? <==> forall e :: e in events && IsPayout(e) ==> e.id != id)
  {
    assert LastEvent(id, deals[id]) in events;
    forall e | e in events
      ensures Tells(deals, e)
    {
      var k :| 0 <= k < |events| && events[k] == e;
    }
  }

  // ---- Exclusivity in time --------------------------------------------------

  /** Deals keep their terms, closed ones their end, and the clock does not go back. */
  predicate Later(w: World, t: World) {
    && t.now >= w.now && t.escrow == w.escrow && t.settler == w.settler
    && (forall id :: id in w.deals ==>
          && id in t.deals
          && t.deals[id].(state := w.deals[id].state) == w.deals[id]
          && (w.deals[id].state.Funded? || t.deals[id].state == w.deals[id].state))
  }

  lemma {:induction false} RunIsLater(w: World, calls: seq<Call>)
    ensures Later(w, Run(w, calls))
    decreases |calls|
  {
    if |calls| > 0 {
      RunIsLater(Apply(w, calls[0]), calls[1..]);
      assert Later(w, Apply(w, calls[0]));
    }
  }

  /**
   * Release and timeout refund exclude each other for good: they are never enabled
   * together, a deal once paid is never paid again, and once a refund is enabled no
   * release of that deal goes through in any later world.
   */
  lemma RefundClosesRelease(w: World, calls: seq<Call>, caller: Address, id: DealId)
    ensures !(TryRefund(w, id).Ok? && TryRelease(w, caller, id).Ok?)
    ensures TryRefund(w, id).Ok? ==> !TryRelease(Run(w, calls), caller, id).Ok?
    ensures id in w.deals && !IsFunded(w, id) ==>
              var t := Run(w, calls);
              !TryRefund(t, id).Ok? && !TryCancel(t, caller, id).Ok? && !TryRelease(t, caller, id).Ok?
              && id in t.deals && t.deals[id] == w.deals[id]
  {
    RunIsLater(w, calls);
  }
}
