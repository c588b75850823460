/**
 * The audit trail replays every settlement: its rows form a connected path of
 * lifecycle edges ending in the current status, and the outbox is that path
 * filtered to the externally meaningful statuses.
 */
module AuditTrail {
  import opened Basics
  import opened Rail
  import opened SettlementState
  import opened Engine
  import opened SendSafety

  /** The lifecycle. A resumed job writes SUBMITTED over SUBMITTED. */
  predicate Edge(from: Status, to: Status) {
    match from
    case Received => to.RejectedCompliance? || to.ComplianceApproved?
    case ComplianceApproved => to.Submitted? || to.Failed?
    case Submitted => to.Submitted? || to.Confirmed? || to.Final? || to.Failed?
    case Confirmed => to.Submitted? || to.Final? || to.Failed?
    case _ => false
  }

  predicate Terminal(status: Status) {
    status in {RejectedCompliance, Final, Failed}
  }

  /** The status of a settlement after replaying a trail; every one starts RECEIVED. */
  function StatusAfter(trail: seq<Audit>, id: nat): Status {
    if |trail| == 0 then Received
    else if trail[|trail| - 1].id == id then trail[|trail| - 1].to
    else StatusAfter(trail[..|trail| - 1], id)
  }

  predicate Connected(trail: seq<Audit>) {
    |trail| == 0
    || (var n := |trail| - 1;
        && Connected(trail[..n])
        && trail[n].from == StatusAfter(trail[..n], trail[n].id)
        && Edge(trail[n].from, trail[n].to))
  }

  /** The events a trail gives rise to, with the settlements' own details. */
  function Published(trail: seq<Audit>, rows: seq<Row>): seq<Event> {
    if |trail| == 0 then []
    else
      var a := trail[|trail| - 1];
      Published(trail[..|trail| - 1], rows)
      + (if Emits(a.to) && a.id < |rows| then
           [Event(a.id, a.to, rows[a.id].instruction, rows[a.id].to, rows[a.id].amount, a.txHash)]
         else [])
  }

  predicate TrailSound(db: Db) {
    && Connected(db.trail)
    && (forall a :: a in db.trail ==> a.id < |db.rows|)
    && (forall i :: 0 <= i < |db.rows| ==> StatusAfter(db.trail, i) == db.rows[i].status)
    && db.outbox == Published(db.trail, db.rows)
  }

  lemma {:induction false} UntouchedIsReceived(trail: seq<Audit>, id: nat)
    requires forall a :: a in trail ==> a.id != id
    ensures StatusAfter(trail, id) == Received
  {
    if |trail| > 0 {
      UntouchedIsReceived(trail[..|trail| - 1], id);
    }
  }

  /** Events only depend on what rows never change. */
  lemma {:induction false} PublishedAgrees(trail: seq<Audit>, rows: seq<Row>, next: seq<Row>)
    requires |rows| <= |next|
    requires forall i :: 0 <= i < |rows| ==> SameIdentity(rows[i], next[i])
    requires forall a :: a in trail ==> a.id < |rows|
    ensures Published(trail, next) == Published(trail, rows)
  {
    if |trail| > 0 {
      var n := |trail| - 1;
      assert trail[n] in trail;
      PublishedAgrees(trail[..n], rows, next);
    }
  }

  lemma TransitionKeepsTrail(db: Db, id: nat, to: Status, o: Opts)
    requires TrailSound(db) && id < |db.rows|
    requires Allowed(db.rows[id].status, o) ==> Edge(db.rows[id].status, to)
    requires o.txHash.Set? ==> o.txHash.value.Some?
    requires SameIdentity(db.rows[id], PatchedRow(db.rows[id], to, o))
    ensures TrailSound(Transitioned(db, id, to, o))
  {
    if Allowed(db.rows[id].status, o) {
      var next := Transitioned(db, id, to, o);
      var n := |db.trail|;
      assert next.trail[..n] == db.trail;
      PublishedAgrees(db.trail, db.rows, next.rows);
    }
  }

  lemma InsertKeepsTrail(db: Db, row: Row)
    requires TrailSound(db) && row.status == Received
    ensures TrailSound(db.(rows := db.rows + [row]))
  {
    PublishedAgrees(db.trail, db.rows, db.rows + [row]);
    UntouchedIsReceived(db.trail, |db.rows|);
  }

  lemma ResentKeepsTrail(db: Db, id: nat, tx: Tx, retryCount: nat)
    requires TrailSound(db) && id < |db.rows|
    ensures TrailSound(Resent(db, id, tx, retryCount))
  {
    PublishedAgrees(db.trail, db.rows, Resent(db, id, tx, retryCount).rows);
  }

  /** The fresh job's two database writes. */
  lemma JobKeepsTrail(s: State, permanent: bool)
    requires Safe(s) && TrailSound(s.db)
    ensures TrailSound(DoGiveUp(s, permanent).db) && TrailSound(DoWrite(s).db)
  {
    var j := s.proc.job;
    if j.Sending? {
      TransitionKeepsTrail(s.db, j.id, Failed, FailWith(if permanent then j.retry else j.retry + 1));
    } else if j.Writing? {
      TransitionKeepsTrail(s.db, j.id, Submitted, SubmitWith(j.tx, j.retry));
    }
  }

  lemma ResumeKeepsTrail(s: State, gas: nat, fees: Fees, retries: nat, crash: bool)
    requires Safe(s) && TrailSound(s.db)
    ensures TrailSound(DoResume(s, gas, fees, retries, crash).db)
    ensures TrailSound(DoResumeFail(s, retries).db)
  {
    if Resuming(s) {
      var id := s.proc.job.id;
      var row := s.db.rows[id];
      TransitionKeepsTrail(s.db, id, Submitted, SubmitWith(PaymentOf(row, row.nonce.value, gas, fees), retries));
      TransitionKeepsTrail(s.db, id, Failed, FailWith(retries));
    }
  }

  lemma ResendKeepsTrail(s: State, id: nat, gas: nat, fees: Fees, crash: bool)
    requires Safe(s) && TrailSound(s.db)
    ensures TrailSound(DoSweepResend(s, id, gas, fees, crash).db)
  {
    if Stuck(s, id) {
      var row := s.db.rows[id];
      ResentKeepsTrail(s.db, id, PaymentOf(row, row.nonce.value, gas, fees), row.retryCount + 1);
    }
  }

  /** Each failing step of sweep and recovery changes nothing or fails a submitted row. */
  lemma FailingSteps(s: State, e: Step, id: nat)
    requires s.cfg.final >= 1
    requires e == SweepFail(id) || e == SweepReject(id) || e == Recover(id)
    ensures Apply(s, e).db == s.db
            || (id < |s.db.rows| && s.db.rows[id].status == Submitted
                && (Apply(s, e).db == Transitioned(s.db, id, Failed, FailWith(s.db.rows[id].retryCount))
                    || Apply(s, e).db == Transitioned(s.db, id, Failed, FailWith(s.db.rows[id].retryCount + 1))))
  {
  }

  lemma FailKeepsTrail(s: State, e: Step, id: nat)
    requires s.cfg.final >= 1 && TrailSound(s.db)
    requires e == SweepFail(id) || e == SweepReject(id) || e == Recover(id)
    ensures TrailSound(Apply(s, e).db)
  {
    FailingSteps(s, e, id);
    if id < |s.db.rows| && s.db.rows[id].status == Submitted {
      FailedKeepsTrail(s.db, id, s.db.rows[id].retryCount);
      FailedKeepsTrail(s.db, id, s.db.rows[id].retryCount + 1);
    }
  }

  lemma FailedKeepsTrail(db: Db, id: nat, retries: nat)
    requires TrailSound(db) && id < |db.rows| && db.rows[id].status == Submitted
    ensures TrailSound(Transitioned(db, id, Failed, FailWith(retries)))
  {
    TransitionKeepsTrail(db, id, Failed, FailWith(retries));
  }

  lemma ActKeepsTrail(s: State, k: nat)
    requires Safe(s) && TrailSound(s.db)
    ensures TrailSound(DoAct(s, k).db)
  {
    if s.proc.up && k < |s.checks| && s.checks[k].id < |s.db.rows| {
      var c := s.checks[k];
      assert CheckSound(c, s.db.rows, s.node.accepted);
      match c.stage
      case ToFail => TransitionKeepsTrail(s.db, c.id, Failed, FailOpts());
      case ToRevert => TransitionKeepsTrail(s.db, c.id, Submitted, RevertOpts());
      case ToConfirm(block) => TransitionKeepsTrail(s.db, c.id, Confirmed, ConfirmOpts(c.row, block));
      case ToFlip => TransitionKeepsTrail(s.db, c.id, Final, FinalOpts(c.row));
      case ToBook =>
      case Loaded =>
      case Closed =>
    }
  }

  lemma RequestKeepsTrail(s: State, e: Step)
    requires Safe(s) && TrailSound(s.db)
    requires e.Insert? || e.Screen?
    ensures TrailSound(Apply(s, e).db)
  {
    if e.Insert? {
      if e.r < |s.requests| {
        var q := s.requests[e.r];
        InsertKeepsTrail(s.db, NewRow(q.instruction, q.to, q.amount));
      }
    } else if e.r < |s.requests| && s.requests[e.r].progress.Inserted? {
      assert RequestSound(s, s.requests[e.r]);
      var id := s.requests[e.r].progress.id;
      TransitionKeepsTrail(s.db, id, ComplianceApproved, NO_OPTS);
      TransitionKeepsTrail(s.db, id, RejectedCompliance, NO_OPTS);
    }
  }

  /** Every other step leaves rows, trail and outbox as they are. */
  lemma OtherLeavesTrail(s: State, e: Step)
    requires s.cfg.final >= 1
    requires e.Take? || e.Load? || e.Accept? || e.Retry? || e.Poll? || e.Read? || e.Move? || e.Drop?
             || e.Crash? || e.Boot? || e.Drain?
    ensures Apply(s, e).db == s.db
  {
  }

  lemma RequestLeavesTrail(s: State, e: Step)
    requires s.cfg.final >= 1
    requires e.Arrive? || e.Lookup? || e.CheckBalance? || e.Refetch? || e.Enqueue?
    ensures Apply(s, e).db == s.db
  {
  }

  lemma StepKeepsTrail(s: State, e: Step)
    requires Safe(s) && TrailSound(s.db)
    ensures TrailSound(Apply(s, e).db)
  {
    match e
    case GiveUp(permanent) => JobKeepsTrail(s, permanent);
    case Write => JobKeepsTrail(s, true);
    case Resume(gas, fees, retries, crash) => ResumeKeepsTrail(s, gas, fees, retries, crash);
    case ResumeFail(retries) => ResumeKeepsTrail(s, 0, Fees(0, 0), retries, false);
    case SweepResend(id, gas, fees, crash) => ResendKeepsTrail(s, id, gas, fees, crash);
    case SweepFail(id) => FailKeepsTrail(s, e, id);
    case SweepReject(id) => FailKeepsTrail(s, e, id);
    case Recover(id) => FailKeepsTrail(s, e, id);
    case Act(k) => ActKeepsTrail(s, k);
    case Insert(_) => RequestKeepsTrail(s, e);
    case Screen(_, _) => RequestKeepsTrail(s, e);
    case Arrive(_, _, _) => RequestLeavesTrail(s, e);
    case Lookup(_) => RequestLeavesTrail(s, e);
    case CheckBalance(_) => RequestLeavesTrail(s, e);
    case Refetch(_) => RequestLeavesTrail(s, e);
    case Enqueue(_) => RequestLeavesTrail(s, e);
    case _ => OtherLeavesTrail(s, e);
  }

  lemma {:induction false} RunKeepsTrail(s: State, steps: seq<Step>)
    requires Safe(s) && TrailSound(s.db)
    ensures Safe(Run(s, steps)) && TrailSound(Run(s, steps).db)
    decreases |steps|
  {
    if |steps| > 0 {
      StepKeepsSafe(s, steps[0]);
      StepKeepsTrail(s, steps[0]);
      RunKeepsTrail(Apply(s, steps[0]), steps[1..]);
    }
  }

  // ---- Consequences ---------------------------------------------------------

  /** Once a replay reaches a terminal status no later row of the trail leaves it. */
  lemma {:induction false} TerminalStays(trail: seq<Audit>, n: nat, id: nat)
    requires Connected(trail) && n <= |trail|
    requires Terminal(StatusAfter(trail[..n], id))
    ensures StatusAfter(trail, id) == StatusAfter(trail[..n], id)
    ensures forall k :: n <= k < |trail| ==> trail[k].id != id
  {
    if n == |trail| {
      assert trail[..n] == trail;
    } else {
      var m := |trail| - 1;
      assert trail[..m][..n] == trail[..n];
      TerminalStays(trail[..m], n, id);
    }
  }

  predicate WasApproved(trail: seq<Audit>, id: nat) {
    exists a :: a in trail && a.id == id && a.from == Received && a.to == ComplianceApproved
  }

  /** A screened status is only reached through the approval edge. */
  lemma {:induction false} ScreenedWasApproved(trail: seq<Audit>, id: nat)
    requires Connected(trail) && Screened(StatusAfter(trail, id))
    ensures WasApproved(trail, id)
  {
    var n := |trail| - 1;
    if trail[n].id == id && trail[n].from == Received {
      assert trail[n] in trail;
    } else {
      ScreenedWasApproved(trail[..n], id);
      var a :| a in trail[..n] && a.id == id && a.from == Received && a.to == ComplianceApproved;
      assert a in trail;
    }
  }

  /** Replaying up to any entry gives that entry's origin, along a lifecycle edge. */
  lemma {:induction false} ConnectedAt(trail: seq<Audit>, k: nat)
    requires Connected(trail) && k < |trail|
    ensures trail[k].from == StatusAfter(trail[..k], trail[k].id)
    ensures Edge(trail[k].from, trail[k].to)
    ensures StatusAfter(trail[..k + 1], trail[k].id) == trail[k].to
  {
    if k < |trail| - 1 {
      ConnectedAt(trail[..|trail| - 1], k);
      assert trail[..|trail| - 1][..k] == trail[..k];
      assert trail[..|trail| - 1][..k + 1] == trail[..k + 1];
    } else {
      assert trail[..k + 1] == trail;
    }
  }

  /** How many FINAL events a settlement has. */
  function FinalEvents(outbox: seq<Event>, id: nat): nat {
    if |outbox| == 0 then 0
    else
      FinalEvents(outbox[..|outbox| - 1], id)
      + (if outbox[|outbox| - 1].id == id && outbox[|outbox| - 1].status == Final then 1 else 0)
  }

  lemma FinalEventsSnoc(outbox: seq<Event>, e: Event, id: nat)
    ensures FinalEvents(outbox + [e], id)
            == FinalEvents(outbox, id) + (if e.id == id && e.status == Final then 1 else 0)
  {
    assert (outbox + [e])[..|outbox|] == outbox;
  }

  lemma {:induction false} FinalPublishedOnce(trail: seq<Audit>, rows: seq<Row>, id: nat)
    requires Connected(trail)
    requires forall a :: a in trail ==> a.id < |rows|
    ensures FinalEvents(Published(trail, rows), id) == if StatusAfter(trail, id) == Final then 1 else 0
  {
    if |trail| > 0 {
      var n := |trail| - 1;
      assert trail[n] in trail;
      FinalPublishedOnce(trail[..n], rows, id);
      var a := trail[n];
      var before := Published(trail[..n], rows);
      FinalEventsSnoc(before,
        Event(a.id, a.to, rows[a.id].instruction, rows[a.id].to, rows[a.id].amount, a.txHash), id);
      if !Emits(a.to) {
        assert Published(trail, rows) == before;
      }
    }
  }

  /**
   * Audit replay: after any run the trail is, per settlement, a connected path of
   * lifecycle edges from RECEIVED to its current status.
   */
  lemma TrailReplays(s: State, steps: seq<Step>)
    requires Init(s)
    ensures var db := Run(s, steps).db;
            && (forall k :: 0 <= k < |db.trail| ==>
                  && Edge(db.trail[k].from, db.trail[k].to)
                  && db.trail[k].from == StatusAfter(db.trail[..k], db.trail[k].id))
            && (forall i :: 0 <= i < |db.rows| ==> db.rows[i].status == StatusAfter(db.trail, i))
  {
    InitSafe(s);
    RunKeepsTrail(s, steps);
    var db := Run(s, steps).db;
    forall k | 0 <= k < |db.trail|
      ensures Edge(db.trail[k].from, db.trail[k].to)
      ensures db.trail[k].from == StatusAfter(db.trail[..k], db.trail[k].id)
    {
      ConnectedAt(db.trail, k);
    }
  }

  /** A settlement that has reached a terminal status keeps it however the run goes on. */
  lemma TerminalIsForGood(s: State, before: seq<Step>, after: seq<Step>, id: nat)
    requires Init(s)
    requires id < |Run(s, before).db.rows| && Terminal(Run(s, before).db.rows[id].status)
    ensures var u := Run(Run(s, before), after).db;
            && id < |u.rows| && u.rows[id].status == Run(s, before).db.rows[id].status
            && (forall k :: |Run(s, before).db.trail| <= k < |u.trail| ==> u.trail[k].id != id)
  {
    InitSafe(s);
    RunKeepsTrail(s, before);
    var t := Run(s, before);
    RunKeepsTrail(t, after);
    RunExtends(t, after);
    var u := Run(t, after);
    assert u.db.trail[..|t.db.trail|] == t.db.trail;
    TerminalStays(u.db.trail, |t.db.trail|, id);
  }

  // ---- What the outbox tells ------------------------------------------------

  /** The trail rows of one settlement to one status, in order. */
  function RowsTo(trail: seq<Audit>, id: nat, status: Status): seq<Audit> {
    if |trail| == 0 then []
    else
      var a := trail[|trail| - 1];
      RowsTo(trail[..|trail| - 1], id, status) + (if a.id == id && a.to == status then [a] else [])
  }

  /** The events of one settlement with one status, in order. */
  function EventsTo(outbox: seq<Event>, id: nat, status: Status): seq<Event> {
    if |outbox| == 0 then []
    else
      var e := outbox[|outbox| - 1];
      EventsTo(outbox[..|outbox| - 1], id, status) + (if e.id == id && e.status == status then [e] else [])
  }

  /** The trail rows to the statuses the outside world hears of. */
  function Heard(trail: seq<Audit>): seq<Audit> {
    if |trail| == 0 then []
    else
      var a := trail[|trail| - 1];
      Heard(trail[..|trail| - 1]) + (if a.to in {Submitted, Confirmed, Final, Failed} then [a] else [])
  }

  /** An event tells of a trail row: its settlement, status and hash, and whom and what the settlement pays. */
  predicate TellsOf(e: Event, a: Audit, rows: seq<Row>) {
    && a.id < |rows|
    && e == Event(a.id, a.to, rows[a.id].instruction, rows[a.id].to, rows[a.id].amount, a.txHash)
  }

  /** One event for each of these trail rows, in the same order, and no other. */
  predicate TellAll(events: seq<Event>, trail: seq<Audit>, rows: seq<Row>) {
    |events| == |trail| && forall j :: 0 <= j < |trail| ==> TellsOf(events[j], trail[j], rows)
  }

  lemma {:induction false} PublishedTells(trail: seq<Audit>, rows: seq<Row>)
    requires forall a :: a in trail ==> a.id < |rows|
    ensures TellAll(Published(trail, rows), Heard(trail), rows)
  {
    if |trail| > 0 {
      var n := |trail| - 1;
      assert trail[n] in trail;
      PublishedTells(trail[..n], rows);
    }
  }

  lemma EventsToSnoc(outbox: seq<Event>, e: Event, id: nat, status: Status)
    ensures EventsTo(outbox + [e], id, status)
            == EventsTo(outbox, id, status) + (if e.id == id && e.status == status then [e] else [])
  {
    assert (outbox + [e])[..|outbox|] == outbox;
  }

  lemma {:induction false} PublishedTellsOne(trail: seq<Audit>, rows: seq<Row>, id: nat, status: Status)
    requires forall a :: a in trail ==> a.id < |rows|
    requires status in {Submitted, Confirmed, Final, Failed}
    ensures TellAll(EventsTo(Published(trail, rows), id, status), RowsTo(trail, id, status), rows)
  {
    if |trail| > 0 {
      var n := |trail| - 1;
      var a := trail[n];
      assert a in trail;
      PublishedTellsOne(trail[..n], rows, id, status);
      var before := Published(trail[..n], rows);
      EventsToSnoc(before, Event(a.id, a.to, rows[a.id].instruction, rows[a.id].to, rows[a.id].amount, a.txHash),
                   id, status);
      assert !Emits(a.to) ==> Published(trail, rows) == before;
    }
  }

  /**
   * After any run the outbox is, event for row and in order, the trail's rows to
   * SUBMITTED, CONFIRMED, FINAL and FAILED; so no event carries another status, and a
   * settlement has one FINAL event if it is FINAL and none otherwise.
   */
  lemma OutboxIsFilteredTrail(s: State, steps: seq<Step>)
    requires Init(s)
    ensures var db := Run(s, steps).db;
            && TellAll(db.outbox, Heard(db.trail), db.rows)
            && (forall e :: e in db.outbox ==> e.status in {Submitted, Confirmed, Final, Failed})
            && (forall i :: 0 <= i < |db.rows| ==>
                  FinalEvents(db.outbox, i) == if db.rows[i].status == Final then 1 else 0)
  {
    InitSafe(s);
    RunKeepsTrail(s, steps);
    var db := Run(s, steps).db;
    PublishedTells(db.trail, db.rows);
    OnlyHeard(db.trail);
    forall i | 0 <= i < |db.rows|
      ensures FinalEvents(db.outbox, i) == if db.rows[i].status == Final then 1 else 0
    {
      FinalPublishedOnce(db.trail, db.rows, i);
    }
    forall e | e in db.outbox
      ensures e.status in {Submitted, Confirmed, Final, Failed}
    {
      var j :| 0 <= j < |db.outbox| && db.outbox[j] == e;
      assert Heard(db.trail)[j] in Heard(db.trail);
    }
  }

  lemma {:induction false} OnlyHeard(trail: seq<Audit>)
    ensures forall a :: a in Heard(trail) ==> a.to in {Submitted, Confirmed, Final, Failed}
  {
    if |trail| > 0 {
      OnlyHeard(trail[..|trail| - 1]);
    }
  }

  /** And for each of those statuses, a settlement's events of it are, in order, its trail rows to it. */
  lemma EventsPerStatus(s: State, steps: seq<Step>, id: nat, status: Status)
    requires Init(s) && status in {Submitted, Confirmed, Final, Failed}
    ensures var db := Run(s, steps).db;
            TellAll(EventsTo(db.outbox, id, status), RowsTo(db.trail, id, status), db.rows)
  {
    InitSafe(s);
    RunKeepsTrail(s, steps);
    PublishedTellsOne(Run(s, steps).db.trail, Run(s, steps).db.rows, id, status);
  }

  /** A step that gets a broadcast accepted does so for a settlement screened before it. */
  lemma SendsAreScreened(s: State, e: Step)
    requires Safe(s)
    ensures forall k :: |s.node.accepted| <= k < |Apply(s, e).node.accepted| ==>
                          var b := Apply(s, e).node.accepted[k];
                          b.id < |s.db.rows| && Screened(s.db.rows[b.id].status)
  {
  }

  /** No nonce, no hash, no accepted broadcast. */
  predicate NeverSent(s: State, id: nat) {
    && id < |s.db.rows|
    && s.db.rows[id].nonce.None? && s.db.rows[id].txHash.None?
    && (forall b :: b in s.node.accepted ==> b.id != id)
  }

  lemma RejectedNeverSent(s: State, steps: seq<Step>, id: nat)
    requires Safe(s) && TrailSound(s.db)
    requires id < |s.db.rows| && s.db.rows[id].status == RejectedCompliance
    ensures NeverSent(Run(s, steps), id)
  {
    RunKeepsTrail(s, steps);
    RunExtends(s, steps);
    var u := Run(s, steps);
    assert u.db.trail[..|s.db.trail|] == s.db.trail;
    TerminalStays(u.db.trail, |s.db.trail|, id);
    assert u.db.rows[id].status == RejectedCompliance;
    forall b | b in u.node.accepted
      ensures b.id != id
    {
      assert Covers(u.db.rows, b);
    }
  }

  /**
   * Screening precedes money: in any run, when a broadcast is accepted the
   * settlement's trail already holds its approval.
   */
  lemma ScreeningPrecedesMoney(s: State, before: seq<Step>, e: Step, k: nat)
    requires Init(s)
    requires |Run(s, before).node.accepted| <= k < |Apply(Run(s, before), e).node.accepted|
    ensures WasApproved(Run(s, before).db.trail, Apply(Run(s, before), e).node.accepted[k].id)
  {
    InitSafe(s);
    RunKeepsTrail(s, before);
    var t := Run(s, before);
    SendsAreScreened(t, e);
    ScreenedWasApproved(t.db.trail, Apply(t, e).node.accepted[k].id);
  }

  /** A settlement rejected by screening never has a nonce, a hash or a broadcast, however the run goes on. */
  lemma RejectedIsNeverSent(s: State, before: seq<Step>, after: seq<Step>, id: nat)
    requires Init(s)
    requires id < |Run(s, before).db.rows| && Run(s, before).db.rows[id].status == RejectedCompliance
    ensures NeverSent(Run(Run(s, before), after), id)
  {
    InitSafe(s);
    RunKeepsTrail(s, before);
    RejectedNeverSent(Run(s, before), after, id);
  }
}
