/**
 * The outbox relay. It publishes unpublished rows oldest first and marks each one
 * afterwards, in batches of fifty, with failures and restarts possible anywhere. A
 * row's position in the table is its id and its place in creation order.
 */
module Outbox {
  import opened Basics
  import opened Rail
  import opened Services

  datatype Message = Message(id: nat, event: Event)

  /** A publish returns, or throws with the message delivered or not. */
  datatype Answer = Delivered | Undelivered | DeliveredButThrew

  datatype Relay = Relay(
    events: seq<Event>,
    published: set<nat>,
    log: seq<Message>,
    running: bool,
    batch: seq<nat>,
    sent: bool)

  /** `sent` says that the head of the batch is published and waits for its mark. */
  datatype Move =
    | Append(event: Event)
    | Tick
    | Publish(answer: Answer)
    | Mark(ok: bool)
    | Finish
    | Restart

  const BATCH := 50

  /** The first rows without a publication time, oldest first. */
  function Unpublished(n: nat, published: set<nat>): (ids: seq<nat>)
    ensures forall i :: i in ids <==> 0 <= i < n && i !in published
    ensures forall j, k :: 0 <= j < k < |ids| ==> ids[j] < ids[k]
  {
    if n == 0 then []
    else
      var earlier := Unpublished(n - 1, published);
      assert forall k :: 0 <= k < |earlier| ==> earlier[k] in earlier;
      if n - 1 in published then earlier else earlier + [n - 1]
  }

  function NextBatch(s: Relay): seq<nat> {
    var ids := Unpublished(|s.events|, s.published);
    ids[..Min(|ids|, BATCH)]
  }

  function Stopped(s: Relay): Relay {
    s.(running := false, batch := [], sent := false)
  }

  function AfterPublish(s: Relay, answer: Answer): Relay
    requires |s.batch| > 0 && s.batch[0] < |s.events|
  {
    var id := s.batch[0];
    var log := s.log + [Message(id, s.events[id])];
    match answer
    case Delivered => s.(log := log, sent := true)
    case Undelivered => Stopped(s)
    case DeliveredButThrew => Stopped(s.(log := log))
  }

  function Apply(s: Relay, e: Move): Relay {
    match e
    case Append(event) => s.(events := s.events + [event])
    case Tick => if s.running then s else s.(running := true, batch := NextBatch(s), sent := false)
    case Publish(answer) =>
      if s.running && !s.sent && |s.batch| > 0 && s.batch[0] < |s.events| then AfterPublish(s, answer) else s
    case Mark(ok) =>
      if !s.sent || |s.batch| == 0 then s
      else if ok then s.(published := s.published + {s.batch[0]}, batch := s.batch[1..], sent := false)
      else Stopped(s)
    case Finish => if s.running && |s.batch| == 0 then Stopped(s) else s
    case Restart => Stopped(s)
  }

  function Run(s: Relay, moves: seq<Move>): Relay
    decreases |moves|
  {
    if |moves| == 0 then s else Run(Apply(s, moves[0]), moves[1..])
  }

  predicate Init(s: Relay) {
    s.events == [] && s.published == {} && s.log == [] && !s.running && s.batch == [] && !s.sent
  }

  // ---- Delivery order -------------------------------------------------------

  /** A delivery log without adjacent repeats. */
  function Deduplicated(log: seq<Message>): seq<Message> {
    if |log| == 0 then []
    else
      var earlier := Deduplicated(log[..|log| - 1]);
      if |log| > 1 && log[|log| - 2] == log[|log| - 1] then earlier else earlier + [log[|log| - 1]]
  }

  function Messages(events: seq<Event>): (r: seq<Message>)
    ensures |r| == |events|
    ensures forall i :: 0 <= i < |events| ==> r[i] == Message(i, events[i])
  {
    seq(|events|, i requires 0 <= i < |events| => Message(i, events[i]))
  }

  /** The set holds exactly the positions below m. */
  ghost predicate IsPrefix(ids: set<nat>, m: nat) {
    forall i :: i in ids <==> 0 <= i < m
  }

  /** The first m rows are marked, the first n delivered, and the batch goes on from row m. */
  ghost predicate Ordered(s: Relay, m: nat, n: nat) {
    && m <= n <= m + 1 && n <= |s.events|
    && IsPrefix(s.published, m)
    && Deduplicated(s.log) == Messages(s.events)[..n]
    && (n == 0 <==> |s.log| == 0)
    && (n > 0 ==> s.log[|s.log| - 1] == Message(n - 1, s.events[n - 1]))
    && m + |s.batch| <= |s.events|
    && (forall j :: 0 <= j < |s.batch| ==> s.batch[j] == m + j)
    && (s.sent ==> |s.batch| > 0 && n == m + 1)
    && (!s.running ==> s.batch == [] && !s.sent)
  }

  lemma {:induction false} NoneUnpublished(n: nat, published: set<nat>)
    requires forall i :: 0 <= i < n ==> i in published
    ensures Unpublished(n, published) == []
  {
    if n > 0 {
      NoneUnpublished(n - 1, published);
    }
  }

  lemma {:induction false} UnpublishedFrom(n: nat, published: set<nat>, m: nat)
    requires m <= n && IsPrefix(published, m)
    ensures var ids := Unpublished(n, published);
            |ids| == n - m && forall j :: 0 <= j < |ids| ==> ids[j] == m + j
  {
    if n > m {
      UnpublishedFrom(n - 1, published, m);
    } else {
      NoneUnpublished(n, published);
    }
  }

  lemma DeliveredOnceMore(log: seq<Message>, x: Message)
    ensures Deduplicated(log + [x])
            == if |log| > 0 && log[|log| - 1] == x then Deduplicated(log) else Deduplicated(log) + [x]
  {
    assert (log + [x])[..|log|] == log;
  }

  lemma MessagesSnoc(events: seq<Event>, m: nat)
    requires m < |events|
    ensures Messages(events)[..m + 1] == Messages(events)[..m] + [Message(m, events[m])]
  {
  }

  /** Publishing row m leaves it the last one delivered, whether or not it was before. */
  lemma PublishKeepsOrder(s: Relay, m: nat, n: nat, answer: Answer)
    requires Ordered(s, m, n) && s.running && !s.sent && |s.batch| > 0
    ensures Ordered(AfterPublish(s, answer), m, if answer.Undelivered? then n else m + 1)
  {
    if !answer.Undelivered? {
      DeliveredOnceMore(s.log, Message(m, s.events[m]));
      MessagesSnoc(s.events, m);
    }
  }

  lemma AppendKeepsOrder(s: Relay, m: nat, n: nat, news: seq<Event>)
    requires Ordered(s, m, n)
    ensures Ordered(s.(events := s.events + news), m, n)
  {
    assert Messages(s.events + news)[..n] == Messages(s.events)[..n];
  }

  lemma MarkKeepsOrder(s: Relay, m: nat, n: nat)
    requires Ordered(s, m, n) && s.sent
    ensures Ordered(s.(published := s.published + {s.batch[0]}, batch := s.batch[1..], sent := false), m + 1, n)
  {
  }

  lemma StepKeepsOrder(s: Relay, m: nat, n: nat, e: Move) returns (m': nat, n': nat)
    requires Ordered(s, m, n)
    ensures Ordered(Apply(s, e), m', n')
  {
    m', n' := m, n;
    match e
    case Append(event) =>
      AppendKeepsOrder(s, m, n, [event]);
    case Tick =>
      UnpublishedFrom(|s.events|, s.published, m);
    case Publish(answer) =>
      if s.running && !s.sent && |s.batch| > 0 && s.batch[0] < |s.events| {
        PublishKeepsOrder(s, m, n, answer);
        n' := if answer.Undelivered? then n else m + 1;
      }
    case Mark(ok) =>
      if s.sent && ok {
        m' := m + 1;
        MarkKeepsOrder(s, m, n);
      }
    case Finish =>
    case Restart =>
  }

  lemma {:induction false} RunKeepsOrder(s: Relay, m: nat, n: nat, moves: seq<Move>) returns (m': nat, n': nat)
    requires Ordered(s, m, n)
    ensures Ordered(Run(s, moves), m', n')
    decreases |moves|
  {
    m', n' := m, n;
    if |moves| > 0 {
      m', n' := StepKeepsOrder(s, m, n, moves[0]);
      m', n' := RunKeepsOrder(Apply(s, moves[0]), m', n', moves[1..]);
    }
  }

  lemma {:induction false} PrefixSize(ids: set<nat>, m: nat)
    requires IsPrefix(ids, m)
    ensures |ids| == m
  {
    if m > 0 {
      PrefixSize(ids - {m - 1}, m - 1);
    } else {
      assert ids == {};
    }
  }

  lemma {:induction false} DeduplicatedFromLog(log: seq<Message>, x: Message)
    requires x in Deduplicated(log)
    ensures x in log
  {
    if |log| > 0 && x in Deduplicated(log[..|log| - 1]) {
      DeduplicatedFromLog(log[..|log| - 1], x);
    }
  }

  /**
   * Ordered delivery: wherever publishes fail, marks fail, the process restarts and
   * new rows appear, the delivery log without adjacent repeats is a prefix of the
   * outbox in creation order; the marked rows are a prefix too, all of the delivered
   * ones or all but the last; and no marked row is undelivered.
   */
  lemma DeliveryIsOrdered(s: Relay, moves: seq<Move>)
    requires Init(s)
    ensures var t := Run(s, moves);
            var delivered := Deduplicated(t.log);
            && delivered <= Messages(t.events)
            && IsPrefix(t.published, |t.published|)
            && (|delivered| == |t.published| || |delivered| == |t.published| + 1)
            && (forall i :: i in t.published ==> i < |t.events| && Message(i, t.events[i]) in t.log)
  {
    assert Ordered(s, 0, 0);
    var m, n := RunKeepsOrder(s, 0, 0, moves);
    var t := Run(s, moves);
    PrefixSize(t.published, m);
    forall i | i in t.published
      ensures i < |t.events| && Message(i, t.events[i]) in t.log
    {
      assert Messages(t.events)[..n][i] == Message(i, t.events[i]);
      DeduplicatedFromLog(t.log, Message(i, t.events[i]));
    }
  }

  lemma {:induction false} RunConcat(s: Relay, a: seq<Move>, b: seq<Move>)
    ensures Run(s, a + b) == Run(Run(s, a), b)
    decreases |a|
  {
    if |a| == 0 {
      assert a + b == b;
    } else {
      RunConcat(Apply(s, a[0]), a[1..], b);
      assert (a + b)[1..] == a[1..] + b;
    }
  }

  // ---- The relay as the source writes it ------------------------------------

  /** How publishing and marking the k-th row of the batch go, and what is appended meanwhile. */
  datatype Weather = Weather(answer: nat -> Answer, marks: nat -> bool, news: nat -> seq<Event>)

  function Appends(news: seq<Event>): (r: seq<Move>)
    ensures |r| == |news| && forall i :: 0 <= i < |news| ==> r[i] == Append(news[i])
  {
    seq(|news|, i requires 0 <= i < |news| => Append(news[i]))
  }

  lemma {:induction false} AppendsRun(s: Relay, news: seq<Event>)
    ensures Run(s, Appends(news)) == s.(events := s.events + news)
    decreases |news|
  {
    if |news| == 0 {
      assert s.events + news == s.events;
    } else {
      AppendsRun(Apply(s, Append(news[0])), news[1..]);
      assert Appends(news)[1..] == Appends(news[1..]);
      assert s.events + [news[0]] + news[1..] == s.events + news;
    }
  }

  function Round(w: Weather, k: nat): seq<Move> {
    [Publish(w.answer(k))] + (Appends(w.news(k)) + [Mark(w.marks(k))])
  }

  predicate Succeeds(w: Weather, k: nat) {
    w.answer(k).Delivered? && w.marks(k)
  }

  /** The rounds of a batch: up to the first one that fails. */
  function Rounds(w: Weather, k: nat, size: nat): seq<Move>
    decreases size - k
  {
    if k >= size then [Finish]
    else Round(w, k) + (if Succeeds(w, k) then Rounds(w, k + 1, size) else [])
  }

  /** One round as a whole, on a state about to publish. */
  function Rounded(s: Relay, w: Weather, k: nat): Relay
    requires |s.batch| > 0 && s.batch[0] < |s.events|
  {
    var t := AfterPublish(s, w.answer(k));
    var u := t.(events := t.events + w.news(k));
    if !w.answer(k).Delivered? then u
    else if w.marks(k) then u.(published := u.published + {u.batch[0]}, batch := u.batch[1..], sent := false)
    else Stopped(u)
  }

  lemma RoundRuns(s: Relay, w: Weather, k: nat)
    requires s.running && !s.sent && |s.batch| > 0 && s.batch[0] < |s.events|
    ensures Run(s, Round(w, k)) == Rounded(s, w, k)
  {
    var t := AfterPublish(s, w.answer(k));
    var rest := Appends(w.news(k)) + [Mark(w.marks(k))];
    assert Round(w, k)[1..] == rest;
    RunConcat(t, Appends(w.news(k)), [Mark(w.marks(k))]);
    AppendsRun(t, w.news(k));
    var u := t.(events := t.events + w.news(k));
    assert [Mark(w.marks(k))][1..] == [];
    assert Run(u, [Mark(w.marks(k))]) == Apply(u, Mark(w.marks(k)));
  }

  /** Every row of the batch is in the table. */
  predicate BatchExists(s: Relay) {
    forall j :: 0 <= j < |s.batch| ==> s.batch[j] < |s.events|
  }

  /** The rest of the batch, round by round, up to the first failure. */
  function Relayed(s: Relay, w: Weather, k: nat): (t: Relay)
    requires BatchExists(s)
    ensures !t.running
    decreases |s.batch|
  {
    if |s.batch| == 0 then Stopped(s)
    else if Succeeds(w, k) then Relayed(Rounded(s, w, k), w, k + 1)
    else Rounded(s, w, k)
  }

  lemma FinishRuns(s: Relay)
    requires s.running && |s.batch| == 0
    ensures Run(s, [Finish]) == Stopped(s)
  {
    assert [Finish][1..] == [];
    assert Run(s, [Finish]) == Apply(s, Finish);
  }

  lemma {:induction false} RoundsRun(s: Relay, w: Weather, k: nat)
    requires BatchExists(s) && s.running && !s.sent
    ensures Run(s, Rounds(w, k, k + |s.batch|)) == Relayed(s, w, k)
    decreases |s.batch|
  {
    if |s.batch| == 0 {
      FinishRuns(s);
    } else {
      RoundRuns(s, w, k);
      if Succeeds(w, k) {
        RunConcat(s, Round(w, k), Rounds(w, k + 1, k + |s.batch|));
        RoundsRun(Rounded(s, w, k), w, k + 1);
      } else {
        assert Round(w, k) + [] == Round(w, k);
      }
    }
  }

  lemma TickRuns(s: Relay, rest: seq<Move>)
    ensures Run(s, [Tick] + rest) == Run(Apply(s, Tick), rest)
  {
    assert ([Tick] + rest)[1..] == rest;
  }

  /** What one tick of a stopped relay comes to. */
  function Ticked(s: Relay, w: Weather): Relay
    requires !s.running
  {
    var ids := Unpublished(|s.events|, s.published);
    assert forall j :: 0 <= j < |ids| ==> ids[j] in ids;
    Relayed(Apply(s, Tick), w, 0)
  }

  function TickMoves(s: Relay, w: Weather): seq<Move> {
    [Tick] + Rounds(w, 0, |NextBatch(s)|)
  }

  lemma TickedIsRun(s: Relay, w: Weather)
    requires !s.running
    ensures Run(s, TickMoves(s, w)) == Ticked(s, w)
  {
    var ids := Unpublished(|s.events|, s.published);
    assert forall j :: 0 <= j < |ids| ==> ids[j] in ids;
    TickRuns(s, Rounds(w, 0, |NextBatch(s)|));
    RoundsRun(Apply(s, Tick), w, 0);
  }

  // ---- Progress -------------------------------------------------------------

  lemma RoundKeepsOrder(s: Relay, m: nat, n: nat, w: Weather, k: nat)
    requires Ordered(s, m, n) && s.running && !s.sent && |s.batch| > 0 && Succeeds(w, k)
    ensures var t := Rounded(s, w, k);
            Ordered(t, m + 1, m + 1) && t.running && !t.sent && |t.batch| == |s.batch| - 1
  {
    PublishKeepsOrder(s, m, n, Delivered);
    var u := AfterPublish(s, Delivered);
    AppendKeepsOrder(u, m, m + 1, w.news(k));
    MarkKeepsOrder(u.(events := u.events + w.news(k)), m, m + 1);
  }

  /** Successful rounds publish and mark the rest of the batch, row by row. */
  lemma {:induction false} RoundsDeliver(s: Relay, m: nat, n: nat, w: Weather, k: nat)
    requires Ordered(s, m, n) && s.running && !s.sent
    requires forall j :: k <= j < k + |s.batch| ==> Succeeds(w, j)
    ensures BatchExists(s)
    ensures var t := Relayed(s, w, k);
            !t.running && Ordered(t, m + |s.batch|, if |s.batch| > 0 then m + |s.batch| else n)
    decreases |s.batch|
  {
    if |s.batch| > 0 {
      RoundKeepsOrder(s, m, n, w, k);
      RoundsDeliver(Rounded(s, w, k), m + 1, m + 1, w, k + 1);
    }
  }

  /** Opening a batch: the next fifty rows after the marked ones. */
  lemma TickTakes(s: Relay, m: nat, n: nat)
    requires Ordered(s, m, n) && !s.running
    ensures var t := Apply(s, Tick);
            && Ordered(t, m, n) && t.running && !t.sent
            && |t.batch| == Min(|s.events| - m, BATCH)
  {
    UnpublishedFrom(|s.events|, s.published, m);
  }

  /**
   * Progress: a tick without a failure delivers and marks the oldest fifty unmarked
   * rows, or all there are, and nothing else.
   */
  lemma TickDelivers(s: Relay, m: nat, n: nat, w: Weather)
    requires Ordered(s, m, n) && !s.running
    requires forall j :: 0 <= j < 50 ==> Succeeds(w, j)
    ensures var reached := Min(m + 50, |s.events|);
            !Ticked(s, w).running && Ordered(Ticked(s, w), reached, if m < |s.events| then reached else n)
  {
    TickTakes(s, m, n);
    RoundsDeliver(Apply(s, Tick), m, n, w, 0);
  }

  class Broker {
    var log: seq<Message>

    constructor ()
      ensures log == []
    {
      log := [];
    }

    /** Throwing says nothing about whether the message got through. */
    method Publish(m: Message, answer: Answer) returns (ok: bool)
      modifies this
      ensures ok == answer.Delivered?
      ensures log == if answer.Undelivered? then old(log) else old(log) + [m]
    {
      ok := answer.Delivered?;
      if !answer.Undelivered? {
        log := log + [m];
      }
    }
  }

  class OutboxRelay {
    const db: Database
    const broker: Broker
    /** Positions of the outbox rows whose publication time is set. */
    var published: set<nat>
    var running: bool

    constructor (db: Database, broker: Broker)
      ensures this.db == db && this.broker == broker && published == {} && !running
    {
      this.db, this.broker, published, running := db, broker, {}, false;
    }

    predicate Shows(s: Relay)
      reads this, db, broker
    {
      s.events == db.outbox && s.published == published && s.log == broker.log && s.running == running
    }

    /** Publish, then mark; other services append rows meanwhile. */
    method RelayRow(id: nat, w: Weather, k: nat, ghost t: Relay) returns (ok: bool)
      requires Shows(t) && running && |t.batch| > 0 && t.batch[0] == id && id < |t.events|
      modifies this`published, db`outbox, broker
      ensures ok == Succeeds(w, k)
      ensures Shows(Rounded(t, w, k).(running := true)) && running
    {
      ok := broker.Publish(Message(id, db.outbox[id]), w.answer(k));
      db.outbox := db.outbox + w.news(k);
      if ok && w.marks(k) {
        published := published + {id};
      }
      ok := ok && w.marks(k);
    }

    /**
     * One tick: a batch is read once, and each row published, then marked, until one
     * fails. A tick that finds another at work does nothing.
     */
    method RelayOnce(w: Weather, ghost s: Relay)
      requires Shows(s)
      modifies this, db`outbox, broker
      ensures running == old(running)
      ensures old(running) ==> Shows(s)
      ensures !old(running) ==> Shows(Ticked(s, w))
    {
      if running {
        return;
      }
      running := true;
      var unpublished := Unpublished(|db.outbox|, published);
      assert forall j :: 0 <= j < |unpublished| ==> unpublished[j] in unpublished;
      RelayBatch(unpublished[..Min(|unpublished|, BATCH)], w, Apply(s, Tick));
      running := false;
    }

    method RelayBatch(batch: seq<nat>, w: Weather, ghost s: Relay)
      requires Shows(s) && running && s.batch == batch && BatchExists(s)
      modifies this`published, db`outbox, broker
      ensures running && Shows(Relayed(s, w, 0).(running := true))
    {
      ghost var t := s;
      for k := 0 to |batch|
        invariant running && Shows(t) && t.batch == batch[k..] && BatchExists(t)
        invariant Relayed(s, w, 0) == Relayed(t, w, k)
      {
        var ok := RelayRow(batch[k], w, k, t);
        t := Rounded(t, w, k);
        if !ok {
          return;
        }
      }
    }
  }
}
