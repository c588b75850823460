/**
 * When the relayer's worker runs. The code between two awaits runs to its end, so a
 * state here is what holds at an await: adding a job starts the worker if none runs,
 * and a job that ends, however it ends, hands the worker the next one or stops it.
 */
module Scheduling {
  import opened Basics

  datatype Worker = Worker(
    queue: seq<nat>,
    draining: bool,
    workerRunning: bool,
    current: Option<nat>,
    started: seq<nat>,
    accepted: seq<nat>)

  datatype Turn =
    | EnqueueId(id: nat)
    | JobEnds(threw: bool)
    | ModuleDestroy

  /** The worker's loop from its head to the next await, or to its end. */
  function LoopHead(w: Worker): Worker {
    if |w.queue| > 0 && !w.draining then
      w.(queue := w.queue[1..], current := Some(w.queue[0]), started := w.started + [w.queue[0]])
    else w.(workerRunning := false, current := None)
  }

  /** Called and not awaited: it returns at once if a worker is running. */
  function RunWorker(w: Worker): Worker {
    if w.workerRunning then w else LoopHead(w.(workerRunning := true))
  }

  function Apply(w: Worker, e: Turn): Worker {
    match e
    case EnqueueId(id) =>
      if w.draining then w
      else RunWorker(w.(queue := w.queue + [id], accepted := w.accepted + [id]))
    case JobEnds(_) => if w.current.Some? then LoopHead(w) else w
    case ModuleDestroy => w.(draining := true)
  }

  function Run(w: Worker, turns: seq<Turn>): Worker
    decreases |turns|
  {
    if |turns| == 0 then w else Run(Apply(w, turns[0]), turns[1..])
  }

  lemma {:induction false} RunConcat(w: Worker, a: seq<Turn>, b: seq<Turn>)
    ensures Run(w, a + b) == Run(Run(w, a), b)
    decreases |a|
  {
    if |a| == 0 {
      assert a + b == b;
    } else {
      RunConcat(Apply(w, a[0]), a[1..], b);
      assert (a + b)[1..] == a[1..] + b;
    }
  }

  lemma RunOne(w: Worker, e: Turn)
    ensures Run(w, [e]) == Apply(w, e)
  {
    assert [e][1..] == [];
  }

  predicate Init(w: Worker) {
    w == Worker([], false, false, None, [], [])
  }

  predicate Scheduled(w: Worker) {
    && (|w.queue| > 0 && !w.draining ==> w.workerRunning)
    && (w.workerRunning <==> w.current.Some?)
    && w.accepted == w.started + w.queue
    && (w.current.Some? ==> |w.started| > 0 && w.started[|w.started| - 1] == w.current.value)
  }

  lemma TurnKeepsScheduled(w: Worker, e: Turn)
    requires Scheduled(w)
    ensures Scheduled(Apply(w, e))
  {
    match e
    case EnqueueId(id) =>
      assert w.started + w.queue + [id] == w.started + (w.queue + [id]);
      if |w.queue| == 0 && !w.workerRunning {
        assert w.queue + [id] == [id] && [id][1..] == [];
      }
    case JobEnds(_) =>
      if |w.queue| > 0 {
        assert w.started + [w.queue[0]] + w.queue[1..] == w.started + w.queue;
      }
    case ModuleDestroy =>
  }

  lemma {:induction false} RunKeepsScheduled(w: Worker, turns: seq<Turn>)
    requires Scheduled(w)
    ensures Scheduled(Run(w, turns))
    decreases |turns|
  {
    if |turns| > 0 {
      TurnKeepsScheduled(w, turns[0]);
      RunKeepsScheduled(Apply(w, turns[0]), turns[1..]);
    }
  }

  /**
   * No lost wake-up, and first in first out: at every await, a non-empty queue that
   * is not being drained has a worker running on exactly one job; the jobs started so
   * far, each once, followed by those still queued, are the accepted ones in order.
   */
  lemma NoLostWakeUp(w: Worker, turns: seq<Turn>)
    requires Init(w)
    ensures var t := Run(w, turns);
            && (|t.queue| > 0 && !t.draining ==> t.workerRunning && t.current.Some?)
            && (t.workerRunning <==> t.current.Some?)
            && t.accepted == t.started + t.queue
  {
    RunKeepsScheduled(w, turns);
  }

  /** Job number k is started once as many jobs have ended before it, failed or not, if nothing is draining. */
  lemma {:induction false} QueuedJobsStart(w: Worker, ends: seq<Turn>, k: nat)
    requires Scheduled(w) && !w.draining && k < |w.queue|
    requires |ends| == k + 1 && forall i :: 0 <= i < |ends| ==> ends[i].JobEnds?
    ensures Run(w, ends).current == Some(w.queue[k])
    ensures Run(w, ends).started == w.started + w.queue[..k + 1]
    decreases k
  {
    var t := Apply(w, ends[0]);
    TurnKeepsScheduled(w, ends[0]);
    if k > 0 {
      QueuedJobsStart(t, ends[1..], k - 1);
      assert w.started + [w.queue[0]] + w.queue[1..][..k] == w.started + w.queue[..k + 1];
    } else {
      assert ends[1..] == [];
      assert w.queue[..1] == [w.queue[0]];
    }
  }

  /** Once draining has begun no job is accepted or started any more, whatever happens. */
  lemma {:induction false} DrainingStartsNothing(w: Worker, turns: seq<Turn>)
    requires w.draining
    ensures var t := Run(w, turns);
            && t.draining && t.started == w.started && t.accepted == w.accepted && t.queue == w.queue
    decreases |turns|
  {
    if |turns| > 0 {
      DrainingStartsNothing(Apply(w, turns[0]), turns[1..]);
    }
  }

  lemma DestroyDrains(w: Worker, turns: seq<Turn>)
    ensures Run(w, [ModuleDestroy] + turns).started == w.started
  {
    RunConcat(w, [ModuleDestroy], turns);
    RunOne(w, ModuleDestroy);
    DrainingStartsNothing(Apply(w, ModuleDestroy), turns);
  }
}

/** The promise-chain lock around every broadcast. */
module Mutexes {
  import opened Basics

  datatype Status = Pending | Running | Fulfilled | Rejected

  /** One call: the call whose settling it waits for, and how its body stands. */
  datatype Call = Call(after: Option<nat>, status: Status)

  datatype Lock = Lock(calls: seq<Call>, tail: Option<nat>, started: seq<nat>)

  datatype Turn =
    | RunExclusive
    | Start(k: nat)
    | Settle(k: nat, ok: bool)

  predicate RunningAt(l: Lock, k: nat) {
    k < |l.calls| && l.calls[k].status.Running?
  }

  predicate Done(c: Call) {
    c.status.Fulfilled? || c.status.Rejected?
  }

  /** A body is the handler for both outcomes of the tail it is chained to. */
  predicate Ready(l: Lock, k: nat) {
    && k < |l.calls| && l.calls[k].status.Pending?
    && (l.calls[k].after.None?
        || (l.calls[k].after.value < |l.calls| && Done(l.calls[l.calls[k].after.value])))
  }

  function Chained(l: Lock): Lock {
    l.(calls := l.calls + [Call(l.tail, Pending)], tail := Some(|l.calls|))
  }

  function Apply(l: Lock, e: Turn): Lock {
    match e
    case RunExclusive => Chained(l)
    case Start(k) =>
      if !Ready(l, k) then l
      else l.(calls := l.calls[k := l.calls[k].(status := Running)], started := l.started + [k])
    case Settle(k, ok) =>
      if !(k < |l.calls| && l.calls[k].status.Running?) then l
      else l.(calls := l.calls[k := l.calls[k].(status := if ok then Fulfilled else Rejected)])
  }

  function Run(l: Lock, turns: seq<Turn>): Lock
    decreases |turns|
  {
    if |turns| == 0 then l else Run(Apply(l, turns[0]), turns[1..])
  }

  predicate Init(l: Lock) {
    l == Lock([], None, [])
  }

  /** Each call is chained to the one before it; the calls before the n-th have settled. */
  predicate Serial(l: Lock, n: nat) {
    && n <= |l.calls|
    && l.tail == (if |l.calls| == 0 then None else Some(|l.calls| - 1))
    && (forall k :: 0 <= k < |l.calls| ==> l.calls[k].after == if k == 0 then None else Some(k - 1))
    && (forall k :: 0 <= k < n ==> Done(l.calls[k]))
    && (forall k :: n < k < |l.calls| ==> l.calls[k].status.Pending?)
    && (n < |l.calls| ==> !Done(l.calls[n]))
    && |l.started| == (if n < |l.calls| && l.calls[n].status.Running? then n + 1 else n)
    && (forall k :: 0 <= k < |l.started| ==> l.started[k] == k)
  }

  lemma TurnKeepsSerial(l: Lock, n: nat, e: Turn) returns (n': nat)
    requires Serial(l, n)
    ensures Serial(Apply(l, e), n')
  {
    n' := if e.Settle? && e.k < |l.calls| && l.calls[e.k].status.Running? then n + 1 else n;
  }

  lemma {:induction false} RunKeepsSerial(l: Lock, n: nat, turns: seq<Turn>) returns (n': nat)
    requires Serial(l, n)
    ensures Serial(Run(l, turns), n')
    decreases |turns|
  {
    n' := n;
    if |turns| > 0 {
      n' := TurnKeepsSerial(l, n, turns[0]);
      n' := RunKeepsSerial(Apply(l, turns[0]), n', turns[1..]);
    }
  }

  /**
   * Mutual exclusion in call order, and no blocking: in every reachable state at most
   * one body runs; bodies have started in call order, each once; and a body that
   * waits may start exactly when every earlier one has settled, with success or not.
   */
  lemma OneBodyAtATime(l: Lock, turns: seq<Turn>)
    requires Init(l)
    ensures var t := Run(l, turns);
            && (forall j, k :: RunningAt(t, j) && RunningAt(t, k) ==> j == k)
            && (forall k :: 0 <= k < |t.started| ==> t.started[k] == k)
            && (forall k :: 0 <= k < |t.calls| && t.calls[k].status.Pending? ==>
                  (Ready(t, k) <==> forall j :: 0 <= j < k ==> Done(t.calls[j])))
  {
    var n := RunKeepsSerial(l, 0, turns);
    var t := Run(l, turns);
    forall k | 0 <= k < |t.calls| && t.calls[k].status.Pending?
      ensures Ready(t, k) <==> forall j :: 0 <= j < k ==> Done(t.calls[j])
    {
      assert k > 0 ==> t.calls[k].after == Some(k - 1);
    }
  }

  /** The lock is never stuck: while a call is unsettled, exactly one can start or settle. */
  lemma NeverStuck(l: Lock, turns: seq<Turn>)
    requires Init(l)
    requires exists k :: 0 <= k < |Run(l, turns).calls| && !Done(Run(l, turns).calls[k])
    ensures var t := Run(l, turns);
            exists k :: 0 <= k < |t.calls| && (Ready(t, k) || t.calls[k].status.Running?)
              && forall j :: 0 <= j < |t.calls| && (Ready(t, j) || t.calls[j].status.Running?) ==> j == k
  {
    var n := RunKeepsSerial(l, 0, turns);
    var t := Run(l, turns);
    assert n < |t.calls|;
    assert Ready(t, n) || t.calls[n].status.Running?;
    forall j | 0 <= j < |t.calls| && (Ready(t, j) || t.calls[j].status.Running?)
      ensures j == n
    {
      assert j > 0 ==> t.calls[j].after == Some(j - 1);
    }
  }

  class Mutex {
    var calls: seq<Call>
    var tail: Option<nat>
    ghost var started: seq<nat>

    constructor ()
      ensures Init(View())
    {
      calls, tail, started := [], None, [];
    }

    ghost function View(): Lock
      reads this
    {
      Lock(calls, tail, started)
    }

    /** Chains a new body behind the tail, and makes it the tail. */
    method RunExclusive() returns (run: nat)
      modifies this
      ensures View() == Apply(old(View()), Turn.RunExclusive)
      ensures run == |old(calls)| && tail == Some(run)
    {
      run := |calls|;
      calls := calls + [Call(tail, Pending)];
      tail := Some(run);
    }

    /** The event loop calls a body whose predecessor has settled. */
    method Resume(k: nat)
      requires Ready(View(), k)
      modifies this
      ensures View() == Apply(old(View()), Start(k))
    {
      calls := calls[k := calls[k].(status := Running)];
      started := started + [k];
    }

    method Complete(k: nat, ok: bool)
      requires k < |calls| && calls[k].status.Running?
      modifies this
      ensures View() == Apply(old(View()), Settle(k, ok))
    {
      calls := calls[k := calls[k].(status := if ok then Fulfilled else Rejected)];
    }
  }
}
