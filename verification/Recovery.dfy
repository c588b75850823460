/**
 * Restart recovery, row by row: which settlements found SUBMITTED at boot are failed,
 * which are left to the listener, which are tracked again and which are sent again.
 */
module Recovery {
  import opened Basics
  import opened Rail
  import opened Chain
  import opened SettlementState
  import opened Services
  import opened Engine
  import opened Plans
  import opened StuckSweep

  /** Submitted, but the node knows no such transaction, mined or pending. */
  predicate IsDropped(s: State, i: nat) {
    && i < |s.db.rows| && s.db.rows[i].status == Submitted
    && (s.db.rows[i].txHash.Some? ==>
          && ReceiptOf(s.node.blocks, s.db.rows[i].txHash.value).None?
          && s.db.rows[i].txHash.value !in s.node.pool)
  }

  /** Mined and reverted. */
  predicate IsReverted(s: State, i: nat) {
    && i < |s.db.rows| && s.db.rows[i].status == Submitted && s.db.rows[i].txHash.Some?
    && var receipt := ReceiptOf(s.node.blocks, s.db.rows[i].txHash.value);
       receipt.Some? && !receipt.value.ok
  }

  /** Not mined, but still in the node's pool. */
  predicate IsPending(s: State, i: nat) {
    && i < |s.db.rows| && s.db.rows[i].status == Submitted && s.db.rows[i].txHash.Some?
    && ReceiptOf(s.node.blocks, s.db.rows[i].txHash.value).None?
    && s.db.rows[i].txHash.value in s.node.pool
  }

  /** The settlements to be sent again among the first n, oldest first. */
  function DroppedBefore(s: State, n: nat): seq<nat> {
    if n == 0 then [] else DroppedBefore(s, n - 1) + (if IsDropped(s, n - 1) then [n - 1] else [])
  }

  /** A row after recovery: failed with its count if it reverted, else as it was. */
  function RowRecovered(s: State, i: nat): Row
    requires i < |s.db.rows|
  {
    if IsReverted(s, i) then s.db.rows[i].(status := Failed) else s.db.rows[i]
  }

  /** Its entry: the pending transaction's own terms, gone if it reverted, else as it was. */
  function EntryRecovered(s: State, i: nat, entry: Option<InflightTx>, now: nat): Option<InflightTx>
    requires i < |s.db.rows|
  {
    var row := s.db.rows[i];
    if IsReverted(s, i) then None
    else if IsPending(s, i) then
      var tx := row.txHash.value;
      Some(InflightTx(if row.nonce.Some? then row.nonce.value else tx.nonce, tx.gasLimit, tx.fees, now, row.retryCount))
    else entry
  }

  /** The first n rows are recovered, the others are as they were at boot. */
  ghost predicate RecoveredTo(s: State, t: State, inflight: map<nat, InflightTx>, after: map<nat, InflightTx>, n: nat,
                              now: nat)
  {
    && n <= |s.db.rows| == |t.db.rows|
    && t == s.(db := t.db, proc := s.proc.(queue := s.proc.queue + DroppedBefore(s, n)))
    && t.db.ledger == s.db.ledger
    && (forall i :: 0 <= i < n ==> t.db.rows[i] == RowRecovered(s, i))
    && (forall i :: n <= i < |s.db.rows| ==> t.db.rows[i] == s.db.rows[i])
    && (forall i :: 0 <= i < n ==> EntryFor(after, i) == EntryRecovered(s, i, EntryFor(inflight, i), now))
    && (forall i: nat :: n <= i ==> EntryFor(after, i) == EntryFor(inflight, i))
  }

  /** What one recovery step and its entry come to. */
  lemma RecoverOne(t: State, i: nat, entries: map<nat, InflightTx>, now: nat)
    requires t.cfg.final >= 1 && t.proc.up && !t.proc.draining && i < |t.db.rows| && t.db.rows[i].status == Submitted
    ensures var u := DoRecover(t, i);
            && |u.db.rows| == |t.db.rows| && u.db.rows == t.db.rows[i := RowRecovered(t, i)]
            && u.db.ledger == t.db.ledger
            && u == t.(db := u.db, proc := t.proc.(queue := t.proc.queue + (if IsDropped(t, i) then [i] else [])))
    ensures EntryFor(Recovered(t, i, entries, now), i) == EntryRecovered(t, i, EntryFor(entries, i), now)
    ensures forall j: nat :: j != i ==> EntryFor(Recovered(t, i, entries, now), j) == EntryFor(entries, j)
  {
  }

  /** What is known of a row does not depend on the rows recovered before it. */
  lemma SameCase(s: State, t: State, i: nat)
    requires i < |s.db.rows| == |t.db.rows| && t.db.rows[i] == s.db.rows[i] && t.node == s.node
    ensures IsDropped(t, i) == IsDropped(s, i) && RowRecovered(t, i) == RowRecovered(s, i)
    ensures forall entry, now :: EntryRecovered(t, i, entry, now) == EntryRecovered(s, i, entry, now)
  {
  }

  lemma NextRecovered(s: State, t: State, inflight: map<nat, InflightTx>, entries: map<nat, InflightTx>, n: nat,
                      now: nat, u: State, after: map<nat, InflightTx>)
    requires s.cfg.final >= 1 && s.proc.up && !s.proc.draining && n < |s.db.rows| && s.db.rows[n].status == Submitted
    requires RecoveredTo(s, t, inflight, entries, n, now)
    requires u == Apply(t, Recover(n)) && after == Recovered(t, n, entries, now)
    ensures RecoveredTo(s, u, inflight, after, n + 1, now)
  {
    SameCase(s, t, n);
    RecoverApplies(t, n);
    RecoverOne(t, n, entries, now);
  }

  lemma SkippedRecovered(s: State, t: State, inflight: map<nat, InflightTx>, entries: map<nat, InflightTx>, n: nat,
                         now: nat)
    requires n < |s.db.rows| && s.db.rows[n].status != Submitted
    requires RecoveredTo(s, t, inflight, entries, n, now)
    ensures RecoveredTo(s, t, inflight, entries, n + 1, now)
  {
    assert DroppedBefore(s, n + 1) == DroppedBefore(s, n);
  }

  /** The rows found SUBMITTED among the first n. */
  function FoundTo(s: State, n: nat): seq<nat>
    requires n <= |s.db.rows|
  {
    Select(s.db.rows[..n], {Submitted})
  }

  lemma OneMoreStep(s: State, ids: seq<nat>, n: nat, t: State, more: seq<nat>)
    requires s.cfg.final >= 1 && more == ids + [n] && t == Run(s, Recoveries(ids))
    ensures Run(s, Recoveries(more)) == Apply(t, Recover(n))
  {
    RecoveriesSnoc(s, ids, n);
  }

  lemma OneMoreEntry(s: State, inflight: map<nat, InflightTx>, ids: seq<nat>, n: nat, now: nat,
                     t: State, entries: map<nat, InflightTx>, more: seq<nat>)
    requires s.cfg.final >= 1 && more == ids + [n] && t == Run(s, Recoveries(ids)) && n < |t.db.rows|
    requires entries == RecoveredAll(s, ids, inflight, now)
    ensures RecoveredAll(s, more, inflight, now) == Recovered(t, n, entries, now)
  {
    RecoveredSnoc(s, ids, n, inflight, now);
  }

  lemma RecoverApplies(t: State, n: nat)
    requires t.cfg.final >= 1
    ensures Apply(t, Recover(n)) == DoRecover(t, n)
  {
  }

  lemma FoundNext(s: State, n: nat)
    requires n < |s.db.rows|
    ensures FoundTo(s, n + 1) == FoundTo(s, n) + (if s.db.rows[n].status == Submitted then [n] else [])
  {
    SelectSnoc(s.db.rows, n, {Submitted});
  }

  lemma NothingRecovered(s: State, inflight: map<nat, InflightTx>, now: nat, t: State, entries: map<nat, InflightTx>)
    requires s.cfg.final >= 1
    requires t == Run(s, Recoveries(FoundTo(s, 0))) && entries == RecoveredAll(s, FoundTo(s, 0), inflight, now)
    ensures RecoveredTo(s, t, inflight, entries, 0, now)
  {
    assert FoundTo(s, 0) == [] && Recoveries([]) == [];
  }

  /** What recovering the first n rows runs to, and leaves in memory. */
  ghost predicate GotTo(s: State, inflight: map<nat, InflightTx>, n: nat, now: nat, t: State,
                        entries: map<nat, InflightTx>)
    requires s.cfg.final >= 1 && n <= |s.db.rows|
  {
    t == Run(s, Recoveries(FoundTo(s, n))) && entries == RecoveredAll(s, FoundTo(s, n), inflight, now)
  }

  lemma RecoverNext(s: State, inflight: map<nat, InflightTx>, n: nat, now: nat, m: nat,
                    u: State, before: map<nat, InflightTx>) returns (t: State, entries: map<nat, InflightTx>)
    requires s.cfg.final >= 1 && s.proc.up && !s.proc.draining && m + 1 == n <= |s.db.rows|
    requires GotTo(s, inflight, m, now, u, before) && RecoveredTo(s, u, inflight, before, m, now)
    ensures GotTo(s, inflight, n, now, t, entries) && RecoveredTo(s, t, inflight, entries, n, now)
  {
    t, entries := Run(s, Recoveries(FoundTo(s, n))), RecoveredAll(s, FoundTo(s, n), inflight, now);
    FoundNext(s, m);
    if s.db.rows[m].status == Submitted {
      OneMoreStep(s, FoundTo(s, m), m, u, FoundTo(s, n));
      OneMoreEntry(s, inflight, FoundTo(s, m), m, now, u, before, FoundTo(s, n));
      NextRecovered(s, u, inflight, before, m, now, t, entries);
    } else {
      assert FoundTo(s, n) == FoundTo(s, m);
      SkippedRecovered(s, u, inflight, before, m, now);
    }
  }

  lemma {:induction false} RecoverTo(s: State, inflight: map<nat, InflightTx>, n: nat, now: nat)
    returns (t: State, entries: map<nat, InflightTx>)
    requires s.cfg.final >= 1 && s.proc.up && !s.proc.draining && n <= |s.db.rows|
    ensures GotTo(s, inflight, n, now, t, entries) && RecoveredTo(s, t, inflight, entries, n, now)
    decreases n
  {
    if n == 0 {
      t, entries := Run(s, Recoveries(FoundTo(s, 0))), RecoveredAll(s, FoundTo(s, 0), inflight, now);
      NothingRecovered(s, inflight, now, t, entries);
    } else {
      var u, before := RecoverTo(s, inflight, n - 1, now);
      t, entries := RecoverNext(s, inflight, n, now, n - 1, u, before);
    }
  }

  /**
   * A whole recovery, row by row: of the rows SUBMITTED at boot the reverted ones are
   * FAILED and forgotten, the pending ones are tracked again on the pending
   * transaction's own terms, the dropped ones, and no others, are queued oldest first,
   * and mined successes and all other rows are left alone.
   */
  lemma RecoveryHandlesEveryRow(s: State, pendingCount: nat, inflight: map<nat, InflightTx>, now: nat)
    requires s.cfg.final >= 1 && !s.proc.up
    ensures var ids := Select(s.db.rows, {Submitted});
            var booted := s.(proc := Proc(true, false, [], Idle, pendingCount));
            var t := Run(s, [Boot(pendingCount)] + Recoveries(ids));
            && RecoveredTo(booted, t, inflight, RecoveredAll(booted, ids, inflight, now), |s.db.rows|, now)
            && t.proc.queue == DroppedBefore(booted, |s.db.rows|) && t.proc.localNonce == pendingCount
  {
    var ids := Select(s.db.rows, {Submitted});
    assert s.db.rows[..|s.db.rows|] == s.db.rows;
    BootThen(s, pendingCount, Recoveries(ids));
    var booted := Booted(s, pendingCount);
    var t, entries := RecoverTo(booted, inflight, |s.db.rows|, now);
    assert FoundTo(booted, |s.db.rows|) == ids;
  }
}
