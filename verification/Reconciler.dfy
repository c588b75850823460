/** The reconciliation service: a pending sum computed row by row, and a record appended. */
module Reconciler {
  import opened Basics
  import opened Sums
  import opened Rail
  import opened Chain
  import opened Services
  import opened Engine
  import opened Reconcile
  import opened Plans
  import opened Relayer

  datatype ReconciliationRun = ReconciliationRun(
    ledgerBalance: int, chainBalance: int, pendingAmount: nat, diff: int, matched: bool)

  /** The settlements among the first n of `ids` that count as mined and pending. */
  function CountedIn(s: State, ids: seq<nat>, n: nat): set<nat>
    requires n <= |ids|
  {
    set j | 0 <= j < n && IsCounted(s, ids[j]) :: ids[j]
  }

  lemma CountedNext(s: State, ids: seq<nat>, k: nat)
    requires k < |ids| && ids[k] < |s.db.rows|
    requires forall i, j :: 0 <= i < j < |ids| ==> ids[i] < ids[j]
    ensures SumOver(Amounts(s.db.rows), CountedIn(s, ids, k + 1))
            == SumOver(Amounts(s.db.rows), CountedIn(s, ids, k))
               + (if IsCounted(s, ids[k]) then s.db.rows[ids[k]].amount else 0)
  {
    if IsCounted(s, ids[k]) {
      assert CountedIn(s, ids, k + 1) == CountedIn(s, ids, k) + {ids[k]};
      SumAdd(Amounts(s.db.rows), CountedIn(s, ids, k), ids[k]);
    } else {
      assert CountedIn(s, ids, k + 1) == CountedIn(s, ids, k);
    }
  }

  /** The open rows hold every counted settlement. */
  lemma CountedAll(s: State, ids: seq<nat>)
    requires forall i :: i in ids <==> 0 <= i < |s.db.rows| && s.db.rows[i].status in PENDING
    ensures CountedIn(s, ids, |ids|) == Counted(s)
  {
    forall i | i in Counted(s)
      ensures i in CountedIn(s, ids, |ids|)
    {
      assert i in ids;
      var j :| 0 <= j < |ids| && ids[j] == i;
    }
    forall i | i in CountedIn(s, ids, |ids|)
      ensures i in Counted(s)
    {
      assert i in ids;
    }
  }

  class ReconciliationService {
    const cfg: Config
    const state: SettlementStateService
    const ledger: LedgerService
    const chain: Ethereum
    var runs: seq<ReconciliationRun>

    constructor (cfg: Config, state: SettlementStateService, ledger: LedgerService, chain: Ethereum)
      ensures this.cfg == cfg && this.state == state && this.ledger == ledger && this.chain == chain && runs == []
    {
      this.cfg, this.state, this.ledger, this.chain, runs := cfg, state, ledger, chain, [];
    }

    /** The engine state `s` has this database and this node. */
    predicate Sees(s: State)
      reads this, ledger, state, state.db, chain
    {
      && ledger.db == state.db
      && s.cfg == cfg && s.db == state.db.View() && s.node == chain.node
    }

    /** What is mined and successful among the open rows, and so left the chain but not the ledger. */
    method ComputeMinedPending(ghost s: State) returns (sum: nat)
      requires Sees(s)
      ensures sum == MinedPending(s)
    {
      var ids := state.FindByStatuses(PENDING);
      assert forall k :: 0 <= k < |ids| ==> ids[k] in ids;
      sum := 0;
      SumEmpty(Amounts(s.db.rows));
      assert CountedIn(s, ids, 0) == {};
      for k := 0 to |ids|
        invariant sum == SumOver(Amounts(s.db.rows), CountedIn(s, ids, k))
      {
        CountedNext(s, ids, k);
        var row := state.db.rows[ids[k]];
        if row.txHash.None? {
          continue;
        }
        var receipt := chain.GetReceipt(row.txHash.value);
        if receipt.Some? && receipt.value.ok {
          sum := sum + row.amount;
        }
      }
      CountedAll(s, ids);
    }

    /** One reconciliation on a consistent snapshot: five numbers recorded, nothing corrected. */
    method Run(ghost s: State) returns (r: ReconciliationRun)
      requires Sees(s)
      modifies this`runs
      ensures runs == old(runs) + [r]
      ensures r.diff == Diff(s) && (r.matched <==> Matched(s))
      ensures r.diff == r.ledgerBalance - r.pendingAmount - r.chainBalance
      ensures r.pendingAmount == MinedPending(s) && r.chainBalance == ChainBalance(s)
    {
      var ledgerBalance := ledger.GetOperatorBalance();
      var chainBalance := cfg.opening - SumOk(Flatten(chain.node.blocks));
      var pendingAmount := ComputeMinedPending(s);
      var diff := ledgerBalance - pendingAmount - chainBalance;
      var abs := if diff < 0 then -diff else diff;
      r := ReconciliationRun(ledgerBalance, chainBalance, pendingAmount, diff, abs < 1);
      runs := runs + [r];
    }
  }
}
