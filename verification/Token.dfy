/** Sums over the values of a map. */
module MapSums {

  ghost function Pick(m: map<nat, nat>): (k: nat)
    requires |m| > 0
    ensures k in m
  {
    var k :| k in m;
    k
  }

  ghost function SumMap(m: map<nat, nat>): nat
    decreases |m|
  {
    if |m| == 0 then 0 else m[Pick(m)] + SumMap(m - {Pick(m)})
  }

  /** Any key can be taken out first. */
  lemma {:induction false} SumWithout(m: map<nat, nat>, k: nat)
    requires k in m
    ensures SumMap(m) == m[k] + SumMap(m - {k})
    decreases |m|
  {
    var j := Pick(m);
    if j != k {
      SumWithout(m - {j}, k);
      SumWithout(m - {k}, j);
      TwoOut(m, j, k);
    }
  }

  lemma TwoOut(m: map<nat, nat>, j: nat, k: nat)
    ensures m - {j} - {k} == m - {k} - {j}
  {
  }

  /** The value at a key, zero where the map has none. */
  function At(m: map<nat, nat>, k: nat): nat {
    if k in m then m[k] else 0
  }

  lemma SetAndOut(m: map<nat, nat>, k: nat, v: nat)
    ensures k in m[k := v] && m[k := v][k] == v && m[k := v] - {k} == m - {k}
    ensures k !in m ==> m - {k} == m
  {
  }

  /** Setting one key changes the sum by the difference. */
  lemma SumWith(m: map<nat, nat>, k: nat, v: nat, n: map<nat, nat>)
    requires n == m[k := v]
    ensures SumMap(n) == SumMap(m) + v - At(m, k)
  {
    SetAndOut(m, k, v);
    SumWithout(n, k);
    if k in m {
      SumWithout(m, k);
    }
  }

  lemma SumHolds(m: map<nat, nat>, k: nat)
    ensures At(m, k) <= SumMap(m)
  {
    if k in m {
      SumWithout(m, k);
    }
  }

  function Plus(m: map<nat, nat>, k: nat, v: nat): map<nat, nat> {
    m[k := At(m, k) + v]
  }

  function Minus(m: map<nat, nat>, k: nat, v: nat): map<nat, nat>
    requires v <= At(m, k)
  {
    m[k := At(m, k) - v]
  }

  lemma SumPlus(m: map<nat, nat>, k: nat, v: nat, n: map<nat, nat>)
    requires n == Plus(m, k, v)
    ensures At(m, k) <= SumMap(m)
    ensures SumMap(n) == SumMap(m) + v
  {
    SumHolds(m, k);
    SumWith(m, k, At(m, k) + v, n);
  }

  /** Moving an amount from one key to another keeps the sum, and stays below it. */
  lemma SumMoved(m: map<nat, nat>, debited: map<nat, nat>, j: nat, k: nat, v: nat, n: map<nat, nat>)
    requires v <= At(m, j) && debited == Minus(m, j, v)
    requires n == Plus(debited, k, v)
    ensures At(debited, k) + v <= SumMap(m)
    ensures SumMap(n) == SumMap(m)
  {
    SumWith(m, j, At(m, j) - v, debited);
    SumPlus(debited, k, v, n);
  }
}

/**
 * The six-decimal ERC-20 with checked 256-bit arithmetic. A call that reverts leaves
 * no trace; the functions say what each call returns and the class updates in place.
 */
module Token {
  import opened MapSums

  type Address = nat

  const MAX_UINT256: nat := 0xFFFF_FFFF_FFFF_FFFF_FFFF_FFFF_FFFF_FFFF_FFFF_FFFF_FFFF_FFFF_FFFF_FFFF_FFFF_FFFF

  type uint256 = x: nat | x <= MAX_UINT256

  datatype Revert =
    | NoAllowance | NoBalance | Overflow
    | NotSettler | BadState | DeadlinePassed | DeadlineNotReached | ZeroAmount

  datatype Result<+T> = Ok(value: T) | Reverted(why: Revert)

  /** The arguments of a Transfer event. */
  datatype Movement = Movement(from: Address, to: Address, value: nat)

  datatype Erc20 = Erc20(
    totalSupply: nat,
    balances: map<Address, nat>,
    allowances: map<(Address, Address), nat>,
    log: seq<Movement>)

  function BalanceOf(t: Erc20, a: Address): nat {
    At(t.balances, a)
  }

  function Allowance(t: Erc20, owner: Address, spender: Address): nat {
    if (owner, spender) in t.allowances then t.allowances[(owner, spender)] else 0
  }

  function Mint(t: Erc20, to: Address, amount: uint256): Result<Erc20> {
    if BalanceOf(t, to) + amount > MAX_UINT256 || t.totalSupply + amount > MAX_UINT256 then Reverted(Overflow)
    else
      Ok(t.(balances := Plus(t.balances, to, amount),
            totalSupply := t.totalSupply + amount,
            log := t.log + [Movement(0, to, amount)]))
  }

  function Approve(t: Erc20, caller: Address, spender: Address, amount: uint256): Erc20 {
    t.(allowances := t.allowances[(caller, spender) := amount])
  }

  /** Debits first, so a transfer to oneself changes nothing. */
  function Transfer(t: Erc20, from: Address, to: Address, amount: uint256): Result<Erc20> {
    if BalanceOf(t, from) < amount then Reverted(NoBalance)
    else
      var debited := Minus(t.balances, from, amount);
      if At(debited, to) + amount > MAX_UINT256 then Reverted(Overflow)
      else
        Ok(t.(balances := Plus(debited, to, amount),
              log := t.log + [Movement(from, to, amount)]))
  }

  /** A checked allowance is used, unless it is the largest word. */
  function Used(t: Erc20, caller: Address, from: Address, amount: nat): Erc20
    requires amount <= Allowance(t, from, caller)
  {
    var a := Allowance(t, from, caller);
    if a == MAX_UINT256 then t else t.(allowances := t.allowances[(from, caller) := a - amount])
  }

  function TransferFrom(t: Erc20, caller: Address, from: Address, to: Address, amount: uint256): Result<Erc20> {
    if Allowance(t, from, caller) < amount then Reverted(NoAllowance)
    else Transfer(Used(t, caller, from, amount), from, to, amount)
  }

  // ---- What every call keeps ------------------------------------------------

  /** Balances sum to the supply, which fits a word. */
  ghost predicate Balanced(t: Erc20) {
    SumMap(t.balances) == t.totalSupply <= MAX_UINT256
  }

  /** A mint goes through exactly when the supply still fits, and only its receiver has more. */
  lemma MintKeepsBalanced(t: Erc20, to: Address, amount: uint256)
    requires Balanced(t)
    ensures Mint(t, to, amount).Ok? <==> t.totalSupply + amount <= MAX_UINT256
    ensures var r := Mint(t, to, amount);
            r.Ok? ==>
              && Balanced(r.value) && r.value.totalSupply == t.totalSupply + amount
              && r.value.allowances == t.allowances
              && forall a :: BalanceOf(r.value, a) == BalanceOf(t, a) + (if a == to then amount else 0)
  {
    SumPlus(t.balances, to, amount, Plus(t.balances, to, amount));
  }

  lemma ApproveGrants(t: Erc20, caller: Address, spender: Address, amount: uint256, owner: Address, other: Address)
    ensures var u := Approve(t, caller, spender, amount);
            && Allowance(u, caller, spender) == amount
            && ((owner, other) != (caller, spender) ==> Allowance(u, owner, other) == Allowance(t, owner, other))
            && u.balances == t.balances && u.totalSupply == t.totalSupply && u.log == t.log
  {
  }

  /** The state a successful transfer leaves. */
  function After(r: Result<Erc20>, t: Erc20): Erc20 {
    if r.Ok? then r.value else t
  }

  /**
   * Under a balanced supply a transfer succeeds exactly when the sender has the
   * amount: crediting cannot overflow; and it creates and destroys nothing.
   */
  lemma TransferKeepsBalanced(t: Erc20, from: Address, to: Address, amount: uint256)
    requires Balanced(t)
    ensures var r := Transfer(t, from, to, amount);
            && (r.Ok? <==> BalanceOf(t, from) >= amount)
            && (r.Ok? ==> Balanced(r.value) && r.value.totalSupply == t.totalSupply)
  {
    if BalanceOf(t, from) >= amount {
      var debited := Minus(t.balances, from, amount);
      SumMoved(t.balances, debited, from, to, amount, Plus(debited, to, amount));
    }
  }

  /** What a transfer does to every balance; one to oneself does nothing. */
  predicate Moves(t: Erc20, u: Erc20, from: Address, to: Address, amount: nat)
    requires BalanceOf(t, from) >= amount
  {
    && u.log == t.log + [Movement(from, to, amount)]
    && BalanceOf(u, from) == BalanceOf(t, from) - (if to == from then 0 else amount)
    && BalanceOf(u, to) == BalanceOf(t, to) + (if to == from then 0 else amount)
  }

  lemma TransferMoves(t: Erc20, from: Address, to: Address, amount: uint256)
    requires Transfer(t, from, to, amount).Ok?
    ensures var u := Transfer(t, from, to, amount).value;
            && Moves(t, u, from, to, amount) && u.allowances == t.allowances
            && (forall a :: a != from && a != to ==> BalanceOf(u, a) == BalanceOf(t, a))
  {
  }

  /** The caller's allowance is down by the amount, unless it is the largest word; no other changes. */
  ghost predicate Spends(t: Erc20, u: Erc20, caller: Address, from: Address, amount: nat) {
    forall owner, spender ::
      Allowance(u, owner, spender)
      == if owner == from && spender == caller && Allowance(t, from, caller) != MAX_UINT256
         then Allowance(t, from, caller) - amount else Allowance(t, owner, spender)
  }

  /** Spending an allowance succeeds exactly when it and the balance suffice; only it is used. */
  lemma TransferFromSpends(t: Erc20, caller: Address, from: Address, to: Address, amount: uint256)
    requires Balanced(t)
    ensures var r := TransferFrom(t, caller, from, to, amount);
            && (r.Ok? <==> Allowance(t, from, caller) >= amount && BalanceOf(t, from) >= amount)
            && (r.Ok? ==>
                  && Balanced(r.value) && r.value.totalSupply == t.totalSupply
                  && Moves(t, r.value, from, to, amount)
                  && (forall a :: a != from && a != to ==> BalanceOf(r.value, a) == BalanceOf(t, a))
                  && Spends(t, r.value, caller, from, amount))
  {
    if Allowance(t, from, caller) >= amount {
      var used := Used(t, caller, from, amount);
      assert used.balances == t.balances && used.totalSupply == t.totalSupply;
      TransferKeepsBalanced(used, from, to, amount);
      if BalanceOf(t, from) >= amount {
        TransferMoves(used, from, to, amount);
        UsedSpends(t, caller, from, amount, used);
      }
    }
  }

  lemma UsedSpends(t: Erc20, caller: Address, from: Address, amount: nat, used: Erc20)
    requires amount <= Allowance(t, from, caller) && used == Used(t, caller, from, amount)
    ensures Spends(t, used, caller, from, amount)
  {
  }

  // ---- The contract as written ----------------------------------------------

  class MockERC20 {
    var totalSupply: nat
    var balanceOf: map<Address, nat>
    var allowance: map<(Address, Address), nat>
    var log: seq<Movement>

    constructor ()
      ensures View() == Erc20(0, map[], map[], [])
    {
      totalSupply, balanceOf, allowance, log := 0, map[], map[], [];
    }

    function View(): Erc20
      reads this
    {
      Erc20(totalSupply, balanceOf, allowance, log)
    }

    function Balance(a: Address): nat
      reads this
    {
      At(balanceOf, a)
    }

    method DoMint(to: Address, amount: uint256) returns (r: Result<()>)
      modifies this
      ensures r.Ok? <==> Mint(old(View()), to, amount).Ok?
      ensures r.Reverted? ==> r.why == Mint(old(View()), to, amount).why
      ensures View() == After(Mint(old(View()), to, amount), old(View()))
    {
      if Balance(to) + amount > MAX_UINT256 {
        return Reverted(Overflow);
      }
      var before := balanceOf;
      balanceOf := balanceOf[to := Balance(to) + amount];
      if totalSupply + amount > MAX_UINT256 {
        balanceOf := before;
        return Reverted(Overflow);
      }
      totalSupply := totalSupply + amount;
      log := log + [Movement(0, to, amount)];
      r := Ok(());
    }

    method DoApprove(caller: Address, spender: Address, amount: uint256)
      modifies this
      ensures View() == Approve(old(View()), caller, spender, amount)
    {
      allowance := allowance[(caller, spender) := amount];
    }

    /** Updates in place; the revert of a checked addition undoes the debit. */
    method MoveTokens(from: Address, to: Address, amount: uint256) returns (r: Result<()>)
      modifies this
      ensures r.Ok? <==> Transfer(old(View()), from, to, amount).Ok?
      ensures r.Reverted? ==> r.why == Transfer(old(View()), from, to, amount).why
      ensures View() == After(Transfer(old(View()), from, to, amount), old(View()))
    {
      if Balance(from) < amount {
        return Reverted(NoBalance);
      }
      var before := balanceOf;
      balanceOf := balanceOf[from := Balance(from) - amount];
      if Balance(to) + amount > MAX_UINT256 {
        balanceOf := before;
        return Reverted(Overflow);
      }
      balanceOf := balanceOf[to := Balance(to) + amount];
      log := log + [Movement(from, to, amount)];
      r := Ok(());
    }

    method DoTransferFrom(caller: Address, from: Address, to: Address, amount: uint256) returns (r: Result<()>)
      modifies this
      ensures r.Ok? <==> TransferFrom(old(View()), caller, from, to, amount).Ok?
      ensures r.Reverted? ==> r.why == TransferFrom(old(View()), caller, from, to, amount).why
      ensures View() == After(TransferFrom(old(View()), caller, from, to, amount), old(View()))
    {
      var a := if (from, caller) in allowance then allowance[(from, caller)] else 0;
      if a < amount {
        return Reverted(NoAllowance);
      }
      var before := allowance;
      if a != MAX_UINT256 {
        allowance := allowance[(from, caller) := a - amount];
      }
      r := MoveTokens(from, to, amount);
      if r.Reverted? {
        allowance := before;
      }
    }
  }
}
