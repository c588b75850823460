/**
 * The relayer's arithmetic and its retry loop as functions: 25% fee bumps,
 * capped exponential backoff, and what a series of broadcast attempts comes to.
 */
module RetryPolicy {
  import opened Basics
  import opened Rail

  // ---- Fees -----------------------------------------------------------------

  function BumpFee(fee: nat): nat {
    fee * 125 / 100
  }

  function BumpFees(fees: Fees): Fees {
    Fees(BumpFee(fees.maxFee), BumpFee(fees.priority))
  }

  function Bumps(fee: nat, k: nat): nat {
    if k == 0 then fee else BumpFee(Bumps(fee, k - 1))
  }

  function BumpsOf(fees: Fees, k: nat): Fees {
    Fees(Bumps(fees.maxFee, k), Bumps(fees.priority, k))
  }

  function Pow(b: nat, e: nat): nat {
    if e == 0 then 1 else b * Pow(b, e - 1)
  }

  /** One bump is at most 5/4 and, above 3, at least 5/4 of the excess; it grows iff the fee is 4 or more. */
  lemma BumpBounds(fee: nat)
    ensures 4 * BumpFee(fee) <= 5 * fee
    ensures 5 * (fee - 3) <= 4 * (BumpFee(fee) - 3)
    ensures BumpFee(fee) > fee <==> fee >= 4
  {
  }

  /** Chaining one ratio of 5 to 4 onto p to q. */
  lemma ChainRatio(p: nat, q: nat, a: int, b: int, c: int)
    requires p * a <= q * b
    requires 5 * b <= 4 * c
    ensures (5 * p) * a <= (4 * q) * c
  {
    assert (5 * p) * a == 5 * (p * a);
    assert 5 * (q * b) == q * (5 * b);
    assert q * (5 * b) <= q * (4 * c);
    assert q * (4 * c) == (4 * q) * c;
  }

  lemma ChainRatioDown(p: nat, q: nat, a: int, b: int, c: int)
    requires q * b <= p * a
    requires 4 * c <= 5 * b
    ensures (4 * q) * c <= (5 * p) * a
  {
    assert (5 * p) * a == 5 * (p * a);
    assert 5 * (q * b) == q * (5 * b);
    assert q * (4 * c) <= q * (5 * b);
    assert q * (4 * c) == (4 * q) * c;
  }

  /** Geometric bounds on a fee after k bumps, and growth by one unit per bump from 4 on. */
  lemma {:induction false} FeeAfterBumps(x: nat, k: nat)
    ensures Pow(5, k) * (x - 3) <= Pow(4, k) * (Bumps(x, k) - 3)
    ensures Pow(4, k) * Bumps(x, k) <= Pow(5, k) * x
    ensures x >= 4 ==> Bumps(x, k) >= x + k
  {
    if k > 0 {
      FeeAfterBumps(x, k - 1);
      var f: int := Bumps(x, k - 1);
      BumpBounds(f);
      ChainRatio(Pow(5, k - 1), Pow(4, k - 1), x - 3, f - 3, BumpFee(f) - 3);
      ChainRatioDown(Pow(5, k - 1), Pow(4, k - 1), x, f, BumpFee(f));
    }
  }

  lemma {:induction false} CapCoversTip(fees: Fees, k: nat)
    requires fees.priority <= fees.maxFee
    ensures BumpsOf(fees, k).priority <= BumpsOf(fees, k).maxFee
  {
    if k > 0 {
      CapCoversTip(fees, k - 1);
    }
  }

  lemma {:induction false} BumpsFromFirst(fee: nat, k: nat)
    ensures Bumps(BumpFee(fee), k) == Bumps(fee, k + 1)
  {
    if k > 0 {
      BumpsFromFirst(fee, k - 1);
    }
  }

  // ---- Backoff --------------------------------------------------------------

  function BackoffMs(attempt: nat): nat {
    Min(1000 * Pow(2, attempt), 8000)
  }

  /** The sleeps after attempts 0 .. n-1. */
  function SleptMs(n: nat): nat {
    if n == 0 then 0 else SleptMs(n - 1) + BackoffMs(n - 1)
  }

  lemma {:induction false} PowTwoLarge(e: nat)
    requires e >= 3
    ensures Pow(2, e) >= 8
  {
    if e == 3 {
      assert Pow(2, 3) == 2 * Pow(2, 2) && Pow(2, 2) == 2 * Pow(2, 1);
    } else {
      PowTwoLarge(e - 1);
    }
  }

  /** Doubling up to three sleeps, then eight seconds each. */
  lemma {:induction false} SleptInClosedForm(n: nat)
    ensures SleptMs(n) == if n <= 3 then 1000 * (Pow(2, n) - 1) else 7000 + 8000 * (n - 3)
  {
    if n > 0 {
      SleptInClosedForm(n - 1);
      if n > 3 {
        PowTwoLarge(n - 1);
        if n == 4 {
          assert Pow(2, 3) == 2 * Pow(2, 2) && Pow(2, 2) == 2 * Pow(2, 1);
        }
      } else {
        assert Pow(2, n) == 2 * Pow(2, n - 1);
        assert Pow(2, 0) == 1 && Pow(2, 1) == 2 && Pow(2, 2) == 2 * Pow(2, 1);
      }
    }
  }

  // ---- The retry loop -------------------------------------------------------

  /** How the policy classifies a failed broadcast. */
  datatype ErrorClass = ErrorClass(retryable: bool, resync: bool, underpriced: bool)

  datatype Reply = Took | Threw(cls: ErrorClass)

  /** What a series of attempts ends with. */
  datatype Outcome = Outcome(sent: bool, permanent: bool, nonce: nat, fees: Fees, retry: nat, failures: nat)

  /** The nonce refetched after a failed attempt; a resumed job keeps its own. */
  function Resynced(answer: Reply, resume: bool, pending: nat): Option<nat> {
    if answer.Threw? && answer.cls.resync && !resume then Some(pending) else None
  }

  function NextNonceAfter(answer: Reply, resume: bool, pending: nat, nonce: nat): nat {
    if Resynced(answer, resume, pending).Some? then pending else nonce
  }

  function NextFeesAfter(answer: Reply, fees: Fees): Fees {
    if answer.Threw? && answer.cls.underpriced then BumpFees(fees) else fees
  }

  predicate IsLast(answer: Reply, retry: nat, maxRetries: nat) {
    answer.Took? || !answer.cls.retryable || retry + 1 > maxRetries
  }

  /** How the last attempt ends the series, after this many failed ones. */
  function Ended(answer: Reply, nonce: nat, fees: Fees, retry: nat, failures: nat): Outcome {
    var permanent := answer.Threw? && !answer.cls.retryable;
    Outcome(answer.Took?, permanent, nonce, fees, if answer.Took? || permanent then retry else retry + 1, failures)
  }

  /**
   * Attempts from broadcast number `call` on, the chain answering reply(call) and
   * a nonce refetch pending(call), after `made` earlier attempts.
   */
  function Attempts(
      reply: nat -> Reply, pending: nat -> nat, call: nat, made: nat, resume: bool,
      nonce: nat, fees: Fees, retry: nat, maxRetries: nat): Outcome
    decreases if retry <= maxRetries then maxRetries - retry + 1 else 0
  {
    var answer := reply(call);
    if IsLast(answer, retry, maxRetries) then Ended(answer, nonce, fees, retry, made)
    else
      Attempts(reply, pending, call + 1, made + 1, resume,
               NextNonceAfter(answer, resume, pending(call), nonce), NextFeesAfter(answer, fees),
               retry + 1, maxRetries)
  }

  /** The refetches of n failed attempts from broadcast number `call` on. */
  function Refetches(reply: nat -> Reply, pending: nat -> nat, call: nat, resume: bool, n: nat): seq<Option<nat>>
    decreases n
  {
    if n == 0 then []
    else [Resynced(reply(call), resume, pending(call))] + Refetches(reply, pending, call + 1, resume, n - 1)
  }

  /**
   * The loop ends: from a stored retry count r at most MAX_RETRIES - r attempts
   * fail and are retried (none if r is already above) before the last one. It counts
   * every failure, never sends with a retry count above both, and raises the fees at
   * most once per failure.
   */
  lemma {:induction false} AttemptsBounded(
      reply: nat -> Reply, pending: nat -> nat, call: nat, made: nat, resume: bool,
      nonce: nat, fees: Fees, retry: nat, maxRetries: nat) returns (k: nat)
    ensures var o := Attempts(reply, pending, call, made, resume, nonce, fees, retry, maxRetries);
            && made <= o.failures <= made + (if retry <= maxRetries then maxRetries - retry else 0)
            && o.retry == retry + (o.failures - made) + (if o.sent || o.permanent then 0 else 1)
            && (o.sent ==> o.retry == retry || o.retry <= maxRetries)
            && (!o.sent && !o.permanent ==> o.retry > maxRetries)
            && (resume ==> o.nonce == nonce)
            && k <= o.failures - made
            && o.fees == BumpsOf(fees, k)
    decreases if retry <= maxRetries then maxRetries - retry + 1 else 0
  {
    k := 0;
    var answer := reply(call);
    if !IsLast(answer, retry, maxRetries) {
      k := AttemptsBounded(reply, pending, call + 1, made + 1, resume,
                           NextNonceAfter(answer, resume, pending(call), nonce), NextFeesAfter(answer, fees),
                           retry + 1, maxRetries);
      if answer.cls.underpriced {
        BumpsFromFirst(fees.maxFee, k);
        BumpsFromFirst(fees.priority, k);
        k := k + 1;
      }
    }
  }

  // ---- What a series of attempts comes to, told by the answers alone --------

  predicate WorthRetry(answer: Reply) {
    answer.Threw? && answer.cls.retryable
  }

  predicate Resyncs(answer: Reply) {
    answer.Threw? && answer.cls.resync
  }

  /** How many of the n answers from number `call` on say the fees were too low. */
  function Underpriced(reply: nat -> Reply, call: nat, n: nat): nat {
    if n == 0 then 0
    else Underpriced(reply, call, n - 1) + (if reply(call + n - 1) == Took then 0
                                            else if reply(call + n - 1).cls.underpriced then 1 else 0)
  }

  lemma {:induction false} UnderpricedFirst(reply: nat -> Reply, call: nat, n: nat)
    requires n > 0
    ensures Underpriced(reply, call, n)
            == Underpriced(reply, call, 1) + Underpriced(reply, call + 1, n - 1)
  {
    if n > 1 {
      UnderpricedFirst(reply, call, n - 1);
      assert call + n - 1 == call + 1 + (n - 1) - 1;
    }
  }

  /** The nonce after those answers: the pending count read at the latest nonce error, else the first one. */
  ghost predicate NonceFollows(reply: nat -> Reply, pending: nat -> nat, call: nat, n: nat, resume: bool,
                               first: nat, nonce: nat)
  {
    if resume || (forall i: nat :: call <= i < call + n ==> !Resyncs(reply(i))) then nonce == first
    else
      exists i: nat ::
        && call <= i < call + n && Resyncs(reply(i)) && nonce == pending(i)
        && (forall j: nat :: i < j < call + n ==> !Resyncs(reply(j)))
  }

  /**
   * The n answers from `call` on were all failures worth a retry, and the next one
   * ended the loop: accepted, refused for good, or one failure too many. The fees are
   * the first ones raised once per underpriced answer, and by nothing else.
   */
  ghost predicate Follows(reply: nat -> Reply, pending: nat -> nat, call: nat, n: nat, resume: bool,
                          nonce: nat, fees: Fees, retry: nat, maxRetries: nat, o: Outcome)
  {
    var last, raises := reply(call + n), Underpriced(reply, call, n);
    && (forall i: nat :: call <= i < call + n ==> WorthRetry(reply(i)))
    && (n > 0 ==> retry + n <= maxRetries)
    && (o.sent <==> last.Took?)
    && (o.permanent <==> last.Threw? && !last.cls.retryable)
    && (WorthRetry(last) ==> retry + n + 1 > maxRetries)
    && o.retry == retry + n + (if WorthRetry(last) then 1 else 0)
    && o.fees.maxFee == Bumps(fees.maxFee, raises) && o.fees.priority == Bumps(fees.priority, raises)
    && NonceFollows(reply, pending, call, n, resume, nonce, o.nonce)
  }

  lemma NonceFollowsFirst(reply: nat -> Reply, pending: nat -> nat, call: nat, n: nat, resume: bool,
                          first: nat, next: nat, nonce: nat)
    requires n > 0
    requires next == if Resyncs(reply(call)) && !resume then pending(call) else first
    requires NonceFollows(reply, pending, call + 1, n - 1, resume, next, nonce)
    ensures NonceFollows(reply, pending, call, n, resume, first, nonce)
  {
    if !resume {
      if i: nat :| call + 1 <= i < call + n && Resyncs(reply(i)) {
        assert call + 1 + (n - 1) == call + n;
      } else if Resyncs(reply(call)) {
        assert nonce == pending(call);
      }
    }
  }

  lemma RaisesFollow(reply: nat -> Reply, call: nat, n: nat, fees: Fees, next: Fees)
    requires n > 0 && WorthRetry(reply(call))
    requires next == if reply(call).cls.underpriced then BumpFees(fees) else fees
    ensures BumpsOf(next, Underpriced(reply, call + 1, n - 1)) == BumpsOf(fees, Underpriced(reply, call, n))
  {
    UnderpricedFirst(reply, call, n);
    assert Underpriced(reply, call, 1) == Underpriced(reply, call, 0) + (if reply(call).cls.underpriced then 1 else 0);
    BumpsFromFirst(fees.maxFee, Underpriced(reply, call + 1, n - 1));
    BumpsFromFirst(fees.priority, Underpriced(reply, call + 1, n - 1));
  }

  /** A first failure, and then what the remaining answers say. */
  lemma FollowsFirst(reply: nat -> Reply, pending: nat -> nat, call: nat, n: nat, resume: bool, nonce: nat, next: nat,
                     fees: Fees, raised: Fees, retry: nat, maxRetries: nat, o: Outcome)
    requires n > 0 && WorthRetry(reply(call)) && retry + 1 <= maxRetries
    requires next == if Resyncs(reply(call)) && !resume then pending(call) else nonce
    requires raised == if reply(call).cls.underpriced then BumpFees(fees) else fees
    requires Follows(reply, pending, call + 1, n - 1, resume, next, raised, retry + 1, maxRetries, o)
    ensures Follows(reply, pending, call, n, resume, nonce, fees, retry, maxRetries, o)
  {
    assert call + 1 + (n - 1) == call + n;
    NonceFollowsFirst(reply, pending, call, n, resume, nonce, next, o.nonce);
    RaisesFollow(reply, call, n, fees, raised);
  }

  /** So the loop does what its answers say, for every sequence of answers. */
  lemma {:induction false} AttemptsFollow(
      reply: nat -> Reply, pending: nat -> nat, call: nat, made: nat, resume: bool,
      nonce: nat, fees: Fees, retry: nat, maxRetries: nat, o: Outcome)
    requires o == Attempts(reply, pending, call, made, resume, nonce, fees, retry, maxRetries)
    ensures o.failures >= made
    ensures Follows(reply, pending, call, o.failures - made, resume, nonce, fees, retry, maxRetries, o)
    decreases if retry <= maxRetries then maxRetries - retry + 1 else 0
  {
    var answer := reply(call);
    if !IsLast(answer, retry, maxRetries) {
      var next, raised := NextNonceAfter(answer, resume, pending(call), nonce), NextFeesAfter(answer, fees);
      AttemptsFollow(reply, pending, call + 1, made + 1, resume, next, raised, retry + 1, maxRetries, o);
      FollowsFirst(reply, pending, call, o.failures - made, resume, nonce, next, fees, raised, retry, maxRetries, o);
    }
  }
}
