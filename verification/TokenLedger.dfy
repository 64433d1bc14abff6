/** The token bucket over a run of calls.

    A bucket's level and what a full clock has earned by then, measured in tokens, say
    all there is to say about it. What follows are the steps of the bucket, the ledger
    of a run of calls, what a conforming flow leaves room for at each of them, and how
    this reads in seconds. */
module TokenLedger {

  // ----- The token bucket -----

  /** The tokens held and what a full clock had earned, rate * time, at the last
      call. Measuring time in tokens leaves only sums and differences below. */
  datatype Level = Level(tokens: real, earned: real)

  function Earned(rate: real, time: real): real { rate * time }

  function MinReal(a: real, b: real): real { if a < b then a else b }

  function Refill(burst: real, level: Level, earned: real): real {
    MinReal(burst, level.tokens + (earned - level.earned))
  }

  /** The level after a call, and whether the call was granted. */
  function Take(burst: real, level: Level, earned: real): (Level, bool) {
    var tokens := Refill(burst, level, earned);
    if tokens >= 1.0 then (Level(tokens - 1.0, earned), true) else (Level(tokens, earned), false)
  }

  predicate Nondecreasing(times: seq<real>) {
    forall i, j :: 0 <= i < j < |times| ==> times[i] <= times[j]
  }

  /** One call: what a full clock had earned by then, the tokens found after
      refilling, and the answer. */
  datatype Call = Call(earned: real, tokens: real, granted: bool)

  /** The limiter, full at the start, called at each of the given points. */
  function Play(burst: real, start: real, clock: seq<real>): (Level, seq<Call>) {
    if clock == [] then (Level(burst, start), [])
    else
      var (before, calls) := Play(burst, start, clock[..|clock| - 1]);
      var now := clock[|clock| - 1];
      var (after, ok) := Take(burst, before, now);
      (after, calls + [Call(now, Refill(burst, before, now), ok)])
  }

  predicate ValidClock(start: real, clock: seq<real>) {
    Nondecreasing(clock) && (clock != [] ==> start <= clock[0])
  }

  /** What is left once the call has taken its token, if it was granted one. */
  function Left(c: Call): real { if c.granted then c.tokens - 1.0 else c.tokens }

  /** What one call found, given what the previous one left. */
  predicate Follows(burst: real, prev: Call, next: Call) {
    && prev.earned <= next.earned
    && next.tokens == MinReal(burst, Left(prev) + next.earned - prev.earned)
  }

  predicate Sound(burst: real, c: Call) {
    0.0 <= c.tokens <= burst && (c.granted <==> c.tokens >= 1.0)
  }

  /** The bookkeeping of a run. */
  ghost predicate Ledger(burst: real, calls: seq<Call>) {
    && (calls != [] ==> calls[0].tokens == burst)
    && (forall k | 0 <= k < |calls| :: Sound(burst, calls[k]))
    && (forall j, k | 0 <= j < k < |calls| && k == j + 1 :: Follows(burst, calls[j], calls[k]))
  }

  lemma {:induction false} PlayIsLedger(burst: real, start: real, clock: seq<real>)
    requires burst >= 1.0 && ValidClock(start, clock)
    ensures
      var (level, calls) := Play(burst, start, clock);
      && |calls| == |clock|
      && (forall k | 0 <= k < |clock| :: calls[k].earned == clock[k])
      && Ledger(burst, calls)
      && level.tokens == (if calls == [] then burst else Left(calls[|calls| - 1]))
      && level.earned == (if clock == [] then start else clock[|clock| - 1])
  {
    if clock != [] {
      var n := |clock| - 1;
      PlayIsLedger(burst, start, clock[..n]);
      var (before, calls) := Play(burst, start, clock[..n]);
      assert before.earned <= clock[n] by {
        if n > 0 { assert clock[n - 1] <= clock[n]; }
      }
      var last := Call(clock[n], Refill(burst, before, clock[n]), Take(burst, before, clock[n]).1);
      LedgerExtend(burst, calls, last);
    }
  }

  lemma LedgerExtend(burst: real, calls: seq<Call>, last: Call)
    requires burst >= 1.0 && Ledger(burst, calls)
    requires last.granted <==> last.tokens >= 1.0
    requires if calls == [] then last.tokens == burst else Follows(burst, calls[|calls| - 1], last)
    ensures Ledger(burst, calls + [last])
  {}

  /** Grants among calls i, ..., j-1. */
  function Grants(calls: seq<Call>, i: nat, j: nat): nat
    requires i <= j <= |calls|
    decreases j
  {
    if i == j then 0 else Grants(calls, i, j - 1) + (if calls[j - 1].granted then 1 else 0)
  }

  /** What a conforming flow may still send at call k, judged from call i on. */
  function Allowance(burst: real, calls: seq<Call>, i: nat, k: nat): real
    requires i <= k < |calls|
  {
    burst + (calls[k].earned - calls[i].earned) - Grants(calls, i, k) as real
  }

  /** The tokens never exceed what any earlier call leaves room for ... */
  lemma {:induction false} TokensBelowAllowance(burst: real, calls: seq<Call>, i: nat, k: nat)
    requires Ledger(burst, calls) && i <= k < |calls|
    ensures calls[k].tokens <= Allowance(burst, calls, i, k)
    decreases k
  {
    if i < k {
      TokensBelowAllowance(burst, calls, i, k - 1);
      assert Follows(burst, calls[k - 1], calls[k]);
    }
  }

  /** ... and some earlier call leaves no more room than they do. */
  lemma {:induction false} TokensReachAllowance(burst: real, calls: seq<Call>, k: nat) returns (i: nat)
    requires Ledger(burst, calls) && k < |calls|
    ensures i <= k && calls[k].tokens == Allowance(burst, calls, i, k)
    decreases k
  {
    i := k;
    if k != 0 && calls[k].tokens != burst {
      i := TokensReachAllowance(burst, calls, k - 1);
      assert Follows(burst, calls[k - 1], calls[k]);
    }
  }

  lemma {:induction false} GrantsWithinLedger(burst: real, calls: seq<Call>, i: nat, k: nat)
    requires burst >= 1.0 && Ledger(burst, calls) && i <= k < |calls|
    ensures Grants(calls, i, k + 1) as real <= burst + (calls[k].earned - calls[i].earned)
    decreases k
  {
    if calls[k].granted {
      TokensBelowAllowance(burst, calls, i, k);
    } else if i < k {
      GrantsWithinLedger(burst, calls, i, k - 1);
      assert Follows(burst, calls[k - 1], calls[k]);
    }
  }

  lemma GrantedIffLedgerAllows(burst: real, calls: seq<Call>, k: nat)
    requires Ledger(burst, calls) && k < |calls|
    ensures calls[k].granted <==> forall i | 0 <= i <= k :: Allowance(burst, calls, i, k) >= 1.0
  {
    var tight := TokensReachAllowance(burst, calls, k);
    forall i | 0 <= i <= k
      ensures calls[k].tokens <= Allowance(burst, calls, i, k)
    {
      TokensBelowAllowance(burst, calls, i, k);
    }
    assert Allowance(burst, calls, tight, k) == calls[k].tokens;
  }

  // ----- The same, in seconds -----

  datatype Limit = Limit(rate: real, burst: real)

  predicate ValidLimit(l: Limit) { l.rate > 0.0 && l.burst >= 1.0 }

  /** What a full clock has earned at each of the given times. */
  function Earnings(rate: real, times: seq<real>): (r: seq<real>)
    ensures |r| == |times| && forall i | 0 <= i < |times| :: r[i] == Earned(rate, times[i])
  {
    seq(|times|, i requires 0 <= i < |times| => Earned(rate, times[i]))
  }

  /** The limiter, full at time `start`, called at the given times. */
  function Calls(l: Limit, start: real, times: seq<real>): seq<Call> {
    Play(l.burst, Earned(l.rate, start), Earnings(l.rate, times)).1
  }

  lemma EarnedOrdered(rate: real, s: real, t: real)
    requires rate > 0.0 && s <= t
    ensures Earned(rate, s) <= Earned(rate, t)
  {}

  lemma EarnedBetween(rate: real, s: real, t: real)
    ensures Earned(rate, t) - Earned(rate, s) == Earned(rate, t - s)
  {}

  lemma EarningsOrdered(l: Limit, start: real, times: seq<real>)
    requires ValidLimit(l) && ValidClock(start, times)
    ensures ValidClock(Earned(l.rate, start), Earnings(l.rate, times))
  {
    hide Earned;
    forall i, j | 0 <= i < j < |times|
      ensures Earned(l.rate, times[i]) <= Earned(l.rate, times[j])
    {
      EarnedOrdered(l.rate, times[i], times[j]);
    }
    if times != [] {
      EarnedOrdered(l.rate, start, times[0]);
    }
  }

  lemma CallsAreLedger(l: Limit, start: real, times: seq<real>)
    requires ValidLimit(l) && ValidClock(start, times)
    ensures |Calls(l, start, times)| == |times| && Ledger(l.burst, Calls(l, start, times))
    ensures forall i, k | 0 <= i <= k < |times| ::
              Calls(l, start, times)[k].earned - Calls(l, start, times)[i].earned == Earned(l.rate, times[k] - times[i])
  {
    hide Earned;
    EarningsOrdered(l, start, times);
    PlayIsLedger(l.burst, Earned(l.rate, start), Earnings(l.rate, times));
    forall i, k | 0 <= i <= k < |times|
      ensures Earned(l.rate, times[k]) - Earned(l.rate, times[i]) == Earned(l.rate, times[k] - times[i])
    {
      EarnedBetween(l.rate, times[i], times[k]);
    }
  }

  /** Granting call k keeps the flow bound over the sub-run from call i. */
  ghost predicate Conforms(l: Limit, times: seq<real>, calls: seq<Call>, i: nat, k: nat)
    requires i <= k < |times| == |calls|
  {
    Grants(calls, i, k) as real + 1.0 <= l.burst + Earned(l.rate, times[k] - times[i])
  }

  lemma ConformsIffAllowed(l: Limit, times: seq<real>, calls: seq<Call>, i: nat, k: nat)
    requires i <= k < |times| == |calls|
    requires calls[k].earned - calls[i].earned == Earned(l.rate, times[k] - times[i])
    ensures Conforms(l, times, calls, i, k) <==> Allowance(l.burst, calls, i, k) >= 1.0
  {
    hide Earned;
  }
}
