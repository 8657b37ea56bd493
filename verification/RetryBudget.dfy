/** The token bucket that throttles retries, after the rule of gRFC A6,
    section "Throttling Retry Attempts and Hedged RPCs". */
module RetryBudgets {

  datatype Budget = Budget(tokens: real, maxTokens: real, tokenRatio: real)

  ghost predicate InRange(b: Budget) {
    0.0 <= b.tokens <= b.maxTokens && 0.0 < b.maxTokens && 0.0 < b.tokenRatio
  }

  function New(maxTokens: real, tokenRatio: real): (b: Budget)
    ensures InRange(b) && b.tokens == b.maxTokens
  {
    var m := if maxTokens <= 0.0 then 100.0 else maxTokens;
    Budget(m, m, if tokenRatio <= 0.0 then 0.1 else tokenRatio)
  }

  predicate Allows(b: Budget) {
    b.tokens > b.maxTokens / 2.0
  }

  function AfterFailure(b: Budget): (r: Budget)
    ensures InRange(b) ==> InRange(r)
  {
    b.(tokens := if b.tokens - 1.0 < 0.0 then 0.0 else b.tokens - 1.0)
  }

  function AfterSuccess(b: Budget): (r: Budget)
    ensures InRange(b) ==> InRange(r)
  {
    b.(tokens := if b.tokens + b.tokenRatio > b.maxTokens then b.maxTokens else b.tokens + b.tokenRatio)
  }

  class RetryBudget {
    var tokens: real
    const maxTokens: real
    const tokenRatio: real

    function Value(): Budget reads this { Budget(tokens, maxTokens, tokenRatio) }

    constructor (maxTokens: real, tokenRatio: real)
      ensures Value() == New(maxTokens, tokenRatio)
    {
      var m, r := maxTokens, tokenRatio;
      if m <= 0.0 { m := 100.0; }
      if r <= 0.0 { r := 0.1; }
      this.tokens, this.maxTokens, this.tokenRatio := m, m, r;
    }

    method Allow() returns (ok: bool)
      ensures ok == Allows(Value())
    {
      ok := tokens > maxTokens / 2.0;
    }

    method OnFailure()
      modifies this
      ensures Value() == AfterFailure(old(Value()))
    {
      tokens := tokens - 1.0;
      if tokens < 0.0 { tokens := 0.0; }
    }

    method OnSuccess()
      modifies this
      ensures Value() == AfterSuccess(old(Value()))
    {
      tokens := tokens + tokenRatio;
      if tokens > maxTokens { tokens := maxTokens; }
    }
  }

  // ----- The potential that pays for granted retries

  /** What one granted retry that fails takes out of the bucket at least: a whole token,
      or half of a bucket smaller than two tokens. */
  function Price(b: Budget): real {
    if b.maxTokens >= 2.0 then 1.0 else b.maxTokens / 2.0
  }

  function Potential(b: Budget): real {
    var floor := b.maxTokens / 2.0 - Price(b);
    if b.tokens > floor then b.tokens else floor
  }

  lemma PotentialFacts(b: Budget)
    requires InRange(b)
    ensures b.maxTokens / 2.0 - Price(b) <= Potential(b) <= b.maxTokens
    ensures Allows(b) ==> Potential(AfterFailure(b)) + Price(b) <= Potential(b)
    ensures Potential(AfterFailure(b)) <= Potential(b)
    ensures Potential(AfterSuccess(b)) <= Potential(b) + b.tokenRatio
  {
  }

  /** A hundred tokens and a tenth of one per success, unless positive numbers are given. */
  lemma NewMeans(maxTokens: real, tokenRatio: real)
    ensures
      var b := New(maxTokens, tokenRatio);
      && (0.0 < maxTokens ==> b.maxTokens == maxTokens) && (maxTokens <= 0.0 ==> b.maxTokens == 100.0)
      && (0.0 < tokenRatio ==> b.tokenRatio == tokenRatio) && (tokenRatio <= 0.0 ==> b.tokenRatio == 0.1)
  {
  }

  // ----- Outage and recovery

  function Failures(b: Budget, n: nat): Budget {
    if n == 0 then b else AfterFailure(Failures(b, n - 1))
  }

  function Successes(b: Budget, n: nat): Budget {
    if n == 0 then b else AfterSuccess(Successes(b, n - 1))
  }

  lemma {:induction false} Drained(b: Budget, n: nat)
    requires InRange(b)
    ensures Failures(b, n) == b.(tokens := if b.tokens < n as real then 0.0 else b.tokens - n as real)
  {
    if n > 0 { Drained(b, n - 1); }
  }

  /** The bucket after `x` more tokens were offered. */
  function Topped(b: Budget, x: real): Budget {
    b.(tokens := if b.tokens + x > b.maxTokens then b.maxTokens else b.tokens + x)
  }

  lemma ToppedAgain(b: Budget, x: real)
    requires InRange(b) && 0.0 <= x
    ensures AfterSuccess(Topped(b, x)) == Topped(b, x + b.tokenRatio)
  {
  }

  /** What `n` successes offer. */
  function Offered(n: nat, ratio: real): real {
    if n == 0 then 0.0 else Offered(n - 1, ratio) + ratio
  }

  lemma {:induction false} OfferedIs(n: nat, ratio: real)
    ensures Offered(n, ratio) == n as real * ratio
  {
    if n > 0 {
      OfferedIs(n - 1, ratio);
      assert n as real * ratio == (n - 1) as real * ratio + ratio;
    }
  }

  lemma {:induction false} Refilled(b: Budget, n: nat)
    requires InRange(b)
    ensures Successes(b, n) == Topped(b, Offered(n, b.tokenRatio)) && 0.0 <= Offered(n, b.tokenRatio)
  {
    if n > 0 {
      hide AfterSuccess, Topped;
      Refilled(b, n - 1);
      ToppedAgain(b, Offered(n - 1, b.tokenRatio));
    }
  }

  /** Failures in a row on a new budget stop retries exactly when half the tokens are gone, and
      successes in a row bring them back exactly when they have paid in more than the gap. */
  lemma OutageAndRecovery(maxTokens: real, tokenRatio: real, lost: nat, won: nat)
    ensures
      var b := New(maxTokens, tokenRatio);
      var low := Failures(b, lost);
      && (Allows(low) <==> lost as real < b.maxTokens / 2.0)
      && (Allows(Successes(low, won)) <==> low.tokens + won as real * b.tokenRatio > b.maxTokens / 2.0)
  {
    hide Failures, Successes, Offered;
    var b := New(maxTokens, tokenRatio);
    Drained(b, lost);
    Refilled(Failures(b, lost), won);
    OfferedIs(won, b.tokenRatio);
  }
}
