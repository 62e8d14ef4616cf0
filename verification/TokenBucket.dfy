/** The token bucket that throttles the transaction stream, over exact reals. Times are
    milliseconds. */
module TokenBuckets {

  datatype Bucket = Bucket(capacity: real, refillPerSec: real, tokens: real, lastRefillMs: real)

  function New(capacity: real, refillPerSec: real, now: real): Bucket {
    Bucket(capacity, refillPerSec, capacity, now)
  }

  function MinReal(a: real, b: real): real { if a <= b then a else b }

  function Refill(b: Bucket, now: real): Bucket {
    var elapsed := (now - b.lastRefillMs) / 1000.0;
    if elapsed > 0.0 && b.refillPerSec > 0.0
    then b.(tokens := MinReal(b.capacity, b.tokens + elapsed * b.refillPerSec), lastRefillMs := now)
    else b
  }

  function Consume(b: Bucket, now: real): (Bucket, bool) {
    var r := Refill(b, now);
    if r.tokens >= 1.0 then (r.(tokens := r.tokens - 1.0), true) else (r, false)
  }

  class TokenBucket {
    const capacity: real
    const refillPerSec: real
    var tokens: real
    var lastRefillMs: real

    ghost function View(): Bucket
      reads this
    {
      Bucket(capacity, refillPerSec, tokens, lastRefillMs)
    }

    constructor (capacity: real, refillPerSec: real, now: real)
      ensures View() == New(capacity, refillPerSec, now)
    {
      this.capacity := capacity;
      this.refillPerSec := refillPerSec;
      tokens := capacity;
      lastRefillMs := now;
    }

    method TryConsume(now: real) returns (ok: bool)
      modifies this
      ensures (View(), ok) == Consume(old(View()), now)
    {
      var elapsed := (now - lastRefillMs) / 1000.0;
      if elapsed > 0.0 && refillPerSec > 0.0 {
        tokens := MinReal(capacity, tokens + elapsed * refillPerSec);
        lastRefillMs := now;
      }
      assert View() == Refill(old(View()), now);
      hide Refill;
      if tokens >= 1.0 {
        tokens := tokens - 1.0;
        return true;
      }
      return false;
    }
  }

  // ---- runs: a new bucket and calls at non-decreasing times ----

  datatype Calls = Calls(capacity: real, refillPerSec: real, start: real, times: seq<real>) {

    ghost predicate Valid() {
      && capacity >= 0.0
      && (forall i :: 0 <= i < |times| ==> start <= times[i])
      && (forall i, j :: 0 <= i <= j < |times| ==> times[i] <= times[j])
    }

    /** The bucket just before call k. */
    ghost function Before(k: nat): Bucket
      requires k <= |times|
    {
      if k == 0 then New(capacity, refillPerSec, start) else Consume(Before(k - 1), times[k - 1]).0
    }

    ghost predicate Accepted(k: nat)
      requires k < |times|
    {
      Consume(Before(k), times[k]).1
    }

    /** How many of the calls i .. k-1 were accepted. */
    ghost function Count(i: nat, k: nat): nat
      requires k <= |times|
    {
      if k <= i then 0 else Count(i, k - 1) + if Accepted(k - 1) then 1 else 0
    }

    /** Tokens refilled over a time span, the cap aside. */
    ghost function Gain(span: real): real {
      if refillPerSec > 0.0 then refillPerSec * span / 1000.0 else 0.0
    }

    /** What a window opened by call i leaves at the time of call k. */
    ghost function Budget(i: nat, k: nat): real
      requires i <= k < |times|
    {
      capacity + Gain(times[k] - times[i]) - Count(i, k) as real
    }

    ghost function Level(k: nat): real
      requires k < |times|
    {
      Refill(Before(k), times[k]).tokens
    }
  }

  lemma GainAdd(c: Calls, x: real, y: real)
    ensures c.Gain(x + y) == c.Gain(x) + c.Gain(y)
  {
    assert c.refillPerSec * (x + y) == c.refillPerSec * x + c.refillPerSec * y;
  }

  /** One refill, stated without the product. */
  lemma RefillMeaning(c: Calls, b: Bucket, now: real)
    requires b.capacity == c.capacity && b.refillPerSec == c.refillPerSec
    requires 0.0 <= b.tokens <= b.capacity && b.lastRefillMs <= now
    ensures var r := Refill(b, now);
            && r == b.(tokens := r.tokens, lastRefillMs := r.lastRefillMs)
            && r.tokens == MinReal(c.capacity, b.tokens + c.Gain(now - b.lastRefillMs))
            && 0.0 <= r.tokens <= c.capacity
            && c.Gain(now - b.lastRefillMs) >= 0.0
            && r.lastRefillMs == (if c.refillPerSec > 0.0 then now else b.lastRefillMs)
            && (c.refillPerSec <= 0.0 ==> r == b)
  {
    var span := now - b.lastRefillMs;
    if c.refillPerSec > 0.0 {
      assert c.refillPerSec * span >= 0.0;
      assert (span / 1000.0) * c.refillPerSec == c.refillPerSec * span / 1000.0;
    }
  }

  lemma {:induction false} BeforeOk(c: Calls, k: nat)
    requires c.Valid() && k < |c.times|
    ensures var b := c.Before(k);
            && b.capacity == c.capacity && b.refillPerSec == c.refillPerSec
            && b.lastRefillMs <= c.times[k]
            && (k > 0 && c.refillPerSec > 0.0 ==> b.lastRefillMs == c.times[k - 1])
            && 0.0 <= b.tokens <= c.capacity
  {
    if k > 0 {
      hide Refill;
      BeforeOk(c, k - 1);
      RefillMeaning(c, c.Before(k - 1), c.times[k - 1]);
    }
  }

  /** The bucket stays between empty and full. */
  lemma TokensInRange(c: Calls, k: nat)
    requires c.Valid() && k < |c.times|
    ensures 0.0 <= c.Before(k).tokens <= c.capacity && 0.0 <= c.Level(k) <= c.capacity
  {
    hide Refill;
    BeforeOk(c, k);
    RefillMeaning(c, c.Before(k), c.times[k]);
  }

  lemma LevelStep(c: Calls, k: nat)
    requires c.Valid() && 0 < k < |c.times|
    ensures c.Level(k) == MinReal(c.capacity,
                                  c.Level(k - 1) - (if c.Accepted(k - 1) then 1.0 else 0.0)
                                  + c.Gain(c.times[k] - c.times[k - 1]))
  {
    hide Refill;
    BeforeOk(c, k);
    RefillMeaning(c, c.Before(k), c.times[k]);
    assert c.Before(k).tokens == c.Level(k - 1) - if c.Accepted(k - 1) then 1.0 else 0.0;
  }

  lemma LevelFirst(c: Calls)
    requires c.Valid() && 0 < |c.times|
    ensures c.Level(0) == c.capacity == c.Budget(0, 0)
  {
    hide Refill;
    RefillMeaning(c, c.Before(0), c.times[0]);
    assert c.Gain(0.0) == 0.0;
  }

  lemma BudgetStep(c: Calls, i: nat, k: nat)
    requires c.Valid() && i < k < |c.times|
    ensures c.Budget(i, k) == c.Budget(i, k - 1) - (if c.Accepted(k - 1) then 1.0 else 0.0)
                              + c.Gain(c.times[k] - c.times[k - 1])
  {
    GainAdd(c, c.times[k] - c.times[k - 1], c.times[k - 1] - c.times[i]);
  }

  /** A window that opens now has its full capacity. */
  lemma OwnBudget(c: Calls, k: nat)
    requires k < |c.times|
    ensures c.Budget(k, k) == c.capacity
  {
  }

  /** The tokens on hand are exactly the smallest budget any window leaves. */
  lemma {:induction false} LevelIsSmallestBudget(c: Calls, k: nat) returns (best: nat)
    requires c.Valid() && k < |c.times|
    ensures forall i :: 0 <= i <= k ==> c.Level(k) <= c.Budget(i, k)
    ensures best <= k && c.Level(k) == c.Budget(best, k)
  {
    hide Refill, Calls.Gain, Calls.Count, Calls.Before, Calls.Level, Calls.Budget, Calls.Accepted;
    if k == 0 {
      LevelFirst(c);
      best := 0;
    } else {
      var b := LevelIsSmallestBudget(c, k - 1);
      LevelStep(c, k);
      OwnBudget(c, k);
      forall i | 0 <= i <= k ensures c.Level(k) <= c.Budget(i, k) {
        if i < k { BudgetStep(c, i, k); }
      }
      BudgetStep(c, b, k);
      best := if c.Level(k) == c.capacity then k else b;
    }
  }

  /** A call is accepted exactly when every window ending at it has room for one more
      call within its allowance capacity + refill: the bucket never lets more through, and
      never refuses less. */
  lemma AcceptedIffAllWindowsAllow(c: Calls, k: nat)
    requires c.Valid() && k < |c.times|
    ensures c.Accepted(k) <==> forall i :: 0 <= i <= k ==> c.Budget(i, k) >= 1.0
  {
    hide Refill, Calls.Gain, Calls.Count;
    var best := LevelIsSmallestBudget(c, k);
    assert c.Accepted(k) <==> c.Level(k) >= 1.0;
    assert c.Budget(best, k) == c.Level(k);
  }

  /** In any window at most capacity + refillPerSec * length calls are accepted. */
  lemma WindowBound(c: Calls, i: nat, j: nat)
    requires c.Valid() && i <= j < |c.times|
    ensures c.Count(i, j + 1) as real <= c.capacity + c.Gain(c.times[j] - c.times[i])
  {
    hide Refill, Calls.Gain, Calls.Before;
    var best := LevelIsSmallestBudget(c, j);
    TokensInRange(c, j);
    assert c.Level(j) <= c.Budget(i, j);
    assert c.Count(i, j + 1) == c.Count(i, j) + if c.Accepted(j) then 1 else 0;
  }
}
