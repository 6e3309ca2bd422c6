/**
 The token bucket behind the per-session request gate and the per-address
 accept gate. Time and tokens are reals; the clock reading is a parameter.
 */
module RateLimit {

  datatype Bucket = Bucket(capacity: real, rate: real, tokens: real, last: real)

  /** A bucket configured but not yet used: a zero `last` marks it uninitialised. */
  function Unused(capacity: real, rate: real): Bucket {
    Bucket(capacity, rate, 0.0, 0.0)
  }

  function Min(x: real, y: real): real {
    if x <= y then x else y
  }

  /** Tokens earned in a stretch of time. */
  function Accrued(rate: real, elapsed: real): real {
    elapsed * rate
  }

  function Refill(b: Bucket, now: real): Bucket {
    if b.last == 0.0 then b.(last := now, tokens := b.capacity)
    else b.(last := now, tokens := Min(b.capacity, b.tokens + Accrued(b.rate, now - b.last)))
  }

  /** The verdict on a refilled bucket; a non-positive capacity disables the limit. */
  predicate Allows(b: Bucket, cost: real) {
    b.capacity <= 0.0 || b.tokens >= cost
  }

  function Spend(b: Bucket, cost: real): Bucket {
    if b.capacity > 0.0 && b.tokens >= cost then b.(tokens := b.tokens - cost) else b
  }

  class TokenBucket {
    var capacity: real
    var refillPerSec: real
    var tokens: real
    var lastRefill: real

    constructor (capacity: real, refillPerSec: real)
      ensures View() == Unused(capacity, refillPerSec)
    {
      this.capacity, this.refillPerSec := capacity, refillPerSec;
      tokens, lastRefill := 0.0, 0.0;
    }

    ghost function View(): Bucket
      reads this
    {
      Bucket(capacity, refillPerSec, tokens, lastRefill)
    }

    method TryTake(now: real, cost: real := 1.0) returns (ok: bool)
      modifies this
      ensures ok == Allows(Refill(old(View()), now), cost)
      ensures View() == Spend(Refill(old(View()), now), cost)
    {
      hide Accrued;
      if lastRefill == 0.0 {
        lastRefill := now;
        tokens := capacity;
      } else {
        var elapsed := now - lastRefill;
        tokens := Min(capacity, tokens + Accrued(refillPerSec, elapsed));
        lastRefill := now;
      }
      if capacity <= 0.0 {
        return true;
      }
      if tokens >= cost {
        tokens := tokens - cost;
        return true;
      }
      return false;
    }
  }

  // ----- a whole history of calls -----

  datatype Ask = Ask(at: real, cost: real)

  /** The bucket just before call n of the history. */
  function Before(c: real, r: real, asks: seq<Ask>, n: nat): Bucket
    requires n <= |asks|
  {
    if n == 0 then Unused(c, r)
    else Spend(Refill(Before(c, r, asks, n - 1), asks[n - 1].at), asks[n - 1].cost)
  }

  /** Tokens in hand when call n is judged. */
  function Level(c: real, r: real, asks: seq<Ask>, n: nat): real
    requires n < |asks|
  {
    Refill(Before(c, r, asks, n), asks[n].at).tokens
  }

  predicate Granted(c: real, r: real, asks: seq<Ask>, n: nat)
    requires n < |asks|
  {
    Allows(Refill(Before(c, r, asks, n), asks[n].at), asks[n].cost)
  }

  function Cost(c: real, r: real, asks: seq<Ask>, n: nat): real
    requires n < |asks|
  {
    if Granted(c, r, asks, n) then asks[n].cost else 0.0
  }

  /** Total cost granted to calls i, ..., j - 1. */
  function Spent(c: real, r: real, asks: seq<Ask>, i: nat, j: nat): real
    requires i <= j <= |asks|
  {
    if i == j then 0.0 else Spent(c, r, asks, i, j - 1) + Cost(c, r, asks, j - 1)
  }

  /** What the envelope of the window opening at call i leaves to call j. */
  function Slack(c: real, r: real, asks: seq<Ask>, i: nat, j: nat): real
    requires i <= j < |asks|
  {
    c + Accrued(r, asks[j].at - asks[i].at) - Spent(c, r, asks, i, j)
  }

  /** A call made at clock zero leaves the bucket marked unused: windows opening before it are forgotten. */
  function FirstWindow(asks: seq<Ask>, n: nat): (i: nat)
    requires n <= |asks|
    ensures i <= n
  {
    if n == 0 then 0 else if asks[n - 1].at == 0.0 then n else FirstWindow(asks, n - 1)
  }

  lemma {:induction false} BeforeFields(c: real, r: real, asks: seq<Ask>, n: nat)
    requires n <= |asks|
    ensures var b := Before(c, r, asks, n);
            && b.capacity == c && b.rate == r
            && b.last == (if n == 0 then 0.0 else asks[n - 1].at)
  {
    if n > 0 {
      BeforeFields(c, r, asks, n - 1);
    }
  }

  lemma AccruedAdds(r: real, d: real, e: real)
    ensures Accrued(r, d + e) == Accrued(r, d) + Accrued(r, e)
    ensures r >= 0.0 && e >= 0.0 ==> Accrued(r, d) <= Accrued(r, d + e)
    ensures Accrued(r, 0.0) == 0.0
  {
    assert (d + e) * r == d * r + e * r;
    assert r >= 0.0 && e >= 0.0 ==> e * r >= 0.0;
  }

  lemma SlackStep(c: real, r: real, asks: seq<Ask>, i: nat, j: nat)
    requires i <= j && j + 1 < |asks|
    ensures Slack(c, r, asks, i, j + 1) ==
            Slack(c, r, asks, i, j) + Accrued(r, asks[j + 1].at - asks[j].at) - Cost(c, r, asks, j)
  {
    hide Accrued;
    AccruedAdds(r, asks[j].at - asks[i].at, asks[j + 1].at - asks[j].at);
  }

  lemma LevelStep(c: real, r: real, asks: seq<Ask>, n: nat)
    requires c > 0.0 && 0 < n < |asks|
    ensures Level(c, r, asks, n) ==
            if asks[n - 1].at == 0.0 then c
            else Min(c, Level(c, r, asks, n - 1) - Cost(c, r, asks, n - 1) + Accrued(r, asks[n].at - asks[n - 1].at))
  {
    hide Accrued;
    BeforeFields(c, r, asks, n - 1);
    BeforeFields(c, r, asks, n);
  }

  lemma LevelAtStart(c: real, r: real, asks: seq<Ask>)
    requires |asks| > 0
    ensures Level(c, r, asks, 0) == c
  {
  }

  /** The O(1) state is the least slack over every window that ends now. */
  lemma {:induction false} LevelIsLeastSlack(c: real, r: real, asks: seq<Ask>, n: nat) returns (tight: nat)
    requires c > 0.0 && n < |asks|
    ensures forall i :: FirstWindow(asks, n) <= i <= n ==> Level(c, r, asks, n) <= Slack(c, r, asks, i, n)
    ensures FirstWindow(asks, n) <= tight <= n && Level(c, r, asks, n) == Slack(c, r, asks, tight, n)
  {
    hide Accrued, Level, Cost;
    AccruedAdds(r, 0.0, 0.0);
    if n == 0 {
      LevelAtStart(c, r, asks);
      tight := 0;
    } else if asks[n - 1].at == 0.0 {
      LevelStep(c, r, asks, n);
      tight := n;
    } else {
      var t := LevelIsLeastSlack(c, r, asks, n - 1);
      LevelStep(c, r, asks, n);
      forall i | FirstWindow(asks, n) <= i < n
        ensures Level(c, r, asks, n) <= Slack(c, r, asks, i, n)
      {
        SlackStep(c, r, asks, i, n - 1);
      }
      SlackStep(c, r, asks, t, n - 1);
      tight := if Level(c, r, asks, n) == c then n else t;
    }
  }

  /** A call is refused exactly when granting it would break the envelope of some window. */
  lemma GrantedIff(c: real, r: real, asks: seq<Ask>, n: nat)
    requires n < |asks|
    ensures Granted(c, r, asks, n) <==>
            (c <= 0.0 || forall i :: FirstWindow(asks, n) <= i <= n ==>
               Spent(c, r, asks, i, n) + asks[n].cost <= c + Accrued(r, asks[n].at - asks[i].at))
  {
    hide Accrued;
    BeforeFields(c, r, asks, n);
    if c > 0.0 {
      var tight := LevelIsLeastSlack(c, r, asks, n);
      assert Slack(c, r, asks, tight, n) == Level(c, r, asks, n);
      assert forall i :: FirstWindow(asks, n) <= i <= n ==>
          Slack(c, r, asks, i, n) == c + Accrued(r, asks[n].at - asks[i].at) - Spent(c, r, asks, i, n);
    }
  }

  ghost predicate Ordered(asks: seq<Ask>) {
    forall i, j :: 0 <= i <= j < |asks| ==> asks[i].at <= asks[j].at
  }

  /** Every window of calls is within burst plus rate times length. */
  lemma {:induction false} WindowEnvelope(c: real, r: real, asks: seq<Ask>, i: nat, j: nat)
    requires c > 0.0 && r >= 0.0 && Ordered(asks)
    requires 0 < j <= |asks| && FirstWindow(asks, j - 1) <= i < j
    ensures Spent(c, r, asks, i, j) <= c + Accrued(r, asks[j - 1].at - asks[i].at)
  {
    hide Accrued, Granted;
    GrantedIff(c, r, asks, j - 1);
    AccruedAdds(r, 0.0, 0.0);
    if !Granted(c, r, asks, j - 1) && i < j - 1 {
      assert FirstWindow(asks, j - 2) <= FirstWindow(asks, j - 1);
      WindowEnvelope(c, r, asks, i, j - 1);
      AccruedAdds(r, asks[j - 2].at - asks[i].at, asks[j - 1].at - asks[j - 2].at);
    }
  }

  // ----- windows of time -----

  predicate Within(t: real, a: real, b: real) {
    a <= t <= b
  }

  function SpentDuring(c: real, r: real, asks: seq<Ask>, n: nat, a: real, b: real): real
    requires n <= |asks|
  {
    if n == 0 then 0.0
    else SpentDuring(c, r, asks, n - 1, a, b) + if Within(asks[n - 1].at, a, b) then Cost(c, r, asks, n - 1) else 0.0
  }

  /** The calls inside a window of time are consecutive. */
  lemma {:induction false} WindowIsRange(c: real, r: real, asks: seq<Ask>, n: nat, a: real, b: real) returns (i: nat, j: nat)
    requires Ordered(asks) && n <= |asks| && a <= b
    ensures i <= j <= n
    ensures forall k :: 0 <= k < i ==> asks[k].at < a
    ensures forall k :: i <= k < j ==> Within(asks[k].at, a, b)
    ensures forall k :: j <= k < n ==> asks[k].at > b
    ensures SpentDuring(c, r, asks, n, a, b) == Spent(c, r, asks, i, j)
  {
    if n == 0 {
      i, j := 0, 0;
    } else {
      i, j := WindowIsRange(c, r, asks, n - 1, a, b);
      var t := asks[n - 1].at;
      if t < a {
        assert forall k :: 0 <= k < n - 1 ==> asks[k].at <= t;
        assert i == j == n - 1;
        i, j := n, n;
      } else if t <= b {
        assert forall k :: 0 <= k < n - 1 ==> asks[k].at <= t;
        assert j == n - 1;
        j := n;
      }
    }
  }

  lemma {:induction false} NeverZero(asks: seq<Ask>, n: nat)
    requires n <= |asks| && forall k :: 0 <= k < |asks| ==> asks[k].at != 0.0
    ensures FirstWindow(asks, n) == 0
  {
    if n > 0 {
      NeverZero(asks, n - 1);
    }
  }

  /** In any stretch of time, the cost granted is at most the burst plus the rate times its length. */
  lemma TimeEnvelope(c: real, r: real, asks: seq<Ask>, a: real, b: real)
    requires c > 0.0 && r >= 0.0 && Ordered(asks) && a <= b
    requires |asks| > 0 ==> asks[0].at > 0.0
    ensures SpentDuring(c, r, asks, |asks|, a, b) <= c + Accrued(r, b - a) == c + r * (b - a)
  {
    assert Accrued(r, b - a) == r * (b - a);
    hide Accrued;
    var i, j := WindowIsRange(c, r, asks, |asks|, a, b);
    AccruedAdds(r, 0.0, b - a);
    if i < j {
      assert asks[0].at <= asks[i].at;
      NeverZero(asks, j - 1);
      WindowEnvelope(c, r, asks, i, j);
      var used := asks[j - 1].at - asks[i].at;
      AccruedAdds(r, used, b - a - used);
    }
  }

  /** Verdicts and sums depend on the calls made so far only. */
  lemma {:induction false} BeforeOfPrefix(c: real, r: real, asks: seq<Ask>, more: seq<Ask>, n: nat)
    requires n <= |asks|
    ensures Before(c, r, asks + more, n) == Before(c, r, asks, n)
  {
    if n > 0 {
      BeforeOfPrefix(c, r, asks, more, n - 1);
    }
  }

  lemma {:induction false} SpentDuringOfPrefix(c: real, r: real, asks: seq<Ask>, more: seq<Ask>, n: nat, a: real, b: real)
    requires n <= |asks|
    ensures SpentDuring(c, r, asks + more, n, a, b) == SpentDuring(c, r, asks, n, a, b)
  {
    if n > 0 {
      SpentDuringOfPrefix(c, r, asks, more, n - 1, a, b);
      BeforeOfPrefix(c, r, asks, more, n - 1);
    }
  }

  // ----- the zero clock reading -----

  ghost predicate Enveloped(c: real, r: real, asks: seq<Ask>) {
    forall i: nat, j: nat :: i < j <= |asks| ==> Spent(c, r, asks, i, j) <= c + Accrued(r, asks[j - 1].at - asks[i].at)
  }

  ghost predicate StartsAt(asks: seq<Ask>, t0: real) {
    |asks| > 0 && asks[0].at == t0 && Ordered(asks)
  }

  /** Two whole bursts at clock zero are both granted, whatever the burst. */
  lemma ZeroClockGrantsTwice(c: real, r: real)
    requires c > 0.0
    ensures var asks := [Ask(0.0, c), Ask(0.0, c)];
            Spent(c, r, asks, 0, 2) == c + c && !Enveloped(c, r, asks)
  {
    var asks := [Ask(0.0, c), Ask(0.0, c)];
    BeforeFields(c, r, asks, 0);
    BeforeFields(c, r, asks, 1);
    assert Granted(c, r, asks, 0) && Granted(c, r, asks, 1);
    assert Spent(c, r, asks, 0, 1) == c;
    assert Spent(c, r, asks, 0, 2) == Spent(c, r, asks, 0, 1) + Cost(c, r, asks, 1);
    AccruedAdds(r, 0.0, 0.0);
  }

  /** The envelope holds of every history that starts at clock reading t0 if and only if t0 is not zero. */
  lemma EnvelopeIffClockStarted(c: real, r: real, t0: real)
    requires c > 0.0 && r >= 0.0 && t0 >= 0.0
    ensures (forall asks: seq<Ask> :: StartsAt(asks, t0) ==> Enveloped(c, r, asks)) <==> t0 != 0.0
  {
    if t0 == 0.0 {
      ZeroClockGrantsTwice(c, r);
      assert StartsAt([Ask(0.0, c), Ask(0.0, c)], t0);
    } else {
      forall asks: seq<Ask> | StartsAt(asks, t0) ensures Enveloped(c, r, asks) {
        forall i: nat, j: nat | i < j <= |asks|
          ensures Spent(c, r, asks, i, j) <= c + Accrued(r, asks[j - 1].at - asks[i].at)
        {
          NeverZero(asks, j - 1);
          WindowEnvelope(c, r, asks, i, j);
        }
      }
    }
  }
}
