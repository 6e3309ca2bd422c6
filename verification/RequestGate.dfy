/**
 The rate gate in front of a session's handlers: one token per request within the
 size limit, from a bucket only the reader touches.
 */
module RequestGate {
  import opened Words
  import opened Framing
  import opened RateLimit

  /** A frame the reader handles, and the clock's reading then. */
  datatype Arrival = Arrival(frame: Frame, now: real)

  /** Only a request within the size limit reaches the bucket. */
  predicate Asking(limit: nat, f: Frame) {
    f.kind.Request? && |f.body| <= limit
  }

  /** A handler is started. */
  predicate Opens(limit: nat, b: Bucket, f: Frame, now: real) {
    Asking(limit, f) && Allows(Refill(b, now), 1.0)
  }

  function Passed(limit: nat, b: Bucket, f: Frame, now: real): Bucket {
    if Asking(limit, f) then Spend(Refill(b, now), 1.0) else b
  }

  /** The gate of a session: its size limit, burst and rate. */
  datatype Gate = Gate(limit: nat, burst: real, rate: real)

  /** The bucket before the n-th frame of a session's history. */
  function BucketAt(g: Gate, arrivals: seq<Arrival>, n: nat): Bucket
    requires n <= |arrivals|
  {
    if n == 0 then Unused(g.burst, g.rate)
    else Passed(g.limit, BucketAt(g, arrivals, n - 1), arrivals[n - 1].frame, arrivals[n - 1].now)
  }

  /** Handlers started between two times. */
  function Started(g: Gate, arrivals: seq<Arrival>, n: nat, a: real, b: real): nat
    requires n <= |arrivals|
  {
    if n == 0 then 0
    else
      var last := arrivals[n - 1];
      Started(g, arrivals, n - 1, a, b) +
      if Opens(g.limit, BucketAt(g, arrivals, n - 1), last.frame, last.now) && Within(last.now, a, b) then 1 else 0
  }

  lemma {:induction false} OfPrefix(g: Gate, arrivals: seq<Arrival>, more: seq<Arrival>, n: nat, a: real, b: real)
    requires n <= |arrivals|
    ensures BucketAt(g, arrivals + more, n) == BucketAt(g, arrivals, n)
    ensures Started(g, arrivals + more, n, a, b) == Started(g, arrivals, n, a, b)
  {
    if n > 0 {
      OfPrefix(g, arrivals, more, n - 1, a, b);
    }
  }

  lemma OneMoreArrival(g: Gate, arrivals: seq<Arrival>, last: Arrival, a: real, b: real)
    ensures var n, more := |arrivals|, arrivals + [last];
            Started(g, more, |more|, a, b) == Started(g, arrivals, n, a, b)
              + if Opens(g.limit, BucketAt(g, arrivals, n), last.frame, last.now) && Within(last.now, a, b) then 1 else 0
  {
    OfPrefix(g, arrivals, [last], |arrivals|, a, b);
  }

  /** The calls made on the bucket. */
  function Calls(g: Gate, arrivals: seq<Arrival>, n: nat): seq<Ask>
    requires n <= |arrivals|
  {
    if n == 0 then []
    else
      var earlier := Calls(g, arrivals, n - 1);
      if Asking(g.limit, arrivals[n - 1].frame) then earlier + [Ask(arrivals[n - 1].now, 1.0)] else earlier
  }

  lemma {:induction false} GateTracksCalls(g: Gate, arrivals: seq<Arrival>, n: nat, a: real, b: real)
    requires n <= |arrivals|
    ensures var calls := Calls(g, arrivals, n);
            && BucketAt(g, arrivals, n) == Before(g.burst, g.rate, calls, |calls|)
            && Started(g, arrivals, n, a, b) as real == SpentDuring(g.burst, g.rate, calls, |calls|, a, b)
  {
    if n > 0 {
      GateTracksCalls(g, arrivals, n - 1, a, b);
      var earlier, last := Calls(g, arrivals, n - 1), arrivals[n - 1];
      if Asking(g.limit, last.frame) {
        BeforeOfPrefix(g.burst, g.rate, earlier, [Ask(last.now, 1.0)], |earlier|);
        SpentDuringOfPrefix(g.burst, g.rate, earlier, [Ask(last.now, 1.0)], |earlier|, a, b);
      }
    }
  }

  /** The clock starts above zero and does not go back. */
  ghost predicate Timed(arrivals: seq<Arrival>) {
    && (forall i :: 0 <= i < |arrivals| ==> arrivals[i].now > 0.0)
    && (forall i, j :: 0 <= i < j < |arrivals| ==> arrivals[i].now <= arrivals[j].now)
  }

  lemma {:induction false} CallsOrdered(g: Gate, arrivals: seq<Arrival>, n: nat)
    requires n <= |arrivals| && Timed(arrivals)
    ensures var calls := Calls(g, arrivals, n);
            && Ordered(calls)
            && (forall k :: 0 <= k < |calls| ==> calls[k].at > 0.0)
            && (forall k, m :: 0 <= k < |calls| && n <= m < |arrivals| ==> calls[k].at <= arrivals[m].now)
  {
    if n > 0 {
      CallsOrdered(g, arrivals, n - 1);
    }
  }

  /** In any stretch of time a session starts at most burst plus rate times length handlers, whatever its peer sends. */
  lemma RequestRateBounded(g: Gate, arrivals: seq<Arrival>, n: nat, a: real, b: real)
    requires n <= |arrivals| && Timed(arrivals) && a <= b && g.burst > 0.0 && g.rate >= 0.0
    ensures Started(g, arrivals, n, a, b) as real <= g.burst + g.rate * (b - a)
  {
    hide Started, SpentDuring, Calls, Accrued;
    GateTracksCalls(g, arrivals, n, a, b);
    CallsOrdered(g, arrivals, n);
    TimeEnvelope(g.burst, g.rate, Calls(g, arrivals, n), a, b);
  }
}
