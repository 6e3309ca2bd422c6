/**
 How many sessions and handshakes a server really holds at once, in all and per
 address, on any number of threads: for each the exact bound, and the runs that
 reach it.
 */
module Capacity {
  import opened Words
  import opened RateLimit
  import opened Admission

  /** Sessions, handshakes in flight, and handshakes that ended well and have no seat yet. */
  function Occupied(s: System): int {
    s.c.total + s.c.inFlight + |s.released|
  }

  /** The same for one address. */
  ghost function OccupiedBy(s: System, ip: Ip): nat {
    |At(s.seated, ip)| + |At(s.released, ip)| + |At(s.shaking, ip)|
  }

  function Least(a: nat, b: nat): nat {
    if a <= b then a else b
  }

  // ----- runs of the code -----

  /** Code between two suspensions that has been left half way: from filter to cap, and from giving a slot back to taking a seat. */
  function Busy(s: System): nat {
    |s.released| + if s.gap.Some? then 1 else 0
  }

  /** Each such stretch holds a thread until it is through. On one thread no two of them overlap. */
  ghost predicate OnThreads(states: seq<System>, threads: nat) {
    forall n {:trigger Busy(states[n])} :: 0 <= n < |states| ==> Busy(states[n]) <= threads
  }

  /** Each session is seated under the address that was filtered. */
  ghost predicate SameAddress(steps: seq<Step>, states: seq<System>) {
    |states| == |steps| + 1 &&
    forall i :: 0 <= i < |steps| && steps[i].Seats? ==>
      steps[i].id in states[i].released ==> steps[i].ip == states[i].released[steps[i].id]
  }

  /** A run in which sessions keep their socket's address and the clock does not go back. */
  ghost predicate TrueRun(l: Limits, steps: seq<Step>, states: seq<System>, threads: nat) {
    Run(l, steps, states) && SameAddress(steps, states) && Clocked(steps) && OnThreads(states, threads) && threads >= 1
  }

  /** No handshake outlasts `patience`: the channel gives up on it before the filter's clock gets that far. */
  ghost predicate PromptAt(s: System, patience: real) {
    forall id :: id in s.shaking ==> id in s.since && s.clock - s.since[id] <= patience
  }

  /** A server: its limits, how long a handshake may take, and its threads. */
  datatype Site = Site(l: Limits, patience: real, threads: nat)

  ghost predicate PromptRun(w: Site, steps: seq<Step>, states: seq<System>) {
    && TrueRun(w.l, steps, states, w.threads) && w.patience >= 0.0
    && forall n {:trigger PromptAt(states[n], w.patience)} :: 0 <= n < |states| ==> PromptAt(states[n], w.patience)
  }

  // ----- the bounds -----

  /** An accept bucket that never holds a whole token lets nobody in. */
  predicate Stingy(l: Limits) {
    0.0 < l.burst < 1.0
  }

  predicate Shut(l: Limits) {
    l.maxSessions == 0 || l.maxHandshakes == 0 || Stingy(l)
  }

  /** On several threads a slot may change hands between a socket's filter and its cap. */
  function Slots(l: Limits, threads: nat): nat {
    l.maxHandshakes + if threads >= 2 then 1 else 0
  }

  /** Besides, every other thread may hold a session that is not counted yet. */
  function Bound(l: Limits, threads: nat): nat
    requires threads >= 1
  {
    if Shut(l) then 0 else l.maxSessions - 1 + (threads - 1) + Slots(l, threads)
  }

  /**
   An address without an entry is never held against the cap, so a cap of zero acts
   as a cap of one.
   */
  function EffectivePerIp(l: Limits): nat {
    if l.maxPerIp == 0 then 1 else l.maxPerIp
  }

  /** The seats the filter gives one address. */
  function IpSeats(l: Limits): nat {
    Least(EffectivePerIp(l), l.maxSessions)
  }

  /** A bucket that is never refilled: its burst is all an address ever gets. */
  predicate Dry(l: Limits) {
    l.burst > 0.0 && l.rate <= 0.0
  }

  function IpBound(l: Limits, threads: nat): nat
    requires threads >= 1
  {
    if Shut(l) then 0
    else
      var most := IpSeats(l) - 1 + (threads - 1) + Slots(l, threads);
      if Dry(l) then Least(most, l.burst.Floor) else most
  }

  /** An accept bucket that limits an address and is refilled. */
  predicate Limited(l: Limits) {
    l.burst >= 1.0 && l.rate > 0.0
  }

  /** The handshakes a limited address can begin within a stretch of time. */
  function BegunWithin(l: Limits, patience: real): int {
    (l.burst + Accrued(l.rate, patience)).Floor
  }

  /** The handshakes a limited address can have in progress at once. */
  function InHand(w: Site): nat
    requires Limited(w.l) && w.patience >= 0.0
  {
    AccruedPositive(w.l.rate, w.patience);
    Least(Slots(w.l, w.threads), BegunWithin(w.l, w.patience))
  }

  /** The bound per address when no handshake outlasts the site's patience. */
  function PatientBound(w: Site): nat
    requires w.patience >= 0.0 && w.threads >= 1
  {
    if Shut(w.l) || !Limited(w.l) then IpBound(w.l, w.threads) else IpSeats(w.l) - 1 + (w.threads - 1) + InHand(w)
  }

  lemma AccruedPositive(r: real, d: real)
    requires r >= 0.0 && d >= 0.0
    ensures Accrued(r, d) >= 0.0
  {
    assert d * r >= 0.0;
  }

  // ----- nothing exceeds them -----

  lemma {:induction false} StingyLetsNobodyIn(l: Limits, steps: seq<Step>, states: seq<System>, n: nat)
    requires Stingy(l) && Run(l, steps, states) && n <= |steps|
    ensures var s := states[n]; s.gap.None? && s.shaking == map[] && s.released == map[] && s.seated == map[]
  {
    hide Before, Asks, Passed, SpentDuring;
    if n > 0 {
      StingyLetsNobodyIn(l, steps, states, n - 1);
      var s, step := states[n - 1], steps[n - 1];
      assert Enabled(s, step) && states[n] == Apply(l, s, step);
      if step.Filter? {
        var asks := Asks(l, steps, states, step.ip, n - 1);
        BucketTracksHistory(l, steps, states, step.ip, n - 1, 0.0, 0.0);
        BucketForTracks(l, s.c, step.ip, asks);
        BeforeFields(l.burst, l.rate, asks, |asks|);
      }
    }
  }

  /** What a step does to the whole: only a socket that enters its handshake adds to it. */
  lemma OccupiedStep(l: Limits, s: System, step: Step)
    requires Counted(s) && Enabled(s, step)
    ensures var s' := Apply(l, s, step);
            && Occupied(s') <= Occupied(s) + (if step.Check? && s.c.inFlight < l.maxHandshakes then 1 else 0)
            && (s'.c.inFlight <= s.c.inFlight || (step.Check? && s'.c.inFlight == s.c.inFlight + 1 <= l.maxHandshakes))
            && (s'.c.total <= s.c.total || step.Seats?)
  {
    hide Tallies, At, Filtered, FilterPasses, StrandStep, Seated, KnownIds;
    match step
    case Filter(ip, now) => FilterKeepsCounts(s.c, l, ip, now);
    case Releases(id) => Released(l, s, id);
    case Seats(id, ip) => SeatKeepsCounts(s, id, ip);
    case Strand => StrandKeepsCounts(s.c);
    case _ =>
  }

  lemma SeatKeepsCounts(s: System, id: Id, ip: Ip)
    requires id in s.released
    ensures Seated(s.c, id, ip).total == s.c.total + 1 && Seated(s.c, id, ip).inFlight == s.c.inFlight
    ensures |s.released - {id}| == |s.released| - 1
  {
    SizeRemove(s.released, id);
  }

  lemma StrandKeepsCounts(c: Counters)
    requires c.strand != []
    ensures StrandStep(c).total == c.total && StrandStep(c).inFlight == c.inFlight
  {
  }

  /** A socket between filter and cap: on one thread a seat is free for it, on several there is room for it in the bound. */
  ghost predicate WithinBound(l: Limits, s: System, threads: nat)
    requires threads >= 1
  {
    && s.c.inFlight <= l.maxHandshakes
    && Occupied(s) <= Bound(l, threads)
    && (s.gap.Some? ==> l.maxSessions > 0 && (threads == 1 ==> s.c.total < l.maxSessions))
    && (s.gap.Some? && threads >= 2 && !Shut(l) ==> Occupied(s) < Bound(l, threads))
  }

  lemma FilterWithin(l: Limits, s: System, ip: Ip, now: real, threads: nat)
    requires threads >= 1 && Counted(s) && s.gap.None? && !Stingy(l) && WithinBound(l, s, threads)
    requires Busy(Apply(l, s, Filter(ip, now))) <= threads
    ensures WithinBound(l, Apply(l, s, Filter(ip, now)), threads)
  {
    FilterKeepsCounts(s.c, l, ip, now);
    hide Filtered, Refill, Allows, BucketFor, Tallies, KnownIds;
  }

  lemma CheckWithin(l: Limits, s: System, threads: nat)
    requires threads >= 1 && Counted(s) && s.gap.Some? && !Stingy(l) && WithinBound(l, s, threads) && Busy(s) <= threads
    ensures WithinBound(l, Apply(l, s, Check), threads)
  {
    hide Tallies, KnownIds;
  }

  lemma WithinStep(l: Limits, s: System, step: Step, threads: nat)
    requires threads >= 1 && Counted(s) && Enabled(s, step) && !Stingy(l) && WithinBound(l, s, threads)
    requires Busy(s) <= threads && Busy(Apply(l, s, step)) <= threads
    ensures WithinBound(l, Apply(l, s, step), threads)
  {
    match step
    case Filter(ip, now) => FilterWithin(l, s, ip, now, threads);
    case Check => CheckWithin(l, s, threads);
    case _ =>
      OccupiedStep(l, s, step);
      assert Apply(l, s, step).gap == s.gap;
      hide Apply, Counted;
  }

  lemma NobodyWithin(l: Limits, s: System, threads: nat)
    requires threads >= 1 && Counted(s) && s.gap.None? && s.shaking == map[] && s.released == map[] && s.seated == map[]
    ensures WithinBound(l, s, threads)
  {
    hide Tallies, KnownIds;
  }

  /** Sessions and handshakes, on any number of threads. */
  lemma {:induction false} OccupancyBounded(l: Limits, steps: seq<Step>, states: seq<System>, n: nat, threads: nat)
    requires Run(l, steps, states) && OnThreads(states, threads) && threads >= 1 && n <= |steps|
    ensures WithinBound(l, states[n], threads)
  {
    hide WithinBound, Counted, SumCounts, Busy, Apply, Enabled;
    if Stingy(l) || n == 0 {
      SeatsConserved(l, steps, states, n);
      if Stingy(l) {
        StingyLetsNobodyIn(l, steps, states, n);
      }
      NobodyWithin(l, states[n], threads);
    } else {
      OccupancyBounded(l, steps, states, n - 1, threads);
      SeatsConserved(l, steps, states, n - 1);
      assert Enabled(states[n - 1], steps[n - 1]) && states[n] == Apply(l, states[n - 1], steps[n - 1]);
      WithinStep(l, states[n - 1], steps[n - 1], threads);
    }
  }

  lemma AtIsSome(m: map<Id, Ip>, ip: Ip)
    ensures |At(m, ip)| <= |m|
  {
    SubsetSize(At(m, ip), m.Keys);
  }

  lemma {:induction false} SubsetSize(a: set<Id>, b: set<Id>)
    requires a <= b
    ensures |a| <= |b|
  {
    assert b == a + (b - a);
  }

  // ----- per address -----

  /** A socket of the address enters its handshake. */
  predicate Lands(l: Limits, s: System, step: Step, ip: Ip) {
    step.Check? && s.gap == Some(ip) && s.c.inFlight < l.maxHandshakes
  }

  /** A socket of the address passes the filter. */
  predicate PassesNow(l: Limits, s: System, step: Step, ip: Ip) {
    step.Filter? && step.ip == ip && FilterPasses(s.c, l, ip, step.now)
  }

  /** Only the in-flight check adds to what an address occupies, and it takes the filtered socket over. */
  lemma OccupiedByStep(l: Limits, s: System, step: Step, ip: Ip)
    requires KnownIds(s) && Enabled(s, step) && (step.Seats? ==> step.ip == s.released[step.id])
    ensures OccupiedBy(Apply(l, s, step), ip) <= OccupiedBy(s, ip) + if Lands(l, s, step, ip) then 1 else 0
  {
    hide At, Filtered, FilterPasses, Seated, Completed, StrandStep;
    match step
    case Check => AtInsert(s.shaking, s.next, s.gap.value, ip);
    case Fails(id) => AtRemove(s.shaking, id, ip);
    case Releases(id) =>
      AtRemove(s.shaking, id, ip);
      AtInsert(s.released, id, s.shaking[id], ip);
    case Seats(id, from) =>
      AtRemove(s.released, id, ip);
      AtInsert(s.seated, id, from, ip);
    case Completes(id) => AtRemove(s.seated, id, ip);
    case _ =>
  }

  /** What one address holds, when `most` of its sockets can be past the filter and not through their handshake. */
  ghost predicate WithinIpCap(l: Limits, s: System, ip: Ip, threads: nat, most: nat) {
    && OccupiedBy(s, ip) <= IpSeats(l) - 1 + (threads - 1) + most
    && (s.gap == Some(ip) ==> if threads == 1 then |At(s.seated, ip)| < IpSeats(l)
                              else OccupiedBy(s, ip) + 1 <= IpSeats(l) - 1 + (threads - 1) + most)
  }

  /** On one thread it is the cap that must find few handshakes in flight, on several the filter. */
  predicate Crosses(l: Limits, s: System, step: Step, ip: Ip, threads: nat) {
    if threads == 1 then Lands(l, s, step, ip) else PassesNow(l, s, step, ip)
  }

  lemma FilterIpCap(l: Limits, s: System, from: Ip, now: real, ip: Ip, threads: nat, most: nat)
    requires Counted(s) && s.gap.None? && WithinIpCap(l, s, ip, threads, most) && threads >= 1
    requires Busy(Apply(l, s, Filter(from, now))) <= threads
    requires threads >= 2 && PassesNow(l, s, Filter(from, now), ip) ==> |At(s.shaking, ip)| + 1 <= most
    ensures WithinIpCap(l, Apply(l, s, Filter(from, now)), ip, threads, most)
  {
    assert Tally(s.c.perIp, ip) == |At(s.seated, ip)|;
    AtIsSome(s.seated, ip);
    AtIsSome(s.released, ip);
    hide At, Tallies, KnownIds, Filtered, Refill, Allows, BucketFor;
  }

  lemma CheckIpCap(l: Limits, s: System, ip: Ip, threads: nat, most: nat)
    requires Counted(s) && s.gap.Some? && WithinIpCap(l, s, ip, threads, most) && Busy(s) <= threads && threads >= 1
    requires threads == 1 && Lands(l, s, Check, ip) ==> |At(s.shaking, ip)| + 1 <= most
    ensures WithinIpCap(l, Apply(l, s, Check), ip, threads, most)
  {
    OccupiedByStep(l, s, Check, ip);
    if threads == 1 {
      assert s.released == map[] && At(s.released, ip) == {};
      AtInsert(s.shaking, s.next, s.gap.value, ip);
    }
    hide At, Tallies, KnownIds;
  }

  lemma OtherIpCap(l: Limits, s: System, step: Step, ip: Ip, threads: nat, most: nat)
    requires Counted(s) && Enabled(s, step) && WithinIpCap(l, s, ip, threads, most) && Busy(s) <= threads && threads >= 1
    requires !step.Filter? && !step.Check? && (step.Seats? ==> step.ip == s.released[step.id])
    ensures WithinIpCap(l, Apply(l, s, step), ip, threads, most)
  {
    OccupiedByStep(l, s, step, ip);
    if step.Completes? {
      AtRemove(s.seated, step.id, ip);
    }
    assert threads == 1 && s.gap.Some? ==> s.released == map[];
    hide At, Tallies, KnownIds;
  }

  lemma IpCapStep(l: Limits, s: System, step: Step, ip: Ip, threads: nat, most: nat)
    requires Counted(s) && Enabled(s, step) && WithinIpCap(l, s, ip, threads, most) && threads >= 1
    requires Busy(s) <= threads && Busy(Apply(l, s, step)) <= threads
    requires step.Seats? ==> step.ip == s.released[step.id]
    requires Crosses(l, s, step, ip, threads) ==> |At(s.shaking, ip)| + 1 <= most
    ensures WithinIpCap(l, Apply(l, s, step), ip, threads, most)
  {
    hide WithinIpCap, At, Tallies, KnownIds, Busy;
    match step
    case Filter(from, now) => FilterIpCap(l, s, from, now, ip, threads, most);
    case Check => CheckIpCap(l, s, ip, threads, most);
    case _ => OtherIpCap(l, s, step, ip, threads, most);
  }

  lemma {:induction false} IpCapKept(l: Limits, steps: seq<Step>, states: seq<System>, n: nat, ip: Ip, threads: nat, most: nat)
    requires TrueRun(l, steps, states, threads) && n <= |steps| && !Shut(l)
    requires forall i :: 0 <= i < n && Crosses(l, states[i], steps[i], ip, threads) ==> |At(states[i].shaking, ip)| + 1 <= most
    ensures WithinIpCap(l, states[n], ip, threads, most)
  {
    if n == 0 {
      assert At(map[], ip) == {};
    } else {
      IpCapKept(l, steps, states, n - 1, ip, threads, most);
      SeatsConserved(l, steps, states, n - 1);
      assert Enabled(states[n - 1], steps[n - 1]) && states[n] == Apply(l, states[n - 1], steps[n - 1]);
      SeatedAsFiltered(steps, states, n - 1);
      hide Tallies, At, KnownIds, Crosses, Apply, WithinIpCap, Busy;
      IpCapStep(l, states[n - 1], steps[n - 1], ip, threads, most);
    }
  }

  lemma SeatedAsFiltered(steps: seq<Step>, states: seq<System>, i: nat)
    requires SameAddress(steps, states) && i < |steps| && Enabled(states[i], steps[i])
    ensures steps[i].Seats? ==> steps[i].ip == states[i].released[steps[i].id]
  {
  }

  // ----- a bucket that is never refilled -----

  ghost function InProgress(s: System, ip: Ip): nat {
    OccupiedBy(s, ip) + if s.gap == Some(ip) then 1 else 0
  }

  /** Every connection in progress has taken a token that never came back. */
  ghost predicate PaidFor(l: Limits, s: System, ip: Ip) {
    if ip !in s.c.buckets then InProgress(s, ip) == 0
    else
      var b := s.c.buckets[ip];
      && b.capacity == l.burst && b.rate == l.rate && b.last > 0.0
      && InProgress(s, ip) as real <= l.burst && InProgress(s, ip) as real + b.tokens <= l.burst
  }

  lemma NoRefill(b: Bucket, now: real)
    requires b.rate <= 0.0 && 0.0 < b.last <= now
    ensures Refill(b, now).tokens <= b.tokens
  {
    assert (now - b.last) * b.rate <= 0.0;
  }

  lemma PaidForFilter(l: Limits, s: System, from: Ip, now: real, ip: Ip)
    requires Dry(l) && PaidFor(l, s, ip) && s.gap.None? && now > 0.0
    requires ip in s.c.buckets ==> s.c.buckets[ip].last <= now
    ensures PaidFor(l, Apply(l, s, Filter(from, now)), ip)
    ensures var s' := Apply(l, s, Filter(from, now)); ip in s'.c.buckets ==> s'.c.buckets[ip].last <= now
  {
    if from == ip && UnderCaps(s.c, l, ip) {
      var b := BucketFor(s.c, l, ip);
      if ip in s.c.buckets {
        NoRefill(b, now);
      }
      hide Accrued, Min, OccupiedBy;
      assert Refill(b, now).last == now && Refill(b, now).capacity == l.burst && Refill(b, now).rate == l.rate;
    }
  }

  lemma PaidForStep(l: Limits, s: System, step: Step, ip: Ip)
    requires PaidFor(l, s, ip) && KnownIds(s) && Enabled(s, step) && !step.Filter?
    requires step.Seats? ==> step.ip == s.released[step.id]
    ensures PaidFor(l, Apply(l, s, step), ip) && Apply(l, s, step).c.buckets == s.c.buckets
  {
    hide OccupiedBy, KnownIds;
    OccupiedByStep(l, s, step, ip);
  }

  ghost predicate ClockReached(s: System, ip: Ip, steps: seq<Step>, n: nat) {
    ip in s.c.buckets ==> forall m :: n <= m < |steps| && steps[m].Filter? ==> s.c.buckets[ip].last <= steps[m].now
  }

  lemma {:induction false} AllPaidFor(l: Limits, steps: seq<Step>, states: seq<System>, n: nat, ip: Ip)
    requires Dry(l) && Run(l, steps, states) && SameAddress(steps, states) && Clocked(steps) && n <= |steps|
    ensures PaidFor(l, states[n], ip) && ClockReached(states[n], ip, steps, n)
  {
    if n == 0 {
      assert At(map[], ip) == {};
    } else {
      AllPaidFor(l, steps, states, n - 1, ip);
      SeatsConserved(l, steps, states, n - 1);
      var s, step := states[n - 1], steps[n - 1];
      assert Enabled(s, step) && states[n] == Apply(l, s, step);
      assert step.Filter? ==> forall m :: n <= m < |steps| && steps[m].Filter? ==> step.now <= steps[m].now;
      SeatedAsFiltered(steps, states, n - 1);
      hide PaidFor, Apply, Enabled, KnownIds, Run;
      if step.Filter? {
        FilterNeedsNoGap(s, step);
        PaidForFilter(l, s, step.ip, step.now, ip);
      } else {
        PaidForStep(l, s, step, ip);
      }
    }
  }

  lemma FilterNeedsNoGap(s: System, step: Step)
    requires Enabled(s, step) && step.Filter?
    ensures s.gap.None?
  {
  }

  lemma InFlightBounded(l: Limits, steps: seq<Step>, states: seq<System>, n: nat, ip: Ip, threads: nat)
    requires Run(l, steps, states) && OnThreads(states, threads) && threads >= 1 && n <= |steps|
    ensures |At(states[n].shaking, ip)| <= states[n].c.inFlight <= l.maxHandshakes
  {
    OccupancyBounded(l, steps, states, n, threads);
    SeatsConserved(l, steps, states, n);
    AtIsSome(states[n].shaking, ip);
  }

  lemma ShutIsEmpty(l: Limits, steps: seq<Step>, states: seq<System>, n: nat, ip: Ip, threads: nat)
    requires Run(l, steps, states) && OnThreads(states, threads) && threads >= 1 && n <= |steps| && Shut(l)
    ensures OccupiedBy(states[n], ip) == 0
  {
    OccupancyBounded(l, steps, states, n, threads);
    SeatsConserved(l, steps, states, n);
    AtIsSome(states[n].seated, ip);
    AtIsSome(states[n].released, ip);
    AtIsSome(states[n].shaking, ip);
  }

  /** The bound per address, whatever handshakes take. */
  lemma PerAddressBounded(l: Limits, steps: seq<Step>, states: seq<System>, n: nat, ip: Ip, threads: nat)
    requires TrueRun(l, steps, states, threads) && n <= |steps|
    ensures OccupiedBy(states[n], ip) <= IpBound(l, threads)
  {
    hide At;
    if Shut(l) {
      ShutIsEmpty(l, steps, states, n, ip, threads);
    } else {
      forall i | 0 <= i < n && Crosses(l, states[i], steps[i], ip, threads)
        ensures |At(states[i].shaking, ip)| + 1 <= Slots(l, threads)
      {
        InFlightBounded(l, steps, states, i, ip, threads);
      }
      IpCapKept(l, steps, states, n, ip, threads, Slots(l, threads));
      if Dry(l) {
        AllPaidFor(l, steps, states, n, ip);
      }
    }
  }

  // ----- handshakes that do not last for ever -----

  /** The handshakes of an address that passed the filter at or after a time. */
  ghost function Recent(s: System, ip: Ip, a: real): set<Id> {
    set id | id in s.shaking && s.shaking[id] == ip && id in s.since && s.since[id] >= a
  }

  ghost function RecentlyPassed(s: System, ip: Ip, a: real): nat {
    |Recent(s, ip, a)| + if s.gap == Some(ip) && s.clock >= a then 1 else 0
  }

  lemma RecentGrows(s: System, ip: Ip, a: real, from: Ip, s': System)
    requires s.next !in s.shaking
    requires s'.shaking == s.shaking[s.next := from] && s'.since == s.since[s.next := s.clock]
    ensures Recent(s', ip, a) == if from == ip && s.clock >= a then Recent(s, ip, a) + {s.next} else Recent(s, ip, a)
  {
  }

  lemma RecentShrinks(s: System, ip: Ip, a: real, id: Id, s': System)
    requires s'.shaking == s.shaking - {id} && s'.since == s.since
    ensures Recent(s', ip, a) == Recent(s, ip, a) - {id}
  {
  }

  lemma SameRecent(s: System, ip: Ip, a: real, s': System)
    requires s'.shaking == s.shaking && s'.since == s.since
    ensures Recent(s', ip, a) == Recent(s, ip, a)
  {
  }

  lemma RecentCheck(l: Limits, s: System, ip: Ip, a: real)
    requires KnownIds(s) && s.gap.Some?
    ensures RecentlyPassed(Apply(l, s, Check), ip, a) <= RecentlyPassed(s, ip, a)
  {
    NextIsNew(s);
    var s' := Apply(l, s, Check);
    hide Recent, KnownIds;
    if s.c.inFlight < l.maxHandshakes {
      RecentGrows(s, ip, a, s.gap.value, s');
    } else {
      SameRecent(s, ip, a, s');
    }
  }

  lemma RecentFilter(l: Limits, s: System, from: Ip, now: real, ip: Ip, a: real)
    requires s.gap.None?
    ensures RecentlyPassed(Apply(l, s, Filter(from, now)), ip, a) <=
            RecentlyPassed(s, ip, a) + if PassesNow(l, s, Filter(from, now), ip) && now >= a then 1 else 0
  {
    SameRecent(s, ip, a, Apply(l, s, Filter(from, now)));
    hide Recent, Filtered, FilterPasses;
  }

  lemma RecentOther(l: Limits, s: System, step: Step, ip: Ip, a: real)
    requires Enabled(s, step) && !step.Filter? && !step.Check?
    ensures RecentlyPassed(Apply(l, s, step), ip, a) <= RecentlyPassed(s, ip, a)
  {
    var s' := Apply(l, s, step);
    assert s'.gap == s.gap && s'.clock == s.clock && s'.since == s.since;
    hide Recent, Seated, Completed, StrandStep;
    if step.Fails? || step.Releases? {
      RecentShrinks(s, ip, a, step.id, s');
    } else {
      SameRecent(s, ip, a, s');
    }
  }

  lemma RecentStep(l: Limits, s: System, step: Step, ip: Ip, a: real)
    requires KnownIds(s) && Enabled(s, step)
    ensures RecentlyPassed(Apply(l, s, step), ip, a) <=
            RecentlyPassed(s, ip, a) + if PassesNow(l, s, step, ip) && step.now >= a then 1 else 0
  {
    hide Apply, RecentlyPassed, PassesNow;
    match step
    case Filter(from, now) => RecentFilter(l, s, from, now, ip, a);
    case Check => RecentCheck(l, s, ip, a);
    case _ => RecentOther(l, s, step, ip, a);
  }

  /** Each of them is a connection the filter passed since. */
  lemma {:induction false} RecentArePassed(l: Limits, steps: seq<Step>, states: seq<System>, n: nat, ip: Ip, a: real, b: real)
    requires Run(l, steps, states) && n <= |steps|
    requires forall i :: 0 <= i < n && steps[i].Filter? ==> steps[i].now <= b
    ensures RecentlyPassed(states[n], ip, a) <= Passed(l, steps, states, ip, n, a, b)
  {
    if n == 0 {
      assert Recent(Start, ip, a) == {};
    } else {
      RecentArePassed(l, steps, states, n - 1, ip, a, b);
      SeatsConserved(l, steps, states, n - 1);
      assert Enabled(states[n - 1], steps[n - 1]) && states[n] == Apply(l, states[n - 1], steps[n - 1]);
      hide Apply, FilterPasses, RecentlyPassed, Tallies, KnownIds;
      RecentStep(l, states[n - 1], steps[n - 1], ip, a);
    }
  }

  lemma {:induction false} ClockIsLatest(l: Limits, steps: seq<Step>, states: seq<System>, n: nat)
    requires Run(l, steps, states) && Clocked(steps) && n <= |steps|
    ensures forall i :: 0 <= i < n && steps[i].Filter? ==> steps[i].now <= states[n].clock
  {
    if n > 0 {
      ClockIsLatest(l, steps, states, n - 1);
      assert states[n] == Apply(l, states[n - 1], steps[n - 1]);
    }
  }

  lemma PromptAreRecent(s: System, ip: Ip, patience: real)
    requires PromptAt(s, patience)
    ensures At(s.shaking, ip) == Recent(s, ip, s.clock - patience)
  {
  }

  /** A limited address has no more handshakes in flight than its bucket grants within the time one may take. */
  lemma FewInFlight(w: Site, steps: seq<Step>, states: seq<System>, n: nat, ip: Ip)
    requires PromptRun(w, steps, states) && Limited(w.l) && n <= |steps|
    ensures |At(states[n].shaking, ip)| + (if states[n].gap == Some(ip) then 1 else 0) <= BegunWithin(w.l, w.patience)
  {
    assert PromptAt(states[n], w.patience);
    hide Passed, Accrued, At, Recent, PromptAt, Apply, Enabled, Clocked, SameAddress, OnThreads;
    FewRecent(w.l, steps, states, n, ip, w.patience);
    PromptAreRecent(states[n], ip, w.patience);
  }

  lemma FewRecent(l: Limits, steps: seq<Step>, states: seq<System>, n: nat, ip: Ip, patience: real)
    requires Run(l, steps, states) && Clocked(steps) && Limited(l) && n <= |steps| && patience >= 0.0
    ensures RecentlyPassed(states[n], ip, states[n].clock - patience) <= BegunWithin(l, patience)
  {
    hide Passed, Accrued, RecentlyPassed, Apply, Enabled, Clocked;
    var now := states[n].clock;
    ClockIsLatest(l, steps, states, n);
    RecentArePassed(l, steps, states, n, ip, now - patience, now);
    AcceptRateBounded(l, steps, states, ip, n, now - patience, now);
  }

  /** Past the filter or past the cap, a socket of a limited address is one of few. */
  lemma CrossesAmongFew(w: Site, steps: seq<Step>, states: seq<System>, i: nat, ip: Ip)
    requires PromptRun(w, steps, states) && Limited(w.l) && i < |steps| && Crosses(w.l, states[i], steps[i], ip, w.threads)
    ensures |At(states[i].shaking, ip)| + 1 <= InHand(w)
  {
    AccruedPositive(w.l.rate, w.patience);
    InFlightBounded(w.l, steps, states, i, ip, w.threads);
    assert Enabled(states[i], steps[i]) && states[i + 1] == Apply(w.l, states[i], steps[i]);
    FewInFlight(w, steps, states, if w.threads == 1 then i else i + 1, ip);
    hide Accrued, At;
  }

  /** The bound per address when no handshake outlasts the site's patience. */
  lemma PromptPerAddressBounded(w: Site, steps: seq<Step>, states: seq<System>, n: nat, ip: Ip)
    requires PromptRun(w, steps, states) && n <= |steps|
    ensures OccupiedBy(states[n], ip) <= PatientBound(w)
  {
    PerAddressBounded(w.l, steps, states, n, ip, w.threads);
    if !Shut(w.l) && Limited(w.l) {
      forall i | 0 <= i < n && Crosses(w.l, states[i], steps[i], ip, w.threads)
        ensures |At(states[i].shaking, ip)| + 1 <= InHand(w)
      {
        CrossesAmongFew(w, steps, states, i, ip);
      }
      hide At, InHand;
      IpCapKept(w.l, steps, states, n, ip, w.threads, InHand(w));
    }
  }

  // ----- runs that reach them -----

  /** A run so far, and the clock's reading. */
  datatype Past = Past(steps: seq<Step>, states: seq<System>, now: real)

  function Last(p: Past): System {
    if p.states == [] then Start else p.states[|p.states| - 1]
  }

  ghost predicate ClockedTo(steps: seq<Step>, now: real) {
    Clocked(steps) && now > 0.0 && forall i :: 0 <= i < |steps| && steps[i].Filter? ==> steps[i].now <= now
  }

  ghost predicate Standing(w: Site, p: Past) {
    PromptRun(w, p.steps, p.states) && Counted(Last(p)) && ClockedTo(p.steps, p.now)
  }

  function Begin(): Past {
    Past([], [Start], 1.0)
  }

  lemma StandingBegin(w: Site)
    requires w.patience >= 0.0 && w.threads >= 1
    ensures Standing(w, Begin())
  {
    NothingTallied();
  }

  function Then(w: Site, p: Past, step: Step, later: real): Past
    requires Enabled(Last(p), step)
  {
    Past(p.steps + [step], p.states + [Apply(w.l, Last(p), step)], later)
  }

  lemma ExtendRun(l: Limits, steps: seq<Step>, states: seq<System>, step: Step)
    requires Run(l, steps, states) && Enabled(states[|steps|], step)
    ensures Run(l, steps + [step], states + [Apply(l, states[|steps|], step)])
  {
    hide Apply, Enabled;
    var steps', states' := steps + [step], states + [Apply(l, states[|steps|], step)];
    forall i | 0 <= i < |steps'| ensures Enabled(states'[i], steps'[i]) && states'[i + 1] == Apply(l, states'[i], steps'[i]) {
      assert i < |steps| ==> Enabled(states[i], steps[i]) && states[i + 1] == Apply(l, states[i], steps[i]);
    }
  }

  lemma ExtendSame(steps: seq<Step>, states: seq<System>, step: Step, s': System)
    requires SameAddress(steps, states)
    requires step.Seats? ==> step.id in states[|steps|].released && step.ip == states[|steps|].released[step.id]
    ensures SameAddress(steps + [step], states + [s'])
  {
  }

  lemma ExtendClock(steps: seq<Step>, now: real, step: Step, later: real)
    requires ClockedTo(steps, now) && now <= later && (step.Filter? ==> step.now == later)
    ensures ClockedTo(steps + [step], later)
  {
  }

  /** One step more. */
  lemma Extend(w: Site, p: Past, step: Step, later: real)
    requires Standing(w, p) && Enabled(Last(p), step) && p.now <= later
    requires PromptAt(Apply(w.l, Last(p), step), w.patience) && Busy(Apply(w.l, Last(p), step)) <= w.threads
    requires step.Filter? ==> step.now == later
    requires step.Seats? ==> step.ip == Last(p).released[step.id]
    ensures Standing(w, Then(w, p, step, later)) && Last(Then(w, p, step, later)) == Apply(w.l, Last(p), step)
  {
    hide Apply, Counted, Clocked, PromptAt, Busy;
    StandingLast(w, p);
    CountedStep(w.l, Last(p), step);
    ExtendRun(w.l, p.steps, p.states, step);
    ExtendSame(p.steps, p.states, step, Apply(w.l, Last(p), step));
    ExtendClock(p.steps, p.now, step, later);
    hide Run, SameAddress;
  }

  lemma StandingLast(w: Site, p: Past)
    requires Standing(w, p)
    ensures |p.states| == |p.steps| + 1 && p.states[|p.steps|] == Last(p)
  {
    hide Clocked, Counted, PromptAt, Busy, Apply, Enabled;
  }

  lemma StandingCounted(w: Site, p: Past)
    requires Standing(w, p)
    ensures var s := Last(p);
            && Counted(s) && KnownIds(s) && s.c.inFlight == |s.shaking| && s.c.total == |s.seated|
            && PromptAt(s, w.patience) && Busy(s) <= w.threads
    ensures p.now > 0.0 && w.patience >= 0.0 && w.threads >= 1
  {
    hide Tallies, Clocked, SameAddress, PromptAt, Busy, Apply, Enabled;
  }

  lemma StandingRuns(w: Site, p: Past)
    requires Standing(w, p)
    ensures PromptRun(w, p.steps, p.states) && |p.states| == |p.steps| + 1 && p.states[|p.steps|] == Last(p)
  {
    StandingLast(w, p);
    hide PromptRun, Counted, Last;
  }

  // ----- the moves they are made of -----

  ghost predicate InTime(s: System, later: real, patience: real) {
    forall id :: id in s.shaking ==> id in s.since && later - s.since[id] <= patience
  }

  /** The server once a connection has passed the filter and not yet met the cap. */
  function Knocking(l: Limits, s: System, ip: Ip, now: real): System {
    s.(c := Filtered(s.c, l, ip, now), gap := Some(ip), clock := now)
  }

  /** And once it has entered its handshake. */
  function Connected(l: Limits, s: System, ip: Ip, now: real): System {
    s.(c := Filtered(s.c, l, ip, now).(inFlight := s.c.inFlight + 1), shaking := s.shaking[s.next := ip], next := s.next + 1,
       clock := now, since := s.since[s.next := now])
  }

  lemma Knock(w: Site, p: Past, ip: Ip, later: real) returns (p': Past)
    requires Standing(w, p) && Last(p).gap.None? && p.now <= later && |Last(p).released| < w.threads
    requires FilterPasses(Last(p).c, w.l, ip, later) && InTime(Last(p), later, w.patience)
    ensures Standing(w, p') && p'.now == later && Last(p') == Knocking(w.l, Last(p), ip, later)
  {
    hide Standing, FilterPasses, Filtered;
    assert Apply(w.l, Last(p), Filter(ip, later)) == Knocking(w.l, Last(p), ip, later);
    Extend(w, p, Filter(ip, later), later);
    p' := Then(w, p, Filter(ip, later), later);
  }

  lemma Enter(w: Site, p: Past) returns (p': Past)
    requires Standing(w, p) && Last(p).gap.Some? && Last(p).c.inFlight < w.l.maxHandshakes
    ensures Standing(w, p') && p'.now == p.now && Last(p') == Apply(w.l, Last(p), Check)
  {
    StandingCounted(w, p);
    hide Standing, Counted, Last;
    Extend(w, p, Check, p.now);
    p' := Then(w, p, Check, p.now);
  }

  lemma Connect(w: Site, p: Past, ip: Ip, later: real) returns (p': Past)
    requires Standing(w, p) && Last(p).gap.None? && p.now <= later && |Last(p).released| < w.threads
    requires FilterPasses(Last(p).c, w.l, ip, later) && InTime(Last(p), later, w.patience)
    requires Last(p).c.inFlight < w.l.maxHandshakes
    ensures Standing(w, p') && p'.now == later && Last(p') == Connected(w.l, Last(p), ip, later)
  {
    var s := Last(p);
    FilterKeepsCounts(s.c, w.l, ip, later);
    hide Standing, FilterPasses, InTime, Filtered, Last;
    p' := Knock(w, p, ip, later);
    p' := Enter(w, p');
    assert Apply(w.l, Knocking(w.l, s, ip, later), Check) == Connected(w.l, s, ip, later);
  }

  /** A handshake ends well and gives its slot back. */
  lemma Release(w: Site, p: Past, id: Id) returns (p': Past)
    requires Standing(w, p) && id in Last(p).shaking && Busy(Last(p)) < w.threads
    ensures Standing(w, p') && p'.now == p.now && Last(p') == Apply(w.l, Last(p), Releases(id))
  {
    StandingCounted(w, p);
    var s := Last(p);
    SizeInsert(s.released, id, s.shaking[id]);
    hide Standing, Counted, Last;
    Extend(w, p, Releases(id), p.now);
    p' := Then(w, p, Releases(id), p.now);
  }

  /** And takes a seat. */
  lemma Settle(w: Site, p: Past, id: Id) returns (p': Past)
    requires Standing(w, p) && id in Last(p).released
    ensures Standing(w, p') && p'.now == p.now && Last(p') == Apply(w.l, Last(p), Seats(id, Last(p).released[id]))
  {
    StandingCounted(w, p);
    var s := Last(p);
    SizeRemove(s.released, id);
    hide Standing, Counted, Last, Seated;
    var step := Seats(id, s.released[id]);
    Extend(w, p, step, p.now);
    p' := Then(w, p, step, p.now);
  }

  ghost predicate AllFrom(s: System, ip: Ip) {
    && (forall id :: id in s.shaking ==> s.shaking[id] == ip)
    && (forall id :: id in s.released ==> s.released[id] == ip)
    && (forall id :: id in s.seated ==> s.seated[id] == ip)
  }

  lemma Released(l: Limits, s: System, id: Id)
    requires KnownIds(s) && id in s.shaking
    ensures var s' := Apply(l, s, Releases(id));
            && s'.c.total == s.c.total && s'.c.inFlight == s.c.inFlight - 1 && s'.gap == s.gap
            && id in s'.released && |s'.released| == |s.released| + 1 && |s'.shaking| == |s.shaking| - 1
            && (forall ip :: AllFrom(s, ip) ==> AllFrom(s', ip))
  {
    SizeInsert(s.released, id, s.shaking[id]);
    SizeRemove(s.shaking, id);
  }

  lemma Settled(l: Limits, s: System, id: Id)
    requires id in s.released
    ensures var s' := Apply(l, s, Seats(id, s.released[id]));
            && s'.c.total == s.c.total + 1 && s'.c.inFlight == s.c.inFlight && s'.gap == s.gap
            && |s'.released| == |s.released| - 1 && s'.shaking == s.shaking
            && (forall ip :: AllFrom(s, ip) ==> AllFrom(s', ip))
  {
    SizeRemove(s.released, id);
  }

  /** Both in one go. */
  lemma AdmitOne(w: Site, p: Past, id: Id) returns (p': Past)
    requires Standing(w, p) && id in Last(p).shaking && Busy(Last(p)) < w.threads
    ensures Standing(w, p') && p'.now == p.now && Last(p').gap == Last(p).gap && |Last(p').released| == |Last(p).released|
    ensures Last(p').c.total == Last(p).c.total + 1 && Last(p').c.inFlight == Last(p).c.inFlight - 1
    ensures |Last(p').shaking| == |Last(p).shaking| - 1
    ensures forall ip :: AllFrom(Last(p), ip) ==> AllFrom(Last(p'), ip)
  {
    StandingCounted(w, p);
    hide Standing, Counted, Last, AllFrom, Busy, Apply;
    Released(w.l, Last(p), id);
    p' := Release(w, p, id);
    Settled(w.l, Last(p'), id);
    p' := Settle(w, p', id);
  }

  /** Everyone who has no seat yet takes one. */
  lemma {:induction false} SettleAll(w: Site, p: Past) returns (p': Past)
    requires Standing(w, p) && Last(p).gap.None?
    ensures Standing(w, p') && p'.now == p.now && Last(p').gap.None? && |Last(p').released| == 0
    ensures Occupied(Last(p')) == Occupied(Last(p)) && forall ip :: AllFrom(Last(p), ip) ==> AllFrom(Last(p'), ip)
    decreases |Last(p).released|
  {
    hide Standing, Apply, Last, AllFrom;
    p' := p;
    if |Last(p).released| > 0 {
      var id := Someone(Last(p).released);
      Settled(w.l, Last(p), id);
      p' := Settle(w, p, id);
      p' := SettleAll(w, p');
    }
  }

  lemma {:induction false} AdmitAll(w: Site, p: Past) returns (p': Past)
    requires Standing(w, p) && Last(p).gap.None? && |Last(p).released| == 0
    ensures Standing(w, p') && p'.now == p.now && Last(p').c.total == Occupied(Last(p)) && Last(p').c.inFlight == 0
    ensures forall ip :: AllFrom(Last(p), ip) ==> AllFrom(Last(p'), ip)
    decreases |Last(p).shaking|
  {
    hide Standing, Last, AllFrom, Busy;
    NobodyHeld(w, p);
    p' := p;
    if |Last(p).shaking| > 0 {
      p' := AdmitOne(w, p, Someone(Last(p).shaking));
      p' := AdmitAll(w, p');
    }
  }

  lemma NobodyHeld(w: Site, p: Past)
    requires Standing(w, p) && Last(p).gap.None? && |Last(p).released| == 0
    ensures Busy(Last(p)) < w.threads && Last(p).c.inFlight == |Last(p).shaking|
  {
    StandingCounted(w, p);
    hide Standing, Counted, Last;
  }

  ghost function Someone(m: map<Id, Ip>): Id
    requires |m| > 0
    ensures Someone(m) in m
  {
    var id :| id in m;
    id
  }

  // ----- one more between filter and cap -----

  /** While a connection is between filter and cap, a session takes its seat and a handshake gives its slot back. */
  lemma Shuffle(w: Site, p: Past) returns (p': Past)
    requires Standing(w, p) && |Last(p).released| > 0 && |Last(p).shaking| > 0
    ensures Standing(w, p') && p'.now == p.now && Last(p').gap == Last(p).gap && Occupied(Last(p')) == Occupied(Last(p))
    ensures Last(p').c.inFlight == Last(p).c.inFlight - 1
    ensures forall ip :: AllFrom(Last(p), ip) ==> AllFrom(Last(p'), ip)
  {
    StandingCounted(w, p);
    hide Standing, Counted, Apply, Last, AllFrom;
    Settled(w.l, Last(p), Someone(Last(p).released));
    p' := Settle(w, p, Someone(Last(p).released));
    StandingCounted(w, p');
    Released(w.l, Last(p'), Someone(Last(p').shaking));
    p' := Release(w, p', Someone(Last(p').shaking));
  }

  lemma Knocked(l: Limits, s: System, ip: Ip, now: real)
    ensures var s' := Knocking(l, s, ip, now);
            && s'.c.inFlight == s.c.inFlight && Occupied(s') == Occupied(s)
            && (AllFrom(s, ip) ==> AllFrom(s', ip))
  {
    FilterKeepsCounts(s.c, l, ip, now);
    hide Filtered;
  }

  lemma Entered(l: Limits, s: System, ip: Ip)
    requires s.gap.Some? && s.c.inFlight < l.maxHandshakes
    ensures var s' := Apply(l, s, Check);
            && Occupied(s') == Occupied(s) + 1 && s'.gap.None?
            && (AllFrom(s, ip) && s.gap == Some(ip) ==> AllFrom(s', ip))
  {
  }

  /** With another thread at hand, one more than the handshake slots allow gets in; then everyone takes a seat. */
  lemma SqueezeIn(w: Site, p: Past, ip: Ip, later: real) returns (p': Past)
    requires Standing(w, p) && Last(p).gap.None? && p.now <= later && 0 < |Last(p).released| < w.threads
    requires FilterPasses(Last(p).c, w.l, ip, later) && InTime(Last(p), later, w.patience)
    requires Last(p).c.inFlight == w.l.maxHandshakes > 0
    ensures Standing(w, p') && Last(p').c.total == Occupied(Last(p)) + 1 && Last(p').c.inFlight == 0
    ensures AllFrom(Last(p), ip) ==> AllFrom(Last(p'), ip)
  {
    hide Standing, FilterPasses, InTime, Apply, Last, AllFrom, Filtered;
    Knocked(w.l, Last(p), ip, later);
    p' := Knock(w, p, ip, later);
    StandingCounted(w, p');
    hide Counted;
    p' := Shuffle(w, p');
    Entered(w.l, Last(p'), ip);
    p' := Enter(w, p');
    p' := SettleAll(w, p');
    p' := AdmitAll(w, p');
  }

  // ----- in all: one new address per connection, all at one moment -----

  /** No address from `used` on has been seen. */
  ghost predicate Unseen(s: System, used: Ip) {
    && (forall ip :: ip >= used ==> ip !in s.c.perIp && ip !in s.c.buckets)
    && (forall id :: id in s.shaking ==> s.shaking[id] < used)
    && (forall id :: id in s.released ==> s.released[id] < used)
  }

  /** Every handshake in flight was begun just now. */
  ghost predicate Current(s: System, now: real) {
    forall id :: id in s.shaking ==> id in s.since && s.since[id] == now
  }

  lemma NewPasses(l: Limits, s: System, ip: Ip)
    requires Unseen(s, ip) && !Stingy(l) && s.c.total < l.maxSessions
    ensures FilterPasses(s.c, l, ip, 1.0)
  {
  }

  lemma ConnectedCounts(l: Limits, s: System, ip: Ip, now: real)
    ensures var s' := Connected(l, s, ip, now);
            && s'.c.total == s.c.total && s'.c.inFlight == s.c.inFlight + 1 && s'.released == s.released && s'.gap == s.gap
            && s.next in s'.shaking
  {
    FilterKeepsCounts(s.c, l, ip, now);
    hide Filtered;
  }

  lemma ConnectedCurrent(l: Limits, s: System, ip: Ip, now: real)
    requires Current(s, now)
    ensures Current(Connected(l, s, ip, now), now)
  {
    hide Filtered;
  }

  lemma ConnectedUnseen(l: Limits, s: System, ip: Ip, now: real)
    requires Unseen(s, ip)
    ensures Unseen(Connected(l, s, ip, now), ip + 1)
  {
    hide BucketFor;
  }

  lemma ConnectNew(w: Site, p: Past, ip: Ip) returns (p': Past)
    requires Standing(w, p) && Last(p).gap.None? && |Last(p).released| < w.threads && p.now == 1.0
    requires Unseen(Last(p), ip) && Current(Last(p), 1.0) && !Stingy(w.l)
    requires Last(p).c.total < w.l.maxSessions && Last(p).c.inFlight < w.l.maxHandshakes
    ensures Standing(w, p') && Last(p').gap.None? && p'.now == 1.0 && Unseen(Last(p'), ip + 1) && Current(Last(p'), 1.0)
    ensures Last(p').c.total == Last(p).c.total && Last(p').c.inFlight == Last(p).c.inFlight + 1
    ensures Last(p').released == Last(p).released && Last(p).next in Last(p').shaking
  {
    StandingCounted(w, p);
    var s := Last(p);
    NewPasses(w.l, s, ip);
    hide Standing, Counted, FilterPasses, Connected, Unseen, Last;
    p' := Connect(w, p, ip, 1.0);
    ConnectedCounts(w.l, s, ip, 1.0);
    ConnectedCurrent(w.l, s, ip, 1.0);
    ConnectedUnseen(w.l, s, ip, 1.0);
  }

  lemma ReleasedUnseen(l: Limits, s: System, id: Id, used: Ip)
    requires id in s.shaking && Unseen(s, used) && Current(s, 1.0)
    ensures var s' := Apply(l, s, Releases(id)); Unseen(s', used) && Current(s', 1.0)
  {
  }

  lemma SettledUnseen(l: Limits, s: System, id: Id, used: Ip)
    requires id in s.released && Unseen(s, used) && Current(s, 1.0)
    ensures var s' := Apply(l, s, Seats(id, s.released[id])); Unseen(s', used) && Current(s', 1.0)
  {
  }

  /** A connection from a new address is through its handshake and held before its seat. */
  lemma HoldNew(w: Site, p: Past, ip: Ip) returns (p': Past, id: Id)
    requires Standing(w, p) && Last(p).gap.None? && |Last(p).released| < w.threads && p.now == 1.0
    requires Unseen(Last(p), ip) && Current(Last(p), 1.0) && !Shut(w.l)
    requires Last(p).c.total < w.l.maxSessions && Last(p).c.inFlight == 0
    ensures Standing(w, p') && Last(p').gap.None? && p'.now == 1.0 && Unseen(Last(p'), ip + 1) && Current(Last(p'), 1.0)
    ensures Last(p').c.total == Last(p).c.total && Last(p').c.inFlight == 0
    ensures |Last(p').released| == |Last(p).released| + 1 && id in Last(p').released
  {
    hide Standing, Unseen, Current, Last, Apply, AllFrom, Counted;
    id := Last(p).next;
    p' := ConnectNew(w, p, ip);
    StandingCounted(w, p');
    Released(w.l, Last(p'), id);
    ReleasedUnseen(w.l, Last(p'), id, ip + 1);
    p' := Release(w, p', id);
  }

  /** Seats taken, then sessions held back before theirs, then handshakes. */
  lemma {:induction false} FillNew(w: Site, seats: nat, held: nat, shakes: nat) returns (p: Past)
    requires !Shut(w.l) && w.patience >= 0.0 && seats < w.l.maxSessions && held < w.threads && shakes <= w.l.maxHandshakes
    ensures Standing(w, p) && Last(p).gap.None? && p.now == 1.0 && Unseen(Last(p), seats + held + shakes) && Current(Last(p), 1.0)
    ensures Last(p).c.total == seats && |Last(p).released| == held && Last(p).c.inFlight == shakes
    decreases seats, held, shakes
  {
    hide Standing, Unseen, Current, Last, Apply, AllFrom;
    if shakes > 0 {
      p := FillNew(w, seats, held, shakes - 1);
      p := ConnectNew(w, p, seats + held + shakes - 1);
    } else if held > 0 {
      p := FillNew(w, seats, held - 1, 0);
      var id;
      p, id := HoldNew(w, p, seats + held - 1);
    } else if seats > 0 {
      p := FillNew(w, seats - 1, 0, 0);
      var id;
      p, id := HoldNew(w, p, seats - 1);
      Settled(w.l, Last(p), id);
      SettledUnseen(w.l, Last(p), id, seats);
      p := Settle(w, p, id);
    } else {
      p := Begin();
      StandingBegin(w);
      BeginUnseen();
    }
  }

  lemma BeginUnseen()
    ensures Last(Begin()) == Start && Unseen(Start, 0) && Current(Start, 1.0)
  {
  }

  /** Whatever the site, some run of the code reaches the bound, and reaches it by sessions alone. */
  lemma OccupancyBoundReached(w: Site) returns (steps: seq<Step>, states: seq<System>)
    requires w.patience >= 0.0 && w.threads >= 1
    ensures PromptRun(w, steps, states)
    ensures states[|steps|].c.total == Bound(w.l, w.threads) && states[|steps|].c.inFlight == 0
  {
    var p := Begin();
    if Shut(w.l) {
      StandingBegin(w);
    } else {
      p := FillNew(w, w.l.maxSessions - 1, w.threads - 1, w.l.maxHandshakes);
      if w.threads == 1 {
        p := SettleAll(w, p);
        p := AdmitAll(w, p);
      } else {
        var used := w.l.maxSessions - 1 + (w.threads - 1) + w.l.maxHandshakes;
        NewPasses(w.l, Last(p), used);
        p := SqueezeIn(w, p, used, 1.0);
      }
    }
    StandingRuns(w, p);
    steps, states := p.steps, p.states;
  }

  // ----- per address: every connection from one address -----

  /** The address's bucket was last used at `now` and, unless it is refilled, is short one token per connection made. */
  ghost predicate Stocked(l: Limits, s: System, ip: Ip, now: real) {
    if ip !in s.c.buckets then Occupied(s) == 0
    else
      var b := s.c.buckets[ip];
      && b.capacity == l.burst && b.rate == l.rate && b.last == now
      && (l.burst > 0.0 ==> b.tokens >= if Dry(l) then l.burst - Occupied(s) as real else 0.0)
  }

  /** When to come back: a limited address waits for one token. */
  function ComeBack(l: Limits, now: real): real {
    if l.burst > 0.0 && l.rate > 0.0 then now + 1.0 / l.rate else now
  }

  lemma OneTokenLater(l: Limits, now: real)
    requires now > 0.0
    ensures now <= ComeBack(l, now)
    ensures Accrued(l.rate, ComeBack(l, now) - now) == if l.burst > 0.0 && l.rate > 0.0 then 1.0 else 0.0
  {
    if l.burst > 0.0 && l.rate > 0.0 {
      assert 1.0 / l.rate > 0.0;
      assert (1.0 / l.rate) * l.rate == 1.0;
    }
  }

  lemma AllAtOne(m: map<Id, Ip>, ip: Ip)
    requires forall id :: id in m ==> m[id] == ip
    ensures |At(m, ip)| == |m|
  {
    assert At(m, ip) == m.Keys;
  }

  lemma RoomForOne(l: Limits, s: System, ip: Ip)
    requires Counted(s) && AllFrom(s, ip) && s.c.total < IpSeats(l)
    ensures UnderCaps(s.c, l, ip)
  {
    AllAtOne(s.seated, ip);
    assert Tally(s.c.perIp, ip) == |At(s.seated, ip)|;
    hide At, Tallies, KnownIds;
  }

  /** Taking one token from a bucket that was unused, or was last used one token's time ago. */
  lemma TakeOne(l: Limits, b: Bucket, now: real, made: nat)
    requires b.capacity == l.burst && b.rate == l.rate && now > 0.0 && !Stingy(l)
    requires if b.last == 0.0 then made == 0
             else b.last == now && (l.burst > 0.0 ==> b.tokens >= if Dry(l) then l.burst - made as real else 0.0)
    requires Dry(l) ==> made as real + 1.0 <= l.burst
    ensures var b' := Refill(b, ComeBack(l, now));
            && Allows(b', 1.0) && b'.last == ComeBack(l, now) && b'.capacity == l.burst && b'.rate == l.rate
            && (l.burst > 0.0 ==> b'.tokens - 1.0 >= if Dry(l) then l.burst - made as real - 1.0 else 0.0)
  {
    OneTokenLater(l, now);
    hide Accrued, ComeBack;
  }

  lemma StockedPasses(l: Limits, s: System, ip: Ip, now: real)
    requires Counted(s) && AllFrom(s, ip) && Stocked(l, s, ip, now) && now > 0.0 && !Stingy(l) && s.c.total < IpSeats(l)
    requires Dry(l) ==> Occupied(s) as real + 1.0 <= l.burst
    ensures FilterPasses(s.c, l, ip, ComeBack(l, now))
    ensures Stocked(l, Connected(l, s, ip, ComeBack(l, now)), ip, ComeBack(l, now))
  {
    RoomForOne(l, s, ip);
    assert Occupied(s) >= 0;
    hide Counted, AllFrom, UnderCaps;
    TakeOne(l, BucketFor(s.c, l, ip), now, Occupied(s));
    hide ComeBack, Refill;
  }

  lemma ConnectedFrom(l: Limits, s: System, ip: Ip, later: real)
    requires AllFrom(s, ip)
    ensures AllFrom(Connected(l, s, ip, later), ip)
  {
    hide Filtered;
  }

  lemma FreshlyConnected(l: Limits, s: System, ip: Ip, later: real)
    requires s.shaking == map[]
    ensures Current(Connected(l, s, ip, later), later)
  {
    hide Filtered;
  }

  /** All of one address, with what its bucket needs for the next connection. */
  ghost predicate Ready(w: Site, p: Past, ip: Ip) {
    && Standing(w, p) && Last(p).gap.None? && AllFrom(Last(p), ip)
    && Stocked(w.l, Last(p), ip, p.now) && Current(Last(p), p.now)
  }

  lemma ConnectAgain(w: Site, p: Past, ip: Ip) returns (p': Past)
    requires Ready(w, p, ip) && !Stingy(w.l) && |Last(p).released| < w.threads
    requires Last(p).c.total < IpSeats(w.l) && Last(p).c.inFlight < w.l.maxHandshakes
    requires Dry(w.l) ==> Occupied(Last(p)) as real + 1.0 <= w.l.burst
    requires Limited(w.l) ==> Last(p).c.inFlight == 0
    ensures Ready(w, p', ip)
    ensures Last(p').c.total == Last(p).c.total && Last(p').c.inFlight == Last(p).c.inFlight + 1
    ensures Last(p').released == Last(p).released && Last(p).next in Last(p').shaking
  {
    StandingCounted(w, p);
    var s, later := Last(p), ComeBack(w.l, p.now);
    assert Limited(w.l) ==> s.shaking == map[];
    assert !Limited(w.l) ==> later == p.now;
    assert InTime(s, later, w.patience);
    StockedPasses(w.l, s, ip, p.now);
    OneTokenLater(w.l, p.now);
    hide Standing, Counted, FilterPasses, Stocked, ComeBack, Connected, InTime, AllFrom, Last;
    p' := Connect(w, p, ip, later);
    ConnectedCounts(w.l, s, ip, later);
    if Limited(w.l) {
      FreshlyConnected(w.l, s, ip, later);
    } else {
      ConnectedCurrent(w.l, s, ip, later);
    }
    ConnectedFrom(w.l, s, ip, later);
  }

  lemma ReleasedStock(l: Limits, s: System, id: Id, ip: Ip, now: real)
    requires KnownIds(s) && id in s.shaking && Stocked(l, s, ip, now) && Current(s, now)
    ensures var s' := Apply(l, s, Releases(id)); Stocked(l, s', ip, now) && Current(s', now)
  {
    SizeInsert(s.released, id, s.shaking[id]);
  }

  lemma SettledStock(l: Limits, s: System, id: Id, ip: Ip, now: real)
    requires id in s.released && Stocked(l, s, ip, now) && Current(s, now)
    ensures var s' := Apply(l, s, Seats(id, s.released[id])); Stocked(l, s', ip, now) && Current(s', now)
  {
    SizeRemove(s.released, id);
  }

  /** One more connection of the address is through its handshake and held before its seat. */
  lemma HoldAgain(w: Site, p: Past, ip: Ip) returns (p': Past, id: Id)
    requires Ready(w, p, ip) && !Shut(w.l) && |Last(p).released| < w.threads
    requires Last(p).c.total < IpSeats(w.l) && Last(p).c.inFlight == 0
    requires Dry(w.l) ==> Occupied(Last(p)) as real + 1.0 <= w.l.burst
    ensures Ready(w, p', ip) && Last(p').c.total == Last(p).c.total && Last(p').c.inFlight == 0
    ensures |Last(p').released| == |Last(p).released| + 1 && id in Last(p').released
  {
    id := Last(p).next;
    p' := ConnectAgain(w, p, ip);
    StandingCounted(w, p');
    hide Standing, Current, Last, Apply, AllFrom, Counted, Stocked;
    Released(w.l, Last(p'), id);
    ReleasedStock(w.l, Last(p'), id, ip, p'.now);
    p' := Release(w, p', id);
  }

  lemma SettleAgain(w: Site, p: Past, ip: Ip, id: Id) returns (p': Past)
    requires Ready(w, p, ip) && id in Last(p).released
    ensures Ready(w, p', ip) && Last(p').c.total == Last(p).c.total + 1 && Last(p').c.inFlight == Last(p).c.inFlight
    ensures |Last(p').released| == |Last(p).released| - 1
  {
    hide Standing, Current, Last, Apply, AllFrom, Stocked;
    Settled(w.l, Last(p), id);
    SettledStock(w.l, Last(p), id, ip, p.now);
    p' := Settle(w, p, id);
  }

  /** Seats taken, sessions held back before theirs and, unless the address has to wait for tokens, handshakes all at one moment. */
  lemma {:induction false} FillFrom(w: Site, ip: Ip, seats: nat, held: nat, shakes: nat) returns (p: Past)
    requires !Shut(w.l) && w.patience >= 0.0 && seats < IpSeats(w.l) && held < w.threads && shakes <= w.l.maxHandshakes
    requires Dry(w.l) ==> seats + held + shakes <= w.l.burst.Floor
    requires Limited(w.l) ==> shakes == 0
    ensures Ready(w, p, ip) && Last(p).c.total == seats && |Last(p).released| == held && Last(p).c.inFlight == shakes
    decreases seats, held, shakes
  {
    hide Ready, Last;
    if shakes > 0 {
      p := FillFrom(w, ip, seats, held, shakes - 1);
      p := ConnectAgain(w, p, ip);
    } else if held > 0 {
      p := FillFrom(w, ip, seats, held - 1, 0);
      var id;
      p, id := HoldAgain(w, p, ip);
    } else if seats > 0 {
      p := FillFrom(w, ip, seats - 1, 0, 0);
      var id;
      p, id := HoldAgain(w, p, ip);
      p := SettleAgain(w, p, ip, id);
    } else {
      p := Begin();
      BeginReady(w, ip);
    }
  }

  lemma BeginReady(w: Site, ip: Ip)
    requires w.patience >= 0.0 && w.threads >= 1
    ensures Ready(w, Begin(), ip) && Last(Begin()) == Start
  {
    StandingBegin(w);
    hide Standing;
  }

  // ----- a limited address: a full bucket at t0, then a handshake as soon as there is a token for it -----

  function Pace(l: Limits, t0: real, k: nat): real
    requires l.rate > 0.0
  {
    if k as real <= l.burst then t0 else t0 + (k as real - l.burst) / l.rate
  }

  /** Tokens refilled between t0 and the k-th handshake. */
  function Refilled(l: Limits, k: nat): real {
    if k as real <= l.burst then 0.0 else k as real - l.burst
  }

  lemma PaceEarns(l: Limits, t0: real, k: nat)
    requires l.rate > 0.0
    ensures Accrued(l.rate, Pace(l, t0, k) - t0) == Refilled(l, k) && t0 <= Pace(l, t0, k)
  {
    if k as real > l.burst {
      var d := (k as real - l.burst) / l.rate;
      assert d * l.rate == k as real - l.burst;
      assert d > 0.0;
    }
  }

  lemma PaceSteps(l: Limits, t0: real, k: nat)
    requires l.rate > 0.0
    ensures Pace(l, t0, k) <= Pace(l, t0, k + 1)
    ensures Accrued(l.rate, Pace(l, t0, k + 1) - Pace(l, t0, k)) == Refilled(l, k + 1) - Refilled(l, k)
  {
    PaceEarns(l, t0, k);
    PaceEarns(l, t0, k + 1);
    var d, e := Pace(l, t0, k) - t0, Pace(l, t0, k + 1) - Pace(l, t0, k);
    hide Accrued, Pace;
    AccruedAdds(l.rate, d, e);
    assert Accrued(l.rate, e) >= 0.0;
    if e < 0.0 {
      AccruedNegative(l.rate, e);
    }
  }

  lemma AccruedNegative(r: real, d: real)
    requires r > 0.0 && d < 0.0
    ensures Accrued(r, d) < 0.0
  {
    assert d * r < 0.0;
  }

  /** The k-th handshake begins within `patience` of the first, if the bucket grants k in that time. */
  lemma PaceInTime(l: Limits, t0: real, k: nat, patience: real)
    requires Limited(l) && patience >= 0.0 && k <= BegunWithin(l, patience)
    ensures Pace(l, t0, k) - t0 <= patience
  {
    PaceEarns(l, t0, k);
    AccruedPositive(l.rate, patience);
    var d := Pace(l, t0, k) - t0;
    assert Accrued(l.rate, d) <= Accrued(l.rate, patience);
    if d > patience {
      AccruedAdds(l.rate, d, patience - d);
      AccruedNegative(l.rate, patience - d);
      assert false;
    }
  }

  ghost predicate Paced(l: Limits, s: System, ip: Ip, t0: real, k: nat)
    requires l.rate > 0.0
  {
    if k == 0 then ip in s.c.buckets ==> Full(l, s.c.buckets[ip], t0)
    else
      && ip in s.c.buckets && s.c.buckets[ip].capacity == l.burst && s.c.buckets[ip].rate == l.rate
      && s.c.buckets[ip].last == Pace(l, t0, k) && s.c.buckets[ip].tokens == l.burst + Refilled(l, k) - k as real
  }

  predicate Full(l: Limits, b: Bucket, t0: real) {
    b.capacity == l.burst && b.rate == l.rate && b.last > 0.0 && Refill(b, t0).tokens == l.burst
  }

  lemma PacedTakes(l: Limits, s: System, ip: Ip, t0: real, k: nat)
    requires Limited(l) && t0 > 0.0 && Paced(l, s, ip, t0, k)
    ensures var b := Refill(BucketFor(s.c, l, ip), Pace(l, t0, k + 1));
            && b.tokens == l.burst + Refilled(l, k + 1) - k as real && b.tokens >= 1.0
            && b.capacity == l.burst && b.rate == l.rate && b.last == Pace(l, t0, k + 1)
  {
    PaceEarns(l, t0, k);
    PaceSteps(l, t0, k);
    if k == 0 {
      assert Pace(l, t0, 1) == t0;
    }
    hide Accrued, Pace;
  }

  lemma PacedPasses(l: Limits, s: System, ip: Ip, t0: real, k: nat)
    requires Limited(l) && t0 > 0.0 && Paced(l, s, ip, t0, k) && UnderCaps(s.c, l, ip)
    ensures FilterPasses(s.c, l, ip, Pace(l, t0, k + 1))
    ensures Paced(l, Connected(l, s, ip, Pace(l, t0, k + 1)), ip, t0, k + 1)
  {
    PacedTakes(l, s, ip, t0, k);
    hide Refill, Pace, BucketFor, UnderCaps, Refilled;
  }

  lemma FullAgain(l: Limits, b: Bucket, now: real)
    requires Limited(l) && b.capacity == l.burst && b.rate == l.rate && b.last == now && now > 0.0 && b.tokens >= 0.0
    ensures Full(l, b, now + l.burst / l.rate)
  {
    var d := l.burst / l.rate;
    assert d * l.rate == l.burst;
  }

  /** Handshakes begun at or after t0. */
  ghost predicate BegunFrom(s: System, t0: real) {
    forall id :: id in s.shaking ==> id in s.since && s.since[id] >= t0
  }

  /** The first k handshakes since t0, each begun as soon as it could be. */
  ghost predicate Pacing(w: Site, p: Past, ip: Ip, t0: real, k: nat)
    requires w.l.rate > 0.0
  {
    && Standing(w, p) && Last(p).gap.None? && AllFrom(Last(p), ip) && Paced(w.l, Last(p), ip, t0, k) && BegunFrom(Last(p), t0)
    && 0.0 < t0 && p.now <= Pace(w.l, t0, k)
  }

  lemma StartPacing(w: Site, p: Past, ip: Ip) returns (t0: real)
    requires Ready(w, p, ip) && Limited(w.l) && Last(p).c.inFlight == 0
    ensures Pacing(w, p, ip, t0, 0)
  {
    hide Standing, Counted, Stocked, Paced, AllFrom, BegunFrom, Current, Last;
    StandingCounted(w, p);
    t0 := p.now + w.l.burst / w.l.rate;
    QuotientPositive(w.l.burst, w.l.rate);
    StockedPaces(w.l, Last(p), ip, p.now);
    NoneBegun(Last(p), t0);
  }

  lemma NoneBegun(s: System, t0: real)
    requires |s.shaking| == 0
    ensures BegunFrom(s, t0)
  {
  }

  lemma QuotientPositive(x: real, y: real)
    requires x > 0.0 && y > 0.0
    ensures x / y > 0.0
  {
  }

  lemma StockedPaces(l: Limits, s: System, ip: Ip, now: real)
    requires Limited(l) && Stocked(l, s, ip, now) && now > 0.0
    ensures Paced(l, s, ip, now + l.burst / l.rate, 0)
  {
    if ip in s.c.buckets {
      FullAgain(l, s.c.buckets[ip], now);
    }
    hide Full, Occupied;
  }

  /** The next one can be begun in time. */
  lemma NextInTime(w: Site, p: Past, ip: Ip, t0: real, k: nat)
    requires Limited(w.l) && Pacing(w, p, ip, t0, k) && Last(p).c.total < IpSeats(w.l)
    requires w.patience >= 0.0 && k + 1 <= BegunWithin(w.l, w.patience)
    ensures FilterPasses(Last(p).c, w.l, ip, Pace(w.l, t0, k + 1)) && InTime(Last(p), Pace(w.l, t0, k + 1), w.patience)
    ensures p.now <= Pace(w.l, t0, k + 1) && t0 <= Pace(w.l, t0, k + 1)
    ensures Paced(w.l, Connected(w.l, Last(p), ip, Pace(w.l, t0, k + 1)), ip, t0, k + 1)
  {
    hide Standing, Counted, Pace, Paced, FilterPasses, UnderCaps, Connected, Accrued, BegunWithin, BegunFrom, InTime, AllFrom, Last;
    StandingCounted(w, p);
    RoomForOne(w.l, Last(p), ip);
    PacedPasses(w.l, Last(p), ip, t0, k);
    PaceSteps(w.l, t0, k);
    PaceEarns(w.l, t0, k + 1);
    PaceInTime(w.l, t0, k + 1, w.patience);
    FromToInTime(Last(p), t0, Pace(w.l, t0, k + 1), w.patience);
  }

  lemma FromToInTime(s: System, t0: real, later: real, patience: real)
    requires BegunFrom(s, t0) && later - t0 <= patience
    ensures InTime(s, later, patience)
  {
  }

  lemma ConnectedSince(l: Limits, s: System, ip: Ip, later: real, t0: real)
    requires BegunFrom(s, t0) && t0 <= later
    ensures BegunFrom(Connected(l, s, ip, later), t0)
  {
    hide Filtered;
  }

  lemma NextPaced(w: Site, p: Past, ip: Ip, t0: real, k: nat) returns (p': Past)
    requires Limited(w.l) && Pacing(w, p, ip, t0, k) && Last(p).c.total < IpSeats(w.l) && Last(p).c.inFlight < w.l.maxHandshakes
    requires w.patience >= 0.0 && k + 1 <= BegunWithin(w.l, w.patience) && |Last(p).released| < w.threads
    ensures Pacing(w, p', ip, t0, k + 1) && Last(p').released == Last(p).released
    ensures Last(p').c.total == Last(p).c.total && Last(p').c.inFlight == Last(p).c.inFlight + 1
  {
    NextInTime(w, p, ip, t0, k);
    hide Standing, Pace, Paced, FilterPasses, InTime, Connected, BegunWithin, Last, BegunFrom, AllFrom;
    var s, later := Last(p), Pace(w.l, t0, k + 1);
    p' := Connect(w, p, ip, later);
    ConnectedCounts(w.l, s, ip, later);
    ConnectedFrom(w.l, s, ip, later);
    ConnectedSince(w.l, s, ip, later, t0);
  }

  /** The first k handshakes of a limited address that has waited for its bucket to fill. */
  lemma {:induction false} FillPaced(w: Site, ip: Ip, k: nat) returns (p: Past, t0: real)
    requires !Shut(w.l) && Limited(w.l) && w.patience >= 0.0 && w.threads >= 1
    requires k <= w.l.maxHandshakes && k <= BegunWithin(w.l, w.patience)
    ensures Pacing(w, p, ip, t0, k)
    ensures Last(p).c.total == IpSeats(w.l) - 1 && |Last(p).released| == w.threads - 1 && Last(p).c.inFlight == k
  {
    hide Pacing, Ready, Last, BegunWithin;
    if k == 0 {
      p := FillFrom(w, ip, IpSeats(w.l) - 1, w.threads - 1, 0);
      t0 := StartPacing(w, p, ip);
    } else {
      p, t0 := FillPaced(w, ip, k - 1);
      p := NextPaced(w, p, ip, t0, k - 1);
    }
  }

  // ----- the bound per address is reached -----

  /** Everyone takes a seat. */
  lemma SeatEveryone(w: Site, p: Past, ip: Ip) returns (p': Past)
    requires Standing(w, p) && Last(p).gap.None? && AllFrom(Last(p), ip)
    ensures Standing(w, p') && AllFrom(Last(p'), ip) && Last(p').c.total == Occupied(Last(p))
  {
    hide Standing, Last, AllFrom;
    p' := SettleAll(w, p);
    p' := AdmitAll(w, p');
  }

  /** A limited address fills its bound. */
  lemma FillLimited(w: Site, ip: Ip) returns (p: Past)
    requires !Shut(w.l) && Limited(w.l) && w.patience >= 0.0 && w.threads >= 1
    ensures Standing(w, p) && AllFrom(Last(p), ip) && Last(p).c.total == PatientBound(w)
  {
    AccruedPositive(w.l.rate, w.patience);
    hide Accrued;
    var t0;
    if InHand(w) <= w.l.maxHandshakes {
      p, t0 := FillPaced(w, ip, InHand(w));
      p := SeatEveryone(w, p, ip);
    } else {
      var k := w.l.maxHandshakes;
      p, t0 := FillPaced(w, ip, k);
      NextInTime(w, p, ip, t0, k);
      hide Pace, Paced, FilterPasses, InTime, AllFrom, Standing;
      p := SqueezeIn(w, p, ip, Pace(w.l, t0, k + 1));
    }
  }

  /** An address that need not wait for tokens fills its bound at one moment. */
  lemma FillUnlimited(w: Site, ip: Ip) returns (p: Past)
    requires !Shut(w.l) && !Limited(w.l) && w.patience >= 0.0 && w.threads >= 1
    ensures Standing(w, p) && AllFrom(Last(p), ip) && Last(p).c.total == IpBound(w.l, w.threads)
  {
    var bound := IpBound(w.l, w.threads);
    var seats := Least(IpSeats(w.l) - 1, bound);
    var held := Least(w.threads - 1, bound - seats);
    var shakes := Least(w.l.maxHandshakes, bound - seats - held);
    p := FillFrom(w, ip, seats, held, shakes);
    if seats + held + shakes == bound {
      p := SeatEveryone(w, p, ip);
    } else {
      StandingCounted(w, p);
      StockedPasses(w.l, Last(p), ip, p.now);
      assert InTime(Last(p), p.now, w.patience);
      hide FilterPasses, InTime, AllFrom, Standing, Stocked, Current;
      p := SqueezeIn(w, p, ip, p.now);
    }
  }

  /** Whatever the site, one address alone reaches its bound, and reaches it by sessions alone. */
  lemma PromptPerAddressBoundReached(w: Site, ip: Ip) returns (steps: seq<Step>, states: seq<System>)
    requires w.patience >= 0.0 && w.threads >= 1
    ensures PromptRun(w, steps, states)
    ensures |At(states[|steps|].seated, ip)| == PatientBound(w)
  {
    var p := Begin();
    if Shut(w.l) {
      StandingBegin(w);
    } else if Limited(w.l) {
      p := FillLimited(w, ip);
    } else {
      p := FillUnlimited(w, ip);
    }
    AllAtOne(Last(p).seated, ip);
    StandingCounted(w, p);
    StandingRuns(w, p);
    steps, states := p.steps, p.states;
    hide PromptRun, Standing, Counted, InHand, IpBound, At;
  }

  /** Time enough for a limited address to begin as many handshakes as the server takes. */
  function LongEnough(l: Limits): real {
    if Limited(l) then (l.maxHandshakes + 1) as real / l.rate else 0.0
  }

  lemma LongEnoughIs(l: Limits, threads: nat)
    requires threads >= 1
    ensures LongEnough(l) >= 0.0 && PatientBound(Site(l, LongEnough(l), threads)) == IpBound(l, threads)
  {
    if Limited(l) {
      assert LongEnough(l) * l.rate == (l.maxHandshakes + 1) as real;
      assert LongEnough(l) >= 0.0;
    }
  }

  /** And if handshakes may take as long as they like, the bound that holds whatever they take. */
  lemma PerAddressBoundReached(l: Limits, ip: Ip, threads: nat) returns (steps: seq<Step>, states: seq<System>)
    requires threads >= 1
    ensures TrueRun(l, steps, states, threads)
    ensures |At(states[|steps|].seated, ip)| == IpBound(l, threads)
  {
    LongEnoughIs(l, threads);
    hide LongEnough, PatientBound, IpBound, TrueRun;
    steps, states := PromptPerAddressBoundReached(Site(l, LongEnough(l), threads), ip);
  }

  // ----- when the configured caps hold -----

  ghost predicate SessionsWithinCap(l: Limits, steps: seq<Step>, states: seq<System>) {
    |states| == |steps| + 1 && forall n :: 0 <= n <= |steps| ==> states[n].c.total <= l.maxSessions
  }

  lemma TrueRunIsRun(l: Limits, steps: seq<Step>, states: seq<System>, threads: nat)
    requires TrueRun(l, steps, states, threads)
    ensures Run(l, steps, states) && OnThreads(states, threads) && threads >= 1 && |states| == |steps| + 1
  {
  }

  /**
   max_concurrent_sessions holds of every run, however short handshakes are, if and
   only if nobody gets in, or there is one thread and one handshake at a time.
   */
  lemma SessionCapHoldsIff(w: Site)
    requires w.patience >= 0.0 && w.threads >= 1
    ensures (forall steps: seq<Step>, states: seq<System> :: PromptRun(w, steps, states) ==> SessionsWithinCap(w.l, steps, states))
            <==> (Shut(w.l) || (w.threads == 1 && w.l.maxHandshakes == 1))
  {
    hide TrueRun;
    if Bound(w.l, w.threads) <= w.l.maxSessions {
      forall steps: seq<Step>, states: seq<System> | PromptRun(w, steps, states) ensures SessionsWithinCap(w.l, steps, states) {
        TrueRunIsRun(w.l, steps, states, w.threads);
        forall n | 0 <= n <= |steps| ensures states[n].c.total <= w.l.maxSessions {
          SessionsAreOccupied(w.l, steps, states, n, w.threads);
        }
      }
    } else {
      var steps, states := OccupancyBoundReached(w);
      TrueRunIsRun(w.l, steps, states, w.threads);
      assert !SessionsWithinCap(w.l, steps, states);
    }
  }

  lemma SessionsAreOccupied(l: Limits, steps: seq<Step>, states: seq<System>, n: nat, threads: nat)
    requires Run(l, steps, states) && OnThreads(states, threads) && threads >= 1 && n <= |steps|
    ensures states[n].c.total <= Bound(l, threads)
  {
    OccupancyBounded(l, steps, states, n, threads);
    SeatsConserved(l, steps, states, n);
  }

  ghost predicate SessionsWithinIpCap(l: Limits, steps: seq<Step>, states: seq<System>, ip: Ip) {
    |states| == |steps| + 1 && forall n :: 0 <= n <= |steps| ==> |At(states[n].seated, ip)| <= l.maxPerIp
  }

  /**
   max_sessions_per_ip holds of every run if and only if nobody gets in, or the
   burst is all an address ever gets and is within the cap, or the cap is positive
   and there is one thread and one handshake at a time, or the global cap is low
   enough to protect it.
   */
  lemma PerAddressCapHoldsIff(l: Limits, ip: Ip, threads: nat)
    requires threads >= 1
    ensures (forall steps: seq<Step>, states: seq<System> ::
               TrueRun(l, steps, states, threads) ==> SessionsWithinIpCap(l, steps, states, ip))
            <==> (Shut(l)
                  || (Dry(l) && l.burst < l.maxPerIp as real + 1.0)
                  || (l.maxPerIp > 0 && threads == 1 && l.maxHandshakes == 1)
                  || l.maxSessions - 1 + (threads - 1) + Slots(l, threads) <= l.maxPerIp)
  {
    hide TrueRun, At;
    if IpBound(l, threads) <= l.maxPerIp {
      forall steps: seq<Step>, states: seq<System> | TrueRun(l, steps, states, threads)
        ensures SessionsWithinIpCap(l, steps, states, ip)
      {
        TrueRunIsRun(l, steps, states, threads);
        forall n | 0 <= n <= |steps| ensures |At(states[n].seated, ip)| <= l.maxPerIp {
          PerAddressBounded(l, steps, states, n, ip, threads);
        }
      }
    } else {
      var steps, states := PerAddressBoundReached(l, ip, threads);
      TrueRunIsRun(l, steps, states, threads);
      assert !SessionsWithinIpCap(l, steps, states, ip);
    }
  }

  /**
   On a server whose accept bucket limits an address and is refilled, and whose
   handshakes are given up after some time: if and only if nobody gets in, or the
   cap is positive and on one thread the address cannot have two handshakes in
   progress, or the global cap is low enough to protect it.
   */
  lemma PromptPerAddressCapHoldsIff(w: Site, ip: Ip)
    requires w.patience >= 0.0 && w.threads >= 1 && Limited(w.l)
    ensures (forall steps: seq<Step>, states: seq<System> :: PromptRun(w, steps, states) ==> SessionsWithinIpCap(w.l, steps, states, ip))
            <==> (Shut(w.l)
                  || (w.l.maxPerIp > 0 && w.threads == 1 && InHand(w) == 1)
                  || w.l.maxSessions - 1 + (w.threads - 1) + InHand(w) <= w.l.maxPerIp)
  {
    AccruedPositive(w.l.rate, w.patience);
    hide PromptRun, At, Accrued;
    if PatientBound(w) <= w.l.maxPerIp {
      forall steps: seq<Step>, states: seq<System> | PromptRun(w, steps, states)
        ensures SessionsWithinIpCap(w.l, steps, states, ip)
      {
        PromptIsTrue(w, steps, states);
        TrueRunIsRun(w.l, steps, states, w.threads);
        forall n | 0 <= n <= |steps| ensures |At(states[n].seated, ip)| <= w.l.maxPerIp {
          PromptPerAddressBounded(w, steps, states, n, ip);
        }
      }
    } else {
      var steps, states := PromptPerAddressBoundReached(w, ip);
      PromptIsTrue(w, steps, states);
      TrueRunIsRun(w.l, steps, states, w.threads);
      assert !SessionsWithinIpCap(w.l, steps, states, ip);
    }
  }

  lemma PromptIsTrue(w: Site, steps: seq<Step>, states: seq<System>)
    requires PromptRun(w, steps, states)
    ensures TrueRun(w.l, steps, states, w.threads)
  {
  }
}
