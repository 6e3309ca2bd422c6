/**
 Server admission: the pre-handshake filter, the cap on handshakes in flight,
 the global and per-address counters, and the set of active sessions kept by
 operations posted to one strand.
 */
module Admission {
  import opened Words
  import opened RateLimit

  type Ip = nat
  type Id = nat

  datatype Limits = Limits(maxSessions: nat, maxPerIp: nat, maxHandshakes: nat, burst: real, rate: real)

  /** Operations posted to the sessions strand. */
  datatype Op = Insert(id: Id) | Erase(id: Id) | Clear

  /** The server's fields; `closed` are the sessions close_all_sessions has told to close. */
  datatype Counters = Counters(
    total: int,
    perIp: map<Ip, int>,
    inFlight: int,
    buckets: map<Ip, Bucket>,
    active: set<Id>,
    closed: set<Id>,
    strand: seq<Op>)

  const NoCounters := Counters(0, map[], 0, map[], {}, {}, [])

  /** The caps as the filter probes them; an address with no entry passes the per-address cap. */
  predicate UnderCaps(c: Counters, l: Limits, ip: Ip) {
    c.total < l.maxSessions && (ip in c.perIp ==> c.perIp[ip] < l.maxPerIp)
  }

  /** The accept bucket of an address, configured on first sight. */
  function BucketFor(c: Counters, l: Limits, ip: Ip): Bucket {
    if ip in c.buckets && c.buckets[ip].capacity != 0.0 then c.buckets[ip]
    else if ip in c.buckets then c.buckets[ip].(capacity := l.burst, rate := l.rate)
    else Unused(l.burst, l.rate)
  }

  predicate FilterPasses(c: Counters, l: Limits, ip: Ip, now: real) {
    UnderCaps(c, l, ip) && Allows(Refill(BucketFor(c, l, ip), now), 1.0)
  }

  function Filtered(c: Counters, l: Limits, ip: Ip, now: real): Counters {
    if UnderCaps(c, l, ip) then c.(buckets := c.buckets[ip := Spend(Refill(BucketFor(c, l, ip), now), 1.0)]) else c
  }

  /** A session takes its seat; its handshake's slot was given back before. */
  function Seated(c: Counters, id: Id, ip: Ip): Counters {
    c.(total := c.total + 1,
       perIp := c.perIp[ip := (if ip in c.perIp then c.perIp[ip] else 0) + 1],
       strand := c.strand + [Insert(id)])
  }

  function Completed(c: Counters, id: Id, ip: Ip): Counters {
    c.(total := c.total - 1,
       perIp := if ip !in c.perIp then c.perIp
                else if c.perIp[ip] - 1 == 0 then c.perIp - {ip}
                else c.perIp[ip := c.perIp[ip] - 1],
       strand := c.strand + [Erase(id)])
  }

  function RunOp(active: set<Id>, op: Op): set<Id> {
    match op
    case Insert(id) => active + {id}
    case Erase(id) => active - {id}
    case Clear => {}
  }

  /** Clearing closes every active session first. */
  function RunClosing(active: set<Id>, closed: set<Id>, op: Op): set<Id> {
    if op.Clear? then closed + active else closed
  }

  function StrandStep(c: Counters): Counters
    requires c.strand != []
  {
    c.(active := RunOp(c.active, c.strand[0]), closed := RunClosing(c.active, c.closed, c.strand[0]), strand := c.strand[1..])
  }

  class Server {
    const limits: Limits
    var total: int
    var perIp: map<Ip, int>
    var inFlight: int
    var buckets: map<Ip, Bucket>
    var active: set<Id>
    var closed: set<Id>
    var strand: seq<Op>

    constructor (limits: Limits)
      ensures this.limits == limits && View() == NoCounters
    {
      this.limits := limits;
      total, perIp, inFlight, buckets := 0, map[], 0, map[];
      active, closed, strand := {}, {}, [];
    }

    ghost function View(): Counters
      reads this
    {
      Counters(total, perIp, inFlight, buckets, active, closed, strand)
    }

    /** Runs before the handshake; only its last check changes anything. */
    method PreHandshakeFilter(ip: Ip, now: real) returns (ok: bool)
      modifies this`buckets
      ensures ok == FilterPasses(old(View()), limits, ip, now)
      ensures View() == Filtered(old(View()), limits, ip, now)
    {
      if total >= limits.maxSessions {
        return false;
      }
      if ip in perIp && perIp[ip] >= limits.maxPerIp {
        return false;
      }
      if ip !in buckets {
        buckets := buckets[ip := Bucket(0.0, 0.0, 0.0, 0.0)];
      }
      var bucket := buckets[ip];
      if bucket.capacity == 0.0 {
        bucket := bucket.(capacity := limits.burst, rate := limits.rate);
      }
      bucket := Refill(bucket, now);
      ok := Allows(bucket, 1.0);
      buckets := buckets[ip := Spend(bucket, 1.0)];
    }

    /** The accept loop's cap on half-open handshakes. */
    method BeginHandshake() returns (ok: bool)
      modifies this`inFlight
      ensures ok == (old(inFlight) < limits.maxHandshakes)
      ensures View() == if ok then old(View()).(inFlight := old(inFlight) + 1) else old(View())
    {
      if inFlight >= limits.maxHandshakes {
        return false;
      }
      inFlight := inFlight + 1;
      return true;
    }

    /** A handshake is over, well or badly: its slot is given back before anything else. */
    method EndHandshake()
      modifies this`inFlight
      ensures View() == old(View()).(inFlight := old(inFlight) - 1)
    {
      inFlight := inFlight - 1;
    }

    method Seat(id: Id, ip: Ip)
      modifies this`total, this`perIp, this`strand
      ensures View() == Seated(old(View()), id, ip)
    {
      total := total + 1;
      if ip !in perIp {
        perIp := perIp[ip := 0];
      }
      perIp := perIp[ip := perIp[ip] + 1];
      strand := strand + [Insert(id)];
      assert perIp == old(perIp)[ip := (if ip in old(perIp) then old(perIp)[ip] else 0) + 1];
    }

    /** The completion handler of a session's dispatch loop. */
    method Complete(id: Id, ip: Ip)
      modifies this`total, this`perIp, this`strand
      ensures View() == Completed(old(View()), id, ip)
    {
      total := total - 1;
      if ip in perIp {
        perIp := perIp[ip := perIp[ip] - 1];
        if perIp[ip] == 0 {
          perIp := perIp - {ip};
          assert perIp == old(perIp) - {ip};
        }
      }
      strand := strand + [Erase(id)];
    }

    method RunStrand()
      requires strand != []
      modifies this`active, this`closed, this`strand
      ensures View() == StrandStep(old(View()))
    {
      match strand[0] {
        case Insert(id) => active := active + {id};
        case Erase(id) => active := active - {id};
        case Clear =>
          var left := active;
          while left != {}
            invariant left <= active == old(active) && strand == old(strand)
            invariant closed == old(closed) + (active - left)
          {
            var id :| id in left;
            closed, left := closed + {id}, left - {id};
          }
          active := {};
      }
      strand := strand[1..];
    }

    /** Closing and clearing runs on the strand, behind everything already posted. */
    method CloseAllSessions()
      modifies this`strand
      ensures View() == old(View()).(strand := old(strand) + [Clear])
    {
      strand := strand + [Clear];
    }
  }

  // ----- every interleaving -----

  /**
   `gap` is the address of a socket that has passed the filter and has not yet
   met the in-flight cap; `shaking` are the handshakes running, `released` those
   that ended well and gave their slot back without having taken a seat yet, and
   `seated` the sessions that took one and have not completed, each with its
   address. `clock` is the filter's latest reading and `since` that at which each
   handshake passed it.
   */
  datatype System = System(
    c: Counters,
    gap: Option<Ip>,
    shaking: map<Id, Ip>,
    released: map<Id, Ip>,
    seated: map<Id, Ip>,
    next: Id,
    clock: real,
    since: map<Id, real>)

  const Start := System(NoCounters, None, map[], map[], map[], 0, 0.0, map[])

  datatype Step =
    | Filter(ip: Ip, now: real)
    | Check
    | Fails(id: Id)
    | Releases(id: Id)
    | Seats(id: Id, ip: Ip)
    | Completes(id: Id)
    | Strand
    | CloseAll

  predicate Enabled(s: System, step: Step) {
    match step
    case Filter(_, _) => s.gap.None?
    case Check => s.gap.Some?
    case Fails(id) => id in s.shaking
    case Releases(id) => id in s.shaking
    case Seats(id, _) => id in s.released
    case Completes(id) => id in s.seated
    case Strand => s.c.strand != []
    case CloseAll => true
  }

  function Apply(l: Limits, s: System, step: Step): System
    requires Enabled(s, step)
  {
    match step
    case Filter(ip, now) =>
      s.(c := Filtered(s.c, l, ip, now), gap := if FilterPasses(s.c, l, ip, now) then Some(ip) else None, clock := now)
    case Check =>
      if s.c.inFlight >= l.maxHandshakes then s.(gap := None)
      else s.(c := s.c.(inFlight := s.c.inFlight + 1), gap := None,
              shaking := s.shaking[s.next := s.gap.value], since := s.since[s.next := s.clock], next := s.next + 1)
    case Fails(id) =>
      s.(c := s.c.(inFlight := s.c.inFlight - 1), shaking := s.shaking - {id})
    case Releases(id) =>
      s.(c := s.c.(inFlight := s.c.inFlight - 1), shaking := s.shaking - {id}, released := s.released[id := s.shaking[id]])
    case Seats(id, ip) =>
      s.(c := Seated(s.c, id, ip), released := s.released - {id}, seated := s.seated[id := ip])
    case Completes(id) =>
      s.(c := Completed(s.c, id, s.seated[id]), seated := s.seated - {id})
    case Strand => s.(c := StrandStep(s.c))
    case CloseAll => s.(c := s.c.(strand := s.c.strand + [Clear]))
  }

  /** A run, as the states it passes through. */
  ghost predicate Run(l: Limits, steps: seq<Step>, states: seq<System>) {
    && |states| == |steps| + 1
    && states[0] == Start
    && forall i :: 0 <= i < |steps| ==> Enabled(states[i], steps[i]) && states[i + 1] == Apply(l, states[i], steps[i])
  }

  ghost function At(ips: map<Id, Ip>, ip: Ip): set<Id> {
    set id | id in ips && ips[id] == ip
  }

  function Tally(perIp: map<Ip, int>, ip: Ip): int {
    if ip in perIp then perIp[ip] else 0
  }

  /** The per-address map counts the sessions of each address, and has no other entries. */
  ghost predicate Tallies(perIp: map<Ip, int>, seated: map<Id, Ip>) {
    forall ip :: Tally(perIp, ip) == |At(seated, ip)| && (ip in perIp ==> perIp[ip] > 0)
  }

  ghost predicate KnownIds(s: System) {
    && (forall id :: id in s.shaking ==> id < s.next && id !in s.released && id !in s.seated)
    && (forall id :: id in s.released ==> id < s.next && id !in s.seated)
    && (forall id :: id in s.seated ==> id < s.next)
  }

  ghost predicate Counted(s: System) {
    && s.c.inFlight == |s.shaking|
    && s.c.total == |s.seated|
    && Tallies(s.c.perIp, s.seated)
    && KnownIds(s)
  }

  // ----- seats are conserved -----

  lemma AtInsert(m: map<Id, Ip>, id: Id, ip: Ip, other: Ip)
    requires id !in m
    ensures At(m[id := ip], other) == if other == ip then At(m, ip) + {id} else At(m, other)
    ensures |At(m[id := ip], other)| == |At(m, other)| + if other == ip then 1 else 0
  {
    assert At(m[id := ip], other) == if other == ip then At(m, ip) + {id} else At(m, other);
  }

  lemma AtRemove(m: map<Id, Ip>, id: Id, other: Ip)
    requires id in m
    ensures At(m - {id}, other) == At(m, other) - {id}
    ensures |At(m - {id}, other)| == |At(m, other)| - if other == m[id] then 1 else 0
  {
    assert At(m - {id}, other) == At(m, other) - {id};
  }

  lemma SizeInsert(m: map<Id, Ip>, id: Id, ip: Ip)
    requires id !in m
    ensures |m[id := ip]| == |m| + 1
  {
    assert m[id := ip].Keys == m.Keys + {id};
  }

  lemma SizeRemove(m: map<Id, Ip>, id: Id)
    requires id in m
    ensures |m - {id}| == |m| - 1
  {
    assert (m - {id}).Keys == m.Keys - {id};
  }

  lemma TallySeats(c: Counters, seated: map<Id, Ip>, id: Id, ip: Ip)
    requires Tallies(c.perIp, seated) && id !in seated
    ensures Tallies(Seated(c, id, ip).perIp, seated[id := ip])
  {
    var perIp := Seated(c, id, ip).perIp;
    forall other ensures Tally(perIp, other) == |At(seated[id := ip], other)| && (other in perIp ==> perIp[other] > 0) {
      assert Tally(c.perIp, other) == |At(seated, other)|;
      AtInsert(seated, id, ip, other);
    }
  }

  lemma TallyCompletes(c: Counters, seated: map<Id, Ip>, id: Id)
    requires Tallies(c.perIp, seated) && id in seated
    ensures Tallies(Completed(c, id, seated[id]).perIp, seated - {id})
  {
    var perIp := Completed(c, id, seated[id]).perIp;
    forall other ensures Tally(perIp, other) == |At(seated - {id}, other)| && (other in perIp ==> perIp[other] > 0) {
      assert Tally(c.perIp, other) == |At(seated, other)|;
      AtRemove(seated, id, other);
    }
  }

  lemma NextIsNew(s: System)
    requires KnownIds(s)
    ensures s.next !in s.shaking
  {
  }

  lemma ReleasedNotSeated(s: System, id: Id)
    requires KnownIds(s) && id in s.released
    ensures id !in s.seated
  {
  }

  lemma KnownStep(l: Limits, s: System, step: Step)
    requires KnownIds(s) && Enabled(s, step)
    ensures KnownIds(Apply(l, s, step))
  {
    hide Filtered, FilterPasses, Seated, Completed, StrandStep;
  }

  lemma FilterKeepsCounts(c: Counters, l: Limits, ip: Ip, now: real)
    ensures var c' := Filtered(c, l, ip, now); c'.total == c.total && c'.inFlight == c.inFlight && c'.perIp == c.perIp
  {
    hide BucketFor;
  }

  lemma CountedStep(l: Limits, s: System, step: Step)
    requires Counted(s) && Enabled(s, step)
    ensures Counted(Apply(l, s, step))
  {
    hide Tallies, At, KnownIds, FilterPasses, Filtered;
    KnownStep(l, s, step);
    match step
    case Filter(ip, now) => FilterKeepsCounts(s.c, l, ip, now);
    case Check =>
      if s.c.inFlight < l.maxHandshakes {
        NextIsNew(s);
        SizeInsert(s.shaking, s.next, s.gap.value);
      }
    case Fails(id) => SizeRemove(s.shaking, id);
    case Releases(id) => SizeRemove(s.shaking, id);
    case Seats(id, ip) =>
      ReleasedNotSeated(s, id);
      SizeInsert(s.seated, id, ip);
      TallySeats(s.c, s.seated, id, ip);
    case Completes(id) =>
      SizeRemove(s.seated, id);
      TallyCompletes(s.c, s.seated, id);
    case Strand =>
    case CloseAll =>
  }

  ghost function SumCounts(m: map<Ip, int>): int {
    if m == map[] then 0 else
      var ip :| ip in m;
      m[ip] + SumCounts(m - {ip})
  }

  lemma NobodySeated(seated: map<Id, Ip>)
    requires Tallies(map[], seated)
    ensures |seated| == 0
  {
    assert forall id :: id in seated ==> id in At(seated, seated[id]);
    forall ip ensures At(seated, ip) == {} {
      assert Tally(map[], ip) == |At(seated, ip)|;
    }
  }

  /** Setting one address aside, the rest of the map counts the rest of the sessions. */
  lemma TallyOthers(m: map<Ip, int>, seated: map<Id, Ip>, ip: Ip)
    requires Tallies(m, seated) && ip in m
    ensures Tallies(m - {ip}, seated - At(seated, ip))
  {
    var others := seated - At(seated, ip);
    forall other ensures Tally(m - {ip}, other) == |At(others, other)| && (other in m - {ip} ==> m[other] > 0) {
      assert Tally(m, other) == |At(seated, other)|;
      assert At(others, other) == if other == ip then {} else At(seated, other);
    }
  }

  lemma SizeOthers(seated: map<Id, Ip>, ip: Ip)
    ensures |seated - At(seated, ip)| + |At(seated, ip)| == |seated|
  {
    var there := At(seated, ip);
    assert (seated - there).Keys == seated.Keys - there && there <= seated.Keys;
  }

  lemma {:induction false} SumIsSeated(m: map<Ip, int>, seated: map<Id, Ip>)
    requires Tallies(m, seated)
    ensures SumCounts(m) == |seated|
    decreases |m|
  {
    if m == map[] {
      NobodySeated(seated);
    } else {
      var ip :| ip in m && SumCounts(m) == m[ip] + SumCounts(m - {ip});
      assert Tally(m, ip) == |At(seated, ip)|;
      hide Tallies, At, SumCounts;
      SizeRemoveIp(m, ip);
      TallyOthers(m, seated, ip);
      SizeOthers(seated, ip);
      SumIsSeated(m - {ip}, seated - At(seated, ip));
    }
  }

  lemma SizeRemoveIp(m: map<Ip, int>, ip: Ip)
    requires ip in m
    ensures |m - {ip}| < |m|
  {
    assert (m - {ip}).Keys == m.Keys - {ip};
  }

  /**
   At every point of every run the counters are exact: no underflow, no zero
   entries, the per-address counts add up to the global one, and all of them
   count the sessions admitted and not yet completed.
   */
  lemma {:induction false} SeatsConserved(l: Limits, steps: seq<Step>, states: seq<System>, n: nat)
    requires Run(l, steps, states) && n <= |steps|
    ensures Counted(states[n])
    ensures states[n].c.total == |states[n].seated| == SumCounts(states[n].c.perIp)
  {
    hide Tallies, At, SumCounts, Apply;
    if n > 0 {
      SeatsConserved(l, steps, states, n - 1);
      assert Enabled(states[n - 1], steps[n - 1]) && states[n] == Apply(l, states[n - 1], steps[n - 1]);
      CountedStep(l, states[n - 1], steps[n - 1]);
    }
    if n == 0 {
      NothingTallied();
    }
    SumIsSeated(states[n].c.perIp, states[n].seated);
  }

  lemma NothingTallied()
    ensures Tallies(map[], map[])
  {
    forall ip ensures At(map[], ip) == {} {
    }
  }

  // ----- the strand -----

  /** The active set once the strand is drained. */
  function Drained(active: set<Id>, strand: seq<Op>): set<Id>
    decreases strand
  {
    if strand == [] then active else Drained(RunOp(active, strand[0]), strand[1..])
  }

  /** The sessions told to close once the strand is drained. */
  function DrainedClosed(active: set<Id>, closed: set<Id>, strand: seq<Op>): set<Id>
    decreases strand
  {
    if strand == [] then closed
    else DrainedClosed(RunOp(active, strand[0]), RunClosing(active, closed, strand[0]), strand[1..])
  }

  lemma {:induction false} DrainedClosedAppend(active: set<Id>, closed: set<Id>, strand: seq<Op>, op: Op)
    ensures DrainedClosed(active, closed, strand + [op]) ==
            RunClosing(Drained(active, strand), DrainedClosed(active, closed, strand), op)
    decreases strand
  {
    if strand == [] {
      assert strand + [op] == [op];
      assert [op][1..] == [];
      assert DrainedClosed(active, closed, [op]) == DrainedClosed(RunOp(active, op), RunClosing(active, closed, op), []);
    } else {
      DrainedClosedAppend(RunOp(active, strand[0]), RunClosing(active, closed, strand[0]), strand[1..], op);
      assert (strand + [op])[1..] == strand[1..] + [op];
    }
  }

  lemma DrainedClosedStep(l: Limits, s: System, step: Step)
    requires Enabled(s, step)
    ensures var s' := Apply(l, s, step);
            var before := DrainedClosed(s.c.active, s.c.closed, s.c.strand);
            DrainedClosed(s'.c.active, s'.c.closed, s'.c.strand) ==
              if step.CloseAll? then before + Drained(s.c.active, s.c.strand) else before
  {
    hide Drained;
    match step
    case Seats(id, _) => DrainedClosedAppend(s.c.active, s.c.closed, s.c.strand, Insert(id));
    case Completes(id) => DrainedClosedAppend(s.c.active, s.c.closed, s.c.strand, Erase(id));
    case CloseAll => DrainedClosedAppend(s.c.active, s.c.closed, s.c.strand, Clear);
    case _ =>
  }

  /**
   No session escapes close_all_sessions: with the strand drained, every seated
   session is active or was told to close, and every one seated when the call was
   made was told to.
   */
  lemma {:induction false} SeatedActiveOrClosed(l: Limits, steps: seq<Step>, states: seq<System>, n: nat)
    requires Run(l, steps, states) && n <= |steps|
    ensures var s := states[n];
            s.seated.Keys <= Drained(s.c.active, s.c.strand) + DrainedClosed(s.c.active, s.c.closed, s.c.strand)
    ensures n > 0 && steps[n - 1].CloseAll? ==>
              var s := states[n]; s.seated.Keys <= DrainedClosed(s.c.active, s.c.closed, s.c.strand)
  {
    hide Drained, DrainedClosed, Filtered, FilterPasses;
    if n > 0 {
      SeatedActiveOrClosed(l, steps, states, n - 1);
      assert Enabled(states[n - 1], steps[n - 1]) && states[n] == Apply(l, states[n - 1], steps[n - 1]);
      DrainedStep(l, states[n - 1], steps[n - 1]);
      DrainedClosedStep(l, states[n - 1], steps[n - 1]);
    }
  }

  lemma {:induction false} DrainedAppend(active: set<Id>, strand: seq<Op>, op: Op)
    ensures Drained(active, strand + [op]) == RunOp(Drained(active, strand), op)
    decreases strand
  {
    if strand == [] {
      assert (strand + [op])[1..] == [];
    } else {
      assert (strand + [op])[1..] == strand[1..] + [op];
      DrainedAppend(RunOp(active, strand[0]), strand[1..], op);
    }
  }

  lemma DrainedStep(l: Limits, s: System, step: Step)
    requires Enabled(s, step)
    ensures var s' := Apply(l, s, step);
            Drained(s'.c.active, s'.c.strand) ==
              match step
              case Seats(id, _) => Drained(s.c.active, s.c.strand) + {id}
              case Completes(id) => Drained(s.c.active, s.c.strand) - {id}
              case CloseAll => {}
              case _ => Drained(s.c.active, s.c.strand)
  {
    match step
    case Seats(id, _) => DrainedAppend(s.c.active, s.c.strand, Insert(id));
    case Completes(id) => DrainedAppend(s.c.active, s.c.strand, Erase(id));
    case CloseAll => DrainedAppend(s.c.active, s.c.strand, Clear);
    case _ =>
  }

  /** Drained, the active set holds only seated sessions, and all of them unless the sessions were all closed. */
  lemma {:induction false} ActiveAreSeated(l: Limits, steps: seq<Step>, states: seq<System>, n: nat)
    requires Run(l, steps, states) && n <= |steps|
    ensures Drained(states[n].c.active, states[n].c.strand) <= states[n].seated.Keys
    ensures (forall i :: 0 <= i < n ==> !steps[i].CloseAll?) ==>
              Drained(states[n].c.active, states[n].c.strand) == states[n].seated.Keys
  {
    hide Drained, Filtered, FilterPasses;
    if n == 0 {
      NothingDrained();
    } else {
      ActiveAreSeated(l, steps, states, n - 1);
      assert Enabled(states[n - 1], steps[n - 1]) && states[n] == Apply(l, states[n - 1], steps[n - 1]);
      DrainedStep(l, states[n - 1], steps[n - 1]);
    }
  }

  lemma NothingDrained()
    ensures Drained({}, []) == {}
  {
  }

  /** A session whose erase has been run: nothing can bring it back. */
  ghost predicate Gone(s: System, id: Id) {
    && id < s.next && id !in s.shaking && id !in s.released && id !in s.seated
    && id !in s.c.active && Insert(id) !in s.c.strand
  }

  /** In the strand, no insert of a session follows its erase, and an erase waits only for completed sessions. */
  ghost predicate ErasesLast(s: System) {
    && (forall i, j :: 0 <= i < j < |s.c.strand| && s.c.strand[i].Erase? ==> s.c.strand[j] != Insert(s.c.strand[i].id))
    && (forall i :: 0 <= i < |s.c.strand| && s.c.strand[i].Erase? ==>
          var id := s.c.strand[i].id; id < s.next && id !in s.shaking && id !in s.released && id !in s.seated)
  }

  lemma {:induction false} ErasesStayLast(l: Limits, steps: seq<Step>, states: seq<System>, n: nat)
    requires Run(l, steps, states) && n <= |steps|
    ensures ErasesLast(states[n])
  {
    hide Tallies, SumCounts, Filtered, FilterPasses;
    if n > 0 {
      ErasesStayLast(l, steps, states, n - 1);
      SeatsConserved(l, steps, states, n - 1);
      assert Enabled(states[n - 1], steps[n - 1]) && states[n] == Apply(l, states[n - 1], steps[n - 1]);
      ErasesLastStep(l, states[n - 1], steps[n - 1]);
    }
  }

  lemma ErasesLastStep(l: Limits, s: System, step: Step)
    requires ErasesLast(s) && KnownIds(s) && Enabled(s, step)
    ensures ErasesLast(Apply(l, s, step))
  {
    hide BucketFor, FilterPasses;
  }

  lemma GoneStays(l: Limits, s: System, step: Step, id: Id)
    requires Gone(s, id) && Enabled(s, step)
    ensures Gone(Apply(l, s, step), id)
  {
    hide BucketFor, FilterPasses;
  }

  /** Once its erase has run, a session is never active again. */
  lemma {:induction false} ErasedNeverReturns(l: Limits, steps: seq<Step>, states: seq<System>, i: nat, j: nat)
    requires Run(l, steps, states) && i < j <= |steps|
    requires steps[i].Strand? && states[i].c.strand != [] && states[i].c.strand[0].Erase?
    ensures Gone(states[j], states[i].c.strand[0].id)
  {
    var id := states[i].c.strand[0].id;
    if j == i + 1 {
      ErasesStayLast(l, steps, states, i);
      assert states[j] == Apply(l, states[i], steps[i]);
    } else {
      ErasedNeverReturns(l, steps, states, i, j - 1);
      assert Enabled(states[j - 1], steps[j - 1]) && states[j] == Apply(l, states[j - 1], steps[j - 1]);
      GoneStays(l, states[j - 1], steps[j - 1], id);
    }
  }

  // ----- the accept rate of one address -----

  /** The calls an address has made on its accept bucket. */
  ghost function Asks(l: Limits, steps: seq<Step>, states: seq<System>, ip: Ip, n: nat): seq<Ask>
    requires n <= |steps| < |states|
  {
    if n == 0 then [] else
      var earlier, step := Asks(l, steps, states, ip, n - 1), steps[n - 1];
      if step.Filter? && step.ip == ip && UnderCaps(states[n - 1].c, l, ip) then earlier + [Ask(step.now, 1.0)] else earlier
  }

  /** Connections from an address that the filter let through between two times. */
  ghost function Passed(l: Limits, steps: seq<Step>, states: seq<System>, ip: Ip, n: nat, a: real, b: real): nat
    requires n <= |steps| < |states|
  {
    if n == 0 then 0 else
      var step := steps[n - 1];
      Passed(l, steps, states, ip, n - 1, a, b) +
      if step.Filter? && step.ip == ip && FilterPasses(states[n - 1].c, l, ip, step.now) && Within(step.now, a, b) then 1 else 0
  }

  ghost predicate Tracks(l: Limits, c: Counters, ip: Ip, asks: seq<Ask>) {
    if asks == [] then ip !in c.buckets else ip in c.buckets && c.buckets[ip] == Before(l.burst, l.rate, asks, |asks|)
  }

  lemma BucketForTracks(l: Limits, c: Counters, ip: Ip, asks: seq<Ask>)
    requires Tracks(l, c, ip, asks)
    ensures BucketFor(c, l, ip) == Before(l.burst, l.rate, asks, |asks|)
  {
    BeforeFields(l.burst, l.rate, asks, |asks|);
  }

  /** The bucket kept for an address is the one its history of calls gives, and it alone decides. */
  lemma {:induction false} BucketTracksHistory(l: Limits, steps: seq<Step>, states: seq<System>, ip: Ip, n: nat, a: real, b: real)
    requires Run(l, steps, states) && n <= |steps|
    ensures Tracks(l, states[n].c, ip, Asks(l, steps, states, ip, n))
    ensures var asks := Asks(l, steps, states, ip, n);
            Passed(l, steps, states, ip, n, a, b) as real == SpentDuring(l.burst, l.rate, asks, |asks|, a, b)
  {
    if n > 0 {
      BucketTracksHistory(l, steps, states, ip, n - 1, a, b);
      var s, step, earlier := states[n - 1], steps[n - 1], Asks(l, steps, states, ip, n - 1);
      assert Enabled(s, step) && states[n] == Apply(l, s, step);
      if step.Filter? && step.ip == ip && UnderCaps(s.c, l, ip) {
        BucketForTracks(l, s.c, ip, earlier);
        BeforeOfPrefix(l.burst, l.rate, earlier, [Ask(step.now, 1.0)], |earlier|);
        SpentDuringOfPrefix(l.burst, l.rate, earlier, [Ask(step.now, 1.0)], |earlier|, a, b);
      }
    }
  }

  /** The clock starts above zero and does not go back. */
  ghost predicate Clocked(steps: seq<Step>) {
    && (forall i :: 0 <= i < |steps| && steps[i].Filter? ==> steps[i].now > 0.0)
    && (forall i, j :: 0 <= i < j < |steps| && steps[i].Filter? && steps[j].Filter? ==> steps[i].now <= steps[j].now)
  }

  lemma {:induction false} AsksOrdered(l: Limits, steps: seq<Step>, states: seq<System>, ip: Ip, n: nat)
    requires n <= |steps| < |states| && Clocked(steps)
    ensures var asks := Asks(l, steps, states, ip, n);
            && Ordered(asks)
            && (forall k :: 0 <= k < |asks| ==> asks[k].at > 0.0)
            && (forall k, m :: 0 <= k < |asks| && n <= m < |steps| && steps[m].Filter? ==> asks[k].at <= steps[m].now)
  {
    if n > 0 {
      AsksOrdered(l, steps, states, ip, n - 1);
    }
  }

  /** In any stretch of time an address gets at most its burst plus rate times length through the filter. */
  lemma AcceptRateBounded(l: Limits, steps: seq<Step>, states: seq<System>, ip: Ip, n: nat, a: real, b: real)
    requires Run(l, steps, states) && Clocked(steps) && n <= |steps| && a <= b && l.burst > 0.0 && l.rate >= 0.0
    ensures Passed(l, steps, states, ip, n, a, b) as real <= l.burst + Accrued(l.rate, b - a) == l.burst + l.rate * (b - a)
  {
    hide Passed, SpentDuring, Asks, Accrued;
    BucketTracksHistory(l, steps, states, ip, n, a, b);
    AsksOrdered(l, steps, states, ip, n);
    TimeEnvelope(l.burst, l.rate, Asks(l, steps, states, ip, n), a, b);
  }
}
