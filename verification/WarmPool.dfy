/**
  The warm-pool capacity planner, after server/capacity-warm-pool.ts, and the seat statuses it plans
  with, after getSeatStatuses of server/public-session-coordinator.ts.
 */
module WarmPool {
  import opened Common
  import opened Sorting
  import opened SessionModel

  datatype SeatPhase = Absent | Starting | ReadyIdle | Assigned | AwaitingBrowser | Connected | Disconnected | Draining | Recycling

  datatype SeatStatus = SeatStatus(
    seat: Id,
    phase: SeatPhase,
    generation: Option<Gen>,
    idle: Option<int>,
    drainRequested: bool,
    drainId: Option<Id>)

  datatype Drain = Drain(drainId: Id, generation: Gen, requestedAt: int)

  type Drains = map<Id, Drain>

  datatype Config = Config(totalSeats: nat, idleScaleDown: int, warmSpares: nat)

  // ---------------------------------------------------------------- seat statuses

  function NonNegative(x: int): int {
    if x < 0 then 0 else x
  }

  function PhaseOf(s: State, w: Id): SeatPhase
    requires w in s.seats
  {
    var k := s.seats[w];
    if k.ticket.Some? then
      if k.ticket.value !in s.tickets then Absent
      else
        var t := s.tickets[k.ticket.value];
        match t.phase
        case Admitted => if t.startedAt.None? then AwaitingBrowser else Starting
        case Active => if t.disconnectedAt.Some? then Disconnected else Connected
        case Ended => Recycling
        case Queued => Assigned
    else if k.fenced then Draining
    else if k.ready && k.generation.Some? then ReadyIdle
    else if k.replacementOf.Some? || k.requiresUnavailable then Recycling
    else Absent
  }

  function IdleFor(s: State, w: Id, now: int): Option<int>
    requires w in s.seats
  {
    var k := s.seats[w];
    match PhaseOf(s, w)
    case Connected =>
      (match s.tickets[k.ticket.value].lastActivityAt
       case Some(at) => Some(NonNegative(now - at))
       case None => None)
    case ReadyIdle => Some(if k.idleSince.Some? then NonNegative(now - k.idleSince.value) else 0)
    case _ => None
  }

  function StatusOf(s: State, drains: Drains, w: Id, now: int): SeatStatus
    requires w in s.seats
  {
    SeatStatus(w, PhaseOf(s, w), s.seats[w].generation, IdleFor(s, w, now),
               w in drains, if w in drains then Some(drains[w].drainId) else None)
  }

  /** One status per configured seat, in configuration order. */
  function Statuses(s: State, drains: Drains, ws: seq<Id>, now: int): seq<SeatStatus> {
    if ws == [] then []
    else if ws[0] !in s.seats then Statuses(s, drains, ws[1..], now)
    else [StatusOf(s, drains, ws[0], now)] + Statuses(s, drains, ws[1..], now)
  }

  // ---------------------------------------------------------------- drains

  datatype DrainAnswer = Accepted(drainId: Id) | Refused

  function RequestDrain(c: Config, drains: Drains, seat: SeatStatus, drainId: Id, now: int): (Drains, DrainAnswer) {
    if seat.phase != ReadyIdle || seat.generation.None? then (drains, Refused)
    else if seat.seat in drains then
      if drains[seat.seat].drainId == drainId && Some(drains[seat.seat].generation) == seat.generation
      then (drains, Accepted(drainId)) else (drains, Refused)
    else if IdleTime(seat) < c.idleScaleDown then (drains, Refused)
    else (drains[seat.seat := Drain(drainId, seat.generation.value, now)], Accepted(drainId))
  }

  function ReleaseDrain(drains: Drains, w: Id, current: Option<Gen>): (Drains, bool) {
    if w !in drains || current == Some(drains[w].generation) then (drains, false)
    else (drains - {w}, true)
  }

  // ---------------------------------------------------------------- the plan

  function IdleTime(seat: SeatStatus): int {
    if seat.idle.Some? then seat.idle.value else 0
  }

  predicate IsProtected(seat: SeatStatus) {
    match seat.phase
    case Starting | Assigned | AwaitingBrowser | Connected | Disconnected | Recycling => true
    case _ => false
  }

  predicate IsAbsent(seat: SeatStatus) {
    seat.phase == Absent
  }

  predicate IsSpare(seat: SeatStatus) {
    seat.phase == ReadyIdle && !seat.drainRequested
  }

  predicate IsDraining(seat: SeatStatus) {
    seat.phase == Draining || (seat.phase == ReadyIdle && seat.drainRequested)
  }

  function Select<T>(s: seq<T>, p: T -> bool): seq<T> {
    if s == [] then []
    else if p(s[0]) then [s[0]] + Select(s[1..], p)
    else Select(s[1..], p)
  }

  function Protected(seats: seq<SeatStatus>): seq<SeatStatus> { Select(seats, IsProtected) }
  function Spares(seats: seq<SeatStatus>): seq<SeatStatus> { Select(seats, IsSpare) }
  function Absents(seats: seq<SeatStatus>): seq<SeatStatus> { Select(seats, IsAbsent) }

  function Desired(c: Config, seats: seq<SeatStatus>): int {
    var wanted := |Protected(seats)| + |Absents(seats)| + c.warmSpares;
    if wanted < c.totalSeats then wanted else c.totalSeats
  }

  function Running(seats: seq<SeatStatus>): int {
    |Protected(seats)| + |Spares(seats)|
  }

  function LongestIdleFirst(): (SeatStatus, SeatStatus) -> bool {
    (a: SeatStatus, b: SeatStatus) => IdleTime(a) >= IdleTime(b)
  }

  function IdleEnough(c: Config): SeatStatus -> bool {
    (x: SeatStatus) => IdleTime(x) >= c.idleScaleDown
  }

  /** The seats to scale down, before they are reduced to their names. */
  function ScaleDown(c: Config, seats: seq<SeatStatus>): seq<SeatStatus> {
    var excess := Running(seats) - Desired(c, seats);
    var willing := Select(Sort(Spares(seats), LongestIdleFirst()), IdleEnough(c));
    if excess <= 0 then [] else if |willing| <= excess then willing else willing[..excess]
  }

  predicate Replaced(drains: Drains, seat: SeatStatus) {
    && IsDraining(seat) && seat.drainRequested && seat.drainId.Some?
    && seat.seat in drains && seat.generation.Some? && seat.generation.value != drains[seat.seat].generation
  }

  function ReplacedSince(drains: Drains): SeatStatus -> bool {
    (x: SeatStatus) => Replaced(drains, x)
  }

  function Activatable(drains: Drains, seats: seq<SeatStatus>): seq<SeatStatus> {
    Select(seats, ReplacedSince(drains))
  }

  function Names(seats: seq<SeatStatus>): seq<Id> {
    seq(|seats|, i requires 0 <= i < |seats| => seats[i].seat)
  }

  // ---------------------------------------------------------------- what a plan promises

  lemma {:induction false} SelectElems<T>(s: seq<T>, p: T -> bool)
    ensures forall x :: x in Select(s, p) ==> x in s && p(x)
    ensures forall x :: x in s && p(x) ==> x in Select(s, p)
  {
    if s != [] {
      SelectElems(s[1..], p);
    }
  }

  lemma {:induction false} SelectMultiset<T>(s: seq<T>, p: T -> bool)
    ensures forall x :: multiset(Select(s, p))[x] == if p(x) then multiset(s)[x] else 0
  {
    if s != [] {
      SelectMultiset(s[1..], p);
      assert s == [s[0]] + s[1..];
    }
  }

  lemma {:induction false} SelectSorted<T>(s: seq<T>, p: T -> bool, le: (T, T) -> bool)
    requires Sorted(s, le)
    ensures Sorted(Select(s, p), le)
  {
    if s != [] {
      SelectSorted(s[1..], p, le);
      SelectElems(s[1..], p);
      var r := Select(s[1..], p);
      forall k | 0 <= k < |r| ensures le(s[0], r[k]) {
        assert r[k] in Select(s[1..], p);
        assert r[k] in s[1..];
        var i :| 0 <= i < |s[1..]| && s[1..][i] == r[k];
        assert s[i + 1] == r[k];
      }
    }
  }

  /** Splitting a sorted sequence: nothing in the front comes after anything in the back. */
  lemma SortedSplit<T>(s: seq<T>, n: nat, le: (T, T) -> bool)
    requires Sorted(s, le) && n <= |s|
    ensures multiset(s) - multiset(s[..n]) == multiset(s[n..]) && multiset(s[..n]) <= multiset(s)
    ensures forall a, b :: a in s[..n] && b in s[n..] ==> le(a, b)
  {
    assert s == s[..n] + s[n..];
    forall a, b | a in s[..n] && b in s[n..] ensures le(a, b) {
      var i :| 0 <= i < n && s[i] == a;
      var j :| n <= j < |s| && s[j] == b;
    }
  }

  /** The spare seats that have been idle for long enough, longest first: a permutation of the eligible ones. */
  lemma WillingSeats(c: Config, seats: seq<SeatStatus>)
    ensures var willing := Select(Sort(Spares(seats), LongestIdleFirst()), IdleEnough(c));
            && Sorted(willing, LongestIdleFirst())
            && multiset(willing) == multiset(Select(Spares(seats), IdleEnough(c)))
            && |willing| == |Select(Spares(seats), IdleEnough(c))|
  {
    var spares, le := Spares(seats), LongestIdleFirst();
    SortPermutes(spares, le);
    SortSorts(spares, le);
    SelectSorted(Sort(spares, le), IdleEnough(c), le);
    SelectMultiset(Sort(spares, le), IdleEnough(c));
    SelectMultiset(spares, IdleEnough(c));
    var willing, eligible := Select(Sort(spares, le), IdleEnough(c)), Select(spares, IdleEnough(c));
    assert multiset(willing) == multiset(eligible);
    assert |multiset(willing)| == |willing| && |multiset(eligible)| == |eligible|;
  }

  /**
    A plan scales down exactly as many eligible seats as exceed the desired number, if there are that
    many, taking those that have been idle the longest and none that is draining or below the threshold.
   */
  lemma ScaleDownTakesTheLongestIdle(c: Config, seats: seq<SeatStatus>)
    ensures var chosen, eligible := ScaleDown(c, seats), Select(Spares(seats), IdleEnough(c));
            && multiset(chosen) <= multiset(eligible)
            && (forall a, b :: a in chosen && b in multiset(eligible) - multiset(chosen) ==> IdleTime(a) >= IdleTime(b))
            && |chosen| == (var excess := Running(seats) - Desired(c, seats);
                            if excess <= 0 then 0 else if |eligible| <= excess then |eligible| else excess)
            && (Running(seats) >= Desired(c, seats) ==> Running(seats) - |chosen| >= Desired(c, seats))
            && forall x :: x in chosen ==> x in seats && x.phase == ReadyIdle && !x.drainRequested && IdleTime(x) >= c.idleScaleDown
  {
    WillingSeats(c, seats);
    var willing := Select(Sort(Spares(seats), LongestIdleFirst()), IdleEnough(c));
    var chosen, eligible := ScaleDown(c, seats), Select(Spares(seats), IdleEnough(c));
    SelectElems(seats, IsSpare);
    SelectElems(Spares(seats), IdleEnough(c));
    hide Select, Sort, Sorted, Running, Desired;
    assert chosen == willing[..|chosen|];
    SortedSplit(willing, |chosen|, LongestIdleFirst());
    forall a, b | a in chosen && b in multiset(eligible) - multiset(chosen) ensures IdleTime(a) >= IdleTime(b) {
      assert b in willing[|chosen|..];
      assert LongestIdleFirst()(a, b);
    }
    forall x | x in chosen ensures x in eligible {
      assert x in multiset(chosen);
      assert x in multiset(eligible);
    }
  }

  // ---------------------------------------------------------------- the planner object

  lemma {:induction false} SelectConcat<T>(a: seq<T>, b: seq<T>, p: T -> bool)
    ensures Select(a + b, p) == Select(a, p) + Select(b, p)
  {
    if a == [] {
      assert a + b == b;
    } else {
      SelectConcat(a[1..], b, p);
      assert (a + b)[1..] == a[1..] + b;
    }
  }

  lemma SelectNext<T>(s: seq<T>, i: nat, p: T -> bool)
    requires i < |s|
    ensures Select(s[..i + 1], p) == Select(s[..i], p) + (if p(s[i]) then [s[i]] else [])
  {
    assert s[..i + 1] == s[..i] + [s[i]];
    SelectConcat(s[..i], [s[i]], p);
  }

  lemma {:induction false} SelectTwice<T>(s: seq<T>, p: T -> bool, q: T -> bool)
    requires forall x :: q(x) ==> p(x)
    ensures Select(Select(s, p), q) == Select(s, q)
  {
    if s != [] {
      SelectTwice(s[1..], p, q);
      if p(s[0]) {
        assert Select(s, p)[1..] == Select(s[1..], p);
      }
    }
  }

  lemma SelectPrefix<T>(s: seq<T>, i: nat, p: T -> bool)
    requires i <= |s|
    ensures |Select(s[..i], p)| <= |Select(s, p)| && Select(s, p)[..|Select(s[..i], p)|] == Select(s[..i], p)
  {
    assert s == s[..i] + s[i..];
    SelectConcat(s[..i], s[i..], p);
  }

  class CapacityWarmPool {
    const config: Config
    var drains: Drains

    constructor (config: Config)
      ensures this.config == config && drains == map[]
    {
      this.config := config;
      drains := map[];
    }

    method ChooseScaleDown(seats: seq<SeatStatus>, idle: seq<SeatStatus>, excess: int) returns (down: seq<Id>)
      requires idle == Spares(seats) && excess == Running(seats) - Desired(config, seats)
      ensures down == Names(ScaleDown(config, seats))
    {
      var sorted := Sort(idle, LongestIdleFirst());
      ghost var enough := IdleEnough(config);
      down := [];
      if excess > 0 {
        for i := 0 to |sorted|
          invariant |Select(sorted[..i], enough)| <= excess
          invariant down == Names(Select(sorted[..i], enough))
        {
          SelectNext(sorted, i, enough);
          SelectPrefix(sorted, i, enough);
          if |down| >= excess {
            break;
          }
          if IdleTime(sorted[i]) >= config.idleScaleDown {
            down := down + [sorted[i].seat];
          }
        }
        assert sorted[..|sorted|] == sorted;
      }
    }

    method Plan(seats: seq<SeatStatus>) returns (desired: int, down: seq<Id>, up: seq<Id>)
      ensures desired == Desired(config, seats)
      ensures down == Names(ScaleDown(config, seats))
      ensures up == Names(Activatable(drains, seats))
    {
      var occupied := 0;
      var idle: seq<SeatStatus>, draining: seq<SeatStatus> := [], [];
      for i := 0 to |seats|
        invariant occupied == |Protected(seats[..i])|
        invariant idle == Spares(seats[..i])
        invariant draining == Select(seats[..i], IsDraining)
      {
        SelectNext(seats, i, IsProtected);
        SelectNext(seats, i, IsSpare);
        SelectNext(seats, i, IsDraining);
        match seats[i].phase
        case Starting | Assigned | AwaitingBrowser | Connected | Disconnected | Recycling =>
          occupied := occupied + 1;
        case ReadyIdle =>
          if seats[i].drainRequested {
            draining := draining + [seats[i]];
          } else {
            idle := idle + [seats[i]];
          }
        case Draining =>
          draining := draining + [seats[i]];
        case Absent =>
      }
      assert seats[..|seats|] == seats;
      var wanted := occupied + |Absents(seats)| + config.warmSpares;
      desired := if wanted < config.totalSeats then wanted else config.totalSeats;
      down := ChooseScaleDown(seats, idle, occupied + |idle| - desired);
      up := [];
      for i := 0 to |draining|
        invariant up == Names(Select(draining[..i], ReplacedSince(drains)))
      {
        SelectNext(draining, i, ReplacedSince(drains));
        var seat := draining[i];
        SelectElems(seats, IsDraining);
        assert seat in draining;
        if seat.drainRequested && seat.drainId.Some? && seat.seat in drains
           && seat.generation.Some? && seat.generation.value != drains[seat.seat].generation {
          up := up + [seat.seat];
        }
      }
      assert draining[..|draining|] == draining;
      SelectTwice(seats, IsDraining, ReplacedSince(drains));
    }

    method Request(seat: SeatStatus, drainId: Id, now: int) returns (answer: DrainAnswer)
      modifies this`drains
      ensures (drains, answer) == RequestDrain(config, old(drains), seat, drainId, now)
    {
      if seat.phase != ReadyIdle || seat.generation.None? {
        return Refused;
      }
      if seat.seat in drains {
        var existing := drains[seat.seat];
        if existing.drainId == drainId && Some(existing.generation) == seat.generation {
          return Accepted(drainId);
        }
        return Refused;
      }
      if IdleTime(seat) < config.idleScaleDown {
        return Refused;
      }
      drains := drains[seat.seat := Drain(drainId, seat.generation.value, now)];
      return Accepted(drainId);
    }

    method Release(w: Id, current: Option<Gen>) returns (released: bool)
      modifies this`drains
      ensures (drains, released) == ReleaseDrain(old(drains), w, current)
    {
      if w !in drains {
        return false;
      }
      if current.Some? && current.value == drains[w].generation {
        return false;
      }
      drains := drains - {w};
      return true;
    }

    method Restore(saved: seq<(Id, Drain)>)
      requires forall i, j :: 0 <= i < j < |saved| ==> saved[i].0 != saved[j].0
      modifies this`drains
      ensures drains.Keys == set i | 0 <= i < |saved| :: saved[i].0
      ensures forall i :: 0 <= i < |saved| ==> saved[i].0 in drains && drains[saved[i].0] == saved[i].1
    {
      drains := map[];
      for i := 0 to |saved|
        invariant drains.Keys == set j | 0 <= j < i :: saved[j].0
        invariant forall j :: 0 <= j < i ==> saved[j].0 in drains && drains[saved[j].0] == saved[j].1
      {
        drains := drains[saved[i].0 := saved[i].1];
      }
    }
  }
}
