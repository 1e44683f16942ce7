/**
  What the seat coordinator promises its visitors: first come first served admission, no idle seat
  beside a waiting ticket, leases that a sweep enforces to the millisecond, and connection versions
  that are issued once.
 */
module SessionPromises {
  import opened Common
  import opened Sorting
  import opened SessionModel
  import opened SessionInvariant
  import opened SessionRuns

  // ---------------------------------------------------------------- coherence, spelled out

  /**
    In every reachable state: a seat names a ticket exactly when that ticket is admitted or active and
    names the seat; a ready seat is free, has a generation and is neither fenced, nor quarantined, nor
    awaiting a replacement; and two live tickets never belong to one visitor.
   */
  lemma SeatsAndTicketsAgree(o: Options, now0: int, run: seq<Timed>)
    requires o.Valid() && PermittedRun(o, Init(o, now0), {}, run)
    ensures var s := Run(o, Init(o, now0), run);
            && (forall w, id :: w in s.seats && id in s.tickets ==>
                  (s.seats[w].ticket == Some(id) <==> s.tickets[id].Holder() && s.tickets[id].seat == Some(w)))
            && (forall w :: w in s.seats && s.seats[w].ready ==>
                  s.seats[w].ticket.None? && s.seats[w].generation.Some? && !s.seats[w].fenced
                  && !s.seats[w].requiresUnavailable && s.seats[w].quarantined.None? && s.seats[w].replacementOf.None?)
            && (forall a, b | a in s.tickets && b in s.tickets && s.tickets[a].Live() && s.tickets[b].Live() ::
                  s.tickets[a].visitor == s.tickets[b].visitor ==> a == b)
            && (forall id :: id in s.tickets && s.tickets[id].Live() ==>
                  s.tickets[id].visitor in s.visitors && s.visitors[s.tickets[id].visitor] == id)
  {
    var s := Run(o, Init(o, now0), run);
    InitInv(o, now0);
    RunInv(o, Init(o, now0), {}, run);
    hide Run;
    forall w | w in s.seats ensures SeatOk(s.seats[w]) { InvSeat(o, s, w); }
    assert LinkedMaps(s.seats, s.tickets) && IndexedMaps(s.visitors, s.tickets);
    hide Inv;
  }

  // ---------------------------------------------------------------- first come, first served

  /** In every reachable state, a ticket holding a seat was issued before every ticket still waiting. */
  lemma NoOvertaking(o: Options, now0: int, run: seq<Timed>, i: nat, j: nat)
    requires o.Valid() && PermittedRun(o, Init(o, now0), {}, run)
    requires var s := Run(o, Init(o, now0), run);
             i < |s.order| && j < |s.order| && s.order[i] in s.tickets && s.order[j] in s.tickets
             && s.tickets[s.order[i]].Holder() && s.tickets[s.order[j]].phase == Queued
    ensures i < j
  {
    var s := Run(o, Init(o, now0), run);
    InitInv(o, now0);
    RunInv(o, Init(o, now0), {}, run);
    var h, k := Holding(s.tickets), Waiting(s.tickets);
    KeepElems(s.order, h);
    KeepElems(s.order, k);
    KeepSplitOrder(s.order, h + k, Keep(s.order, h), Keep(s.order, k), i, j);
  }

  /** A seat that a pump cannot use now stays unusable for the rest of that pump. */
  lemma {:induction false} PumpNeverFrees(o: Options, s: State, ws: seq<Id>, now: int, w: Id)
    requires WaitingUnseated(s.tickets)
    requires w in s.seats && !s.seats[w].Assignable()
    ensures w in PumpSeats(o, s, ws, now).seats && !PumpSeats(o, s, ws, now).seats[w].Assignable()
    ensures PumpSeats(o, s, ws, now).reserved >= s.reserved
    decreases |ws|
  {
    if ws == [] {
    } else if ws[0] !in s.seats || !s.seats[ws[0]].Assignable() {
      PumpNeverFrees(o, s, ws[1..], now, w);
    } else if s.queue != [] {
      var id := s.queue[0];
      var s1 := s.(queue := s.queue[1..]);
      if id !in s.tickets || s.tickets[id].phase != Queued {
        PumpNeverFrees(o, s1, ws[1..], now, w);
      } else if s.reserved + o.Reservation() > o.dailyBudget {
        PumpNeverFrees(o, End(s1, id, DailyBudgetExhausted, now), ws[1..], now, w);
      } else {
        AssignAdvances(o, s1, ws[0], id, now);
        PumpNeverFrees(o, Assign(o, s1, ws[0], id, now), ws[1..], now, w);
      }
    }
  }

  lemma {:induction false} PumpReservesMore(o: Options, s: State, ws: seq<Id>, now: int)
    ensures PumpSeats(o, s, ws, now).reserved >= s.reserved
    ensures PumpSeats(o, s, ws, now).seats.Keys == s.seats.Keys
    decreases |ws|
  {
    if ws == [] {
    } else if ws[0] !in s.seats || !s.seats[ws[0]].Assignable() {
      PumpReservesMore(o, s, ws[1..], now);
    } else if s.queue != [] {
      var id := s.queue[0];
      var s1 := s.(queue := s.queue[1..]);
      if id !in s.tickets || s.tickets[id].phase != Queued {
        PumpReservesMore(o, s1, ws[1..], now);
      } else if s.reserved + o.Reservation() > o.dailyBudget {
        PumpReservesMore(o, End(s1, id, DailyBudgetExhausted, now), ws[1..], now);
      } else {
        PumpReservesMore(o, Assign(o, s1, ws[0], id, now), ws[1..], now);
      }
    }
  }

  ghost predicate Exhausted(o: Options, s: State, ws: seq<Id>) {
    || s.queue == []
    || s.reserved + o.Reservation() > o.dailyBudget
    || forall w :: w in ws && w in s.seats ==> !s.seats[w].Assignable()
  }

  lemma {:induction false} PumpSeatsExhausts(o: Options, s: State, ws: seq<Id>, now: int)
    requires Inv(o, s) && CleanQueued(s)
    ensures Exhausted(o, PumpSeats(o, s, ws, now), ws)
    decreases |ws|
  {
    hide Inv, CleanQueued;
    var r := PumpSeats(o, s, ws, now);
    if ws == [] {
    } else {
      var w, rest := ws[0], ws[1..];
      assert forall x :: x in ws <==> x == w || x in rest;
      if w !in s.seats || !s.seats[w].Assignable() {
        PumpSeatsExhausts(o, s, rest, now);
        if w in s.seats {
          InvUnseated(o, s);
          PumpNeverFrees(o, s, rest, now, w);
        } else {
          PumpReservesMore(o, s, rest, now);
        }
      } else if s.queue != [] {
        TakeHead(o, s);
        var id, tail := s.queue[0], s.queue[1..];
        assert s.queue == [id] + tail;
        var s1 := s.(queue := tail);
        if s.reserved + o.Reservation() > o.dailyBudget {
          var s2 := End(s1, id, DailyBudgetExhausted, now);
          assert s2.reserved == s.reserved;
          PumpReservesMore(o, s2, rest, now);
        } else {
          var s2 := Assign(o, s1, w, id, now);
          AssignInv(o, s, w, id, tail, now);
          PumpSeatsExhausts(o, s2, rest, now);
          InvUnseated(o, s2);
          PumpNeverFrees(o, s2, rest, now, w);
        }
      }
    }
  }

  /**
    After every pump, if a ticket is still waiting then no seat is ready, free and unfenced, or one
    more reservation would exceed the daily budget.
   */
  lemma NoIdleSeatBesideAWaitingTicket(o: Options, s: State, now: int, id: Id)
    requires Inv(o, s)
    requires id in Pump(o, s, now).tickets && Pump(o, s, now).tickets[id].phase == Queued
    ensures var s' := Pump(o, s, now);
            s'.reserved + o.Reservation() > o.dailyBudget || forall w :: w in s'.seats ==> !s'.seats[w].Assignable()
  {
    CleanQueueInv(o, s);
    PumpSeatsExhausts(o, CleanQueue(s), o.seats, now);
    PumpInv(o, s, now);
    var s' := Pump(o, s, now);
    KeepElems(s'.order, Waiting(s'.tickets));
    assert id in s'.order;
    assert id in s'.queue;
  }

  // ---------------------------------------------------------------- leases

  lemma SweepOneSettles(o: Options, s: State, id: Id, now: int)
    requires id in s.tickets
    ensures var s' := SweepOne(o, s, id, now);
            id in s'.tickets && s'.tickets == s.tickets[id := s'.tickets[id]] && Verdict(o, s'.tickets[id], now).None?
  {
    var t := s.tickets[id];
    var t1 := t.(pending := None, pendingAt := None);
    assert Verdict(o, t1, now) == Verdict(o, t, now) && !ReservationLapsed(o, t1, now);
    forall reason ensures Verdict(o, EndedTicket(t, reason, now), now).None? && Verdict(o, EndedTicket(t1, reason, now), now).None? {
    }
    hide Freed, Verdict;
    if ReservationLapsed(o, t, now) {
      assert Edit(s, id, t1).tickets == s.tickets[id := t1];
    }
  }

  lemma {:induction false} SweepTicketsSettle(o: Options, s: State, ids: seq<Id>, now: int)
    ensures var s' := SweepTickets(o, s, ids, now);
            forall id :: id in s'.tickets && (id in ids || (id in s.tickets && Verdict(o, s.tickets[id], now).None?))
                         ==> Verdict(o, s'.tickets[id], now).None?
    decreases |ids|
  {
    hide Verdict, SweepOne;
    SweepTicketsAddsNothing(o, s, ids, now);
    if ids != [] {
      assert forall x :: x in ids <==> x == ids[0] || x in ids[1..];
      if ids[0] !in s.tickets {
        SweepTicketsSettle(o, s, ids[1..], now);
      } else {
        SweepOneSettles(o, s, ids[0], now);
        SweepTicketsSettle(o, SweepOne(o, s, ids[0], now), ids[1..], now);
      }
    }
  }

  lemma {:induction false} PumpSettles(o: Options, s: State, ws: seq<Id>, now: int)
    requires o.Valid() && forall id :: id in s.tickets ==> Verdict(o, s.tickets[id], now).None?
    ensures forall id :: id in PumpSeats(o, s, ws, now).tickets ==> Verdict(o, PumpSeats(o, s, ws, now).tickets[id], now).None?
    decreases |ws|
  {
    if ws == [] {
    } else if ws[0] !in s.seats || !s.seats[ws[0]].Assignable() {
      PumpSettles(o, s, ws[1..], now);
    } else if s.queue != [] {
      var id := s.queue[0];
      var s1 := s.(queue := s.queue[1..]);
      if id !in s.tickets || s.tickets[id].phase != Queued {
        PumpSettles(o, s1, ws[1..], now);
      } else if s.reserved + o.Reservation() > o.dailyBudget {
        PumpSettles(o, End(s1, id, DailyBudgetExhausted, now), ws[1..], now);
      } else {
        PumpSettles(o, Assign(o, s1, ws[0], id, now), ws[1..], now);
      }
    }
  }

  /** What a live ticket that no lease condemns looks like at `now`. */
  ghost predicate WithinLeases(o: Options, t: Ticket, now: int) {
    && (t.phase == Queued ==> now < t.ticketExpiresAt)
    && (t.phase == Admitted ==> t.assignedAt.Some? && now < t.assignedAt.value + o.grace)
    && (t.phase == Active ==>
          && t.startedAt.Some? && now < t.startedAt.value + o.absoluteLimit
          && (t.disconnectedAt.Some? ==> now < t.disconnectedAt.value + o.grace)
          && (t.disconnectedAt.None? ==> t.lastActivityAt.Some? && now < t.lastActivityAt.value + o.idleLimit))
  }

  /**
    After a sweep at `now` no ticket is past its queue, no-show, absolute, reconnect or idle limit,
    whatever happened before: the limits hold of every state satisfying the invariant.
   */
  lemma SweepEnforcesLeases(o: Options, s: State, now: int, id: Id)
    requires Inv(o, s) && id in Sweep(o, s, now).tickets
    ensures WithinLeases(o, Sweep(o, s, now).tickets[id], now)
  {
    hide TicketsOk, SeatsOk, LinkedMaps, IndexedMaps, Queue, Fifo, Verdict, WithinLeases;
    var s1 := SweepTickets(o, s, s.order, now);
    SweepTicketsSettle(o, s, s.order, now);
    SweepTicketsAddsNothing(o, s, s.order, now);
    assert forall x :: x in s.tickets ==> x in s.order;
    var s2 := Prune(ResetBudget(s1, now), now);
    PruneKeepsRecords(ResetBudget(s1, now), now);
    assert o.Valid();
    hide Inv, Prune;
    PumpSettles(o, CleanQueue(s2), o.seats, now);
    SweepInv(o, s, now);
    InvTicket(o, Sweep(o, s, now), id);
    hide Pump;
    NoVerdictMeansWithin(o, Sweep(o, s, now).tickets[id], now);
  }

  lemma PruneKeepsRecords(s: State, now: int)
    ensures forall x :: x in Prune(s, now).tickets ==> x in s.tickets && Prune(s, now).tickets[x] == s.tickets[x]
  {
  }

  lemma NoVerdictMeansWithin(o: Options, t: Ticket, now: int)
    requires TicketOk(o, t) && Verdict(o, t, now).None?
    ensures WithinLeases(o, t, now)
  {
  }

  // ---------------------------------------------------------------- connection versions

  /** The version an event issues to ticket `id`, if it does. */
  function IssuedVersion(o: Options, s: State, e: Event, now: int, id: Id): Option<int> {
    if e != Reserve(id) then None
    else match ReserveAttachment(o, s, id, now).1
         case Some(lease) => Some(lease.version)
         case None => None
  }

  /** All versions a run issues to one ticket, in order. */
  function Versions(o: Options, s: State, run: seq<Timed>, id: Id): seq<int>
    decreases |run|
  {
    if run == [] then []
    else
      var rest := Versions(o, Step(o, s, run[0].event, run[0].now), run[1..], id);
      match IssuedVersion(o, s, run[0].event, run[0].now, id)
      case Some(v) => [v] + rest
      case None => rest
  }

  ghost predicate StrictlyIncreasing(vs: seq<int>) {
    forall i, j :: 0 <= i < j < |vs| ==> vs[i] < vs[j]
  }

  lemma IssueStep(o: Options, s: State, e: Event, now: int, id: Id)
    requires Inv(o, s) && IssuedVersion(o, s, e, now, id).Some?
    ensures var s', v := Step(o, s, e, now), IssuedVersion(o, s, e, now, id).value;
            id in s.tickets && id in s'.tickets
            && s.tickets[id].nextVersion < v == s'.tickets[id].nextVersion
            && s.tickets[id].attempts < s'.tickets[id].attempts
  {
    hide Inv, Sweep;
    SweepAdvances(o, s, now);
  }

  /**
    Over any run with restarts anywhere, the versions issued to one ticket are strictly increasing,
    hence never reused, exceed everything issued before, and number at most what is left of the 32
    connection attempts.
   */
  lemma {:induction false} VersionsNeverReused(o: Options, s: State, issued: set<Id>, run: seq<Timed>, id: Id)
    requires Inv(o, s) && s.tickets.Keys <= issued && PermittedRun(o, s, issued, run)
    ensures StrictlyIncreasing(Versions(o, s, run, id))
    ensures id in s.tickets ==> forall v :: v in Versions(o, s, run, id) ==> v > s.tickets[id].nextVersion
    ensures |Versions(o, s, run, id)| <= MAX_CONNECTION_ATTEMPTS - (if id in s.tickets then s.tickets[id].attempts else 0)
    ensures id !in s.tickets && id in issued ==> Versions(o, s, run, id) == []
    decreases |run|
  {
    hide Inv, Step, IssuedVersion, Evolves;
    if id in s.tickets {
      InvTicket(o, s, id);
    }
    if run != [] {
      var e, now := run[0].event, run[0].now;
      var s1 := Step(o, s, e, now);
      StepInv(o, s, issued, e, now);
      StepAdvances(o, s, issued, e, now);
      VersionsNeverReused(o, s1, IssuedBy(issued, e), run[1..], id);
      if id in s1.tickets {
        InvTicket(o, s1, id);
      }
      if id in s.tickets && id in s1.tickets {
        EvolvingCounters(s, s1, id);
      }
      if IssuedVersion(o, s, e, now, id).Some? {
        IssueStep(o, s, e, now, id);
        ConsIncreasing(IssuedVersion(o, s, e, now, id).value, Versions(o, s1, run[1..], id));
      }
    }
  }

  lemma ConsIncreasing(v: int, vs: seq<int>)
    requires StrictlyIncreasing(vs) && forall x :: x in vs ==> x > v
    ensures StrictlyIncreasing([v] + vs)
  {
    var all := [v] + vs;
    forall i, j | 0 <= i < j < |all| ensures all[i] < all[j] {
      assert all[j] == vs[j - 1] && vs[j - 1] in vs;
    }
  }

  lemma EvolvingCounters(s: State, s': State, id: Id)
    requires Advances(s, s') && id in s.tickets && id in s'.tickets
    ensures s.tickets[id].nextVersion <= s'.tickets[id].nextVersion && s.tickets[id].attempts <= s'.tickets[id].attempts
  {
    assert Evolves(s.tickets[id], s'.tickets[id]);
  }

  /** A reservation that has been superseded can be neither activated nor cancelled, now or after any run. */
  lemma SupersededVersionIsInert(o: Options, s: State, issued: set<Id>, run: seq<Timed>, id: Id, v: int, now: int)
    requires Inv(o, s) && s.tickets.Keys <= issued && PermittedRun(o, s, issued, run)
    requires id in s.tickets && v < s.tickets[id].nextVersion
    ensures var s' := Run(o, s, run);
            ActivateAttachment(s', id, v, now) == (s', false) && CancelAttachment(s', id, v) == s'
  {
    var s' := Run(o, s, run);
    RunInv(o, s, issued, run);
    hide Run;
    if id in s'.tickets {
      EvolvingCounters(s, s', id);
      InvTicket(o, s', id);
    }
  }

  /** Version `v` of the ticket's connections is neither the current one nor about to be, and will not be issued again. */
  ghost predicate Retired(s: State, id: Id, v: int) {
    id in s.tickets ==> v <= s.tickets[id].nextVersion && v != s.tickets[id].version && s.tickets[id].pending != Some(v)
  }

  /** Nothing rolls the ticket back to version `v`. */
  ghost predicate NeverBackTo(run: seq<Timed>, id: Id, v: int) {
    forall i :: 0 <= i < |run| ==> !(run[i].event.RollBack? && run[i].event.id == id && run[i].event.previous == v)
  }

  lemma RetiredStep(o: Options, s: State, issued: set<Id>, e: Event, now: int, id: Id, v: int)
    requires Inv(o, s) && s.tickets.Keys <= issued && Permitted(s, issued, e) && id in issued && Retired(s, id, v)
    requires e.RollBack? && e.id == id ==> e.previous != v
    ensures Retired(Step(o, s, e, now), id, v)
  {
    hide Inv, Evolves;
    var s' := Step(o, s, e, now);
    StepAdvances(o, s, issued, e, now);
    if id in s'.tickets && !e.RollBack? {
      StepProceeds(o, s, issued, e, now);
      hide Step;
      assert Moves(s.tickets[id], s'.tickets[id]);
      EvolvingCounters(s, s', id);
    }
  }

  lemma {:induction false} RetiredRun(o: Options, s: State, issued: set<Id>, run: seq<Timed>, id: Id, v: int)
    requires Inv(o, s) && s.tickets.Keys <= issued && PermittedRun(o, s, issued, run) && id in issued
    requires Retired(s, id, v) && NeverBackTo(run, id, v)
    ensures Retired(Run(o, s, run), id, v)
    decreases |run|
  {
    hide Inv, Step, Retired;
    if run != [] {
      var e, now := run[0].event, run[0].now;
      StepInv(o, s, issued, e, now);
      StepAdvances(o, s, issued, e, now);
      RetiredStep(o, s, issued, e, now, id, v);
      RetiredRun(o, Step(o, s, e, now), IssuedBy(issued, e), run[1..], id, v);
    }
  }

  /**
    A connection that is no longer the current one, nor pending, does nothing for ever after, at whatever
    clock readings and with restarts anywhere: it confirms, marks, rolls back and detaches nothing and cannot
    be activated or cancelled, unless a rollback restores just that version.
   */
  lemma StaleConnectionIsInert(o: Options, s: State, issued: set<Id>, run: seq<Timed>, id: Id, v: int, now: int)
    requires Inv(o, s) && s.tickets.Keys <= issued && PermittedRun(o, s, issued, run) && NeverBackTo(run, id, v)
    requires id in s.tickets && v <= s.tickets[id].nextVersion && v != s.tickets[id].version && s.tickets[id].pending != Some(v)
    ensures var s' := Run(o, s, run);
            && (forall observed :: Confirm(s', id, v, observed, now) == (s', false))
            && MarkConnectionStarted(s', id, v) == (s', false)
            && (forall previous :: Rollback(s', id, v, previous) == s')
            && Detach(s', id, v, now) == s'
            && ActivateAttachment(s', id, v, now) == (s', false) && CancelAttachment(s', id, v) == s'
  {
    RetiredRun(o, s, issued, run, id, v);
    hide Run, Edit, End;
  }

  // ---------------------------------------------------------------- retention of ended tickets

  lemma OverflowIsFront(retained: seq<Id>, tickets: map<Id, Ticket>)
    ensures var sorted, cut := Sort(retained, EndedEarlier(tickets)), |Overflow(retained, tickets)|;
            && cut <= |sorted| && Overflow(retained, tickets) == sorted[..cut] && |sorted| - cut <= MAX_TOMBSTONES
            && Sorted(sorted, EndedEarlier(tickets))
            && (forall x :: x in sorted ==> x in retained) && (forall x :: x in retained ==> x in sorted)
  {
    SortSorts(retained, EndedEarlier(tickets));
    SortElems(retained, EndedEarlier(tickets));
    hide Sort;
  }

  lemma FrontEndedFirst(sorted: seq<Id>, cut: nat, tickets: map<Id, Ticket>, a: Id, b: Id)
    requires Sorted(sorted, EndedEarlier(tickets)) && cut <= |sorted| && a in sorted[..cut] && b in sorted[cut..]
    ensures EndedAt(tickets, a) <= EndedAt(tickets, b)
  {
    var i :| 0 <= i < cut && sorted[i] == a;
    var j :| cut <= j < |sorted| && sorted[j] == b;
    assert EndedEarlier(tickets)(sorted[i], sorted[j]);
  }

  /** In a list sorted by end time, the front ended no later than the rest. */
  lemma OverflowFacts(retained: seq<Id>, tickets: map<Id, Ticket>)
    ensures var out := Elems(Overflow(retained, tickets));
            && out <= Elems(retained) && |Elems(retained) - out| <= MAX_TOMBSTONES
            && forall a, b :: a in out && b in Elems(retained) - out ==> EndedAt(tickets, a) <= EndedAt(tickets, b)
  {
    hide Sort, Overflow, Sorted;
    OverflowIsFront(retained, tickets);
    var sorted, cut := Sort(retained, EndedEarlier(tickets)), |Overflow(retained, tickets)|;
    var out, rest := sorted[..cut], sorted[cut..];
    assert sorted == out + rest;
    assert Elems(retained) - Elems(out) <= Elems(rest);
    ElemsBound(rest);
    SubsetSize(Elems(retained) - Elems(out), Elems(rest));
    forall a, b | a in Elems(out) && b in Elems(retained) - Elems(out) ensures EndedAt(tickets, a) <= EndedAt(tickets, b) {
      assert b in Elems(rest);
      FrontEndedFirst(sorted, cut, tickets, a, b);
    }
  }

  /**
    Pruning keeps every live ticket as it is, keeps no ended ticket past its retention and at most 1,000
    ended tickets, and gives up only tickets that ended no later than those it keeps.
   */
  lemma PruneKeepsTheLatest(o: Options, s: State, now: int)
    requires Inv(o, s)
    ensures var s' := Prune(s, now);
            && (forall id :: id in s.tickets && s.tickets[id].Live() ==> id in s'.tickets && s'.tickets[id] == s.tickets[id])
            && (forall id :: id in Finished(s'.tickets) ==> now - EndTime(s.tickets[id], now) < RETENTION_MS)
            && |Finished(s'.tickets)| <= MAX_TOMBSTONES
            && (forall a, b :: a in s.tickets && a !in s'.tickets && a !in Stale(s, now) && b in Finished(s'.tickets) ==>
                  EndTime(s.tickets[a], 0) <= EndTime(s.tickets[b], 0))
  {
    hide Keep, Overflow, TicketsOk, SeatsOk, LinkedMaps, IndexedMaps, Queue, Fifo;
    var wanted := Finished(s.tickets) - Stale(s, now);
    var retained := Keep(s.order, wanted);
    var s' := Prune(s, now);
    PrunedAreEnded(s, now);
    KeepElems(s.order, wanted);
    assert forall id :: id in s.tickets ==> id in s.order;
    hide Inv;
    OverflowFacts(retained, s.tickets);
    var out := Elems(Overflow(retained, s.tickets));
    assert Elems(retained) == wanted;
    assert Finished(s'.tickets) == wanted - out;
    forall a, b | a in s.tickets && a !in s'.tickets && a !in Stale(s, now) && b in Finished(s'.tickets)
      ensures EndTime(s.tickets[a], 0) <= EndTime(s.tickets[b], 0)
    {
      assert a in out && b in Elems(retained) - out;
      assert EndedAt(s.tickets, a) <= EndedAt(s.tickets, b);
    }
  }

  // ---------------------------------------------------------------- where a fence may go

  /** A pump leaves tickets that do not wait, and seats it cannot assign, as they are. */
  lemma {:induction false} PumpLeavesHolder(o: Options, s: State, ws: seq<Id>, now: int, w: Id, id: Id)
    requires w in s.seats && !s.seats[w].Assignable() && id in s.tickets && s.tickets[id].phase != Queued
    requires s.tickets[id].seat == Some(w)
    requires forall x :: x in s.tickets && s.tickets[x].phase == Queued ==> s.tickets[x].seat.None?
    ensures var s' := PumpSeats(o, s, ws, now);
            w in s'.seats && s'.seats[w] == s.seats[w] && id in s'.tickets && s'.tickets[id] == s.tickets[id]
    decreases |ws|
  {
    if ws == [] {
    } else if ws[0] !in s.seats || !s.seats[ws[0]].Assignable() {
      PumpLeavesHolder(o, s, ws[1..], now, w, id);
    } else if s.queue != [] {
      var head := s.queue[0];
      var s1 := s.(queue := s.queue[1..]);
      if head !in s.tickets || s.tickets[head].phase != Queued {
        PumpLeavesHolder(o, s1, ws[1..], now, w, id);
      } else if s.reserved + o.Reservation() > o.dailyBudget {
        PumpLeavesHolder(o, End(s1, head, DailyBudgetExhausted, now), ws[1..], now, w, id);
      } else {
        PumpLeavesHolder(o, Assign(o, s1, ws[0], head, now), ws[1..], now, w, id);
      }
    }
  }

  lemma FencedHolder(o: Options, s: State, w: Id, now: int)
    requires Inv(o, s) && w in s.seats && s.seats[w].ticket.Some?
    ensures var s', id := Fence(o, s, w, true, now).0, s.seats[w].ticket.value;
            && w in s'.seats && s'.seats[w] == FenceSeat(s.seats[w], true)
            && id in s.tickets && id in s'.tickets && s'.tickets[id] == s.tickets[id] && s.tickets[id].seat == Some(w)
  {
    InvSeat(o, s, w);
    InvUnseated(o, s);
    hide Inv;
    var id := s.seats[w].ticket.value;
    var s1 := CleanQueue(s.(seats := s.seats[w := FenceSeat(s.seats[w], true)]));
    PumpLeavesHolder(o, s1, o.seats, now, w, id);
  }

  /**
    A fence keeps the seats and tickets coherent exactly when it goes on a free seat or lifts a fence.
    Drain requests only ever fence free seats.
   */
  lemma FenceIsSoundExactlyOnFreeSeats(o: Options, s: State, w: Id, on: bool, now: int)
    requires Inv(o, s) && w in s.seats
    ensures Inv(o, Fence(o, s, w, on, now).0) <==> (on ==> s.seats[w].ticket.None?)
  {
    if on && s.seats[w].ticket.Some? {
      FencedHolder(o, s, w, now);
      hide Fence;
      if Inv(o, Fence(o, s, w, on, now).0) {
        InvSeat(o, Fence(o, s, w, on, now).0, w);
      }
    } else {
      hide Inv;
      FenceInv(o, s, w, on, now);
    }
  }

  /**
    What goes wrong otherwise: once a bound seat has been fenced, the end of its ticket, at any time, leaves
    the seat fenced and ready at once exactly when the worker was never exposed to the visitor and the reason is
    not that the worker became unavailable.
   */
  lemma FencedSeatIsReadyExactlyWhen(o: Options, s: State, w: Id, now: int, reason: EndReason, later: int)
    requires Inv(o, s) && w in s.seats && s.seats[w].ticket.Some?
    ensures var s1, id := Fence(o, s, w, true, now).0, s.seats[w].ticket.value;
            && id in s.tickets && id in s1.tickets && w in End(s1, id, reason, later).seats
            && var k := End(s1, id, reason, later).seats[w];
               k.fenced && k.ticket.None? && (k.ready <==> !s.tickets[id].exposed && reason != WorkerUnavailable)
  {
    FencedHolder(o, s, w, now);
    InvSeat(o, s, w);
    InvTicket(o, s, s.seats[w].ticket.value);
    hide Inv, Fence;
  }

  /** In particular when the visitor never shows up. */
  lemma FencedNoShowIsReady(o: Options, s: State, w: Id, now: int, later: int)
    requires Inv(o, s) && w in s.seats && s.seats[w].ticket.Some?
    requires s.seats[w].ticket.value in s.tickets && s.tickets[s.seats[w].ticket.value].phase == Admitted
    ensures var s1, id := Fence(o, s, w, true, now).0, s.seats[w].ticket.value;
            id in s1.tickets && w in End(s1, id, NoShow, later).seats
            && End(s1, id, NoShow, later).seats[w].ready && End(s1, id, NoShow, later).seats[w].fenced
  {
    FencedSeatIsReadyExactlyWhen(o, s, w, now, NoShow, later);
    InvTicket(o, s, s.seats[w].ticket.value);
    hide Inv, Fence, End;
  }
}
