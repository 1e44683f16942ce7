/**
  What every operation of the seat coordinator keeps: seats and tickets point at each other, a ready
  seat is free and fit for use, a visitor has one live ticket, and tickets reach seats in the order
  in which they were issued.
 */
module SessionInvariant {
  import opened Common
  import opened Sorting
  import opened SessionModel

  // ---------------------------------------------------------------- the invariant

  ghost predicate TicketOk(o: Options, t: Ticket) {
    && t.runs <= o.maxRuns
    && 0 <= t.attempts <= MAX_CONNECTION_ATTEMPTS && t.attempts <= t.nextVersion && 0 <= t.version
    && (t.pending.Some? <==> t.pendingAt.Some?)
    && (t.pending.Some? ==> t.seat.Some? && t.pending.value == t.nextVersion)
    && (t.phase == Queued ==> t.seat.None? && t.assignedAt.None? && t.startedAt.None? && !t.exposed)
    && (t.Holder() ==> t.seat.Some? && t.generation.Some? && t.assignedAt.Some? && t.reserved == o.Reservation())
    && (t.phase == Admitted ==> t.startedAt.None? && !t.exposed)
    && (t.phase == Active ==> t.startedAt.Some? && t.lastActivityAt.Some?)
    && (t.phase == Ended ==> t.pending.None?)
    && (t.endedAt.Some? <==> t.phase == Ended)
  }

  ghost predicate SeatOk(k: Seat) {
    && (k.ready ==> k.ticket.None? && k.generation.Some? && !k.fenced && !k.requiresUnavailable && k.replacementOf.None?)
    && (k.ticket.Some? ==> k.generation.Some? && !k.fenced && !k.requiresUnavailable && k.replacementOf.None? && k.idleSince.None?)
    && (!k.requiresUnavailable ==> k.quarantined.None? && !k.unavailableAfterQuarantine)
  }

  /** A seat names a ticket exactly when that ticket holds the seat, and both agree on the process generation. */
  ghost predicate LinkedMaps(seats: map<Id, Seat>, tickets: map<Id, Ticket>) {
    && (forall w :: w in seats && seats[w].ticket.Some? ==>
          var id := seats[w].ticket.value;
          id in tickets && tickets[id].Holder() && tickets[id].seat == Some(w)
          && tickets[id].generation == seats[w].generation)
    && (forall id :: id in tickets && tickets[id].Holder() ==>
          tickets[id].seat.Some? && tickets[id].seat.value in seats
          && seats[tickets[id].seat.value].ticket == Some(id))
  }

  ghost predicate Linked(s: State) {
    LinkedMaps(s.seats, s.tickets)
  }

  /** The visitor index names exactly the live tickets, hence at most one per visitor. */
  ghost predicate IndexedMaps(visitors: map<Id, Id>, tickets: map<Id, Ticket>) {
    && (forall v :: v in visitors ==>
          visitors[v] in tickets && tickets[visitors[v]].Live() && tickets[visitors[v]].visitor == v)
    && (forall id :: id in tickets && tickets[id].Live() ==>
          tickets[id].visitor in visitors && visitors[tickets[id].visitor] == id)
  }

  ghost predicate Indexed(s: State) {
    IndexedMaps(s.visitors, s.tickets)
  }

  ghost predicate OrderedMap(order: seq<Id>, tickets: map<Id, Ticket>) {
    NoDup(order) && forall id :: id in order <==> id in tickets
  }

  ghost predicate Ordered(s: State) {
    OrderedMap(s.order, s.tickets)
  }

  /** The live part of the queue is the waiting tickets in issue order. */
  ghost predicate Queue(s: State) {
    Keep(s.queue, Waiting(s.tickets)) == Keep(s.order, Waiting(s.tickets))
  }

  /** In issue order, the tickets holding seats come before all waiting tickets. */
  ghost predicate Fifo(s: State) {
    Keep(s.order, Holding(s.tickets) + Waiting(s.tickets))
      == Keep(s.order, Holding(s.tickets)) + Keep(s.order, Waiting(s.tickets))
  }

  ghost predicate TicketsOk(o: Options, tickets: map<Id, Ticket>) {
    forall id :: id in tickets ==> TicketOk(o, tickets[id])
  }

  ghost predicate SeatsOk(seats: map<Id, Seat>) {
    forall w :: w in seats ==> SeatOk(seats[w])
  }

  ghost predicate Configured(o: Options, s: State) {
    o.Valid() && s.seats.Keys == Elems(o.seats)
  }

  ghost predicate Inv(o: Options, s: State) {
    && Configured(o, s) && SeatsOk(s.seats) && TicketsOk(o, s.tickets)
    && Linked(s) && Indexed(s) && Ordered(s) && Queue(s) && Fifo(s)
  }

  lemma InitInv(o: Options, now: int)
    requires o.Valid()
    ensures Inv(o, Init(o, now))
  {
  }

  lemma InvSeat(o: Options, s: State, w: Id)
    requires Inv(o, s) && w in s.seats
    ensures SeatOk(s.seats[w])
    ensures s.seats[w].ticket.Some? ==>
              var id := s.seats[w].ticket.value;
              id in s.tickets && s.tickets[id].Holder() && s.tickets[id].seat == Some(w)
              && s.tickets[id].generation == s.seats[w].generation
  {
  }

  lemma InvTicket(o: Options, s: State, id: Id)
    requires Inv(o, s) && id in s.tickets
    ensures TicketOk(o, s.tickets[id])
  {
  }

  // ---------------------------------------------------------------- selections under update

  lemma SelectionsUnchanged(m: map<Id, Ticket>, id: Id, t: Ticket)
    requires id in m
    requires (m[id].phase == Queued <==> t.phase == Queued) && (m[id].Holder() <==> t.Holder())
    ensures Waiting(m[id := t]) == Waiting(m) && Holding(m[id := t]) == Holding(m)
  {
  }

  /** Dropping tickets out of the live sets keeps queue and order aligned. */
  lemma ShrinkLive(s: State, s': State)
    requires Queue(s) && Fifo(s)
    requires s'.order == s.order && s'.queue == s.queue
    requires Waiting(s'.tickets) <= Waiting(s.tickets) && Holding(s'.tickets) <= Holding(s.tickets)
    ensures Queue(s') && Fifo(s')
  {
    var k, k', h, h' := Waiting(s.tickets), Waiting(s'.tickets), Holding(s.tickets), Holding(s'.tickets);
    KeepKeep(s.queue, k, k');
    KeepKeep(s.order, k, k');
    KeepKeep(s.order, h, h');
    KeepKeep(s.order, h + k, h' + k');
    var hs, ks := Keep(s.order, h), Keep(s.order, k);
    KeepConcat(hs, ks, h' + k');
    KeepElems(s.order, h);
    KeepElems(s.order, k);
    KeepSame(hs, h' + k', h');
    KeepSame(ks, h' + k', k');
  }

  // ---------------------------------------------------------------- edits of one ticket or one seat

  /** A ticket edit that keeps visitor, seat, generation and its place in the life cycle. */
  ghost predicate SamePlace(t: Ticket, t': Ticket) {
    && t'.visitor == t.visitor && t'.seat == t.seat && t'.generation == t.generation
    && (t'.phase == t.phase || (t.phase == Admitted && t'.phase == Active))
  }

  lemma PutTicketParts(o: Options, s: State, id: Id, t: Ticket)
    requires id in s.tickets && SamePlace(s.tickets[id], t) && TicketOk(o, t)
    requires TicketsOk(o, s.tickets) && Linked(s) && Indexed(s) && Ordered(s)
    ensures var s' := s.(tickets := s.tickets[id := t]);
            TicketsOk(o, s'.tickets) && Linked(s') && Indexed(s') && Ordered(s')
  {
    hide TicketOk;
  }

  lemma PutTicketInv(o: Options, s: State, id: Id, t: Ticket)
    requires Inv(o, s) && id in s.tickets && SamePlace(s.tickets[id], t) && TicketOk(o, t)
    ensures Inv(o, s.(tickets := s.tickets[id := t]))
  {
    SelectionsUnchanged(s.tickets, id, t);
    hide TicketsOk, SeatsOk, Linked, Indexed, Ordered, TicketOk, Waiting, Holding;
    PutTicketParts(o, s, id, t);
  }

  lemma PutSeatParts(s: State, w: Id, k: Seat)
    requires SeatsOk(s.seats) && Linked(s) && w in s.seats && SeatOk(k)
    requires k.ticket == s.seats[w].ticket
    requires k.ticket.Some? ==> k.generation == s.seats[w].generation
    ensures var s' := s.(seats := s.seats[w := k]);
            SeatsOk(s'.seats) && Linked(s') && s'.seats.Keys == s.seats.Keys
  {
    hide SeatOk;
  }

  /** A seat edit that keeps the ticket and, while one is seated, the generation. */
  lemma PutSeatInv(o: Options, s: State, w: Id, k: Seat)
    requires Inv(o, s) && w in s.seats && SeatOk(k)
    requires k.ticket == s.seats[w].ticket
    requires k.ticket.Some? ==> k.generation == s.seats[w].generation
    ensures Inv(o, s.(seats := s.seats[w := k]))
  {
    hide TicketsOk, SeatsOk, SeatOk, Linked, TicketOk, Waiting, Holding;
    PutSeatParts(s, w, k);
  }

  lemma EditInv(o: Options, s: State, id: Id, t: Ticket)
    requires Inv(o, s) && id in s.tickets && SamePlace(s.tickets[id], t) && TicketOk(o, t)
    ensures Inv(o, Edit(s, id, t))
  {
    hide Inv, TicketOk;
    PutTicketInv(o, s, id, t);
    var s1 := s.(tickets := s.tickets[id := t]);
    if Seated(s1, id) {
      var w := t.seat.value;
      InvSeat(o, s1, w);
      PutSeatInv(o, s1, w, s1.seats[w].(epoch := s1.seats[w].epoch + 1));
    }
  }

  // ---------------------------------------------------------------- ending a ticket

  /**
    The part of the invariant that ending a ticket relies on. The seat of the ticket being ended may
    already have been marked unhealthy or quarantined by the operation that ends it.
   */
  ghost predicate InvExcept(o: Options, s: State, w: Option<Id>) {
    && Configured(o, s) && TicketsOk(o, s.tickets)
    && (forall x :: x in s.seats && Some(x) != w ==> SeatOk(s.seats[x]))
    && Linked(s) && Indexed(s) && Ordered(s) && Queue(s) && Fifo(s)
  }

  lemma EndLinked(s: State, id: Id, reason: EndReason, now: int)
    requires id in s.tickets && Linked(s)
    ensures Linked(End(s, id, reason, now))
  {
    var s' := End(s, id, reason, now);
    var t := s.tickets[id];
    if t.Live() {
      assert t.seat.Some? && t.seat.value in s.seats ==> Freed(s.seats[t.seat.value], t, reason, now).ticket.None?;
      assert s'.tickets == s.tickets[id := EndedTicket(t, reason, now)];
      hide Freed, EndedTicket;
      assert !s'.tickets[id].Holder() by { assert s'.tickets[id].phase == Ended; }
      forall x | x in s'.tickets && s'.tickets[x].Holder()
        ensures s'.tickets[x].seat.Some? && s'.tickets[x].seat.value in s'.seats
        ensures s'.seats[s'.tickets[x].seat.value].ticket == Some(x)
      {
        assert x != id && s.tickets[x].Holder();
      }
      forall w | w in s'.seats && s'.seats[w].ticket.Some?
        ensures var x := s'.seats[w].ticket.value;
                x in s'.tickets && s'.tickets[x].Holder() && s'.tickets[x].seat == Some(w)
                && s'.tickets[x].generation == s'.seats[w].generation
      {
        assert s'.seats[w] == s.seats[w];
        assert s.seats[w].ticket != Some(id);
      }
    }
  }

  lemma EndIndexed(s: State, id: Id, reason: EndReason, now: int)
    requires id in s.tickets && Indexed(s)
    ensures Indexed(End(s, id, reason, now))
  {
    var s' := End(s, id, reason, now);
    assert forall x :: x in s.tickets && x != id ==> s'.tickets[x] == s.tickets[x];
  }

  lemma EndParts(o: Options, s: State, id: Id, reason: EndReason, now: int)
    requires id in s.tickets && s.tickets[id].Live()
    requires InvExcept(o, s, s.tickets[id].seat)
    requires s.tickets[id].seat.Some? ==> Seated(s, id)
    requires Seated(s, id) ==> SeatOk(Freed(s.seats[s.tickets[id].seat.value], s.tickets[id], reason, now))
    ensures var s' := End(s, id, reason, now); Configured(o, s') && SeatsOk(s'.seats) && TicketsOk(o, s'.tickets)
  {
    hide Linked, Indexed, Ordered, Queue, Fifo;
    var t := EndedTicket(s.tickets[id], reason, now);
    assert TicketOk(o, t);
    hide TicketOk, SeatOk;
  }

  lemma EndQueue(s: State, id: Id, reason: EndReason, now: int)
    requires id in s.tickets && Queue(s) && Fifo(s) && Ordered(s)
    ensures var s' := End(s, id, reason, now); Queue(s') && Fifo(s') && Ordered(s')
  {
    var s' := End(s, id, reason, now);
    assert Waiting(s'.tickets) <= Waiting(s.tickets) && Holding(s'.tickets) <= Holding(s.tickets);
    assert s'.order == s.order && s'.tickets.Keys == s.tickets.Keys;
    hide Queue, Fifo;
    ShrinkLive(s, s');
  }

  lemma EndInvExcept(o: Options, s: State, id: Id, reason: EndReason, now: int)
    requires id in s.tickets && s.tickets[id].Live()
    requires InvExcept(o, s, s.tickets[id].seat)
    requires s.tickets[id].seat.Some? ==> Seated(s, id)
    requires Seated(s, id) ==> SeatOk(Freed(s.seats[s.tickets[id].seat.value], s.tickets[id], reason, now))
    ensures Inv(o, End(s, id, reason, now))
  {
    EndParts(o, s, id, reason, now);
    hide SeatOk, TicketsOk, SeatsOk, Linked, Indexed, Ordered, Queue, Fifo, End, Freed, Configured;
    EndLinked(s, id, reason, now);
    EndIndexed(s, id, reason, now);
    EndQueue(s, id, reason, now);
  }

  lemma EndInv(o: Options, s: State, id: Id, reason: EndReason, now: int)
    requires Inv(o, s) && id in s.tickets
    ensures Inv(o, End(s, id, reason, now))
  {
    if s.tickets[id].Live() {
      EndInvExcept(o, s, id, reason, now);
    }
  }

  // ---------------------------------------------------------------- the pump

  /** After the queue is cleaned it is exactly the waiting tickets in issue order. */
  ghost predicate CleanQueued(s: State) {
    s.queue == Keep(s.order, Waiting(s.tickets))
  }

  lemma CleanQueueInv(o: Options, s: State)
    requires Inv(o, s)
    ensures Inv(o, CleanQueue(s)) && CleanQueued(CleanQueue(s))
  {
    KeepKeep(s.queue, Waiting(s.tickets), Waiting(s.tickets));
  }

  lemma TakeHead(o: Options, s: State)
    requires Inv(o, s) && CleanQueued(s) && s.queue != []
    ensures s.queue[0] in s.tickets && s.tickets[s.queue[0]].phase == Queued
    ensures s.queue[0] !in s.queue[1..]
    ensures forall id :: id in s.queue ==> id in Waiting(s.tickets)
  {
    KeepElems(s.order, Waiting(s.tickets));
    KeepNoDup(s.order, Waiting(s.tickets));
  }

  /** Moving the head of the queue out of the waiting set leaves the rest of the queue. */
  lemma RestOfQueue(order: seq<Id>, waiting: set<Id>, head: Id, rest: seq<Id>)
    requires NoDup(order) && Keep(order, waiting) == [head] + rest
    ensures head !in rest
    ensures Keep(order, waiting - {head}) == rest
    ensures Keep(rest, waiting - {head}) == rest
  {
    var q := [head] + rest;
    KeepNoDup(order, waiting);
    assert head !in rest by {
      assert forall i :: 0 <= i < |rest| ==> rest[i] == q[i + 1];
      assert q[0] == head;
    }
    KeepKeep(order, waiting, waiting - {head});
    KeepElems(order, waiting);
    assert forall x :: x in rest ==> x in q;
    KeepAll(rest, waiting - {head});
    assert q[1..] == rest;
  }

  /** Seating the first waiting ticket extends the block of seat holders by exactly that ticket. */
  lemma HoldersExtended(order: seq<Id>, holding: set<Id>, waiting: set<Id>, head: Id, rest: seq<Id>)
    requires NoDup(order) && holding !! waiting
    requires Keep(order, waiting) == [head] + rest
    requires Keep(order, holding + waiting) == Keep(order, holding) + Keep(order, waiting)
    ensures Keep(order, holding + {head}) == Keep(order, holding) + [head]
  {
    RestOfQueue(order, waiting, head, rest);
    KeepElems(order, waiting);
    KeepElems(order, holding);
    var h', hs, q := holding + {head}, Keep(order, holding), [head] + rest;
    assert head in q;
    KeepKeep(order, holding + waiting, h');
    KeepConcat(hs, q, h');
    KeepConcat([head], rest, h');
    KeepAll(hs, h');
    KeepAll([head], h');
    assert forall x :: x in rest ==> x in q;
    KeepNone(rest, h');
  }

  lemma AssignFifo(order: seq<Id>, holding: set<Id>, waiting: set<Id>, head: Id, rest: seq<Id>)
    requires NoDup(order) && holding !! waiting
    requires Keep(order, waiting) == [head] + rest
    requires Keep(order, holding + waiting) == Keep(order, holding) + Keep(order, waiting)
    ensures Keep(order, (holding + {head}) + (waiting - {head}))
         == Keep(order, holding + {head}) + Keep(order, waiting - {head})
  {
    RestOfQueue(order, waiting, head, rest);
    HoldersExtended(order, holding, waiting, head, rest);
    KeepElems(order, waiting);
    assert head in [head] + rest;
    assert (holding + {head}) + (waiting - {head}) == holding + waiting;
    var hs := Keep(order, holding);
    assert hs + ([head] + rest) == (hs + [head]) + rest;
  }

  lemma AssignParts(o: Options, s: State, w: Id, id: Id, rest: seq<Id>, now: int)
    requires Configured(o, s) && SeatsOk(s.seats) && TicketsOk(o, s.tickets)
    requires id in s.tickets && s.tickets[id].phase == Queued
    requires w in s.seats && s.seats[w].Assignable()
    ensures var s' := Assign(o, s.(queue := rest), w, id, now);
            Configured(o, s') && SeatsOk(s'.seats) && TicketsOk(o, s'.tickets)
  {
    var s' := Assign(o, s.(queue := rest), w, id, now);
    assert TicketOk(o, s.tickets[id]) && SeatOk(s.seats[w]);
    assert TicketOk(o, s'.tickets[id]) && SeatOk(s'.seats[w]);
    hide TicketOk, SeatOk;
  }

  lemma AssignIndexed(o: Options, s: State, w: Id, id: Id, rest: seq<Id>, now: int)
    requires Indexed(s) && Ordered(s) && id in s.tickets && s.tickets[id].phase == Queued && w in s.seats
    ensures var s' := Assign(o, s.(queue := rest), w, id, now); Indexed(s') && Ordered(s')
  {
    var s' := Assign(o, s.(queue := rest), w, id, now);
    assert forall x :: x in s.tickets ==>
             s'.tickets[x].visitor == s.tickets[x].visitor && (s'.tickets[x].Live() <==> s.tickets[x].Live());
  }

  lemma AssignQueue(o: Options, s: State, w: Id, id: Id, rest: seq<Id>, now: int)
    requires Ordered(s) && Fifo(s) && CleanQueued(s) && s.queue == [id] + rest
    requires id in s.tickets && s.tickets[id].phase == Queued && w in s.seats
    ensures var s' := Assign(o, s.(queue := rest), w, id, now);
            Queue(s') && Fifo(s') && CleanQueued(s')
            && Waiting(s'.tickets) == Waiting(s.tickets) - {id}
            && Holding(s'.tickets) == Holding(s.tickets) + {id}
  {
    var s' := Assign(o, s.(queue := rest), w, id, now);
    assert Waiting(s'.tickets) == Waiting(s.tickets) - {id};
    assert Holding(s'.tickets) == Holding(s.tickets) + {id};
    RestOfQueue(s.order, Waiting(s.tickets), id, rest);
    AssignFifo(s.order, Holding(s.tickets), Waiting(s.tickets), id, rest);
  }

  lemma AssignInv(o: Options, s: State, w: Id, id: Id, rest: seq<Id>, now: int)
    requires Inv(o, s) && CleanQueued(s) && s.queue == [id] + rest
    requires id in s.tickets && s.tickets[id].phase == Queued
    requires w in s.seats && s.seats[w].Assignable()
    ensures var s' := Assign(o, s.(queue := rest), w, id, now);
            Inv(o, s') && CleanQueued(s')
            && Waiting(s'.tickets) == Waiting(s.tickets) - {id}
            && Holding(s'.tickets) == Holding(s.tickets) + {id}
  {
    hide TicketsOk, SeatsOk, Linked, Indexed, Ordered, Queue, Fifo, CleanQueued, Configured, Assign;
    AssignParts(o, s, w, id, rest, now);
    AssignLinked(o, s, w, id, rest, now);
    AssignIndexed(o, s, w, id, rest, now);
    AssignQueue(o, s, w, id, rest, now);
  }

  lemma AssignLinked(o: Options, s: State, w: Id, id: Id, rest: seq<Id>, now: int)
    requires Linked(s) && id in s.tickets && !s.tickets[id].Holder()
    requires w in s.seats && s.seats[w].ticket.None?
    ensures Linked(Assign(o, s.(queue := rest), w, id, now))
  {
    var s' := Assign(o, s.(queue := rest), w, id, now);
    forall x | x in s'.tickets && s'.tickets[x].Holder()
      ensures s'.tickets[x].seat.Some? && s'.tickets[x].seat.value in s'.seats
      ensures s'.seats[s'.tickets[x].seat.value].ticket == Some(x)
    {
      if x != id {
        assert s.tickets[x].Holder();
      }
    }
  }

  lemma RefuseInv(o: Options, s: State, id: Id, rest: seq<Id>, now: int)
    requires Inv(o, s) && CleanQueued(s) && s.queue == [id] + rest
    requires id in s.tickets && s.tickets[id].phase == Queued
    ensures var s' := End(s.(queue := rest), id, DailyBudgetExhausted, now);
            Inv(o, s') && CleanQueued(s')
  {
    var s' := End(s.(queue := rest), id, DailyBudgetExhausted, now);
    var whole := End(s, id, DailyBudgetExhausted, now);
    assert s' == whole.(queue := rest);
    assert Waiting(s'.tickets) == Waiting(s.tickets) - {id};
    assert s'.order == s.order;
    RestOfQueue(s.order, Waiting(s.tickets), id, rest);
    assert CleanQueued(s') && Queue(s');
    ReplaceQueue(o, s, id, rest, whole, now);
  }

  lemma ReplaceQueue(o: Options, s: State, id: Id, rest: seq<Id>, whole: State, now: int)
    requires Inv(o, s) && id in s.tickets && whole == End(s, id, DailyBudgetExhausted, now)
    requires Queue(whole.(queue := rest))
    ensures Inv(o, whole.(queue := rest))
  {
    assert Inv(o, whole) by {
      hide Inv;
      EndInv(o, s, id, DailyBudgetExhausted, now);
    }
    hide LinkedMaps, IndexedMaps, OrderedMap, Waiting, Holding, TicketsOk, SeatsOk, End;
  }

  lemma {:induction false} PumpSeatsInv(o: Options, s: State, ws: seq<Id>, now: int)
    requires Inv(o, s) && CleanQueued(s)
    ensures Inv(o, PumpSeats(o, s, ws, now)) && CleanQueued(PumpSeats(o, s, ws, now))
    decreases |ws|
  {
    if ws == [] {
    } else if ws[0] !in s.seats || !s.seats[ws[0]].Assignable() {
      PumpSeatsInv(o, s, ws[1..], now);
    } else if s.queue != [] {
      TakeHead(o, s);
      var id, rest := s.queue[0], s.queue[1..];
      var s1 := s.(queue := rest);
      assert s.queue == [id] + rest;
      if s.reserved + o.Reservation() > o.dailyBudget {
        RefuseInv(o, s, id, rest, now);
        PumpSeatsInv(o, End(s1, id, DailyBudgetExhausted, now), ws[1..], now);
      } else {
        AssignInv(o, s, ws[0], id, rest, now);
        PumpSeatsInv(o, Assign(o, s1, ws[0], id, now), ws[1..], now);
      }
    }
  }

  lemma PumpInv(o: Options, s: State, now: int)
    requires Inv(o, s)
    ensures Inv(o, Pump(o, s, now)) && CleanQueued(Pump(o, s, now))
  {
    CleanQueueInv(o, s);
    PumpSeatsInv(o, CleanQueue(s), o.seats, now);
  }

  // ---------------------------------------------------------------- the sweep

  lemma SweepOneInv(o: Options, s: State, id: Id, now: int)
    requires Inv(o, s) && id in s.tickets
    ensures Inv(o, SweepOne(o, s, id, now))
  {
    var t := s.tickets[id];
    if ReservationLapsed(o, t, now) {
      EditInv(o, s, id, t.(pending := None, pendingAt := None));
    }
    var s1 := if ReservationLapsed(o, t, now) then Edit(s, id, t.(pending := None, pendingAt := None)) else s;
    if Verdict(o, t, now).Some? {
      EndInv(o, s1, id, Verdict(o, t, now).value, now);
    }
  }

  lemma {:induction false} SweepTicketsInv(o: Options, s: State, ids: seq<Id>, now: int)
    requires Inv(o, s)
    ensures Inv(o, SweepTickets(o, s, ids, now))
    decreases |ids|
  {
    if ids == [] {
    } else if ids[0] !in s.tickets {
      SweepTicketsInv(o, s, ids[1..], now);
    } else {
      SweepOneInv(o, s, ids[0], now);
      SweepTicketsInv(o, SweepOne(o, s, ids[0], now), ids[1..], now);
    }
  }

  lemma ResetBudgetInv(o: Options, s: State, now: int)
    requires Inv(o, s)
    ensures Inv(o, ResetBudget(s, now))
  {
  }

  lemma DiscardQueue(s: State, dead: set<Id>)
    requires Queue(s) && Fifo(s) && Ordered(s) && dead <= Finished(s.tickets)
    ensures var s' := Discard(s, dead); Queue(s') && Fifo(s') && Ordered(s')
  {
    var s' := Discard(s, dead);
    var kept := s.tickets.Keys - dead;
    KeepElems(s.order, kept);
    KeepNoDup(s.order, kept);
    var k, h := Waiting(s.tickets), Holding(s.tickets);
    assert Waiting(s'.tickets) == k && Holding(s'.tickets) == h;
    assert k <= kept && h <= kept;
    hide Waiting, Holding, Finished;
    KeepKeep(s.order, kept, k);
    KeepKeep(s.order, kept, h);
    KeepKeep(s.order, kept, h + k);
  }

  lemma DiscardInv(o: Options, s: State, dead: set<Id>)
    requires Inv(o, s) && dead <= Finished(s.tickets)
    ensures Inv(o, Discard(s, dead))
  {
    assert TicketsOk(o, s.tickets - dead) by { hide TicketOk, LinkedMaps, IndexedMaps, OrderedMap, SeatsOk; }
    assert LinkedMaps(s.seats, s.tickets - dead) by { hide TicketsOk, SeatsOk, OrderedMap, IndexedMaps; }
    assert IndexedMaps(s.visitors, s.tickets - dead) by { hide TicketsOk, SeatsOk, OrderedMap, LinkedMaps; }
    hide TicketsOk, SeatsOk, LinkedMaps, IndexedMaps, OrderedMap, Queue, Fifo, Finished;
    DiscardQueue(s, dead);
  }

  /** Only ended tickets are ever pruned. */
  lemma PrunedAreEnded(s: State, now: int)
    ensures Stale(s, now) + Elems(Excess(s, now)) <= Finished(s.tickets)
  {
    var candidates := Keep(s.order, Finished(s.tickets) - Stale(s, now));
    KeepElems(s.order, Finished(s.tickets) - Stale(s, now));
    SortElems(candidates, EndedEarlier(s.tickets));
    forall id | id in Excess(s, now) ensures id in Finished(s.tickets) {
      assert id in Sort(candidates, EndedEarlier(s.tickets));
    }
  }

  lemma PruneInv(o: Options, s: State, now: int)
    requires Inv(o, s)
    ensures Inv(o, Prune(s, now))
  {
    PrunedAreEnded(s, now);
    DiscardInv(o, s, Stale(s, now) + Elems(Excess(s, now)));
  }

  lemma SweepInv(o: Options, s: State, now: int)
    requires Inv(o, s)
    ensures Inv(o, Sweep(o, s, now)) && CleanQueued(Sweep(o, s, now))
  {
    var s1 := SweepTickets(o, s, s.order, now);
    SweepTicketsInv(o, s, s.order, now);
    ResetBudgetInv(o, s1, now);
    PruneInv(o, ResetBudget(s1, now), now);
    PumpInv(o, Prune(ResetBudget(s1, now), now), now);
  }

  // ---------------------------------------------------------------- admission

  /** Appending a waiting ticket to the issue order puts it behind every live ticket. */
  lemma EnlistFifo(order: seq<Id>, h: set<Id>, k: set<Id>, id: Id)
    requires id !in order && id !in h
    requires Keep(order, h + k) == Keep(order, h) + Keep(order, k)
    ensures Keep(order + [id], k + {id}) == Keep(order, k) + [id]
    ensures Keep(order + [id], h + (k + {id})) == Keep(order + [id], h) + Keep(order + [id], k + {id})
  {
    KeepConcat(order, [id], k + {id});
    KeepConcat(order, [id], h);
    KeepConcat(order, [id], h + (k + {id}));
    KeepSame(order, k + {id}, k);
    KeepSame(order, h + (k + {id}), h + k);
    KeepAll([id], k + {id});
    KeepAll([id], h + (k + {id}));
    KeepNone([id], h);
    var hs, ks := Keep(order, h), Keep(order, k);
    assert (hs + ks) + [id] == (hs + []) + (ks + [id]);
  }

  lemma EnlistIndexed(o: Options, s: State, visitor: Id, id: Id, now: int)
    requires Indexed(s) && Linked(s) && id !in s.tickets && visitor !in s.visitors
    ensures Indexed(Enlist(o, s, visitor, id, now)) && Linked(Enlist(o, s, visitor, id, now))
  {
    var s' := Enlist(o, s, visitor, id, now);
    assert forall x :: x in s.tickets ==> s'.tickets[x] == s.tickets[x];
  }

  lemma NotInOrder(s: State, id: Id)
    requires Ordered(s) && id !in s.tickets
    ensures id !in s.order
  {
  }

  lemma EnlistOrdered(o: Options, s: State, visitor: Id, id: Id, now: int)
    requires Ordered(s) && id !in s.tickets
    ensures Ordered(Enlist(o, s, visitor, id, now))
  {
    assert forall x :: x in s.order + [id] <==> x in s.order || x == id;
  }

  lemma EnlistQueue(o: Options, s: State, visitor: Id, id: Id, now: int)
    requires Ordered(s) && Fifo(s) && CleanQueued(s) && id !in s.tickets
    ensures Queue(Enlist(o, s, visitor, id, now)) && Fifo(Enlist(o, s, visitor, id, now))
  {
    var s' := Enlist(o, s, visitor, id, now);
    var k, h := Waiting(s.tickets), Holding(s.tickets);
    NotInOrder(s, id);
    assert Waiting(s'.tickets) == k + {id} && Holding(s'.tickets) == h;
    hide Ordered;
    EnlistFifo(s.order, h, k, id);
    KeepElems(s.order, k);
    KeepAll(s'.queue, k + {id});
    assert (h + k) + {id} == h + (k + {id});
  }

  lemma EnlistInv(o: Options, s: State, visitor: Id, id: Id, now: int)
    requires Inv(o, s) && CleanQueued(s) && id !in s.tickets && visitor !in s.visitors
    ensures Inv(o, Enlist(o, s, visitor, id, now))
  {
    assert TicketsOk(o, Enlist(o, s, visitor, id, now).tickets);
    hide TicketsOk, SeatsOk, Linked, Indexed, Ordered, Queue, Fifo, CleanQueued;
    EnlistQueue(o, s, visitor, id, now);
    EnlistOrdered(o, s, visitor, id, now);
    EnlistIndexed(o, s, visitor, id, now);
  }

  /** The stale-index branch of an admission never has anything to remove. */
  lemma NoIndexNoTicket(o: Options, s: State, visitor: Id)
    requires Inv(o, s) && !HasLiveTicket(s, visitor)
    ensures visitor !in s.visitors && s.visitors - {visitor} == s.visitors
  {
  }

  lemma AdmitInv(o: Options, s: State, visitor: Id, id: Id, now: int)
    requires Inv(o, s) && id !in s.tickets
    ensures Inv(o, Admit(o, s, visitor, id, now).0)
  {
    hide Inv, Sweep, Pump, Enlist, CleanQueued;
    var s1 := Sweep(o, s, now);
    SweepInv(o, s, now);
    SweepAddsNothing(o, s, now);
    if !HasLiveTicket(s1, visitor) {
      var s2 := s1.(visitors := s1.visitors - {visitor});
      NoIndexNoTicket(o, s1, visitor);
      assert s2 == s1;
      if |s2.queue| < o.maxQueue {
        EnlistInv(o, s2, visitor, id, now);
        PumpInv(o, Enlist(o, s2, visitor, id, now), now);
      }
    }
  }

  // ---------------------------------------------------------------- no operation but admission issues tickets

  lemma {:induction false} PumpSeatsAddsNothing(o: Options, s: State, ws: seq<Id>, now: int)
    ensures PumpSeats(o, s, ws, now).tickets.Keys == s.tickets.Keys
    ensures PumpSeats(o, s, ws, now).order == s.order
    decreases |ws|
  {
    if ws == [] {
    } else if ws[0] !in s.seats || !s.seats[ws[0]].Assignable() {
      PumpSeatsAddsNothing(o, s, ws[1..], now);
    } else if s.queue != [] {
      var id := s.queue[0];
      var s1 := s.(queue := s.queue[1..]);
      if id !in s.tickets || s.tickets[id].phase != Queued {
        PumpSeatsAddsNothing(o, s1, ws[1..], now);
      } else if s.reserved + o.Reservation() > o.dailyBudget {
        PumpSeatsAddsNothing(o, End(s1, id, DailyBudgetExhausted, now), ws[1..], now);
      } else {
        PumpSeatsAddsNothing(o, Assign(o, s1, ws[0], id, now), ws[1..], now);
      }
    }
  }

  lemma {:induction false} SweepTicketsAddsNothing(o: Options, s: State, ids: seq<Id>, now: int)
    ensures SweepTickets(o, s, ids, now).tickets.Keys == s.tickets.Keys
    ensures SweepTickets(o, s, ids, now).order == s.order
    decreases |ids|
  {
    if ids == [] {
    } else if ids[0] !in s.tickets {
      SweepTicketsAddsNothing(o, s, ids[1..], now);
    } else {
      SweepTicketsAddsNothing(o, SweepOne(o, s, ids[0], now), ids[1..], now);
    }
  }

  lemma SweepAddsNothing(o: Options, s: State, now: int)
    ensures Sweep(o, s, now).tickets.Keys <= s.tickets.Keys
  {
    SweepTicketsAddsNothing(o, s, s.order, now);
    var s1 := Prune(ResetBudget(SweepTickets(o, s, s.order, now), now), now);
    PumpSeatsAddsNothing(o, CleanQueue(s1), o.seats, now);
  }

  // ---------------------------------------------------------------- worker health and fences

  lemma ApplyHealthInv(o: Options, s: State, w: Id, k: Seat, g: Option<Gen>, now: int)
    requires Inv(o, s) && w in s.seats && SeatOk(k) && !k.fenced
    requires k.ticket == s.seats[w].ticket
    requires k.ticket.Some? ==> k.generation == s.seats[w].generation
    ensures Inv(o, ApplyHealth(s, w, k, g, now))
  {
    InvSeat(o, s, w);
    var s1 := s.(seats := s.seats[w := k]);
    var down := k.(ready := false, idleSince := None);
    assert SeatOk(down);
    if g.None? {
      var s2 := s.(seats := s.seats[w := down]);
      hide Inv, End, SeatOk;
      PutSeatInv(o, s, w, down);
      if k.ticket.Some? {
        assert ApplyHealth(s, w, k, g, now) == End(s2, k.ticket.value, WorkerUnavailable, now);
        EndInv(o, s2, k.ticket.value, WorkerUnavailable, now);
      }
    } else if k.ticket.None? {
      assert SeatOk(MarkIdle(k, g.value, now));
      hide Inv, SeatOk;
      PutSeatInv(o, s, w, MarkIdle(k, g.value, now));
    } else {
      SeatedHealthInv(o, s, w, k, g, now);
    }
  }

  lemma SeatedHealthInv(o: Options, s: State, w: Id, k: Seat, g: Option<Gen>, now: int)
    requires Inv(o, s) && w in s.seats && SeatOk(k) && g.Some? && k.ticket.Some?
    requires k.ticket == s.seats[w].ticket && k.generation == s.seats[w].generation
    ensures Inv(o, ApplyHealth(s, w, k, g, now))
  {
    InvSeat(o, s, w);
    var id := k.ticket.value;
    var t := s.tickets[id];
    var s1 := s.(seats := s.seats[w := k]);
    var down := k.(ready := false, idleSince := None);
    assert SeatOk(down) && SeatOk(k.(generation := g));
    if g == t.generation {
      hide Inv, SeatOk;
      PutSeatInv(o, s, w, k.(generation := g));
    } else if t.startedAt.None? {
      hide Inv, SeatOk;
      RebindInv(o, s, w, k, g, now);
    } else if t.disconnectedAt.Some? {
      RecycleInv(o, s, w, k, g.value, now);
    } else {
      hide Inv, SeatOk;
      PutSeatInv(o, s, w, down);
    }
  }

  /** A new process appeared under a disconnected ticket: the ticket ends and the seat is judged afresh. */
  lemma RecycleInv(o: Options, s: State, w: Id, k: Seat, g: Gen, now: int)
    requires Inv(o, s) && w in s.seats && SeatOk(k) && k.ticket.Some?
    requires k.ticket == s.seats[w].ticket && k.generation == s.seats[w].generation
    ensures var s1 := s.(seats := s.seats[w := k]);
            k.ticket.value in s.tickets &&
            var s2 := End(s1, k.ticket.value, WorkerUnavailable, now);
            w in s2.seats && Inv(o, s2.(seats := s2.seats[w := MarkIdle(s2.seats[w], g, now)]))
  {
    InvSeat(o, s, w);
    var s1 := s.(seats := s.seats[w := k]);
    var id := k.ticket.value;
    var s2 := End(s1, id, WorkerUnavailable, now);
    assert s2.seats[w] == Freed(k, s.tickets[id], WorkerUnavailable, now);
    assert SeatOk(MarkIdle(s2.seats[w], g, now)) && s2.seats[w].ticket.None?;
    hide Inv, SeatOk, End;
    PutSeatInv(o, s, w, k);
    EndInv(o, s1, id, WorkerUnavailable, now);
    PutSeatInv(o, s2, w, MarkIdle(s2.seats[w], g, now));
  }

  lemma RebindLinked(s: State, w: Id, k: Seat, g: Option<Gen>)
    requires Linked(s) && w in s.seats && k.ticket == s.seats[w].ticket && k.ticket.Some? && g.Some?
    ensures var id := k.ticket.value;
            id in s.tickets &&
            Linked(s.(seats := s.seats[w := k.(generation := g)],
                      tickets := s.tickets[id := s.tickets[id].(generation := g)]))
  {
    var id := k.ticket.value;
    var s' := s.(seats := s.seats[w := k.(generation := g)], tickets := s.tickets[id := s.tickets[id].(generation := g)]);
    assert forall x :: x in s.tickets && x != id ==> s'.tickets[x] == s.tickets[x];
    assert forall x :: x in s.seats && x != w ==> s'.seats[x] == s.seats[x];
  }

  /** An admitted ticket nobody has connected to follows its seat to a new process. */
  lemma RebindInv(o: Options, s: State, w: Id, k: Seat, g: Option<Gen>, now: int)
    requires Inv(o, s) && w in s.seats && SeatOk(k) && k.ticket == s.seats[w].ticket && k.ticket.Some? && g.Some?
    ensures var id := k.ticket.value;
            id in s.tickets &&
            Inv(o, s.(seats := s.seats[w := k.(generation := g)],
                      tickets := s.tickets[id := s.tickets[id].(generation := g)]))
  {
    var id := k.ticket.value;
    var t := s.tickets[id].(generation := g);
    SelectionsUnchanged(s.tickets, id, t);
    RebindLinked(s, w, k, g);
    hide Linked;
    var s' := s.(seats := s.seats[w := k.(generation := g)], tickets := s.tickets[id := t]);
    assert Indexed(s');
  }

  /** A quarantined seat is free and stays out of service, whichever way the quarantine turns. */
  lemma QuarantineOk(k: Seat, up: bool, g: Option<Gen>)
    requires SeatOk(k) && k.requiresUnavailable && !k.fenced
    ensures Quarantine(k, up, g).Some? ==> SeatOk(Quarantine(k, up, g).value) && Quarantine(k, up, g).value.ticket.None?
    ensures Quarantine(k, up, g).None? ==> up && g.Some?
    ensures SeatOk(PassedQuarantine(k)) && !PassedQuarantine(k).fenced
    ensures k.ticket.None? && PassedQuarantine(k).ticket.None?
  {
  }

  lemma ReportOpenSeatInv(o: Options, s: State, w: Id, up: bool, g: Option<Gen>, now: int)
    requires Inv(o, s) && w in s.seats && !s.seats[w].fenced
    ensures Inv(o, ReportSeat(s, w, up, g, now))
  {
    InvSeat(o, s, w);
    hide Inv, ApplyHealth, Quarantine, PassedQuarantine;
    var k := s.seats[w].(epoch := s.seats[w].epoch + 1);
    var seen := if up then g else None;
    assert SeatOk(k);
    if !k.requiresUnavailable {
      assert ReportSeat(s, w, up, g, now) == ApplyHealth(s, w, k, seen, now);
      ApplyHealthInv(o, s, w, k, seen, now);
    } else {
      QuarantineOk(k, up, g);
      hide SeatOk;
      match Quarantine(k, up, g)
      case Some(held) =>
        assert ReportSeat(s, w, up, g, now) == s.(seats := s.seats[w := held]);
        PutSeatInv(o, s, w, held);
      case None =>
        assert ReportSeat(s, w, up, g, now) == ApplyHealth(s, w, PassedQuarantine(k), seen, now);
        ApplyHealthInv(o, s, w, PassedQuarantine(k), seen, now);
    }
  }

  lemma ReportSeatInv(o: Options, s: State, w: Id, up: bool, g: Option<Gen>, now: int)
    requires Inv(o, s) && w in s.seats
    ensures Inv(o, ReportSeat(s, w, up, g, now))
  {
    InvSeat(o, s, w);
    hide Inv, ApplyHealth;
    var k := s.seats[w];
    if k.fenced {
      PutSeatInv(o, s, w, k.(generation := if g.Some? then g else k.generation, ready := false, idleSince := None));
    } else {
      ReportOpenSeatInv(o, s, w, up, g, now);
    }
  }

  lemma ReportInv(o: Options, s: State, w: Id, up: bool, g: Option<Gen>, epoch: Option<nat>, now: int)
    requires Inv(o, s)
    ensures Inv(o, Report(o, s, w, up, g, epoch, now).0)
  {
    hide Inv, ReportSeat, Pump;
    if w in s.seats {
      ReportSeatInv(o, s, w, up, g, now);
      PumpInv(o, ReportSeat(s, w, up, g, now), now);
    }
  }

  /** Operators fence seats without a ticket only; lifting a fence is unrestricted. */
  lemma FenceInv(o: Options, s: State, w: Id, on: bool, now: int)
    requires Inv(o, s)
    requires on && w in s.seats ==> s.seats[w].ticket.None?
    ensures Inv(o, Fence(o, s, w, on, now).0)
  {
    if w in s.seats {
      InvSeat(o, s, w);
      hide Inv, Pump;
      PutSeatInv(o, s, w, FenceSeat(s.seats[w], on));
      PumpInv(o, s.(seats := s.seats[w := FenceSeat(s.seats[w], on)]), now);
    }
  }

  lemma QuarantineParts(o: Options, s: State, w: Id, id: Id, held: Seat)
    requires Inv(o, s) && w in s.seats && s.seats[w].ticket == Some(id)
    requires held.ticket == Some(id) && held.generation == s.seats[w].generation
    ensures id in s.tickets && s.tickets[id].Live() && s.tickets[id].seat == Some(w)
    ensures InvExcept(o, s.(seats := s.seats[w := held]), Some(w))
  {
    hide TicketsOk, SeatOk, IndexedMaps, OrderedMap, Waiting, Holding;
    var seats := s.seats[w := held];
    assert LinkedMaps(seats, s.tickets);
    forall x | x in seats && x != w ensures SeatOk(seats[x]) {
      assert SeatOk(s.seats[x]);
    }
  }

  /** Ending a ticket whose seat has just been put under quarantine. */
  lemma QuarantineEndInv(o: Options, s: State, w: Id, id: Id, held: Seat, now: int)
    requires Inv(o, s) && w in s.seats && s.seats[w].ticket == Some(id)
    requires held.ticket == Some(id) && held.generation == s.seats[w].generation
    requires !held.ready && held.requiresUnavailable
    ensures id in s.tickets && Inv(o, End(s.(seats := s.seats[w := held]), id, WorkerUnavailable, now))
  {
    hide Inv, InvExcept, End, SeatsOk, TicketsOk;
    QuarantineParts(o, s, w, id, held);
    assert SeatOk(Freed(held, s.tickets[id], WorkerUnavailable, now));
    hide SeatOk, Freed;
    EndInvExcept(o, s.(seats := s.seats[w := held]), id, WorkerUnavailable, now);
  }

  lemma ConfirmInv(o: Options, s: State, id: Id, version: int, observed: Option<Gen>, now: int)
    requires Inv(o, s)
    ensures Inv(o, Confirm(s, id, version, observed, now).0)
  {
    if CurrentConnection(s, id, version) && Seated(s, id) {
      var t := s.tickets[id];
      var w := t.seat.value;
      InvSeat(o, s, w);
      var k := s.seats[w].(epoch := s.seats[w].epoch + 1);
      assert SeatOk(k);
      var held := k.(requiresUnavailable := true, quarantined := None, unavailableAfterQuarantine := false);
      assert observed.Some? ==> SeatOk(k.(generation := observed));
      assert held.ticket == Some(id) && !held.ready;
      hide Inv, End, SeatOk;
      if observed.None? {
        assert Confirm(s, id, version, observed, now).0 == End(s.(seats := s.seats[w := held]), id, WorkerUnavailable, now);
        QuarantineEndInv(o, s, w, id, held, now);
      } else if observed == t.generation {
        assert Confirm(s, id, version, observed, now).0 == s.(seats := s.seats[w := k.(generation := observed)]);
        PutSeatInv(o, s, w, k.(generation := observed));
      } else {
        var s1 := s.(tickets := s.tickets[id := t.(generation := observed)], seats := s.seats[w := k.(generation := observed)]);
        assert Confirm(s, id, version, observed, now).0 == End(s1, id, WorkerUnavailable, now);
        RebindInv(o, s, w, k, observed, now);
        EndInv(o, s1, id, WorkerUnavailable, now);
      }
    }
  }

  // ---------------------------------------------------------------- attachments and research

  lemma ReserveAttachmentInv(o: Options, s: State, id: Id, now: int)
    requires Inv(o, s)
    ensures Inv(o, ReserveAttachment(o, s, id, now).0)
  {
    hide Inv, Sweep, End, Edit;
    var s1 := Sweep(o, s, now);
    SweepInv(o, s, now);
    if id in s1.tickets {
      InvTicket(o, s1, id);
    }
    if id in s1.tickets && s1.tickets[id].seat.Some? && s1.tickets[id].Live() && s1.tickets[id].pending.None? {
      var t := s1.tickets[id];
      if t.attempts >= MAX_CONNECTION_ATTEMPTS {
        EndInv(o, s1, id, RateLimited, now);
      } else {
        var v := t.nextVersion + 1;
        EditInv(o, s1, id, t.(attempts := t.attempts + 1, nextVersion := v, pending := Some(v), pendingAt := Some(now)));
      }
    }
  }

  lemma AttachmentInv(o: Options, s: State, id: Id, version: int, previous: int, now: int)
    requires Inv(o, s)
    ensures Inv(o, ActivateAttachment(s, id, version, now).0)
    ensures Inv(o, MarkConnectionStarted(s, id, version).0)
    ensures Inv(o, Rollback(s, id, version, previous))
    ensures Inv(o, CancelAttachment(s, id, version))
    ensures Inv(o, Detach(s, id, version, now))
    ensures Inv(o, Touch(s, id, now))
  {
    hide Inv, Edit;
    if id in s.tickets {
      var t := s.tickets[id];
      InvTicket(o, s, id);
      if t.seat.Some? && t.Live() && t.pending == Some(version) {
        EditInv(o, s, id, Activated(t, version, now));
      }
      if t.pending == Some(version) {
        EditInv(o, s, id, t.(pending := None, pendingAt := None));
      }
      if t.phase == Active {
        EditInv(o, s, id, t.(exposed := true));
        if previous > 0 {
          EditInv(o, s, id, t.(version := previous));
        }
        EditInv(o, s, id, t.(disconnectedAt := Some(now)));
        PutTicketInv(o, s, id, t.(lastActivityAt := Some(now)));
      }
    }
  }

  lemma AuthorizeInv(o: Options, s: State, id: Id, now: int)
    requires Inv(o, s)
    ensures Inv(o, Authorize(o, s, id, now).0)
  {
    hide Inv, Sweep;
    var s1 := Sweep(o, s, now);
    SweepInv(o, s, now);
    if id in s1.tickets {
      InvTicket(o, s1, id);
    }
    if id in s1.tickets && s1.tickets[id].phase == Active && s1.tickets[id].runs < o.maxRuns {
      PutTicketInv(o, s1, id, s1.tickets[id].(runs := s1.tickets[id].runs + 1, lastActivityAt := Some(now)));
    }
  }

  // ---------------------------------------------------------------- restart

  lemma {:induction false} RebuildVisitorsIndexes(order: seq<Id>, tickets: map<Id, Ticket>)
    requires forall x, y | x in tickets && y in tickets && tickets[x].Live() && tickets[y].Live() ::
               tickets[x].visitor == tickets[y].visitor ==> x == y
    ensures forall v :: v in RebuildVisitors(order, tickets) ==>
              var id := RebuildVisitors(order, tickets)[v];
              id in tickets && tickets[id].Live() && tickets[id].visitor == v
    ensures forall id :: id in order && id in tickets && tickets[id].Live() ==>
              tickets[id].visitor in RebuildVisitors(order, tickets)
              && RebuildVisitors(order, tickets)[tickets[id].visitor] == id
  {
    if order != [] {
      RebuildVisitorsIndexes(order[..|order| - 1], tickets);
      assert order == order[..|order| - 1] + [order[|order| - 1]];
    }
  }

  lemma ReloadLinked(o: Options, s: State, now: int)
    requires Linked(s)
    ensures Linked(Reload(Export(s), now))
  {
    var s' := Reload(Export(s), now);
    hide RebuildVisitors;
    forall id | id in s'.tickets && s'.tickets[id].Holder()
      ensures s'.tickets[id].seat.Some? && s'.tickets[id].seat.value in s'.seats
      ensures s'.seats[s'.tickets[id].seat.value].ticket == Some(id)
    {
      assert s'.tickets[id] == RestoredTicket(s.tickets[id], now) && s.tickets[id].Holder();
      var w := s.tickets[id].seat.value;
      assert s'.seats[w] == RestoredSeat(SaveSeat(s.seats[w]), now);
    }
    forall w | w in s'.seats && s'.seats[w].ticket.Some?
      ensures var id := s'.seats[w].ticket.value;
              id in s'.tickets && s'.tickets[id].Holder() && s'.tickets[id].seat == Some(w)
              && s'.tickets[id].generation == s'.seats[w].generation
    {
      assert s'.seats[w] == RestoredSeat(SaveSeat(s.seats[w]), now);
      var id := s.seats[w].ticket.value;
      assert s'.tickets[id] == RestoredTicket(s.tickets[id], now);
    }
  }

  lemma ReloadIndexed(o: Options, s: State, now: int)
    requires Indexed(s) && Ordered(s)
    ensures Indexed(Reload(Export(s), now))
  {
    var s' := Reload(Export(s), now);
    assert forall id :: id in s.tickets ==> s'.tickets[id] == RestoredTicket(s.tickets[id], now);
    assert forall id :: id in s.tickets ==>
             s'.tickets[id].visitor == s.tickets[id].visitor && (s'.tickets[id].Live() <==> s.tickets[id].Live());
    RebuildVisitorsIndexes(s.order, s'.tickets);
  }

  lemma ReloadParts(o: Options, s: State, now: int)
    requires TicketsOk(o, s.tickets) && SeatsOk(s.seats)
    ensures TicketsOk(o, Reload(Export(s), now).tickets) && SeatsOk(Reload(Export(s), now).seats)
  {
    var s' := Reload(Export(s), now);
    hide RebuildVisitors;
    forall id | id in s'.tickets ensures TicketOk(o, s'.tickets[id]) {
      assert s'.tickets[id] == RestoredTicket(s.tickets[id], now) && TicketOk(o, s.tickets[id]);
    }
    forall w | w in s'.seats ensures SeatOk(s'.seats[w]) {
      assert s'.seats[w] == RestoredSeat(SaveSeat(s.seats[w]), now) && SeatOk(s.seats[w]);
    }
  }

  lemma ReloadQueue(s: State, now: int)
    requires Queue(s) && Fifo(s) && Ordered(s)
    ensures var s' := Reload(Export(s), now); Queue(s') && Fifo(s') && Ordered(s')
  {
    var s' := Reload(Export(s), now);
    hide RebuildVisitors;
    assert s'.tickets.Keys == s.tickets.Keys;
    forall id | id in s.tickets ensures s'.tickets[id].phase == s.tickets[id].phase {
      assert s'.tickets[id] == RestoredTicket(s.tickets[id], now);
    }
    assert Waiting(s'.tickets) == Waiting(s.tickets) && Holding(s'.tickets) == Holding(s.tickets);
    KeepKeep(s.queue, Waiting(s.tickets), Waiting(s.tickets));
  }

  lemma ReloadInv(o: Options, s: State, now: int)
    requires Inv(o, s)
    ensures Inv(o, Reload(Export(s), now))
  {
    hide TicketsOk, SeatsOk, Linked, Indexed, Ordered, Queue, Fifo, RebuildVisitors;
    ReloadLinked(o, s, now);
    ReloadIndexed(o, s, now);
    ReloadParts(o, s, now);
    ReloadQueue(s, now);
  }

  /** A restart from what the gateway itself persisted succeeds and keeps the invariant. */
  lemma RestoreInv(o: Options, s: State, now: int)
    requires Inv(o, s)
    ensures Restore(o, Export(s), now).Some? && Inv(o, Restore(o, Export(s), now).value)
  {
    assert Export(s).seats.Keys == s.seats.Keys;
    hide Inv, Sweep, Reload;
    ReloadInv(o, s, now);
    SweepInv(o, Reload(Export(s), now), now);
  }
}
