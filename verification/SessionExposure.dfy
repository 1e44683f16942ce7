/**
  Tenant isolation over whole runs of the gateway. The world around the coordinator is explicit: each
  seat's process is replaced now and then by a younger one, health probes and worker handshakes are in
  flight while anything else happens, and the gateway itself restarts.

  A process that has been recorded as reached by a ticket is an exposure. The invariant shows that no
  exposed process is ever assigned, or rebound, to another ticket, including the process behind a
  handshake that named no generation, which only the quarantine keeps out.

  Generations are numbered in the order in which a seat's processes start: they never recur.
 */
module SessionExposure {
  import opened Common
  import opened SessionModel
  import opened SessionInvariant

  /** A health response on its way back, with the probe epoch read before it was sent; None when unhealthy. */
  datatype Probe = Probe(seat: Id, epoch: nat, answer: Option<Gen>)

  /** A worker connection that is being set up, and the process it really reached. */
  datatype Dial = Dial(id: Id, version: int, seat: Id, reached: Gen)

  datatype Bridge = Bridge(id: Id, version: int, seat: Id)

  datatype Exposure = Exposure(seat: Id, generation: Gen, ticket: Id)

  datatype World = World(
    current: map<Id, Gen>,
    asked: set<(Id, nat)>,
    answers: set<Probe>,
    bridges: set<Bridge>,
    dials: set<Dial>,
    exposures: set<Exposure>,
    issued: set<Id>)

  // ---------------------------------------------------------------- the invariant

  /** The seat itself keeps process `e.generation` away from other tickets. */
  ghost predicate Blocks(k: Seat, e: Exposure) {
    || k.requiresUnavailable
    || (k.ticket.None? && k.replacementOf == Some(e.generation))
    || (k.ticket == Some(e.ticket) && k.generation == Some(e.generation))
  }

  /** `bare`: the seated ticket has not been connected yet. `c`: the seat's current process. */
  ghost predicate SafeAt(k: Seat, bare: bool, c: Gen, answers: set<Probe>, e: Exposure) {
    && e.generation <= c && (e.generation == c ==> Blocks(k, e))
    && (forall p :: p in answers && p.seat == e.seat && p.epoch == k.epoch && p.answer.Some? ==>
          e.generation <= p.answer.value && (e.generation == p.answer.value ==> Blocks(k, e)))
    && (k.ready && k.generation.Some? ==> e.generation < k.generation.value)
    && (k.ticket.Some? && k.generation.Some? ==>
          || e.generation < k.generation.value
          || (e.generation == k.generation.value && e.ticket == k.ticket.value && !bare))
    && (k.requiresUnavailable && k.quarantined.Some? ==> e.generation <= k.quarantined.value)
  }

  ghost predicate Bare(tickets: map<Id, Ticket>, k: Seat) {
    k.ticket.Some? && k.ticket.value in tickets && !tickets[k.ticket.value].exposed
  }

  ghost predicate SeatBounded(w: Id, k: Seat, c: Gen, answers: set<Probe>) {
    && (k.generation.Some? ==> k.generation.value <= c)
    && (k.quarantined.Some? ==> k.quarantined.value <= c)
    && (forall p :: p in answers && p.seat == w ==> p.epoch <= k.epoch && (p.answer.Some? ==> p.answer.value <= c))
    && (k.requiresUnavailable && k.quarantined.Some? ==>
          forall p :: p in answers && p.seat == w && p.epoch == k.epoch && p.answer.Some? ==>
            k.quarantined.value <= p.answer.value)
  }

  ghost predicate Safe(seats: map<Id, Seat>, tickets: map<Id, Ticket>, x: World) {
    forall e :: e in x.exposures ==>
      e.seat in seats && e.seat in x.current
      && SafeAt(seats[e.seat], Bare(tickets, seats[e.seat]), x.current[e.seat], x.answers, e)
  }

  ghost predicate Bounded(seats: map<Id, Seat>, x: World) {
    && x.current.Keys == seats.Keys
    && (forall w :: w in seats ==> SeatBounded(w, seats[w], x.current[w], x.answers))
    && (forall a :: a in x.asked ==> a.0 in seats && a.1 <= seats[a.0].epoch)
    && (forall p :: p in x.answers ==> p.seat in seats)
  }

  /** A ticket someone connected to keeps its seat, and its recorded process is no younger than the one reached. */
  ghost predicate DialOk(tickets: map<Id, Ticket>, current: map<Id, Gen>, d: Dial) {
    && d.seat in current && d.reached <= current[d.seat]
    && (d.id in tickets ==>
          || tickets[d.id].phase == Ended
          || (tickets[d.id].phase == Active && tickets[d.id].seat == Some(d.seat)
              && tickets[d.id].generation.Some? && tickets[d.id].generation.value <= d.reached))
  }

  ghost predicate BridgeOk(tickets: map<Id, Ticket>, current: map<Id, Gen>, b: Bridge) {
    && b.seat in current
    && (b.id in tickets ==>
          tickets[b.id].phase == Ended || (tickets[b.id].phase == Active && tickets[b.id].seat == Some(b.seat)))
  }

  ghost predicate Connections(tickets: map<Id, Ticket>, x: World) {
    && (forall d :: d in x.dials ==> d.id in x.issued && DialOk(tickets, x.current, d))
    && (forall b :: b in x.bridges ==> b.id in x.issued && BridgeOk(tickets, x.current, b))
    && (forall id :: id in tickets && tickets[id].phase == Active ==> tickets[id].exposed)
    && tickets.Keys <= x.issued
    && (forall e :: e in x.exposures ==> e.ticket in x.issued)
  }

  ghost predicate Contained(s: State, x: World) {
    Safe(s.seats, s.tickets, x) && Bounded(s.seats, x) && Connections(s.tickets, x)
  }

  // ---------------------------------------------------------------- one seat changes

  /** Seat `w` and the ticket seated there change; every other seat and its ticket stay as they are. */
  lemma OneSeat(o: Options, s: State, s': State, x: World, w: Id)
    requires Inv(o, s) && Contained(s, x) && w in s.seats && w in s'.seats
    requires s'.seats == s.seats[w := s'.seats[w]]
    requires forall y :: y in s.seats && y != w && s.seats[y].ticket.Some? ==>
               s.seats[y].ticket.value in s.tickets && s.seats[y].ticket.value in s'.tickets
               && s'.tickets[s.seats[y].ticket.value].exposed == s.tickets[s.seats[y].ticket.value].exposed
    requires Connections(s'.tickets, x)
    requires SeatBounded(w, s'.seats[w], x.current[w], x.answers) && s.seats[w].epoch <= s'.seats[w].epoch
    requires forall e :: e in x.exposures && e.seat == w ==>
               SafeAt(s'.seats[w], Bare(s'.tickets, s'.seats[w]), x.current[w], x.answers, e)
    ensures Contained(s', x)
  {
    hide Inv, SafeAt, SeatBounded, Connections;
    forall e | e in x.exposures
      ensures e.seat in s'.seats && e.seat in x.current
      ensures SafeAt(s'.seats[e.seat], Bare(s'.tickets, s'.seats[e.seat]), x.current[e.seat], x.answers, e)
    {
      assert SafeAt(s.seats[e.seat], Bare(s.tickets, s.seats[e.seat]), x.current[e.seat], x.answers, e);
      if e.seat != w {
        assert s'.seats[e.seat] == s.seats[e.seat];
      }
    }
    assert forall y :: y in s'.seats && y != w ==> s'.seats[y] == s.seats[y];
  }

  /** Probe answers in flight are outdated as soon as the seat's epoch advances. */
  lemma BumpBounded(w: Id, k: Seat, k': Seat, c: Gen, answers: set<Probe>)
    requires SeatBounded(w, k, c, answers) && k.epoch < k'.epoch
    requires k'.generation == k.generation || (k'.generation.Some? && k'.generation.value <= c)
    requires k'.quarantined == k.quarantined || (k'.quarantined.Some? ==> k'.quarantined.value <= c)
    ensures SeatBounded(w, k', c, answers)
    ensures forall p :: p in answers && p.seat == w ==> p.epoch != k'.epoch
  {
  }

  // ---------------------------------------------------------------- tickets change, seats do not

  /** Tickets may end, and tickets without a connection may come and go, without disturbing a connection. */
  lemma TicketsCalm(tickets: map<Id, Ticket>, tickets': map<Id, Ticket>, x: World)
    requires Connections(tickets, x) && tickets'.Keys <= x.issued
    requires forall id :: id in tickets' ==>
               || tickets'[id].phase == Ended
               || (id in tickets && tickets'[id].phase == tickets[id].phase && tickets'[id].seat == tickets[id].seat
                   && tickets'[id].exposed == tickets[id].exposed
                   && (tickets[id].phase == Active ==> tickets'[id].generation == tickets[id].generation))
               || (id in tickets && tickets[id].phase == Queued && tickets'[id].phase == Admitted)
    ensures Connections(tickets', x)
  {
    forall d | d in x.dials ensures DialOk(tickets', x.current, d) {
      assert DialOk(tickets, x.current, d);
    }
    forall b | b in x.bridges ensures BridgeOk(tickets', x.current, b) {
      assert BridgeOk(tickets, x.current, b);
    }
  }

  // ---------------------------------------------------------------- edits, ends and assignments

  /** A ticket edit within its phase that leaves the exposure flag alone. */
  ghost predicate PlainEdit(t: Ticket, t': Ticket) {
    t'.phase == t.phase && t'.seat == t.seat && t'.generation == t.generation && t'.exposed == t.exposed
  }

  lemma EditConnections(s: State, x: World, id: Id, t: Ticket)
    requires Connections(s.tickets, x) && id in s.tickets && PlainEdit(s.tickets[id], t)
    ensures Connections(s.tickets[id := t], x)
  {
    hide Connections;
    KnownIssued(s, x);
    TicketsCalm(s.tickets, s.tickets[id := t], x);
  }

  /** Advancing the probe epoch alone is always safe. */
  lemma BumpedSafe(k: Seat, bare: bool, c: Gen, answers: set<Probe>, e: Exposure)
    requires SafeAt(k, bare, c, answers, e) && SeatBounded(e.seat, k, c, answers)
    ensures SafeAt(k.(epoch := k.epoch + 1), bare, c, answers, e)
  {
    BumpBounded(e.seat, k, k.(epoch := k.epoch + 1), c, answers);
  }

  lemma EditContained(o: Options, s: State, x: World, id: Id, t: Ticket)
    requires Inv(o, s) && Contained(s, x) && id in s.tickets && PlainEdit(s.tickets[id], t)
    ensures Contained(Edit(s, id, t), x)
  {
    hide Inv, SafeAt, SeatBounded, SeatOk, Connections;
    var s' := Edit(s, id, t);
    assert s'.tickets == s.tickets[id := t];
    EditConnections(s, x, id, t);
    SeatedTickets(o, s);
    if Seated(s.(tickets := s.tickets[id := t]), id) {
      var w := t.seat.value;
      var k' := s.seats[w].(epoch := s.seats[w].epoch + 1);
      assert s'.seats == s.seats[w := k'] && Bare(s'.tickets, k') == Bare(s.tickets, s.seats[w]);
      BumpBounded(w, s.seats[w], k', x.current[w], x.answers);
      forall e | e in x.exposures && e.seat == w
        ensures SafeAt(k', Bare(s'.tickets, k'), x.current[w], x.answers, e)
      {
        assert SafeAt(s.seats[w], Bare(s.tickets, s.seats[w]), x.current[w], x.answers, e);
        BumpedSafe(s.seats[w], Bare(s.tickets, s.seats[w]), x.current[w], x.answers, e);
      }
      hide Edit;
      OneSeat(o, s, s', x, w);
    } else {
      hide Edit;
      SameSeats(o, s, s', x);
    }
  }

  lemma SeatedTickets(o: Options, s: State)
    requires Inv(o, s)
    ensures forall y :: y in s.seats && s.seats[y].ticket.Some? ==>
              s.seats[y].ticket.value in s.tickets && s.tickets[s.seats[y].ticket.value].Holder()
              && s.tickets[s.seats[y].ticket.value].seat == Some(y)
              && s.tickets[s.seats[y].ticket.value].generation == s.seats[y].generation
              && SeatOk(s.seats[y])
  {
    forall y | y in s.seats ensures SeatOk(s.seats[y]) { InvSeat(o, s, y); }
    assert LinkedMaps(s.seats, s.tickets);
  }

  lemma SameSeats(o: Options, s: State, s': State, x: World)
    requires Inv(o, s) && Contained(s, x) && s'.seats == s.seats && Connections(s'.tickets, x)
    requires forall y :: y in s.seats && s.seats[y].ticket.Some? ==>
               s.seats[y].ticket.value in s.tickets && s.seats[y].ticket.value in s'.tickets
               && s'.tickets[s.seats[y].ticket.value].exposed == s.tickets[s.seats[y].ticket.value].exposed
    ensures Contained(s', x)
  {
    hide Inv, SafeAt, SeatBounded, Connections, Bounded;
    forall e | e in x.exposures
      ensures e.seat in s'.seats && e.seat in x.current
      ensures SafeAt(s'.seats[e.seat], Bare(s'.tickets, s'.seats[e.seat]), x.current[e.seat], x.answers, e)
    {
      assert SafeAt(s.seats[e.seat], Bare(s.tickets, s.seats[e.seat]), x.current[e.seat], x.answers, e);
    }
  }

  /** The seat a ticket leaves: whatever process it exposed is fenced, and none other was within reach. */
  lemma FreedSafe(k: Seat, t: Ticket, reason: EndReason, now: int, c: Gen, answers: set<Probe>, e: Exposure)
    requires SafeAt(k, !t.exposed, c, answers, e) && SeatBounded(e.seat, k, c, answers)
    requires k.ticket.Some? && k.generation.Some? && t.generation == k.generation
    requires k.requiresUnavailable ==> reason == WorkerUnavailable
    ensures SafeAt(Freed(k, t, reason, now), false, c, answers, e)
  {
    var k' := Freed(k, t, reason, now);
    BumpBounded(e.seat, k, k', c, answers);
  }

  lemma EndConnections(s: State, x: World, id: Id, reason: EndReason, now: int)
    requires Connections(s.tickets, x) && id in s.tickets
    ensures var s' := End(s, id, reason, now);
            Connections(s'.tickets, x)
            && forall y :: y in s.tickets ==> y in s'.tickets && s'.tickets[y].exposed == s.tickets[y].exposed
  {
    hide Freed, Connections, DialOk, BridgeOk;
    var s' := End(s, id, reason, now);
    assert s'.tickets.Keys == s.tickets.Keys;
    assert s.tickets.Keys <= x.issued by { KnownIssued(s, x); }
    TicketsCalm(s.tickets, s'.tickets, x);
  }

  lemma KnownIssued(s: State, x: World)
    requires Connections(s.tickets, x)
    ensures s.tickets.Keys <= x.issued
  {
  }

  lemma EndContained(o: Options, s: State, x: World, id: Id, reason: EndReason, now: int)
    requires Inv(o, s) && Contained(s, x) && id in s.tickets
    ensures Contained(End(s, id, reason, now), x)
  {
    hide Inv, SafeAt, SeatBounded, Freed, Connections, SeatOk;
    var s' := End(s, id, reason, now);
    SeatedTickets(o, s);
    EndConnections(s, x, id, reason, now);
    if s.tickets[id].Live() && Seated(s, id) {
      var w, t := s.tickets[id].seat.value, s.tickets[id];
      SeatedReady(o, s, w);
      FreedBounded(w, s.seats[w], t, reason, now, x.current[w], x.answers);
      assert s'.seats == s.seats[w := Freed(s.seats[w], t, reason, now)];
      hide End;
      forall e | e in x.exposures && e.seat == w
        ensures SafeAt(s'.seats[w], Bare(s'.tickets, s'.seats[w]), x.current[w], x.answers, e)
      {
        assert SafeAt(s.seats[w], Bare(s.tickets, s.seats[w]), x.current[w], x.answers, e);
        FreedSafe(s.seats[w], t, reason, now, x.current[w], x.answers, e);
      }
      OneSeat(o, s, s', x, w);
    } else {
      assert s'.seats == s.seats;
      hide End;
      SameSeats(o, s, s', x);
    }
  }

  lemma SeatedReady(o: Options, s: State, w: Id)
    requires Inv(o, s) && w in s.seats && s.seats[w].ticket.Some?
    ensures s.seats[w].generation.Some? && !s.seats[w].requiresUnavailable && !s.seats[w].fenced && !s.seats[w].ready
  {
    InvSeat(o, s, w);
  }

  lemma FreedBounded(w: Id, k: Seat, t: Ticket, reason: EndReason, now: int, c: Gen, answers: set<Probe>)
    requires SeatBounded(w, k, c, answers)
    ensures SeatBounded(w, Freed(k, t, reason, now), c, answers)
    ensures Freed(k, t, reason, now).epoch == k.epoch + 1 && Freed(k, t, reason, now).ticket.None?
  {
    BumpBounded(w, k, Freed(k, t, reason, now), c, answers);
  }

  lemma AssignedSafe(k: Seat, k': Seat, c: Gen, answers: set<Probe>, e: Exposure)
    requires SafeAt(k, false, c, answers, e) && SeatBounded(e.seat, k, c, answers)
    requires k.ready && k.ticket.None? && k.generation.Some? && !k.requiresUnavailable && k.replacementOf.None?
    requires k'.ticket.Some? && k'.generation == k.generation && !k'.ready && !k'.requiresUnavailable && k'.epoch == k.epoch + 1
    requires k'.quarantined == k.quarantined
    ensures SafeAt(k', true, c, answers, e) && SeatBounded(e.seat, k', c, answers)
  {
    BumpBounded(e.seat, k, k', c, answers);
  }

  lemma AssignConnections(o: Options, s: State, x: World, w: Id, id: Id, rest: seq<Id>, now: int)
    requires Connections(s.tickets, x) && w in s.seats && id in s.tickets && s.tickets[id].phase == Queued
    ensures var s' := Assign(o, s.(queue := rest), w, id, now);
            Connections(s'.tickets, x)
            && forall y :: y in s.tickets ==> y in s'.tickets && s'.tickets[y].exposed == s.tickets[y].exposed
  {
    var s' := Assign(o, s.(queue := rest), w, id, now);
    hide Connections;
    assert s'.tickets.Keys == s.tickets.Keys;
    KnownIssued(s, x);
    TicketsCalm(s.tickets, s'.tickets, x);
  }

  lemma AssignContained(o: Options, s: State, x: World, w: Id, id: Id, rest: seq<Id>, now: int)
    requires Inv(o, s) && Contained(s, x) && w in s.seats && s.seats[w].Assignable()
    requires id in s.tickets && s.tickets[id].phase == Queued
    ensures Contained(Assign(o, s.(queue := rest), w, id, now), x)
  {
    hide Inv, SafeAt, SeatBounded, Connections, TicketOk;
    var s' := Assign(o, s.(queue := rest), w, id, now);
    SeatedTickets(o, s);
    InvSeat(o, s, w);
    QueuedUnexposed(o, s, id);
    AssignConnections(o, s, x, w, id, rest, now);
    var k, k' := s.seats[w], s'.seats[w];
    BoundedAfterAssign(w, k, k', x.current[w], x.answers);
    assert s'.seats == s.seats[w := k'] && Bare(s'.tickets, k') && !Bare(s.tickets, k);
    forall e | e in x.exposures && e.seat == w
      ensures SafeAt(k', Bare(s'.tickets, k'), x.current[w], x.answers, e)
    {
      assert SafeAt(k, Bare(s.tickets, k), x.current[w], x.answers, e);
      AssignedSafe(k, k', x.current[w], x.answers, e);
    }
    hide Assign, SeatOk;
    OneSeat(o, s, s', x, w);
  }

  lemma QueuedUnexposed(o: Options, s: State, id: Id)
    requires Inv(o, s) && id in s.tickets && s.tickets[id].phase == Queued
    ensures !s.tickets[id].exposed
  {
    InvTicket(o, s, id);
  }

  lemma BoundedAfterAssign(w: Id, k: Seat, k': Seat, c: Gen, answers: set<Probe>)
    requires SeatBounded(w, k, c, answers) && k'.epoch == k.epoch + 1
    requires k'.generation == k.generation && k'.quarantined == k.quarantined
    ensures SeatBounded(w, k', c, answers)
  {
    BumpBounded(w, k, k', c, answers);
  }

  lemma {:induction false} PumpSeatsContained(o: Options, s: State, x: World, ws: seq<Id>, now: int)
    requires Inv(o, s) && CleanQueued(s) && Contained(s, x)
    ensures Contained(PumpSeats(o, s, ws, now), x)
    decreases |ws|
  {
    hide Inv, CleanQueued, Contained;
    if ws == [] {
    } else if ws[0] !in s.seats || !s.seats[ws[0]].Assignable() {
      PumpSeatsContained(o, s, x, ws[1..], now);
    } else if s.queue != [] {
      TakeHead(o, s);
      var id, rest := s.queue[0], s.queue[1..];
      assert s.queue == [id] + rest;
      var s1 := s.(queue := rest);
      if s.reserved + o.Reservation() > o.dailyBudget {
        var s2 := End(s1, id, DailyBudgetExhausted, now);
        RefuseInv(o, s, id, rest, now);
        EndContained(o, s, x, id, DailyBudgetExhausted, now);
        QueueIsNotTheWorld(End(s, id, DailyBudgetExhausted, now), s2, x);
        PumpSeatsContained(o, s2, x, ws[1..], now);
      } else {
        var s2 := Assign(o, s1, ws[0], id, now);
        AssignInv(o, s, ws[0], id, rest, now);
        AssignContained(o, s, x, ws[0], id, rest, now);
        PumpSeatsContained(o, s2, x, ws[1..], now);
      }
    }
  }

  lemma QueueIsNotTheWorld(s: State, s': State, x: World)
    requires Contained(s, x) && s'.seats == s.seats && s'.tickets == s.tickets
    ensures Contained(s', x)
  {
  }

  lemma PumpContained(o: Options, s: State, x: World, now: int)
    requires Inv(o, s) && Contained(s, x)
    ensures Contained(Pump(o, s, now), x)
  {
    hide Inv, Contained, CleanQueued;
    CleanQueueInv(o, s);
    QueueIsNotTheWorld(s, CleanQueue(s), x);
    PumpSeatsContained(o, CleanQueue(s), x, o.seats, now);
  }

  lemma SweepOneContained(o: Options, s: State, x: World, id: Id, now: int)
    requires Inv(o, s) && Contained(s, x) && id in s.tickets
    ensures Contained(SweepOne(o, s, id, now), x)
  {
    var t := s.tickets[id];
    var t1 := t.(pending := None, pendingAt := None);
    InvTicket(o, s, id);
    assert TicketOk(o, t1);
    hide Inv, Contained, Edit, End, Verdict, ReservationLapsed, TicketOk;
    var s1 := if ReservationLapsed(o, t, now) then Edit(s, id, t1) else s;
    EditContained(o, s, x, id, t1);
    EditInv(o, s, id, t1);
    EditKeepsId(s, id, t1);
    match Verdict(o, t, now)
    case Some(reason) => EndContained(o, s1, x, id, reason, now);
    case None =>
  }

  lemma EditKeepsId(s: State, id: Id, t: Ticket)
    requires id in s.tickets && t.seat == s.tickets[id].seat
    ensures id in Edit(s, id, t).tickets
  {
  }

  lemma {:induction false} SweepTicketsContained(o: Options, s: State, x: World, ids: seq<Id>, now: int)
    requires Inv(o, s) && Contained(s, x)
    ensures Contained(SweepTickets(o, s, ids, now), x)
    decreases |ids|
  {
    hide Inv, Contained, SweepOne;
    if ids == [] {
    } else if ids[0] !in s.tickets {
      SweepTicketsContained(o, s, x, ids[1..], now);
    } else {
      SweepOneContained(o, s, x, ids[0], now);
      SweepOneInv(o, s, ids[0], now);
      SweepTicketsContained(o, SweepOne(o, s, ids[0], now), x, ids[1..], now);
    }
  }

  lemma PruneContained(o: Options, s: State, x: World, now: int)
    requires Inv(o, s) && Contained(s, x)
    ensures Contained(Prune(s, now), x)
  {
    var s' := Prune(s, now);
    PrunedAreEnded(s, now);
    hide Stale, Excess, SafeAt, SeatBounded;
    SeatedTickets(o, s);
    hide Inv, SeatOk;
    TicketsCalm(s.tickets, s'.tickets, x);
    SameSeats(o, s, s', x);
  }

  lemma SweepContained(o: Options, s: State, x: World, now: int)
    requires Inv(o, s) && Contained(s, x)
    ensures Contained(Sweep(o, s, now), x)
  {
    hide Inv, Contained, CarriedOver, Pump, Prune;
    var s1 := SweepTickets(o, s, s.order, now);
    SweepTicketsContained(o, s, x, s.order, now);
    SweepTicketsInv(o, s, s.order, now);
    var s2 := ResetBudget(s1, now);
    ResetBudgetInv(o, s1, now);
    QueueIsNotTheWorld(s1, s2, x);
    PruneContained(o, s2, x, now);
    PruneInv(o, s2, now);
    PumpContained(o, Prune(s2, now), x, now);
  }

  lemma EnlistConnections(o: Options, s: State, x: World, visitor: Id, id: Id, now: int)
    requires Connections(s.tickets, x) && id !in x.issued
    ensures Connections(Enlist(o, s, visitor, id, now).tickets, x.(issued := x.issued + {id}))
  {
    var s' := Enlist(o, s, visitor, id, now);
    forall d | d in x.dials ensures DialOk(s'.tickets, x.current, d) { assert DialOk(s.tickets, x.current, d); }
    forall b | b in x.bridges ensures BridgeOk(s'.tickets, x.current, b) { assert BridgeOk(s.tickets, x.current, b); }
  }

  lemma EnlistContained(o: Options, s: State, x: World, visitor: Id, id: Id, now: int)
    requires Inv(o, s) && Contained(s, x) && id !in x.issued
    ensures Contained(Enlist(o, s, visitor, id, now), x.(issued := x.issued + {id}))
  {
    hide Inv, SafeAt, SeatBounded, SeatOk, Connections;
    var s' := Enlist(o, s, visitor, id, now);
    KnownIssued(s, x);
    SeatedTickets(o, s);
    EnlistConnections(o, s, x, visitor, id, now);
    IssueContained(s, x, id);
    hide Contained;
    SameSeats(o, s, s', x.(issued := x.issued + {id}));
  }

  lemma AdmitContained(o: Options, s: State, x: World, visitor: Id, id: Id, now: int)
    requires Inv(o, s) && Contained(s, x) && id !in x.issued && id !in s.tickets
    ensures Contained(Admit(o, s, visitor, id, now).0, x.(issued := x.issued + {id}))
  {
    hide Inv, Contained, Sweep, Pump, Enlist, CleanQueued;
    var s1 := Sweep(o, s, now);
    var x' := x.(issued := x.issued + {id});
    SweepInv(o, s, now);
    SweepContained(o, s, x, now);
    SweepAddsNothing(o, s, now);
    IssueContained(s1, x, id);
    if !HasLiveTicket(s1, visitor) {
      NoIndexNoTicket(o, s1, visitor);
      assert s1.(visitors := s1.visitors - {visitor}) == s1;
      if |s1.queue| < o.maxQueue {
        EnlistInv(o, s1, visitor, id, now);
        EnlistContained(o, s1, x, visitor, id, now);
        PumpContained(o, Enlist(o, s1, visitor, id, now), x', now);
      }
    }
  }

  lemma IssueContained(s: State, x: World, id: Id)
    requires Contained(s, x)
    ensures Contained(s, x.(issued := x.issued + {id}))
  {
    hide SafeAt, SeatBounded, DialOk, BridgeOk;
  }

  // ---------------------------------------------------------------- health reports

  /** What makes an accepted report credible: no exposed process is younger, and none is re-admitted by mistake. */
  ghost predicate Credible(w: Id, k: Seat, c: Gen, x: World, g: Gen) {
    && g <= c
    && (forall e :: e in x.exposures && e.seat == w ==> e.generation <= g && (e.generation == g ==> Blocks(k, e)))
    && (k.requiresUnavailable && k.quarantined.Some? ==> k.quarantined.value <= g)
  }

  /** A seat that keeps its ticket, process, fences and at most goes out of service stays safe. */
  lemma DimmedSafe(k: Seat, k': Seat, bare: bool, c: Gen, answers: set<Probe>, e: Exposure)
    requires SafeAt(k, bare, c, answers, e) && SeatBounded(e.seat, k, c, answers)
    requires k'.ticket == k.ticket && k'.generation == k.generation && k'.replacementOf == k.replacementOf
    requires k'.requiresUnavailable == k.requiresUnavailable && k'.quarantined == k.quarantined
    requires k'.ready ==> k.ready
    requires k'.epoch >= k.epoch
    ensures SafeAt(k', bare, c, answers, e) && SeatBounded(e.seat, k', c, answers)
  {
  }

  /** The seats and tickets of a report that only touches the seat record. */
  lemma SeatOnly(o: Options, s: State, x: World, w: Id, k: Seat)
    requires Inv(o, s) && Contained(s, x) && w in s.seats && k.ticket == s.seats[w].ticket
    requires SeatBounded(w, k, x.current[w], x.answers) && s.seats[w].epoch <= k.epoch
    requires forall e :: e in x.exposures && e.seat == w ==> SafeAt(k, Bare(s.tickets, s.seats[w]), x.current[w], x.answers, e)
    ensures Contained(s.(seats := s.seats[w := k]), x)
  {
    hide Inv, SafeAt, SeatBounded, SeatOk, Connections;
    var s' := s.(seats := s.seats[w := k]);
    SeatedTickets(o, s);
    assert Bare(s'.tickets, k) == Bare(s.tickets, s.seats[w]);
    OneSeat(o, s, s', x, w);
  }

  lemma DimContained(o: Options, s: State, x: World, w: Id, k: Seat)
    requires Inv(o, s) && Contained(s, x) && w in s.seats
    requires k.ticket == s.seats[w].ticket && k.generation == s.seats[w].generation && k.replacementOf == s.seats[w].replacementOf
    requires k.requiresUnavailable == s.seats[w].requiresUnavailable && k.quarantined == s.seats[w].quarantined
    requires (k.ready ==> s.seats[w].ready) && k.epoch >= s.seats[w].epoch
    ensures Contained(s.(seats := s.seats[w := k]), x)
  {
    hide Inv, SafeAt, SeatBounded;
    forall e | e in x.exposures && e.seat == w
      ensures SafeAt(k, Bare(s.tickets, s.seats[w]), x.current[w], x.answers, e)
    {
      assert SafeAt(s.seats[w], Bare(s.tickets, s.seats[w]), x.current[w], x.answers, e);
      DimmedSafe(s.seats[w], k, Bare(s.tickets, s.seats[w]), x.current[w], x.answers, e);
    }
    DimBounded(w, s.seats[w], k, x.current[w], x.answers);
    SeatOnly(o, s, x, w, k);
  }

  lemma DimBounded(w: Id, k: Seat, k': Seat, c: Gen, answers: set<Probe>)
    requires SeatBounded(w, k, c, answers) && k'.generation == k.generation && k'.epoch >= k.epoch
    requires k'.requiresUnavailable == k.requiresUnavailable && k'.quarantined == k.quarantined
    ensures SeatBounded(w, k', c, answers)
  {
  }

  ghost predicate NoCurrentAnswers(w: Id, k: Seat, answers: set<Probe>) {
    forall p :: p in answers && p.seat == w ==> p.epoch < k.epoch
  }

  lemma MarkIdleSafe(w: Id, k: Seat, g: Gen, now: int, c: Gen, x: World, e: Exposure)
    requires Credible(w, k, c, x, g) && k.ticket.None? && NoCurrentAnswers(w, k, x.answers)
    requires e in x.exposures && e.seat == w
    requires k.requiresUnavailable && k.quarantined.Some? ==> e.generation <= k.quarantined.value
    ensures SafeAt(MarkIdle(k, g, now), false, c, x.answers, e)
  {
  }

  lemma MarkIdleBounded(w: Id, k: Seat, g: Gen, now: int, c: Gen, answers: set<Probe>)
    requires SeatBounded(w, k, c, answers) && NoCurrentAnswers(w, k, answers) && g <= c
    ensures SeatBounded(w, MarkIdle(k, g, now), c, answers)
  {
  }

  lemma IdleContained(o: Options, s: State, x: World, w: Id, k: Seat, g: Gen, now: int)
    requires Inv(o, s) && Contained(s, x) && w in s.seats && s.seats[w].ticket.None? && k.ticket.None?
    requires Credible(w, k, x.current[w], x, g) && NoCurrentAnswers(w, k, x.answers)
    requires SeatBounded(w, k, x.current[w], x.answers) && s.seats[w].epoch <= k.epoch
    requires k.requiresUnavailable ==> k.quarantined == s.seats[w].quarantined && s.seats[w].requiresUnavailable
    ensures Contained(s.(seats := s.seats[w := MarkIdle(k, g, now)]), x)
  {
    hide Inv, SeatBounded;
    forall e | e in x.exposures && e.seat == w
      ensures SafeAt(MarkIdle(k, g, now), Bare(s.tickets, s.seats[w]), x.current[w], x.answers, e)
    {
      assert SafeAt(s.seats[w], Bare(s.tickets, s.seats[w]), x.current[w], x.answers, e);
      MarkIdleSafe(w, k, g, now, x.current[w], x, e);
    }
    hide SafeAt, Credible;
    MarkIdleBounded(w, k, g, now, x.current[w], x.answers);
    SeatOnly(o, s, x, w, MarkIdle(k, g, now));
  }

  /** The quarantine holds every exposed process back: they are all at most as young as the one quarantined. */
  lemma QuarantineSafe(w: Id, k: Seat, up: bool, g: Option<Gen>, c: Gen, x: World)
    requires k.requiresUnavailable && k.ticket.None? && NoCurrentAnswers(w, k, x.answers)
    requires SeatBounded(w, k, c, x.answers)
    requires forall e :: e in x.exposures && e.seat == w ==> SafeAt(k, false, c, x.answers, e)
    requires up && g.Some? ==> Credible(w, k, c, x, g.value)
    ensures Quarantine(k, up, g).Some? ==>
              var held := Quarantine(k, up, g).value;
              held.ticket.None? && held.epoch == k.epoch && SeatBounded(w, held, c, x.answers)
              && forall e :: e in x.exposures && e.seat == w ==> SafeAt(held, false, c, x.answers, e)
    ensures Quarantine(k, up, g).None? ==>
              var passed := PassedQuarantine(k);
              up && g.Some? && passed.ticket.None? && passed.epoch == k.epoch && !passed.requiresUnavailable
              && SeatBounded(w, passed, c, x.answers)
  {
  }

  /** A process different from the quarantined one, seen after it went away, is younger than every exposed one. */
  lemma PassedCredible(o: Options, s: State, w: Id, k: Seat, up: bool, g: Option<Gen>, x: World)
    requires Contained(s, x) && w in s.seats && k == s.seats[w].(epoch := s.seats[w].epoch + 1)
    requires k.requiresUnavailable && k.ticket.None? && Quarantine(k, up, g).None? && g.Some?
    requires Credible(w, k, x.current[w], x, g.value)
    ensures Credible(w, PassedQuarantine(k), x.current[w], x, g.value)
  {
    assert k.quarantined.Some? && g != k.quarantined;
    forall e | e in x.exposures && e.seat == w ensures e.generation < g.value {
      assert SafeAt(s.seats[w], Bare(s.tickets, s.seats[w]), x.current[w], x.answers, e);
    }
  }

  lemma FencedReportContained(o: Options, s: State, x: World, w: Id, g: Option<Gen>)
    requires Inv(o, s) && Contained(s, x) && w in s.seats && s.seats[w].fenced
    requires g.Some? ==> g.value <= x.current[w]
    ensures var k := s.seats[w];
            Contained(s.(seats := s.seats[w := k.(generation := if g.Some? then g else k.generation, ready := false, idleSince := None)]), x)
  {
    InvSeat(o, s, w);
    hide Inv;
    var k := s.seats[w];
    assert k.ticket.None?;
    var k' := k.(generation := if g.Some? then g else k.generation, ready := false, idleSince := None);
    forall e | e in x.exposures && e.seat == w
      ensures SafeAt(k', Bare(s.tickets, k), x.current[w], x.answers, e)
    {
      assert SafeAt(k, Bare(s.tickets, k), x.current[w], x.answers, e);
    }
    hide SafeAt;
    SeatOnly(o, s, x, w, k');
  }

  /** An admitted, unconnected ticket follows its seat to a process no exposed one can be. */
  lemma ReboundSafe(w: Id, k: Seat, k': Seat, g: Gen, c: Gen, x: World, e: Exposure)
    requires Credible(w, k, c, x, g) && NoCurrentAnswers(w, k', x.answers) && SeatBounded(w, k, c, x.answers)
    requires e in x.exposures && e.seat == w
    requires k.ticket.Some? && k.generation.Some? && k.generation != Some(g) && !k.requiresUnavailable && !k.ready
    requires k' == k.(generation := Some(g), epoch := k'.epoch)
    ensures SafeAt(k', true, c, x.answers, e) && SeatBounded(w, k', c, x.answers)
  {
  }

  lemma ReboundConnections(s: State, x: World, id: Id, g: Option<Gen>)
    requires Connections(s.tickets, x) && id in s.tickets && s.tickets[id].phase == Admitted
    ensures Connections(s.tickets[id := s.tickets[id].(generation := g)], x)
  {
    hide Connections;
    KnownIssued(s, x);
    TicketsCalm(s.tickets, s.tickets[id := s.tickets[id].(generation := g)], x);
  }

  lemma ReboundContained(o: Options, s: State, x: World, w: Id, k: Seat, g: Gen)
    requires Inv(o, s) && Contained(s, x) && w in s.seats && s.seats[w].ticket.Some?
    requires k == s.seats[w].(epoch := s.seats[w].epoch + 1)
    requires Credible(w, k, x.current[w], x, g) && k.generation != Some(g)
    requires var id := s.seats[w].ticket.value; id in s.tickets && s.tickets[id].phase == Admitted && !s.tickets[id].exposed
    ensures var id := s.seats[w].ticket.value;
            Contained(s.(seats := s.seats[w := k.(generation := Some(g))],
                         tickets := s.tickets[id := s.tickets[id].(generation := Some(g))]), x)
  {
    var id := s.seats[w].ticket.value;
    var k' := k.(generation := Some(g));
    var s' := s.(seats := s.seats[w := k'], tickets := s.tickets[id := s.tickets[id].(generation := Some(g))]);
    assert SeatBounded(w, s.seats[w], x.current[w], x.answers);
    EpochPast(w, s.seats[w], k', x.current[w], x.answers);
    SeatedReady(o, s, w);
    DimBounded(w, s.seats[w], k, x.current[w], x.answers);
    hide Inv, SafeAt, SeatBounded, SeatOk, Connections, Credible;
    SeatedTickets(o, s);
    ReboundConnections(s, x, id, Some(g));
    assert Bare(s'.tickets, k');
    forall e | e in x.exposures && e.seat == w
      ensures SafeAt(k', Bare(s'.tickets, k'), x.current[w], x.answers, e)
      ensures SeatBounded(w, k', x.current[w], x.answers)
    {
      ReboundSafe(w, k, k', g, x.current[w], x, e);
    }
    ReboundBounded(w, k, k', g, x);
    OneSeat(o, s, s', x, w);
  }

  lemma ReboundBounded(w: Id, k: Seat, k': Seat, g: Gen, x: World)
    requires w in x.current && Credible(w, k, x.current[w], x, g) && NoCurrentAnswers(w, k', x.answers)
    requires SeatBounded(w, k, x.current[w], x.answers) && k' == k.(generation := Some(g), epoch := k'.epoch)
    ensures SeatBounded(w, k', x.current[w], x.answers)
  {
  }

  lemma EpochPast(w: Id, k: Seat, k': Seat, c: Gen, answers: set<Probe>)
    requires SeatBounded(w, k, c, answers) && k.epoch < k'.epoch
    ensures NoCurrentAnswers(w, k', answers)
  {
  }

  /** The seat of a ticket that ended because its process was replaced under it accepts the replacement. */
  lemma FreedCredible(w: Id, k: Seat, t: Ticket, g: Gen, now: int, c: Gen, x: World)
    requires Credible(w, k, c, x, g) && k.ticket.Some? && k.generation != Some(g) && !k.requiresUnavailable
    ensures Credible(w, Freed(k, t, WorkerUnavailable, now), c, x, g)
    ensures !Freed(k, t, WorkerUnavailable, now).requiresUnavailable
  {
  }

  lemma RecycledContained(o: Options, s: State, x: World, w: Id, k: Seat, g: Gen, now: int)
    requires Inv(o, s) && Contained(s, x) && w in s.seats && s.seats[w].ticket.Some?
    requires k == s.seats[w].(epoch := s.seats[w].epoch + 1)
    requires Credible(w, k, x.current[w], x, g) && k.generation != Some(g)
    ensures var id := s.seats[w].ticket.value;
            id in s.tickets &&
            var s2 := End(s.(seats := s.seats[w := k]), id, WorkerUnavailable, now);
            w in s2.seats && Contained(s2.(seats := s2.seats[w := MarkIdle(s2.seats[w], g, now)]), x)
  {
    var id := s.seats[w].ticket.value;
    var s1 := s.(seats := s.seats[w := k]);
    SeatedReady(o, s, w);
    SeatedTickets(o, s);
    InvSeat(o, s, w);
    assert SeatOk(k);
    hide Inv, SeatOk;
    PutSeatInv(o, s, w, k);
    DimContained(o, s, x, w, k);
    EndInv(o, s1, id, WorkerUnavailable, now);
    EndContained(o, s1, x, id, WorkerUnavailable, now);
    var s2 := End(s1, id, WorkerUnavailable, now);
    var f := Freed(k, s.tickets[id], WorkerUnavailable, now);
    assert s2.seats[w] == f && f.epoch == k.epoch + 1 && f.ticket.None?;
    FreedCredible(w, k, s.tickets[id], g, now, x.current[w], x);
    assert SeatBounded(w, k, x.current[w], x.answers) && SeatBounded(w, f, x.current[w], x.answers);
    EpochPast(w, k, f, x.current[w], x.answers);
    hide End, Freed, Contained, Credible, SeatBounded, NoCurrentAnswers, MarkIdle;
    IdleContained(o, s2, x, w, f, g, now);
  }

  lemma ApplyHealthContained(o: Options, s: State, x: World, w: Id, g: Option<Gen>, now: int)
    requires Inv(o, s) && Contained(s, x) && w in s.seats && !s.seats[w].fenced && !s.seats[w].requiresUnavailable
    requires g.Some? ==> Credible(w, s.seats[w], x.current[w], x, g.value)
    ensures Contained(ApplyHealth(s, w, s.seats[w].(epoch := s.seats[w].epoch + 1), g, now), x)
  {
    var k := s.seats[w].(epoch := s.seats[w].epoch + 1);
    var down := k.(ready := false, idleSince := None);
    assert g.Some? ==> Credible(w, k, x.current[w], x, g.value);
    assert SeatBounded(w, s.seats[w], x.current[w], x.answers);
    EpochPast(w, s.seats[w], k, x.current[w], x.answers);
    DimBounded(w, s.seats[w], k, x.current[w], x.answers);
    InvSeat(o, s, w);
    if k.ticket.Some? {
      InvTicket(o, s, k.ticket.value);
    }
    hide Inv, Contained, Credible, SeatBounded, NoCurrentAnswers, TicketOk;
    if g.None? {
      DimContained(o, s, x, w, down);
      if k.ticket.Some? {
        assert SeatOk(down);
        PutSeatInv(o, s, w, down);
        EndContained(o, s.(seats := s.seats[w := down]), x, k.ticket.value, WorkerUnavailable, now);
      }
    } else if k.ticket.None? {
      hide MarkIdle;
      IdleContained(o, s, x, w, k, g.value, now);
    } else {
      SeatedHealthContained(o, s, x, w, g, now);
    }
  }

  lemma SeatedHealthContained(o: Options, s: State, x: World, w: Id, g: Option<Gen>, now: int)
    requires Inv(o, s) && Contained(s, x) && w in s.seats && s.seats[w].ticket.Some? && g.Some?
    requires Credible(w, s.seats[w].(epoch := s.seats[w].epoch + 1), x.current[w], x, g.value)
    ensures Contained(ApplyHealth(s, w, s.seats[w].(epoch := s.seats[w].epoch + 1), g, now), x)
  {
    hide Inv, Contained, Credible, MarkIdle, End, TicketOk;
    var k := s.seats[w].(epoch := s.seats[w].epoch + 1);
    InvSeat(o, s, w);
    var id := k.ticket.value;
    var t := s.tickets[id];
    UnstartedIsAdmitted(o, s, id);
    if g == t.generation {
      assert ApplyHealth(s, w, k, g, now) == s.(seats := s.seats[w := k]);
      DimContained(o, s, x, w, k);
    } else if t.startedAt.None? {
      ReboundContained(o, s, x, w, k, g.value);
    } else if t.disconnectedAt.Some? {
      RecycledContained(o, s, x, w, k, g.value, now);
    } else {
      DimContained(o, s, x, w, k.(ready := false, idleSince := None));
    }
  }

  lemma UnstartedIsAdmitted(o: Options, s: State, id: Id)
    requires Inv(o, s) && id in s.tickets && s.tickets[id].Holder()
    ensures s.tickets[id].startedAt.None? ==> s.tickets[id].phase == Admitted && !s.tickets[id].exposed
  {
    InvTicket(o, s, id);
  }

  lemma PassedContained(o: Options, s: State, x: World, w: Id, k: Seat, up: bool, g: Option<Gen>, now: int)
    requires Inv(o, s) && Contained(s, x) && w in s.seats && !s.seats[w].fenced && s.seats[w].requiresUnavailable
    requires k == s.seats[w].(epoch := s.seats[w].epoch + 1) && Quarantine(k, up, g).None? && up && g.Some?
    requires Credible(w, k, x.current[w], x, g.value)
    ensures Contained(s.(seats := s.seats[w := MarkIdle(PassedQuarantine(k), g.value, now)]), x)
  {
    InvSeat(o, s, w);
    assert s.seats[w].ticket.None?;
    assert SeatBounded(w, s.seats[w], x.current[w], x.answers);
    PassedCredible(o, s, w, k, up, g, x);
    EpochPast(w, s.seats[w], PassedQuarantine(k), x.current[w], x.answers);
    assert SeatBounded(w, PassedQuarantine(k), x.current[w], x.answers);
    hide Inv, Contained, Credible, SeatBounded, NoCurrentAnswers, MarkIdle, SeatOk, Quarantine;
    IdleContained(o, s, x, w, PassedQuarantine(k), g.value, now);
  }

  lemma HeldContained(o: Options, s: State, x: World, w: Id, k: Seat, up: bool, g: Option<Gen>)
    requires Inv(o, s) && Contained(s, x) && w in s.seats && !s.seats[w].fenced && s.seats[w].requiresUnavailable
    requires k == s.seats[w].(epoch := s.seats[w].epoch + 1) && Quarantine(k, up, g).Some?
    requires up && g.Some? ==> Credible(w, k, x.current[w], x, g.value)
    ensures Contained(s.(seats := s.seats[w := Quarantine(k, up, g).value]), x)
  {
    InvSeat(o, s, w);
    assert k.ticket.None?;
    EpochPast(w, s.seats[w], k, x.current[w], x.answers);
    DimBounded(w, s.seats[w], k, x.current[w], x.answers);
    forall e | e in x.exposures && e.seat == w ensures SafeAt(k, false, x.current[w], x.answers, e) {
      assert SafeAt(s.seats[w], Bare(s.tickets, s.seats[w]), x.current[w], x.answers, e);
      DimmedSafe(s.seats[w], k, false, x.current[w], x.answers, e);
    }
    hide Inv, SafeAt, SeatBounded, NoCurrentAnswers, Credible, SeatOk;
    QuarantineSafe(w, k, up, g, x.current[w], x);
    hide Quarantine, Contained;
    SeatOnly(o, s, x, w, Quarantine(k, up, g).value);
  }

  lemma OpenReportCases(s: State, w: Id, up: bool, g: Option<Gen>, now: int)
    requires w in s.seats && !s.seats[w].fenced && (s.seats[w].requiresUnavailable ==> s.seats[w].ticket.None?)
    ensures var k, s' := s.seats[w].(epoch := s.seats[w].epoch + 1), ReportSeat(s, w, up, g, now);
            && (!k.requiresUnavailable ==> s' == ApplyHealth(s, w, k, if up then g else None, now))
            && (k.requiresUnavailable && Quarantine(k, up, g).Some? ==> s' == s.(seats := s.seats[w := Quarantine(k, up, g).value]))
            && (k.requiresUnavailable && Quarantine(k, up, g).None? ==>
                  up && g.Some? && s' == s.(seats := s.seats[w := MarkIdle(PassedQuarantine(k), g.value, now)]))
  {
    var k := s.seats[w].(epoch := s.seats[w].epoch + 1);
    QuarantineVerdict(k, up, g);
    hide MarkIdle, End, Quarantine;
  }

  lemma OpenReportContained(o: Options, s: State, x: World, w: Id, up: bool, g: Option<Gen>, now: int)
    requires Inv(o, s) && Contained(s, x) && w in s.seats && !s.seats[w].fenced
    requires g.Some? ==> up && Credible(w, s.seats[w], x.current[w], x, g.value)
    ensures Contained(ReportSeat(s, w, up, g, now), x)
  {
    hide Inv, Contained, Credible, Quarantine, MarkIdle, ReportSeat, ApplyHealth, PassedQuarantine;
    var k := s.seats[w].(epoch := s.seats[w].epoch + 1);
    ContainedCurrent(s, x);
    BumpKeepsCredible(w, s.seats[w], x, g);
    if s.seats[w].requiresUnavailable {
      RequiringIsFree(o, s, w);
    }
    OpenReportCases(s, w, up, g, now);
    if !k.requiresUnavailable {
      ApplyHealthContained(o, s, x, w, if up then g else None, now);
    } else if Quarantine(k, up, g).Some? {
      HeldContained(o, s, x, w, k, up, g);
    } else {
      PassedContained(o, s, x, w, k, up, g, now);
    }
  }

  lemma ContainedCurrent(s: State, x: World)
    requires Contained(s, x)
    ensures x.current.Keys == s.seats.Keys
  {
  }

  lemma BumpKeepsCredible(w: Id, k: Seat, x: World, g: Option<Gen>)
    requires w in x.current && (g.Some? ==> Credible(w, k, x.current[w], x, g.value))
    ensures g.Some? ==> Credible(w, k.(epoch := k.epoch + 1), x.current[w], x, g.value)
  {
  }

  lemma ReportSeatContained(o: Options, s: State, x: World, w: Id, up: bool, g: Option<Gen>, now: int)
    requires Inv(o, s) && Contained(s, x) && w in s.seats
    requires g.Some? ==> up && Credible(w, s.seats[w], x.current[w], x, g.value)
    ensures Contained(ReportSeat(s, w, up, g, now), x)
  {
    if s.seats[w].fenced {
      assert g.Some? ==> g.value <= x.current[w];
      hide Inv, Contained, Credible, Quarantine, ApplyHealth;
      FencedReportContained(o, s, x, w, g);
    } else {
      hide Inv, Contained, Credible, ReportSeat;
      OpenReportContained(o, s, x, w, up, g, now);
    }
  }

  lemma QuarantineVerdict(k: Seat, up: bool, g: Option<Gen>)
    ensures Quarantine(k, up, g).None? ==> up && g.Some?
  {
  }

  lemma RequiringIsFree(o: Options, s: State, w: Id)
    requires Inv(o, s) && w in s.seats && s.seats[w].requiresUnavailable
    ensures s.seats[w].ticket.None?
  {
    InvSeat(o, s, w);
  }
}
