/**
  Whole runs of the seat coordinator: any sequence of its operations and restarts, at any clock
  readings. The invariant holds throughout, tickets only ever move forward, admission is first come
  first served, sweeps enforce every lease, and connection versions are never reused.
 */
module SessionRuns {
  import opened Common
  import opened SessionModel
  import opened SessionInvariant

  datatype Event =
    | Arrive(visitor: Id, id: Id)
    | Health(seat: Id, up: bool, generation: Option<Gen>, epoch: Option<nat>)
    | SetFence(seat: Id, on: bool)
    | Handshake(id: Id, version: int, observed: Option<Gen>)
    | Reserve(id: Id)
    | Activate(id: Id, version: int)
    | MarkStarted(id: Id, version: int)
    | RollBack(id: Id, version: int, previous: int)
    | Cancel(id: Id, version: int)
    | Activity(id: Id)
    | Research(id: Id)
    | Disconnect(id: Id, version: int)
    | Kick(id: Id, reason: EndReason)
    | Maintain
    | Restart

  /** A restart reloads what the gateway persisted after the previous operation. */
  function Step(o: Options, s: State, e: Event, now: int): State {
    match e
    case Arrive(visitor, id) => Admit(o, s, visitor, id, now).0
    case Health(w, up, g, epoch) => Report(o, s, w, up, g, epoch, now).0
    case SetFence(w, on) => Fence(o, s, w, on, now).0
    case Handshake(id, v, g) => Confirm(s, id, v, g, now).0
    case Reserve(id) => ReserveAttachment(o, s, id, now).0
    case Activate(id, v) => ActivateAttachment(s, id, v, now).0
    case MarkStarted(id, v) => MarkConnectionStarted(s, id, v).0
    case RollBack(id, v, previous) => Rollback(s, id, v, previous)
    case Cancel(id, v) => CancelAttachment(s, id, v)
    case Activity(id) => Touch(s, id, now)
    case Research(id) => Authorize(o, s, id, now).0
    case Disconnect(id, v) => Detach(s, id, v, now)
    case Kick(id, reason) => Terminate(s, id, reason, now)
    case Maintain => Sweep(o, s, now)
    case Restart => (match Restore(o, Export(s), now) case Some(s') => s' case None => s)
  }

  /** What the environment owes: identifiers are never issued twice, and a fence goes on a free seat only. */
  ghost predicate Permitted(s: State, issued: set<Id>, e: Event) {
    && (e.Arrive? ==> e.id !in issued)
    && (e.SetFence? && e.on && e.seat in s.seats ==> s.seats[e.seat].ticket.None?)
  }

  function IssuedBy(issued: set<Id>, e: Event): set<Id> {
    if e.Arrive? then issued + {e.id} else issued
  }

  datatype Timed = At(event: Event, now: int)

  ghost predicate PermittedRun(o: Options, s: State, issued: set<Id>, run: seq<Timed>)
    decreases |run|
  {
    run == [] ||
    (Permitted(s, issued, run[0].event)
     && PermittedRun(o, Step(o, s, run[0].event, run[0].now), IssuedBy(issued, run[0].event), run[1..]))
  }

  function Run(o: Options, s: State, run: seq<Timed>): State
    decreases |run|
  {
    if run == [] then s else Run(o, Step(o, s, run[0].event, run[0].now), run[1..])
  }

  // ---------------------------------------------------------------- coherence in every reachable state

  lemma StepInv(o: Options, s: State, issued: set<Id>, e: Event, now: int)
    requires Inv(o, s) && s.tickets.Keys <= issued && Permitted(s, issued, e)
    ensures Inv(o, Step(o, s, e, now))
  {
    hide Inv, Admit, Report, Fence, Confirm, ReserveAttachment, ActivateAttachment, MarkConnectionStarted,
         Rollback, CancelAttachment, Touch, Authorize, Detach, End, Sweep, Restore;
    match e
    case Arrive(visitor, id) => AdmitInv(o, s, visitor, id, now);
    case Health(w, up, g, epoch) => ReportInv(o, s, w, up, g, epoch, now);
    case SetFence(w, on) => FenceInv(o, s, w, on, now);
    case Handshake(id, v, g) => ConfirmInv(o, s, id, v, g, now);
    case Reserve(id) => ReserveAttachmentInv(o, s, id, now);
    case Activate(id, v) => AttachmentInv(o, s, id, v, 0, now);
    case MarkStarted(id, v) => AttachmentInv(o, s, id, v, 0, now);
    case RollBack(id, v, previous) => AttachmentInv(o, s, id, v, previous, now);
    case Cancel(id, v) => AttachmentInv(o, s, id, v, 0, now);
    case Activity(id) => AttachmentInv(o, s, id, 0, 0, now);
    case Research(id) => AuthorizeInv(o, s, id, now);
    case Disconnect(id, v) => AttachmentInv(o, s, id, v, 0, now);
    case Kick(id, reason) => if id in s.tickets { EndInv(o, s, id, reason, now); }
    case Maintain => SweepInv(o, s, now);
    case Restart => RestoreInv(o, s, now);
  }

  // ---------------------------------------------------------------- the life of a ticket

  function PhaseRank(p: Phase): nat {
    match p case Queued => 0 case Admitted => 1 case Active => 2 case Ended => 3
  }

  /** How a ticket may change: forward through its phases, with its seat and its start fixed once set. */
  ghost predicate Evolves(t: Ticket, t': Ticket) {
    && t'.visitor == t.visitor && t'.createdAt == t.createdAt && t'.ticketExpiresAt == t.ticketExpiresAt
    && PhaseRank(t.phase) <= PhaseRank(t'.phase)
    && (t.seat.Some? ==> t'.seat == t.seat)
    && (t.assignedAt.Some? ==> t'.assignedAt == t.assignedAt)
    && (t.startedAt.Some? ==> t'.startedAt == t.startedAt)
    && (t.phase == Ended ==> t'.startedAt == t.startedAt && t'.endReason == t.endReason && t'.attempts == t.attempts)
    && (t.exposed ==> t'.exposed)
    && t.runs <= t'.runs && t.attempts <= t'.attempts && t.nextVersion <= t'.nextVersion
  }

  /** Every ticket present before and after has evolved. */
  ghost predicate Advances(s: State, s': State) {
    forall id :: id in s.tickets && id in s'.tickets ==> Evolves(s.tickets[id], s'.tickets[id])
  }

  /**
    How its connections may change without a rollback: the version stays, or the reservation that was pending
    takes over, or one that has been issued since; the same for the pending reservation.
   */
  ghost predicate Supersedes(t: Ticket, t': Ticket) {
    && (t'.version == t.version || t.pending == Some(t'.version) || t'.version > t.nextVersion)
    && (t'.pending == t.pending || t'.pending.None? || t'.pending.value > t.nextVersion)
  }

  ghost predicate Moves(t: Ticket, t': Ticket) {
    Evolves(t, t') && Supersedes(t, t')
  }

  ghost predicate Proceeds(s: State, s': State) {
    forall id :: id in s.tickets && id in s'.tickets ==> Moves(s.tickets[id], s'.tickets[id])
  }

  lemma ProceedsReflexive(s: State)
    ensures Proceeds(s, s)
  {
  }

  lemma ProceedsTransitive(a: State, b: State, c: State)
    requires Proceeds(a, b) && Proceeds(b, c)
    requires a.tickets.Keys * c.tickets.Keys <= b.tickets.Keys
    ensures Proceeds(a, c)
  {
    forall id | id in a.tickets && id in c.tickets ensures Moves(a.tickets[id], c.tickets[id]) {
      assert id in b.tickets && Moves(a.tickets[id], b.tickets[id]) && Moves(b.tickets[id], c.tickets[id]);
    }
  }

  lemma PutAdvances(s: State, s': State, id: Id)
    requires id in s.tickets && id in s'.tickets && s'.tickets == s.tickets[id := s'.tickets[id]]
    requires Moves(s.tickets[id], s'.tickets[id])
    ensures Proceeds(s, s') && s'.tickets.Keys == s.tickets.Keys
  {
    ProceedsReflexive(s);
    hide Moves;
  }

  lemma EndAdvances(s: State, id: Id, reason: EndReason, now: int)
    requires id in s.tickets
    ensures Proceeds(s, End(s, id, reason, now))
    ensures End(s, id, reason, now).tickets.Keys == s.tickets.Keys
  {
    if s.tickets[id].Live() {
      assert Moves(s.tickets[id], EndedTicket(s.tickets[id], reason, now));
      hide Moves, EndedTicket, Freed;
      PutAdvances(s, End(s, id, reason, now), id);
    } else {
      ProceedsReflexive(s);
    }
  }

  lemma SweepOneAdvances(o: Options, s: State, id: Id, now: int)
    requires id in s.tickets
    ensures Proceeds(s, SweepOne(o, s, id, now)) && SweepOne(o, s, id, now).tickets.Keys == s.tickets.Keys
  {
    var t := s.tickets[id];
    var t1 := t.(pending := None, pendingAt := None);
    var s1 := if ReservationLapsed(o, t, now) then Edit(s, id, t1) else s;
    assert Moves(t, t1) && Moves(t, t);
    assert s1.tickets == s.tickets[id := s1.tickets[id]];
    hide Moves, End, Edit, Verdict, ReservationLapsed;
    PutAdvances(s, s1, id);
    if Verdict(o, t, now).Some? {
      EndAdvances(s1, id, Verdict(o, t, now).value, now);
      ProceedsTransitive(s, s1, End(s1, id, Verdict(o, t, now).value, now));
    }
  }

  lemma {:induction false} SweepTicketsAdvances(o: Options, s: State, ids: seq<Id>, now: int)
    ensures Proceeds(s, SweepTickets(o, s, ids, now))
    decreases |ids|
  {
    hide Moves, SweepOne;
    if ids == [] {
      ProceedsReflexive(s);
    } else if ids[0] !in s.tickets {
      SweepTicketsAdvances(o, s, ids[1..], now);
    } else {
      var s1 := SweepOne(o, s, ids[0], now);
      SweepOneAdvances(o, s, ids[0], now);
      SweepTicketsAdvances(o, s1, ids[1..], now);
      ProceedsTransitive(s, s1, SweepTickets(o, s1, ids[1..], now));
    }
  }

  /** A waiting ticket has never held a seat. */
  ghost predicate WaitingUnseated(tickets: map<Id, Ticket>) {
    forall id :: id in tickets && tickets[id].phase == Queued ==>
      tickets[id].seat.None? && tickets[id].assignedAt.None? && tickets[id].startedAt.None?
  }

  lemma AssignAdvances(o: Options, s: State, w: Id, id: Id, now: int)
    requires WaitingUnseated(s.tickets) && id in s.tickets && s.tickets[id].phase == Queued && w in s.seats
    ensures Proceeds(s, Assign(o, s, w, id, now)) && WaitingUnseated(Assign(o, s, w, id, now).tickets)
    ensures Assign(o, s, w, id, now).tickets.Keys == s.tickets.Keys
  {
    var s' := Assign(o, s, w, id, now);
    assert Moves(s.tickets[id], s'.tickets[id]);
    hide Moves;
    PutAdvances(s, s', id);
  }

  lemma {:induction false} PumpSeatsAdvances(o: Options, s: State, ws: seq<Id>, now: int)
    requires WaitingUnseated(s.tickets)
    ensures Proceeds(s, PumpSeats(o, s, ws, now))
    decreases |ws|
  {
    hide Moves;
    if ws == [] {
      ProceedsReflexive(s);
    } else if ws[0] !in s.seats || !s.seats[ws[0]].Assignable() {
      PumpSeatsAdvances(o, s, ws[1..], now);
    } else if s.queue == [] {
      ProceedsReflexive(s);
    } else {
      var id := s.queue[0];
      var s1 := s.(queue := s.queue[1..]);
      if id !in s.tickets || s.tickets[id].phase != Queued {
        PumpSeatsAdvances(o, s1, ws[1..], now);
      } else if s.reserved + o.Reservation() > o.dailyBudget {
        var s2 := End(s1, id, DailyBudgetExhausted, now);
        EndAdvances(s1, id, DailyBudgetExhausted, now);
        PumpSeatsAdvances(o, s2, ws[1..], now);
        PumpSeatsAddsNothing(o, s2, ws[1..], now);
        ProceedsTransitive(s, s2, PumpSeats(o, s2, ws[1..], now));
      } else {
        var s2 := Assign(o, s1, ws[0], id, now);
        AssignAdvances(o, s1, ws[0], id, now);
        PumpSeatsAdvances(o, s2, ws[1..], now);
        PumpSeatsAddsNothing(o, s2, ws[1..], now);
        ProceedsTransitive(s, s2, PumpSeats(o, s2, ws[1..], now));
      }
    }
  }

  lemma InvUnseated(o: Options, s: State)
    requires Inv(o, s)
    ensures WaitingUnseated(s.tickets)
  {
    forall id | id in s.tickets ensures TicketOk(o, s.tickets[id]) { InvTicket(o, s, id); }
  }

  lemma PumpAdvances(o: Options, s: State, now: int)
    requires Inv(o, s)
    ensures Proceeds(s, Pump(o, s, now)) && Pump(o, s, now).tickets.Keys == s.tickets.Keys
  {
    InvUnseated(o, s);
    PumpSeatsAdvances(o, CleanQueue(s), o.seats, now);
    PumpSeatsAddsNothing(o, CleanQueue(s), o.seats, now);
  }

  lemma SweepAdvances(o: Options, s: State, now: int)
    requires Inv(o, s)
    ensures Proceeds(s, Sweep(o, s, now)) && Sweep(o, s, now).tickets.Keys <= s.tickets.Keys
  {
    hide Inv, Moves, Pump;
    var s1 := SweepTickets(o, s, s.order, now);
    SweepTicketsAdvances(o, s, s.order, now);
    SweepTicketsAddsNothing(o, s, s.order, now);
    SweepTicketsInv(o, s, s.order, now);
    var s2 := ResetBudget(s1, now);
    ResetBudgetInv(o, s1, now);
    var s3 := Prune(s2, now);
    PruneInv(o, s2, now);
    PumpAdvances(o, s3, now);
    assert Proceeds(s, s3);
    ProceedsTransitive(s, s3, Pump(o, s3, now));
  }

  lemma AdmitAdvances(o: Options, s: State, visitor: Id, id: Id, now: int)
    requires Inv(o, s) && id !in s.tickets
    ensures Proceeds(s, Admit(o, s, visitor, id, now).0)
    ensures Admit(o, s, visitor, id, now).0.tickets.Keys <= s.tickets.Keys + {id}
  {
    hide Inv, Moves, Pump, Sweep, CleanQueued;
    var s1 := Sweep(o, s, now);
    SweepAdvances(o, s, now);
    SweepInv(o, s, now);
    if !HasLiveTicket(s1, visitor) {
      var s2 := s1.(visitors := s1.visitors - {visitor});
      NoIndexNoTicket(o, s1, visitor);
      assert s2 == s1;
      if |s2.queue| < o.maxQueue {
        var s3 := Enlist(o, s2, visitor, id, now);
        EnlistInv(o, s2, visitor, id, now);
        PumpAdvances(o, s3, now);
        assert Proceeds(s, s3);
        ProceedsTransitive(s, s3, Pump(o, s3, now));
      }
    }
  }

  /** The three things a health report can do to the tickets: nothing, end the seat's ticket, or rebind it. */
  ghost predicate HealthShape(s: State, w: Id, s': State, g: Option<Gen>, now: int) {
    var id := if w in s.seats && s.seats[w].ticket.Some? then s.seats[w].ticket.value else 0;
    || s'.tickets == s.tickets
    || (id in s.tickets && s.tickets[id].Holder()
        && s'.tickets == s.tickets[id := EndedTicket(s.tickets[id], WorkerUnavailable, now)])
    || (id in s.tickets && s.tickets[id].phase == Admitted
        && s'.tickets == s.tickets[id := s.tickets[id].(generation := g)])
  }

  lemma ApplyHealthShape(o: Options, s: State, w: Id, k: Seat, g: Option<Gen>, now: int)
    requires Inv(o, s) && w in s.seats && k.ticket == s.seats[w].ticket
    ensures HealthShape(s, w, ApplyHealth(s, w, k, g, now), g, now)
  {
    InvSeat(o, s, w);
    if k.ticket.Some? {
      InvTicket(o, s, k.ticket.value);
    }
    hide Inv, SeatOk, Freed, MarkIdle, EndedTicket;
  }

  lemma ReportSeatShape(o: Options, s: State, w: Id, up: bool, g: Option<Gen>, now: int)
    requires Inv(o, s) && w in s.seats
    ensures HealthShape(s, w, ReportSeat(s, w, up, g, now), g, now)
  {
    var k := s.seats[w].(epoch := s.seats[w].epoch + 1);
    var seen := if up then g else None;
    hide Inv;
    if !s.seats[w].fenced && (!k.requiresUnavailable || Quarantine(k, up, g).None?) {
      var k' := if k.requiresUnavailable then PassedQuarantine(k) else k;
      ApplyHealthShape(o, s, w, k', seen, now);
      assert ReportSeat(s, w, up, g, now) == ApplyHealth(s, w, k', seen, now);
      hide ApplyHealth, ReportSeat, Quarantine;
      if !up {
        assert seen == None;
        DownNeverRebinds(o, s, w, k', now);
      }
    } else {
      hide HealthShape;
      assert ReportSeat(s, w, up, g, now).tickets == s.tickets;
      SameTicketsShape(s, w, ReportSeat(s, w, up, g, now), g, now);
    }
  }

  lemma SameTicketsShape(s: State, w: Id, s': State, g: Option<Gen>, now: int)
    requires s'.tickets == s.tickets
    ensures HealthShape(s, w, s', g, now)
  {
  }

  lemma DownNeverRebinds(o: Options, s: State, w: Id, k: Seat, now: int)
    requires Inv(o, s) && w in s.seats && k.ticket == s.seats[w].ticket
    ensures forall g :: HealthShape(s, w, ApplyHealth(s, w, k, None, now), g, now)
  {
    InvSeat(o, s, w);
    hide Inv, SeatOk, Freed, MarkIdle, EndedTicket;
  }

  lemma SameTicketsAdvance(s: State, s': State)
    requires s'.tickets == s.tickets
    ensures Proceeds(s, s')
  {
  }

  lemma HealthEvolves(t: Ticket, g: Option<Gen>, now: int)
    requires t.Live()
    ensures Moves(t, EndedTicket(t, WorkerUnavailable, now)) && Moves(t, t.(generation := g))
  {
  }

  lemma ReportSeatAdvances(o: Options, s: State, w: Id, up: bool, g: Option<Gen>, now: int)
    requires Inv(o, s) && w in s.seats
    ensures Proceeds(s, ReportSeat(s, w, up, g, now)) && ReportSeat(s, w, up, g, now).tickets.Keys == s.tickets.Keys
  {
    var s' := ReportSeat(s, w, up, g, now);
    ReportSeatShape(o, s, w, up, g, now);
    hide Inv, ReportSeat, Proceeds, Moves;
    ProceedsReflexive(s);
    if s'.tickets == s.tickets {
      SameTicketsAdvance(s, s');
    } else {
      var id := s.seats[w].ticket.value;
      HealthEvolves(s.tickets[id], g, now);
      PutAdvances(s, s', id);
    }
  }

  lemma EditAdvances(s: State, id: Id, t: Ticket)
    requires id in s.tickets && t.seat == s.tickets[id].seat && Moves(s.tickets[id], t)
    ensures Proceeds(s, Edit(s, id, t)) && Edit(s, id, t).tickets == s.tickets[id := t]
  {
    hide Moves;
    PutAdvances(s, Edit(s, id, t), id);
  }

  lemma ConfirmAdvances(s: State, id: Id, version: int, observed: Option<Gen>, now: int)
    ensures Proceeds(s, Confirm(s, id, version, observed, now).0)
    ensures Confirm(s, id, version, observed, now).0.tickets.Keys == s.tickets.Keys
  {
    var s' := Confirm(s, id, version, observed, now).0;
    if s'.tickets == s.tickets {
      ProceedsReflexive(s);
    } else {
      var t := s.tickets[id];
      hide Freed;
      assert s'.tickets[id] == EndedTicket(t.(generation := if observed.Some? then observed else t.generation), WorkerUnavailable, now);
      assert Moves(t, s'.tickets[id]);
      hide Moves;
      PutAdvances(s, s', id);
    }
  }

  lemma ReserveAdvances(o: Options, s: State, id: Id, now: int)
    requires Inv(o, s)
    ensures Proceeds(s, ReserveAttachment(o, s, id, now).0)
    ensures ReserveAttachment(o, s, id, now).0.tickets.Keys <= s.tickets.Keys
  {
    hide Inv, Sweep, Edit, End, Proceeds;
    var s1 := Sweep(o, s, now);
    var s' := ReserveAttachment(o, s, id, now).0;
    SweepAdvances(o, s, now);
    ProceedsReflexive(s1);
    if s' != s1 {
      var t := s1.tickets[id];
      var v := t.nextVersion + 1;
      var t' := t.(attempts := t.attempts + 1, nextVersion := v, pending := Some(v), pendingAt := Some(now));
      assert Moves(t, t');
      hide Moves;
      EndAdvances(s1, id, RateLimited, now);
      EditAdvances(s1, id, t');
    }
    hide Moves;
    assert Proceeds(s1, s') && s'.tickets.Keys == s1.tickets.Keys;
    ProceedsTransitive(s, s1, s');
  }

  lemma AttachmentAdvances(o: Options, s: State, id: Id, version: int, now: int)
    requires Inv(o, s)
    ensures Proceeds(s, ActivateAttachment(s, id, version, now).0)
    ensures Proceeds(s, MarkConnectionStarted(s, id, version).0)
    ensures Proceeds(s, CancelAttachment(s, id, version))
    ensures Proceeds(s, Detach(s, id, version, now))
    ensures Proceeds(s, Touch(s, id, now))
  {
    hide Inv, Edit, Moves, Activated, TicketOk, Proceeds;
    ProceedsReflexive(s);
    if id in s.tickets {
      InvTicket(o, s, id);
      var t := s.tickets[id];
      AttachmentEvolves(o, t, version, now);
      EditAdvances(s, id, t.(pending := None, pendingAt := None));
      EditAdvances(s, id, t.(exposed := true));
      EditAdvances(s, id, t.(disconnectedAt := Some(now)));
      if t.Live() && t.pending == Some(version) {
        EditAdvances(s, id, Activated(t, version, now));
      }
      if t.phase == Active {
        PutAdvances(s, Touch(s, id, now), id);
      }
    }
  }

  lemma AttachmentEvolves(o: Options, t: Ticket, version: int, now: int)
    requires TicketOk(o, t)
    ensures t.Live() && t.pending == Some(version) ==> Moves(t, Activated(t, version, now)) && Activated(t, version, now).seat == t.seat
    ensures Moves(t, t.(pending := None, pendingAt := None))
    ensures Moves(t, t.(exposed := true))
    ensures Moves(t, t.(disconnectedAt := Some(now)))
    ensures t.phase == Active ==> Moves(t, t.(lastActivityAt := Some(now)))
  {
  }

  lemma AuthorizeAdvances(o: Options, s: State, id: Id, now: int)
    requires Inv(o, s)
    ensures Proceeds(s, Authorize(o, s, id, now).0)
    ensures Authorize(o, s, id, now).0.tickets.Keys <= s.tickets.Keys
  {
    hide Inv, Sweep;
    var s1 := Sweep(o, s, now);
    var s' := Authorize(o, s, id, now).0;
    SweepAdvances(o, s, now);
    ProceedsReflexive(s1);
    if s' != s1 {
      PutAdvances(s1, s', id);
    }
    hide Moves;
    ProceedsTransitive(s, s1, s');
  }

  lemma ReloadAdvances(o: Options, s: State, now: int)
    requires Inv(o, s)
    ensures Proceeds(s, Reload(Export(s), now)) && Reload(Export(s), now).tickets.Keys == s.tickets.Keys
  {
    hide Inv, RebuildVisitors;
    var s1 := Reload(Export(s), now);
    assert s1.tickets.Keys == s.tickets.Keys;
    forall id | id in s.tickets ensures Moves(s.tickets[id], s1.tickets[id]) {
      InvTicket(o, s, id);
      assert s1.tickets[id] == RestoredTicket(s.tickets[id], now);
      RestoredEvolves(o, s.tickets[id], now);
    }
  }

  lemma RestoredEvolves(o: Options, t: Ticket, now: int)
    requires TicketOk(o, t)
    ensures Moves(t, RestoredTicket(t, now))
  {
  }

  lemma RestoreAdvances(o: Options, s: State, now: int)
    requires Inv(o, s)
    ensures Restore(o, Export(s), now).Some? && Proceeds(s, Restore(o, Export(s), now).value)
    ensures Restore(o, Export(s), now).value.tickets.Keys <= s.tickets.Keys
  {
    var s1 := Reload(Export(s), now);
    hide Inv, Moves, Sweep, Reload;
    ReloadAdvances(o, s, now);
    ReloadInv(o, s, now);
    RestoreInv(o, s, now);
    SweepAdvances(o, s1, now);
    ProceedsTransitive(s, s1, Sweep(o, s1, now));
  }

  lemma StepProceeds(o: Options, s: State, issued: set<Id>, e: Event, now: int)
    requires Inv(o, s) && s.tickets.Keys <= issued && Permitted(s, issued, e) && !e.RollBack?
    ensures Proceeds(s, Step(o, s, e, now))
    ensures Step(o, s, e, now).tickets.Keys <= s.tickets.Keys + (IssuedBy(issued, e) - issued)
  {
    hide Inv, Moves, Admit, Report, Fence, Confirm, ReserveAttachment, ActivateAttachment, MarkConnectionStarted,
         Rollback, CancelAttachment, Touch, Authorize, Detach, End, Sweep, Restore, Proceeds;
    ProceedsReflexive(s);
    match e
    case Arrive(visitor, id) => AdmitAdvances(o, s, visitor, id, now);
    case Health(w, up, g, epoch) => ReportAdvances(o, s, w, up, g, epoch, now);
    case SetFence(w, on) => FenceAdvances(o, s, w, on, now);
    case Handshake(id, v, g) => ConfirmAdvances(s, id, v, g, now);
    case Reserve(id) => ReserveAdvances(o, s, id, now);
    case Activate(id, v) => AttachmentAdvances(o, s, id, v, now); AttachmentKeys(s, id, v, 0, now);
    case MarkStarted(id, v) => AttachmentAdvances(o, s, id, v, now); AttachmentKeys(s, id, v, 0, now);
    case Cancel(id, v) => AttachmentAdvances(o, s, id, v, now); AttachmentKeys(s, id, v, 0, now);
    case Activity(id) => AttachmentAdvances(o, s, id, 0, now); AttachmentKeys(s, id, 0, 0, now);
    case Research(id) => AuthorizeAdvances(o, s, id, now);
    case Disconnect(id, v) => AttachmentAdvances(o, s, id, v, now); AttachmentKeys(s, id, v, 0, now);
    case Kick(id, reason) => if id in s.tickets { EndAdvances(s, id, reason, now); }
    case Maintain => SweepAdvances(o, s, now);
    case Restart => RestoreAdvances(o, s, now);
  }

  lemma RollbackAdvances(s: State, id: Id, version: int, previous: int)
    ensures Advances(s, Rollback(s, id, version, previous))
  {
    assert forall x :: x in s.tickets ==> Evolves(s.tickets[x], s.tickets[x]);
    if id in s.tickets {
      assert Evolves(s.tickets[id], s.tickets[id].(version := previous));
    }
    hide Evolves;
  }

  /** Every operation moves every surviving ticket forward and issues at most the identifier it was given. */
  lemma StepAdvances(o: Options, s: State, issued: set<Id>, e: Event, now: int)
    requires Inv(o, s) && s.tickets.Keys <= issued && Permitted(s, issued, e)
    ensures Advances(s, Step(o, s, e, now))
    ensures Step(o, s, e, now).tickets.Keys <= s.tickets.Keys + (IssuedBy(issued, e) - issued)
  {
    hide Inv, Evolves, Supersedes;
    if e.RollBack? {
      RollbackAdvances(s, e.id, e.version, e.previous);
      AttachmentKeys(s, e.id, e.version, e.previous, now);
    } else {
      hide Step;
      StepProceeds(o, s, issued, e, now);
    }
  }

  lemma AttachmentKeys(s: State, id: Id, version: int, previous: int, now: int)
    ensures ActivateAttachment(s, id, version, now).0.tickets.Keys == s.tickets.Keys
    ensures MarkConnectionStarted(s, id, version).0.tickets.Keys == s.tickets.Keys
    ensures Rollback(s, id, version, previous).tickets.Keys == s.tickets.Keys
    ensures CancelAttachment(s, id, version).tickets.Keys == s.tickets.Keys
    ensures Detach(s, id, version, now).tickets.Keys == s.tickets.Keys
    ensures Touch(s, id, now).tickets.Keys == s.tickets.Keys
  {
  }

  lemma ReportAdvances(o: Options, s: State, w: Id, up: bool, g: Option<Gen>, epoch: Option<nat>, now: int)
    requires Inv(o, s)
    ensures Proceeds(s, Report(o, s, w, up, g, epoch, now).0)
    ensures Report(o, s, w, up, g, epoch, now).0.tickets.Keys == s.tickets.Keys
  {
    hide Inv, Moves, Pump, ReportSeat;
    ProceedsReflexive(s);
    if w in s.seats {
      var s1 := ReportSeat(s, w, up, g, now);
      ReportSeatAdvances(o, s, w, up, g, now);
      ReportSeatInv(o, s, w, up, g, now);
      PumpAdvances(o, s1, now);
      ProceedsTransitive(s, s1, Pump(o, s1, now));
    }
  }

  lemma FenceAdvances(o: Options, s: State, w: Id, on: bool, now: int)
    requires Inv(o, s) && (on && w in s.seats ==> s.seats[w].ticket.None?)
    ensures Proceeds(s, Fence(o, s, w, on, now).0)
    ensures Fence(o, s, w, on, now).0.tickets.Keys == s.tickets.Keys
  {
    ProceedsReflexive(s);
    if w in s.seats {
      var s1 := s.(seats := s.seats[w := FenceSeat(s.seats[w], on)]);
      InvSeat(o, s, w);
      hide Inv, Moves, Pump;
      PutSeatInv(o, s, w, FenceSeat(s.seats[w], on));
      PumpAdvances(o, s1, now);
      ProceedsTransitive(s, s1, Pump(o, s1, now));
    }
  }

  // ---------------------------------------------------------------- whole runs

  lemma AdvancesReflexive(s: State)
    ensures Advances(s, s)
  {
  }

  lemma AdvancesTransitive(a: State, b: State, c: State)
    requires Advances(a, b) && Advances(b, c)
    requires a.tickets.Keys * c.tickets.Keys <= b.tickets.Keys
    ensures Advances(a, c)
  {
    forall id | id in a.tickets && id in c.tickets ensures Evolves(a.tickets[id], c.tickets[id]) {
      assert id in b.tickets && Evolves(a.tickets[id], b.tickets[id]) && Evolves(b.tickets[id], c.tickets[id]);
    }
  }

  function IssuedIn(issued: set<Id>, run: seq<Timed>): set<Id>
    decreases |run|
  {
    if run == [] then issued else IssuedIn(IssuedBy(issued, run[0].event), run[1..])
  }

  /**
    Whatever happens, at whatever clock readings, with restarts anywhere: the invariant holds at the
    end, no ticket appears that was not issued, and every ticket present at both ends has only moved
    forward. In particular its seat, its admission time and its start are fixed once set.
   */
  lemma {:induction false} RunInv(o: Options, s: State, issued: set<Id>, run: seq<Timed>)
    requires Inv(o, s) && s.tickets.Keys <= issued && PermittedRun(o, s, issued, run)
    ensures Inv(o, Run(o, s, run)) && Run(o, s, run).tickets.Keys <= IssuedIn(issued, run)
    ensures Run(o, s, run).tickets.Keys * issued <= s.tickets.Keys
    ensures Advances(s, Run(o, s, run))
    decreases |run|
  {
    hide Inv, Evolves, Step;
    if run == [] {
      AdvancesReflexive(s);
    } else {
      var e, now := run[0].event, run[0].now;
      var s1 := Step(o, s, e, now);
      StepInv(o, s, issued, e, now);
      StepAdvances(o, s, issued, e, now);
      RunInv(o, s1, IssuedBy(issued, e), run[1..]);
      AdvancesTransitive(s, s1, Run(o, s1, run[1..]));
    }
  }
}
