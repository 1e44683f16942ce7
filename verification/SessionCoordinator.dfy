/**
  The seat coordinator as the gateway runs it: one object whose methods update its tables in place,
  after server/public-session-coordinator.ts. Every method is proved to take the abstract state to the
  state that the functions of SessionModel define, so that all results about those hold of the object.
 */
module SessionCoordinator {
  import opened Common
  import opened SessionModel
  import opened SessionInvariant

  class PublicSessionCoordinator {
    const options: Options
    var seats: map<Id, Seat>
    var tickets: map<Id, Ticket>
    var order: seq<Id>
    var visitors: map<Id, Id>
    var queue: seq<Id>
    var day: int
    var reserved: nat

    function View(): State
      reads this
    {
      State(seats, tickets, order, visitors, queue, day, reserved)
    }

    constructor (o: Options, now: int)
      requires o.Valid()
      ensures options == o && View() == Init(o, now)
      ensures Inv(o, View())
    {
      hide Inv;
      options := o;
      seats, tickets, order, visitors, queue := map[], map[], [], map[], [];
      day, reserved := UtcDay(now), 0;
      new;
      for i := 0 to |o.seats|
        invariant seats == map w | w in o.seats[..i] :: EmptySeat()
        invariant View() == Init(o, now).(seats := seats)
      {
        assert o.seats[..i + 1] == o.seats[..i] + [o.seats[i]];
        seats := seats[o.seats[i] := EmptySeat()];
      }
      assert o.seats[..|o.seats|] == o.seats;
      InitInv(o, now);
    }

    // -------------------------------------------------------------- shared steps

    method BumpProbeEpoch(w: Id)
      requires w in seats
      modifies this`seats
      ensures View() == BumpSeat(old(View()), w)
    {
      seats := seats[w := seats[w].(epoch := seats[w].epoch + 1)];
    }

    /** Store a changed ticket and outdate the probes in flight for the seat it holds. */
    method UpdateTicket(id: Id, t: Ticket)
      requires id in tickets && t.seat == tickets[id].seat
      modifies this`tickets, this`seats
      ensures View() == Edit(old(View()), id, t)
    {
      tickets := tickets[id := t];
      if t.seat.Some? && t.seat.value in seats && seats[t.seat.value].ticket == Some(id) {
        BumpProbeEpoch(t.seat.value);
      }
    }

    /** The seat of a ticket that has just ended. */
    method FreeSeat(w: Id, t: Ticket, reason: EndReason, now: int)
      requires w in seats
      modifies this`seats
      ensures seats == old(seats)[w := Freed(old(seats)[w], t, reason, now)]
    {
      BumpProbeEpoch(w);
      var k := seats[w].(ticket := None);
      if t.exposed {
        k := k.(ready := false, idleSince := None, replacementOf := if t.generation.Some? then t.generation else k.generation);
      } else if reason != WorkerUnavailable {
        k := k.(ready := true, idleSince := Some(now), replacementOf := None);
      } else {
        k := k.(ready := false, idleSince := None, replacementOf := None);
      }
      seats := seats[w := k];
    }

    method EndTicket(id: Id, reason: EndReason, now: int)
      requires id in tickets
      modifies this`tickets, this`seats, this`visitors
      ensures View() == End(old(View()), id, reason, now)
    {
      hide Freed;
      var t := tickets[id];
      if t.phase == Ended {
        return;
      }
      tickets := tickets[id := t.(phase := Ended, endReason := Some(reason), endedAt := Some(now), pending := None, pendingAt := None)];
      visitors := visitors - {t.visitor};
      if t.seat.Some? && t.seat.value in seats && seats[t.seat.value].ticket == Some(id) {
        FreeSeat(t.seat.value, t, reason, now);
      }
    }

    method RemoveEndedQueueEntries()
      modifies this`queue
      ensures View() == CleanQueue(old(View()))
    {
      var index := |queue|;
      ghost var waiting := Waiting(tickets);
      while index > 0
        invariant 0 <= index <= |queue| && index <= |old(queue)|
        invariant queue[..index] == old(queue)[..index]
        invariant queue[index..] == Keep(old(queue)[index..], waiting)
      {
        index := index - 1;
        var id := queue[index];
        assert old(queue)[index..] == [id] + old(queue)[index + 1..];
        assert queue[index..] == [id] + queue[index + 1..];
        if id !in tickets || tickets[id].phase != Queued {
          queue := queue[..index] + queue[index + 1..];
        }
      }
      assert queue == queue[0..] && old(queue)[0..] == old(queue);
    }

    method PumpQueue(now: int)
      modifies this
      ensures View() == Pump(options, old(View()), now)
    {
      RemoveEndedQueueEntries();
      ghost var whole := PumpSeats(options, View(), options.seats, now);
      assert options.seats[0..] == options.seats;
      for i := 0 to |options.seats|
        invariant PumpSeats(options, View(), options.seats[i..], now) == whole
      {
        var w := options.seats[i];
        assert options.seats[i..][0] == w && options.seats[i..][1..] == options.seats[i + 1..];
        if w !in seats || !seats[w].ready || seats[w].ticket.Some? || seats[w].fenced {
          continue;
        }
        if queue == [] {
          return;
        }
        var id := queue[0];
        queue := queue[1..];
        if id !in tickets || tickets[id].phase != Queued {
          continue;
        }
        if reserved + options.maxRuns * options.perRun > options.dailyBudget {
          EndTicket(id, DailyBudgetExhausted, now);
        } else {
          AssignSeat(w, id, now);
        }
      }
    }

    method AssignSeat(w: Id, id: Id, now: int)
      requires w in seats && id in tickets
      modifies this`tickets, this`seats, this`reserved
      ensures View() == Assign(options, old(View()), w, id, now)
    {
      var reservation, k := options.Reservation(), seats[w];
      tickets := tickets[id := tickets[id].(
        phase := Admitted, seat := Some(w), generation := k.generation, assignedAt := Some(now), reserved := reservation)];
      reserved := reserved + reservation;
      seats := seats[w := k.(ticket := Some(id), ready := false, idleSince := None)];
      BumpProbeEpoch(w);
    }

    // -------------------------------------------------------------- sweep

    method SweepTicket(id: Id, now: int)
      requires id in tickets
      modifies this
      ensures View() == SweepOne(options, old(View()), id, now)
    {
      var t := tickets[id];
      if t.pending.Some? && t.pendingAt.Some? && now - t.pendingAt.value >= options.grace {
        UpdateTicket(id, t.(pending := None, pendingAt := None));
      }
      if t.phase == Queued && now >= t.ticketExpiresAt {
        EndTicket(id, TicketExpired, now);
        return;
      }
      if t.phase == Admitted && t.assignedAt.Some? {
        if now - t.assignedAt.value >= options.grace {
          EndTicket(id, NoShow, now);
        }
        return;
      }
      if t.phase != Active || t.startedAt.None? {
        return;
      }
      if now - t.startedAt.value >= options.absoluteLimit {
        EndTicket(id, AbsoluteTimeout, now);
      } else if t.disconnectedAt.Some? {
        if now - t.disconnectedAt.value >= options.grace {
          EndTicket(id, DisconnectTimeout, now);
        }
      } else if t.lastActivityAt.Some? && now - t.lastActivityAt.value >= options.idleLimit {
        EndTicket(id, IdleTimeout, now);
      }
    }

    method ResetDailyBudget(now: int)
      modifies this`day, this`reserved
      ensures View() == ResetBudget(old(View()), now)
    {
      if UtcDay(now) == day {
        return;
      }
      day := UtcDay(now);
      var total: nat := 0;
      assert order[0..] == order;
      for i := 0 to |order|
        invariant total + CarriedOver(order[i..], tickets) == CarriedOver(order, tickets)
      {
        assert order[i..][0] == order[i] && order[i..][1..] == order[i + 1..];
        if order[i] in tickets && tickets[order[i]].Holder() {
          total := total + tickets[order[i]].reserved;
        }
      }
      reserved := total;
    }

    /** Forget a ticket, and with it its place in the iteration order. */
    method DeleteTicket(id: Id, ghost was: State, ghost dead: set<Id>)
      requires View() == Discard(was, dead)
      modifies this`tickets, this`order
      ensures View() == Discard(was, dead + {id})
    {
      KeepKeep(was.order, was.tickets.Keys - dead, was.tickets.Keys - dead - {id});
      assert was.tickets.Keys - dead - {id} == was.tickets.Keys - (dead + {id});
      assert was.tickets - dead - {id} == was.tickets - (dead + {id});
      tickets := tickets - {id};
      order := Keep(order, tickets.Keys);
    }

    method DeleteTickets(ids: seq<Id>, ghost was: State, ghost dead: set<Id>)
      requires View() == Discard(was, dead)
      modifies this`tickets, this`order
      ensures View() == Discard(was, dead + Elems(ids))
    {
      hide Discard;
      assert dead + Elems(ids[..0]) == dead;
      for i := 0 to |ids|
        invariant View() == Discard(was, dead + Elems(ids[..i]))
      {
        assert ids[..i + 1] == ids[..i] + [ids[i]];
        assert dead + Elems(ids[..i]) + {ids[i]} == dead + Elems(ids[..i + 1]);
        DeleteTicket(ids[i], was, dead + Elems(ids[..i]));
      }
      assert ids[..|ids|] == ids;
    }

    /** One iteration of the pruning loop: delete a stale ticket, retain another ended one. */
    method DeleteIfStale(id: Id, now: int, ghost was: State, ghost dead: set<Id>) returns (kept: bool)
      requires View() == Discard(was, dead) && id in was.tickets && id !in dead
      modifies this`tickets, this`order
      ensures View() == Discard(was, dead + (if id in Stale(was, now) then {id} else {}))
      ensures kept <==> id in Finished(was.tickets) - Stale(was, now)
    {
      DiscardKeeps(was, dead, id);
      hide Discard;
      kept := false;
      assert dead + {} == dead;
      if tickets[id].phase == Ended {
        if now - (if tickets[id].endedAt.Some? then tickets[id].endedAt.value else now) >= RETENTION_MS {
          DeleteTicket(id, was, dead);
        } else {
          kept := true;
        }
      }
    }

    method DeleteStaleTickets(now: int) returns (retained: seq<Id>)
      requires OrderedMap(order, tickets)
      modifies this`tickets, this`order
      ensures View() == Discard(old(View()), Stale(old(View()), now))
      ensures retained == Keep(old(order), Finished(old(tickets)) - Stale(old(View()), now))
    {
      ghost var was := View();
      var ids := order;
      retained := [];
      ghost var stale, keep := Stale(was, now), Finished(was.tickets) - Stale(was, now);
      DiscardNothing(was);
      assert stale * Elems(ids[..0]) == {};
      hide Discard, Keep, Stale;
      for i := 0 to |ids|
        invariant View() == Discard(was, stale * Elems(ids[..i]))
        invariant retained == Keep(ids[..i], keep)
      {
        SelectNext(ids, i, stale);
        KeepNext(ids, i, keep);
        var kept := DeleteIfStale(ids[i], now, was, stale * Elems(ids[..i]));
        if kept {
          retained := retained + [ids[i]];
        }
      }
      assert ids[..|ids|] == ids;
      assert stale * Elems(ids) == stale;
    }

    method PruneEndedTickets(now: int)
      requires OrderedMap(order, tickets)
      modifies this`tickets, this`order
      ensures View() == Prune(old(View()), now)
    {
      ghost var was := View();
      var records := tickets;
      var retained := DeleteStaleTickets(now);
      hide Stale, Discard, Keep, Overflow;
      var excess := Overflow(retained, records);
      DeleteTickets(excess, was, Stale(was, now));
    }

    method SweepAll(now: int)
      requires Inv(options, View())
      modifies this
      ensures View() == Sweep(options, old(View()), now)
    {
      ghost var was := View();
      var ids := order;
      ghost var whole := SweepTickets(options, View(), ids, now);
      assert ids[0..] == ids;
      for i := 0 to |ids|
        invariant SweepTickets(options, View(), ids[i..], now) == whole
      {
        assert ids[i..][0] == ids[i] && ids[i..][1..] == ids[i + 1..];
        if ids[i] in tickets {
          SweepTicket(ids[i], now);
        }
      }
      assert View() == whole;
      SweepTicketsInv(options, was, was.order, now);
      ResetDailyBudget(now);
      ResetBudgetInv(options, whole, now);
      PruneEndedTickets(now);
      PumpQueue(now);
    }

    // -------------------------------------------------------------- admission

    method Admit(visitor: Id, freshId: Id, now: int) returns (outcome: Admission)
      requires Inv(options, View()) && freshId !in tickets
      modifies this
      ensures (View(), outcome) == SessionModel.Admit(options, old(View()), visitor, freshId, now)
      ensures Inv(options, View())
    {
      hide Inv, Sweep, Pump;
      ghost var was := View();
      AdmitInv(options, was, visitor, freshId, now);
      SweepAll(now);
      if visitor in visitors {
        var existing := visitors[visitor];
        if existing in tickets && tickets[existing].phase != Ended {
          return Ticketed(existing);
        }
      }
      visitors := visitors - {visitor};
      if |queue| >= options.maxQueue {
        return QueueFull;
      }
      tickets := tickets[freshId := NewTicket(options, visitor, now)];
      order := order + [freshId];
      visitors := visitors[visitor := freshId];
      queue := queue + [freshId];
      PumpQueue(now);
      return Ticketed(freshId);
    }

    // -------------------------------------------------------------- worker health

    method MarkIdleWorkerReady(w: Id, g: Gen, now: int)
      requires w in seats
      modifies this`seats
      ensures seats == old(seats)[w := MarkIdle(old(seats)[w], g, now)]
    {
      var k := seats[w];
      if k.requiresUnavailable || (k.replacementOf.Some? && k.replacementOf.value == g) {
        k := k.(ready := false, idleSince := None);
      } else {
        var changed := k.generation != Some(g);
        k := k.(ready := true, generation := Some(g), replacementOf := None);
        if changed || k.idleSince.None? {
          k := k.(idleSince := Some(now));
        }
      }
      seats := seats[w := k];
    }

    method ApplyWorkerHealth(w: Id, g: Option<Gen>, now: int)
      requires w in seats
      modifies this`seats, this`tickets, this`visitors
      ensures View() == ApplyHealth(old(View()), w, old(seats)[w], g, now)
    {
      hide MarkIdle, Freed;
      var k := seats[w];
      ghost var s1 := View().(seats := seats[w := k]);
      assert s1 == View();
      if g.None? {
        seats := seats[w := k.(ready := false, idleSince := None)];
        if k.ticket.Some? && k.ticket.value in tickets && tickets[k.ticket.value].phase != Ended {
          EndTicket(k.ticket.value, WorkerUnavailable, now);
        }
      } else if k.ticket.Some? {
        var id := k.ticket.value;
        if id !in tickets || tickets[id].phase == Ended {
          seats := seats[w := k.(ticket := None)];
          MarkIdleWorkerReady(w, g.value, now);
        } else if g == tickets[id].generation {
          seats := seats[w := k.(generation := g)];
        } else if tickets[id].startedAt.None? {
          seats := seats[w := k.(generation := g)];
          tickets := tickets[id := tickets[id].(generation := g)];
        } else if tickets[id].disconnectedAt.Some? {
          EndTicket(id, WorkerUnavailable, now);
          MarkIdleWorkerReady(w, g.value, now);
        } else {
          seats := seats[w := k.(ready := false, idleSince := None)];
        }
      } else {
        MarkIdleWorkerReady(w, g.value, now);
      }
    }

    method SetWorkerReady(w: Id, up: bool, g: Option<Gen>, epoch: Option<nat>, now: int) returns (outcome: Health)
      requires Inv(options, View())
      modifies this
      ensures (View(), outcome) == Report(options, old(View()), w, up, g, epoch, now)
      ensures Inv(options, View())
    {
      hide Inv, Pump, ApplyHealth, ReportSeat;
      ReportInv(options, View(), w, up, g, epoch, now);
      if w !in seats {
        return UnknownSeat;
      }
      if epoch.Some? && epoch.value != seats[w].epoch {
        return StaleProbe;
      }
      ReportToSeat(w, up, g, now);
      PumpQueue(now);
      return Applied;
    }

    method ReportToSeat(w: Id, up: bool, g: Option<Gen>, now: int)
      requires w in seats
      modifies this`seats, this`tickets, this`visitors
      ensures View() == ReportSeat(old(View()), w, up, g, now)
    {
      hide ApplyHealth;
      ghost var was := View();
      var k := seats[w];
      if k.fenced {
        if g.Some? {
          k := k.(generation := g);
        }
        seats := seats[w := k.(ready := false, idleSince := None)];
        return;
      }
      BumpProbeEpoch(w);
      if k.requiresUnavailable {
        var held := HoldInQuarantine(w, up, g);
        if held {
          return;
        }
        seats := seats[w := seats[w].(requiresUnavailable := false, quarantined := None, unavailableAfterQuarantine := false)];
      }
      HealthIgnoresSeatRecord(was, View(), w, if up then g else None, now);
      ApplyWorkerHealth(w, if up then g else None, now);
    }

    /** Whether the quarantine keeps the seat out of service; the seat records what the report tells it. */
    method HoldInQuarantine(w: Id, up: bool, g: Option<Gen>) returns (held: bool)
      requires w in seats
      modifies this`seats
      ensures held <==> Quarantine(old(seats)[w], up, g).Some?
      ensures seats == old(seats)[w := if held then Quarantine(old(seats)[w], up, g).value
                                       else old(seats)[w].(ready := false, idleSince := None)]
    {
      var k := seats[w].(ready := false, idleSince := None);
      held := true;
      if !up || g.None? {
        if k.quarantined.Some? {
          k := k.(unavailableAfterQuarantine := true);
        }
      } else if k.quarantined.None? {
        k := k.(quarantined := g, unavailableAfterQuarantine := false);
      } else if k.unavailableAfterQuarantine && g != k.quarantined {
        held := false;
      }
      seats := seats[w := k];
    }

    method SetWorkerDrainIneligible(w: Id, on: bool, now: int) returns (known: bool)
      requires Inv(options, View())
      modifies this
      ensures (View(), known) == Fence(options, old(View()), w, on, now)
      ensures (on && w in old(seats) ==> old(seats)[w].ticket.None?) ==> Inv(options, View())
    {
      hide Inv, Pump;
      if on && w in seats ==> seats[w].ticket.None? {
        FenceInv(options, View(), w, on, now);
      }
      if w !in seats {
        return false;
      }
      seats := seats[w := seats[w].(fenced := on)];
      if on {
        seats := seats[w := seats[w].(ready := false, idleSince := None)];
        BumpProbeEpoch(w);
      }
      assert seats == old(seats)[w := FenceSeat(old(seats)[w], on)];
      PumpQueue(now);
      return true;
    }

    method ConfirmWorkerGeneration(id: Id, version: int, observed: Option<Gen>, now: int) returns (confirmed: bool)
      requires Inv(options, View())
      modifies this
      ensures (View(), confirmed) == Confirm(old(View()), id, version, observed, now)
      ensures Inv(options, View())
    {
      hide Inv, End;
      ConfirmInv(options, View(), id, version, observed, now);
      if id !in tickets || tickets[id].phase != Active || tickets[id].version != version || tickets[id].seat.None? {
        return false;
      }
      var w := tickets[id].seat.value;
      if w !in seats || seats[w].ticket != Some(id) {
        return false;
      }
      BumpProbeEpoch(w);
      if observed.Some? && observed == tickets[id].generation {
        seats := seats[w := seats[w].(generation := observed)];
        assert seats == old(seats)[w := old(seats)[w].(epoch := old(seats)[w].epoch + 1, generation := observed)];
        return true;
      }
      if observed.Some? {
        tickets := tickets[id := tickets[id].(generation := observed)];
        seats := seats[w := seats[w].(generation := observed)];
      } else {
        seats := seats[w := seats[w].(requiresUnavailable := true, quarantined := None, unavailableAfterQuarantine := false)];
      }
      ghost var k := old(seats)[w].(epoch := old(seats)[w].epoch + 1);
      assert seats == old(seats)[w := if observed.Some? then k.(generation := observed)
                                      else k.(requiresUnavailable := true, quarantined := None, unavailableAfterQuarantine := false)];
      EndTicket(id, WorkerUnavailable, now);
      return false;
    }

    // -------------------------------------------------------------- browser attachments

    method Reserve(id: Id, now: int) returns (lease: Option<Lease>)
      requires Inv(options, View())
      modifies this
      ensures (View(), lease) == ReserveAttachment(options, old(View()), id, now)
      ensures Inv(options, View())
    {
      hide Inv, Sweep, Edit, End;
      ReserveAttachmentInv(options, View(), id, now);
      SweepAll(now);
      if id !in tickets || tickets[id].seat.None? || tickets[id].phase == Ended || tickets[id].pending.Some? {
        return None;
      }
      if tickets[id].attempts >= MAX_CONNECTION_ATTEMPTS {
        EndTicket(id, RateLimited, now);
        return None;
      }
      var t := tickets[id];
      t := t.(attempts := t.attempts + 1, nextVersion := t.nextVersion + 1);
      UpdateTicket(id, t.(pending := Some(t.nextVersion), pendingAt := Some(now)));
      return Some(Lease(t.nextVersion, t.version));
    }

    method Activate(id: Id, version: int, now: int) returns (done: bool)
      requires Inv(options, View())
      modifies this
      ensures (View(), done) == ActivateAttachment(old(View()), id, version, now)
      ensures Inv(options, View())
    {
      hide Inv, Edit;
      AttachmentInv(options, View(), id, version, 0, now);
      if id !in tickets || tickets[id].seat.None? || tickets[id].phase == Ended || tickets[id].pending != Some(version) {
        return false;
      }
      var t := tickets[id].(pending := None, pendingAt := None);
      if t.phase == Admitted {
        t := t.(phase := Active, startedAt := Some(now));
      }
      UpdateTicket(id, t.(lastActivityAt := Some(now), disconnectedAt := None, version := version));
      return true;
    }

    method MarkStarted(id: Id, version: int) returns (done: bool)
      requires Inv(options, View())
      modifies this
      ensures (View(), done) == MarkConnectionStarted(old(View()), id, version)
      ensures Inv(options, View())
    {
      hide Inv, Edit;
      AttachmentInv(options, View(), id, version, 0, 0);
      if id !in tickets || tickets[id].phase != Active || tickets[id].version != version || tickets[id].seat.None? {
        return false;
      }
      UpdateTicket(id, tickets[id].(exposed := true));
      return true;
    }

    method RollBack(id: Id, version: int, previous: int)
      requires Inv(options, View())
      modifies this
      ensures View() == Rollback(old(View()), id, version, previous)
      ensures Inv(options, View())
    {
      hide Inv, Edit;
      AttachmentInv(options, View(), id, version, previous, 0);
      if id in tickets && tickets[id].phase == Active && tickets[id].version == version && previous > 0 {
        UpdateTicket(id, tickets[id].(version := previous));
      }
    }

    method Cancel(id: Id, version: int)
      requires Inv(options, View())
      modifies this
      ensures View() == CancelAttachment(old(View()), id, version)
      ensures Inv(options, View())
    {
      hide Inv, Edit;
      AttachmentInv(options, View(), id, version, 0, 0);
      if id in tickets && tickets[id].pending == Some(version) {
        UpdateTicket(id, tickets[id].(pending := None, pendingAt := None));
      }
    }

    method TouchTicket(id: Id, now: int)
      requires Inv(options, View())
      modifies this
      ensures View() == Touch(old(View()), id, now)
      ensures Inv(options, View())
    {
      hide Inv;
      AttachmentInv(options, View(), id, 0, 0, now);
      if id in tickets && tickets[id].phase == Active {
        tickets := tickets[id := tickets[id].(lastActivityAt := Some(now))];
      }
    }

    method DetachBrowser(id: Id, version: int, now: int)
      requires Inv(options, View())
      modifies this
      ensures View() == Detach(old(View()), id, version, now)
      ensures Inv(options, View())
    {
      hide Inv, Edit;
      AttachmentInv(options, View(), id, version, 0, now);
      if id in tickets && tickets[id].phase == Active && tickets[id].version == version {
        UpdateTicket(id, tickets[id].(disconnectedAt := Some(now)));
      }
    }

    method AuthorizeResearch(id: Id, now: int) returns (outcome: Authorization)
      requires Inv(options, View())
      modifies this
      ensures (View(), outcome) == Authorize(options, old(View()), id, now)
      ensures Inv(options, View())
    {
      hide Inv, Sweep;
      AuthorizeInv(options, View(), id, now);
      SweepAll(now);
      if id !in tickets || tickets[id].phase != Active {
        return SessionUnavailable;
      }
      if tickets[id].runs >= options.maxRuns {
        return ResearchLimitReached;
      }
      ghost var swept := tickets;
      tickets := tickets[id := tickets[id].(runs := tickets[id].runs + 1)];
      tickets := tickets[id := tickets[id].(lastActivityAt := Some(now))];
      assert tickets == swept[id := swept[id].(runs := swept[id].runs + 1, lastActivityAt := Some(now))];
      return Allowed(options.maxRuns - tickets[id].runs);
    }

    // -------------------------------------------------------------- persistence

    method RestoreTickets(saved: Saved, now: int)
      requires OrderedMap(saved.order, saved.tickets)
      modifies this`tickets, this`order, this`visitors
      ensures tickets == RestoredUpTo(saved, |saved.order|, now)
      ensures order == saved.order && visitors == RebuildVisitors(saved.order, tickets)
    {
      hide RestoredTicket, RebuildVisitors, RestoredUpTo;
      RestoredNone(saved, now);
      tickets, order, visitors := map[], [], map[];
      for i := 0 to |saved.order|
        invariant tickets == RestoredUpTo(saved, i, now)
        invariant order == saved.order[..i]
        invariant visitors == RebuildVisitors(saved.order[..i], RestoredUpTo(saved, |saved.order|, now))
      {
        var id := saved.order[i];
        RestoredNext(saved, i, now);
        var t := RestoredTicket(saved.tickets[id], now);
        tickets := tickets[id := t];
        order := order + [id];
        if t.phase != Ended {
          visitors := visitors[t.visitor := id];
        }
      }
      assert saved.order[..|saved.order|] == saved.order;
    }

    method RestoreQueue(saved: seq<Id>)
      modifies this`queue
      ensures queue == Keep(saved, Waiting(tickets))
    {
      queue := [];
      for i := 0 to |saved|
        invariant queue == Keep(saved[..i], Waiting(tickets))
      {
        KeepNext(saved, i, Waiting(tickets));
        if saved[i] in tickets && tickets[saved[i]].phase == Queued {
          queue := queue + [saved[i]];
        }
      }
      assert saved[..|saved|] == saved;
    }

    method RestoreSeats(saved: map<Id, SavedSeat>, now: int)
      requires saved.Keys == Elems(options.seats)
      modifies this`seats
      ensures seats == map w | w in saved :: RestoredSeat(saved[w], now)
    {
      hide RestoredSeat;
      seats := map[];
      for i := 0 to |options.seats|
        invariant seats == map w | w in options.seats[..i] && w in saved :: RestoredSeat(saved[w], now)
      {
        var w := options.seats[i];
        assert options.seats[..i + 1] == options.seats[..i] + [w];
        assert w in Elems(options.seats);
        seats := seats[w := RestoredSeat(saved[w], now)];
      }
      assert options.seats[..|options.seats|] == options.seats;
      assert forall w :: w in saved <==> w in options.seats;
    }

    /** Load what a previous process persisted; nothing changes when it does not fit the configuration. */
    method LoadState(saved: Saved, now: int) returns (loaded: bool)
      requires OrderedMap(saved.order, saved.tickets)
      requires saved.reserved >= 0 && saved.seats.Keys == Elems(options.seats) ==> Inv(options, Reload(saved, now))
      modifies this
      ensures loaded <==> Restore(options, saved, now).Some?
      ensures View() == if loaded then Restore(options, saved, now).value else old(View())
      ensures loaded ==> Inv(options, View())
    {
      hide Inv, Sweep, Reload;
      if saved.seats.Keys != (set w | w in options.seats) || saved.reserved < 0 {
        assert (set w | w in options.seats) == Elems(options.seats);
        return false;
      }
      RestoreTickets(saved, now);
      RestoreQueue(saved.queue);
      RestoreSeats(saved.seats, now);
      day, reserved := saved.day, saved.reserved;
      RestoredAll(saved, now);
      LoadedParts(saved, now, View());
      SweepInv(options, View(), now);
      SweepAll(now);
      return true;
    }

    /** What is written after every operation. */
    function ExportState(): Saved
      reads this
    {
      Saved(day, reserved, queue, order, tickets, map w | w in seats :: SaveSeat(seats[w]))
    }

    /** A process that exports its state and one that loads it agree on everything that matters. */
    lemma ExportLoads(now: int)
      requires Inv(options, View())
      ensures ExportState() == Export(View())
      ensures OrderedMap(ExportState().order, ExportState().tickets)
      ensures Inv(options, Reload(ExportState(), now)) && Restore(options, ExportState(), now).Some?
    {
      ReloadInv(options, View(), now);
      assert Export(View()).seats.Keys == Elems(options.seats);
    }
  }

  /** A health report starts from the seat record it is given, whatever the stored one says. */
  lemma HealthIgnoresSeatRecord(was: State, s: State, w: Id, g: Option<Gen>, now: int)
    requires w in was.seats && w in s.seats && s == was.(seats := was.seats[w := s.seats[w]])
    ensures ApplyHealth(s, w, s.seats[w], g, now) == ApplyHealth(was, w, s.seats[w], g, now)
  {
    hide Freed, MarkIdle;
    SameOverwrite(was.seats, s.seats, w);
  }

  /** The first `n` persisted tickets, restored. */
  ghost function RestoredUpTo(saved: Saved, n: nat, now: int): map<Id, Ticket>
    requires n <= |saved.order|
  {
    map id | id in saved.order[..n] && id in saved.tickets :: RestoredTicket(saved.tickets[id], now)
  }

  lemma RestoredNone(saved: Saved, now: int)
    ensures RestoredUpTo(saved, 0, now) == map[]
    ensures forall tickets :: RebuildVisitors(saved.order[..0], tickets) == map[]
  {
  }

  lemma RestoredNext(saved: Saved, n: nat, now: int)
    requires OrderedMap(saved.order, saved.tickets) && n < |saved.order|
    ensures var id, whole := saved.order[n], RestoredUpTo(saved, |saved.order|, now);
            id in saved.tickets &&
            var t := RestoredTicket(saved.tickets[id], now);
            && RestoredUpTo(saved, n + 1, now) == RestoredUpTo(saved, n, now)[id := t]
            && RebuildVisitors(saved.order[..n + 1], whole)
                 == (if t.phase != Ended then RebuildVisitors(saved.order[..n], whole)[t.visitor := id]
                     else RebuildVisitors(saved.order[..n], whole))
  {
    hide RestoredTicket;
    var id := saved.order[n];
    assert id in saved.order && id in saved.tickets;
    assert saved.order[..n + 1] == saved.order[..n] + [id];
    RestoredAll(saved, now);
    RebuildNext(saved.order[..n], id, RestoredUpTo(saved, |saved.order|, now));
  }

  lemma RebuildNext(order: seq<Id>, id: Id, tickets: map<Id, Ticket>)
    requires id in tickets
    ensures RebuildVisitors(order + [id], tickets)
              == (if tickets[id].Live() then RebuildVisitors(order, tickets)[tickets[id].visitor := id]
                  else RebuildVisitors(order, tickets))
  {
    assert (order + [id])[..|order|] == order;
  }

  lemma RestoredAll(saved: Saved, now: int)
    requires OrderedMap(saved.order, saved.tickets)
    ensures RestoredUpTo(saved, |saved.order|, now) == map id | id in saved.tickets :: RestoredTicket(saved.tickets[id], now)
  {
    assert saved.order[..|saved.order|] == saved.order;
  }

  lemma SameOverwrite(a: map<Id, Seat>, b: map<Id, Seat>, w: Id)
    requires w in a && w in b && b == a[w := b[w]]
    ensures forall k: Seat {:trigger b[w := k]} :: b[w := k] == a[w := k]
  {
  }

  lemma LoadedParts(saved: Saved, now: int, s: State)
    requires saved.reserved >= 0
    requires s.tickets == (map id | id in saved.tickets :: RestoredTicket(saved.tickets[id], now))
    requires s.order == saved.order && s.visitors == RebuildVisitors(saved.order, s.tickets)
    requires s.queue == Keep(saved.queue, Waiting(s.tickets))
    requires s.seats == (map w | w in saved.seats :: RestoredSeat(saved.seats[w], now))
    requires s.day == saved.day && s.reserved == saved.reserved
    ensures s == Reload(saved, now)
  {
    hide RestoredTicket, RestoredSeat, RebuildVisitors, Keep, Waiting;
    var r := Reload(saved, now);
    assert r.tickets == s.tickets && r.seats == s.seats;
    assert r.visitors == s.visitors && r.queue == s.queue;
  }

  lemma DiscardKeeps(was: State, dead: set<Id>, id: Id)
    requires id in was.tickets && id !in dead
    ensures id in Discard(was, dead).tickets && Discard(was, dead).tickets[id] == was.tickets[id]
  {
  }

  lemma SelectNext(ids: seq<Id>, i: nat, chosen: set<Id>)
    requires NoDup(ids) && i < |ids|
    ensures ids[i] !in chosen * Elems(ids[..i])
    ensures chosen * Elems(ids[..i + 1]) == chosen * Elems(ids[..i]) + (if ids[i] in chosen then {ids[i]} else {})
  {
    assert ids[..i + 1] == ids[..i] + [ids[i]];
  }

  lemma KeepNext(ids: seq<Id>, i: nat, wanted: set<Id>)
    requires i < |ids|
    ensures Keep(ids[..i + 1], wanted) == Keep(ids[..i], wanted) + (if ids[i] in wanted then [ids[i]] else [])
  {
    assert ids[..i + 1] == ids[..i] + [ids[i]];
    KeepConcat(ids[..i], [ids[i]], wanted);
  }

  lemma DiscardNothing(was: State)
    requires OrderedMap(was.order, was.tickets)
    ensures Discard(was, {}) == was
  {
    KeepAll(was.order, was.tickets.Keys);
    assert was.tickets - {} == was.tickets && was.tickets.Keys - {} == was.tickets.Keys;
  }
}
