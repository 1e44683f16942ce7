/**
  What no ordinary operation of the seat coordinator touches: drain fences, the fact that a seat's
  process is known, and, outside health reports and handshakes, any free seat that is not ready.
 */
module SessionFences {
  import opened Common
  import opened SessionModel
  import opened SessionInvariant
  import opened SessionRuns

  ghost predicate SeatKeepsFence(k: Seat, k': Seat) {
    k'.fenced == k.fenced && (k.generation.Some? ==> k'.generation.Some?)
  }

  /** Every seat keeps its fence, and its process stays known. */
  ghost predicate KeepsFences(s: State, s': State) {
    s'.seats.Keys == s.seats.Keys && forall w :: w in s.seats ==> SeatKeepsFence(s.seats[w], s'.seats[w])
  }

  /** A free seat that cannot be assigned. */
  ghost predicate Resting(k: Seat) {
    k.ticket.None? && !k.ready
  }

  ghost predicate LeavesResting(s: State, s': State) {
    && KeepsFences(s, s')
    && forall w :: w in s.seats && Resting(s.seats[w]) ==> s'.seats[w] == s.seats[w]
  }

  lemma LeavesRestingChain(a: State, b: State, c: State)
    requires LeavesResting(a, b) && LeavesResting(b, c)
    ensures LeavesResting(a, c)
  {
  }

  lemma OneSeatLeaves(s: State, s': State, w: Id)
    requires w in s.seats && w in s'.seats && s'.seats == s.seats[w := s'.seats[w]]
    requires !Resting(s.seats[w]) && SeatKeepsFence(s.seats[w], s'.seats[w])
    ensures LeavesResting(s, s')
  {
  }

  lemma EndLeaves(s: State, id: Id, reason: EndReason, now: int)
    requires id in s.tickets
    ensures LeavesResting(s, End(s, id, reason, now))
  {
    var s' := End(s, id, reason, now);
    if s.tickets[id].Live() && Seated(s, id) {
      var w := s.tickets[id].seat.value;
      OneSeatLeaves(s, s', w);
    }
  }

  lemma EditLeaves(s: State, id: Id, t: Ticket)
    requires id in s.tickets && t.seat == s.tickets[id].seat
    ensures LeavesResting(s, Edit(s, id, t))
  {
    if Seated(s, id) {
      OneSeatLeaves(s, Edit(s, id, t), t.seat.value);
    }
  }

  lemma AssignLeaves(o: Options, s: State, w: Id, id: Id, now: int)
    requires w in s.seats && s.seats[w].ready && id in s.tickets
    ensures LeavesResting(s, Assign(o, s, w, id, now))
  {
    OneSeatLeaves(s, Assign(o, s, w, id, now), w);
  }

  lemma {:induction false} PumpSeatsLeaves(o: Options, s: State, ws: seq<Id>, now: int)
    ensures LeavesResting(s, PumpSeats(o, s, ws, now))
    decreases |ws|
  {
    hide LeavesResting, End;
    SameSeatsLeave(s, s);
    if ws == [] {
    } else if ws[0] !in s.seats || !s.seats[ws[0]].Assignable() {
      PumpSeatsLeaves(o, s, ws[1..], now);
    } else if s.queue != [] {
      var id := s.queue[0];
      var s1 := s.(queue := s.queue[1..]);
      SameSeatsLeave(s, s1);
      if id !in s.tickets || s.tickets[id].phase != Queued {
        PumpSeatsLeaves(o, s1, ws[1..], now);
        LeavesRestingChain(s, s1, PumpSeats(o, s1, ws[1..], now));
      } else {
        var s2 := if s.reserved + o.Reservation() > o.dailyBudget then End(s1, id, DailyBudgetExhausted, now)
                  else Assign(o, s1, ws[0], id, now);
        EndLeaves(s1, id, DailyBudgetExhausted, now);
        AssignLeaves(o, s1, ws[0], id, now);
        PumpSeatsLeaves(o, s2, ws[1..], now);
        LeavesRestingChain(s, s1, s2);
        LeavesRestingChain(s, s2, PumpSeats(o, s2, ws[1..], now));
      }
    }
  }

  lemma SameSeatsLeave(s: State, s': State)
    requires s'.seats == s.seats
    ensures LeavesResting(s, s')
  {
  }

  lemma PumpLeaves(o: Options, s: State, now: int)
    ensures LeavesResting(s, Pump(o, s, now))
  {
    SameSeatsLeave(s, CleanQueue(s));
    PumpSeatsLeaves(o, CleanQueue(s), o.seats, now);
    hide LeavesResting;
    LeavesRestingChain(s, CleanQueue(s), Pump(o, s, now));
  }

  lemma SweepOneLeaves(o: Options, s: State, id: Id, now: int)
    requires id in s.tickets
    ensures LeavesResting(s, SweepOne(o, s, id, now))
  {
    hide LeavesResting, End, Edit, Verdict, ReservationLapsed;
    var t := s.tickets[id];
    var t1 := t.(pending := None, pendingAt := None);
    var s1 := if ReservationLapsed(o, t, now) then Edit(s, id, t1) else s;
    SameSeatsLeave(s, s);
    EditLeaves(s, id, t1);
    if Verdict(o, t, now).Some? {
      assert id in s1.tickets by { EditHasId(s, id, t1); }
      EndLeaves(s1, id, Verdict(o, t, now).value, now);
      LeavesRestingChain(s, s1, End(s1, id, Verdict(o, t, now).value, now));
    }
  }

  lemma EditHasId(s: State, id: Id, t: Ticket)
    requires id in s.tickets && t.seat == s.tickets[id].seat
    ensures id in Edit(s, id, t).tickets
  {
  }

  lemma {:induction false} SweepTicketsLeaves(o: Options, s: State, ids: seq<Id>, now: int)
    ensures LeavesResting(s, SweepTickets(o, s, ids, now))
    decreases |ids|
  {
    hide LeavesResting, SweepOne;
    SameSeatsLeave(s, s);
    if ids != [] {
      if ids[0] !in s.tickets {
        SweepTicketsLeaves(o, s, ids[1..], now);
      } else {
        var s1 := SweepOne(o, s, ids[0], now);
        SweepOneLeaves(o, s, ids[0], now);
        SweepTicketsLeaves(o, s1, ids[1..], now);
        LeavesRestingChain(s, s1, SweepTickets(o, s1, ids[1..], now));
      }
    }
  }

  /** A sweep leaves every free seat that is not ready exactly as it was. */
  lemma SweepLeaves(o: Options, s: State, now: int)
    ensures LeavesResting(s, Sweep(o, s, now))
  {
    hide LeavesResting, Pump;
    var s1 := SweepTickets(o, s, s.order, now);
    SweepTicketsLeaves(o, s, s.order, now);
    var s2 := Prune(ResetBudget(s1, now), now);
    SameSeatsLeave(s1, s2);
    PumpLeaves(o, s2, now);
    LeavesRestingChain(s, s1, s2);
    LeavesRestingChain(s, s2, Pump(o, s2, now));
  }

  lemma AdmitLeaves(o: Options, s: State, visitor: Id, id: Id, now: int)
    ensures LeavesResting(s, Admit(o, s, visitor, id, now).0)
  {
    hide LeavesResting, Pump, Sweep;
    var s1 := Sweep(o, s, now);
    SweepLeaves(o, s, now);
    if !HasLiveTicket(s1, visitor) {
      var s2 := s1.(visitors := s1.visitors - {visitor});
      SameSeatsLeave(s1, s2);
      LeavesRestingChain(s, s1, s2);
      if |s2.queue| < o.maxQueue {
        var s3 := Enlist(o, s2, visitor, id, now);
        SameSeatsLeave(s2, s3);
        PumpLeaves(o, s3, now);
        LeavesRestingChain(s, s2, s3);
        LeavesRestingChain(s, s3, Pump(o, s3, now));
      }
    }
  }

  lemma ReserveLeaves(o: Options, s: State, id: Id, now: int)
    ensures LeavesResting(s, ReserveAttachment(o, s, id, now).0)
  {
    hide LeavesResting, Sweep, End, Edit;
    var s1 := Sweep(o, s, now);
    SweepLeaves(o, s, now);
    if id in s1.tickets {
      var t := s1.tickets[id];
      var t' := t.(attempts := t.attempts + 1, nextVersion := t.nextVersion + 1,
                   pending := Some(t.nextVersion + 1), pendingAt := Some(now));
      EndLeaves(s1, id, RateLimited, now);
      EditLeaves(s1, id, t');
      LeavesRestingChain(s, s1, End(s1, id, RateLimited, now));
      LeavesRestingChain(s, s1, Edit(s1, id, t'));
    }
  }

  lemma AttachmentLeaves(s: State, id: Id, version: int, previous: int, now: int)
    ensures LeavesResting(s, ActivateAttachment(s, id, version, now).0)
    ensures LeavesResting(s, MarkConnectionStarted(s, id, version).0)
    ensures LeavesResting(s, Rollback(s, id, version, previous))
    ensures LeavesResting(s, CancelAttachment(s, id, version))
    ensures LeavesResting(s, Detach(s, id, version, now))
    ensures LeavesResting(s, Touch(s, id, now))
  {
    SameSeatsLeave(s, Touch(s, id, now));
    hide LeavesResting, Edit, Activated;
    SameSeatsLeave(s, s);
    if id in s.tickets {
      var t := s.tickets[id];
      assert Activated(t, version, now).seat == t.seat by { ActivatedSeat(t, version, now); }
      EditLeaves(s, id, Activated(t, version, now));
      EditLeaves(s, id, t.(exposed := true));
      EditLeaves(s, id, t.(version := previous));
      EditLeaves(s, id, t.(pending := None, pendingAt := None));
      EditLeaves(s, id, t.(disconnectedAt := Some(now)));
    }
  }

  lemma ActivatedSeat(t: Ticket, version: int, now: int)
    ensures Activated(t, version, now).seat == t.seat
  {
  }

  // ---------------------------------------------------------------- health reports and handshakes

  lemma KeepsFencesChain(a: State, b: State, c: State)
    requires KeepsFences(a, b) && KeepsFences(b, c)
    ensures KeepsFences(a, c)
  {
  }

  lemma PutKeepsFences(s: State, s': State, w: Id)
    requires w in s.seats && w in s'.seats && s'.seats == s.seats[w := s'.seats[w]] && SeatKeepsFence(s.seats[w], s'.seats[w])
    ensures KeepsFences(s, s')
  {
  }

  lemma EndedKeepsFences(s: State, w: Id, k: Seat, id: Id, now: int)
    requires w in s.seats && SeatKeepsFence(s.seats[w], k) && id in s.tickets
    ensures KeepsFences(s, End(s.(seats := s.seats[w := k]), id, WorkerUnavailable, now))
  {
    var s1 := s.(seats := s.seats[w := k]);
    PutKeepsFences(s, s1, w);
    EndLeaves(s1, id, WorkerUnavailable, now);
    hide End;
    KeepsFencesChain(s, s1, End(s1, id, WorkerUnavailable, now));
  }

  lemma IdleKeepsFences(s: State, s2: State, w: Id, k: Seat, g: Gen, now: int)
    requires w in s.seats && w in s2.seats && KeepsFences(s, s2) && SeatKeepsFence(s2.seats[w], k)
    ensures KeepsFences(s, s2.(seats := s2.seats[w := MarkIdle(k, g, now)]))
  {
    MarkIdleKeepsFence(k, g, now);
    hide MarkIdle;
    PutKeepsFences(s2, s2.(seats := s2.seats[w := MarkIdle(k, g, now)]), w);
    KeepsFencesChain(s, s2, s2.(seats := s2.seats[w := MarkIdle(k, g, now)]));
  }

  lemma ApplyHealthKeepsFences(s: State, w: Id, k: Seat, g: Option<Gen>, now: int)
    requires w in s.seats && SeatKeepsFence(s.seats[w], k)
    ensures KeepsFences(s, ApplyHealth(s, w, k, g, now))
  {
    hide End, MarkIdle;
    var dim := k.(ready := false, idleSince := None);
    PutKeepsFences(s, s.(seats := s.seats[w := dim]), w);
    PutKeepsFences(s, s.(seats := s.seats[w := k]), w);
    if g.Some? {
      PutKeepsFences(s, s.(seats := s.seats[w := k.(generation := g)]), w);
      IdleKeepsFences(s, s, w, k, g.value, now);
      IdleKeepsFences(s, s, w, k.(ticket := None), g.value, now);
    }
    if k.ticket.Some? && k.ticket.value in s.tickets {
      EndedKeepsFences(s, w, dim, k.ticket.value, now);
      EndedKeepsFences(s, w, k, k.ticket.value, now);
      if g.Some? {
        var s2 := End(s.(seats := s.seats[w := k]), k.ticket.value, WorkerUnavailable, now);
        IdleKeepsFences(s, s2, w, s2.seats[w], g.value, now);
      }
    }
    hide KeepsFences;
  }

  lemma MarkIdleKeepsFence(k: Seat, g: Gen, now: int)
    ensures SeatKeepsFence(k, MarkIdle(k, g, now))
  {
  }

  lemma QuarantineKeepsFence(k: Seat, up: bool, g: Option<Gen>)
    ensures Quarantine(k, up, g).Some? ==> SeatKeepsFence(k, Quarantine(k, up, g).value)
    ensures SeatKeepsFence(k, PassedQuarantine(k))
  {
  }

  lemma ReportSeatKeepsFences(s: State, w: Id, up: bool, g: Option<Gen>, now: int)
    requires w in s.seats
    ensures KeepsFences(s, ReportSeat(s, w, up, g, now))
  {
    hide ApplyHealth, Quarantine, PassedQuarantine, KeepsFences;
    var k := s.seats[w].(epoch := s.seats[w].epoch + 1);
    QuarantineKeepsFence(k, up, g);
    if !s.seats[w].fenced {
      ApplyHealthKeepsFences(s, w, k, if up then g else None, now);
      ApplyHealthKeepsFences(s, w, PassedQuarantine(k), if up then g else None, now);
    }
    if s.seats[w].fenced || (k.requiresUnavailable && Quarantine(k, up, g).Some?) {
      PutKeepsFences(s, ReportSeat(s, w, up, g, now), w);
    }
  }

  lemma ReportKeepsFences(o: Options, s: State, w: Id, up: bool, g: Option<Gen>, epoch: Option<nat>, now: int)
    ensures KeepsFences(s, Report(o, s, w, up, g, epoch, now).0)
  {
    hide ReportSeat, Pump;
    if w in s.seats {
      ReportSeatKeepsFences(s, w, up, g, now);
      PumpLeaves(o, ReportSeat(s, w, up, g, now), now);
      KeepsFencesChain(s, ReportSeat(s, w, up, g, now), Pump(o, ReportSeat(s, w, up, g, now), now));
    }
  }

  lemma ConfirmKeepsFences(s: State, id: Id, version: int, observed: Option<Gen>, now: int)
    ensures KeepsFences(s, Confirm(s, id, version, observed, now).0)
  {
    if CurrentConnection(s, id, version) && Seated(s, id) {
      var w := s.tickets[id].seat.value;
      hide Freed;
      var s' := Confirm(s, id, version, observed, now).0;
      FreedKeepsFence();
      PutKeepsFences(s, s', w);
    }
  }

  lemma FreedKeepsFence()
    ensures forall k, t, reason, now {:trigger Freed(k, t, reason, now)} :: SeatKeepsFence(k, Freed(k, t, reason, now))
  {
  }

  // ---------------------------------------------------------------- restarts and whole runs

  /** A restart takes every seat out of service and keeps everything else known about a free one. */
  lemma RestoreLeaves(o: Options, s: State, now: int)
    requires s.seats.Keys == Elems(o.seats)
    ensures var r := Restore(o, Export(s), now);
            r.Some? && KeepsFences(s, r.value)
            && forall w :: w in s.seats && s.seats[w].ticket.None? ==>
                 Resting(r.value.seats[w]) && r.value.seats[w].generation == s.seats[w].generation
  {
    assert Export(s).seats.Keys == s.seats.Keys;
    var r := Reload(Export(s), now);
    forall w | w in s.seats
      ensures w in r.seats && SeatKeepsFence(s.seats[w], r.seats[w]) && r.seats[w].generation == s.seats[w].generation
      ensures s.seats[w].ticket.None? ==> Resting(r.seats[w])
    {
      assert r.seats[w] == RestoredSeat(SaveSeat(s.seats[w]), now);
    }
    assert r.seats.Keys == s.seats.Keys;
    hide Reload, Sweep;
    SweepLeaves(o, r, now);
    KeepsFencesChain(s, r, Sweep(o, r, now));
  }

  /** No operation of the coordinator, other than setting one, changes a fence. */
  lemma StepKeepsFences(o: Options, s: State, e: Event, now: int)
    requires !e.SetFence? && s.seats.Keys == Elems(o.seats)
    ensures KeepsFences(s, Step(o, s, e, now))
  {
    hide Admit, Report, Confirm, ReserveAttachment, ActivateAttachment, MarkConnectionStarted,
         Rollback, CancelAttachment, Touch, Detach, End, Sweep, Restore;
    match e
    case Arrive(visitor, id) => AdmitLeaves(o, s, visitor, id, now);
    case Health(w, up, g, epoch) => ReportKeepsFences(o, s, w, up, g, epoch, now);
    case Handshake(id, v, g) => ConfirmKeepsFences(s, id, v, g, now);
    case Reserve(id) => ReserveLeaves(o, s, id, now);
    case Activate(id, v) => AttachmentLeaves(s, id, v, 0, now);
    case MarkStarted(id, v) => AttachmentLeaves(s, id, v, 0, now);
    case RollBack(id, v, previous) => AttachmentLeaves(s, id, v, previous, now);
    case Cancel(id, v) => AttachmentLeaves(s, id, v, 0, now);
    case Activity(id) => AttachmentLeaves(s, id, 0, 0, now);
    case Research(id) => SweepLeaves(o, s, now);
    case Disconnect(id, v) => AttachmentLeaves(s, id, v, 0, now);
    case Kick(id, reason) => if id in s.tickets { EndLeaves(s, id, reason, now); }
    case Maintain => SweepLeaves(o, s, now);
    case Restart => RestoreLeaves(o, s, now);
  }

  ghost predicate SetsNoFence(run: seq<Timed>) {
    forall i :: 0 <= i < |run| ==> !run[i].event.SetFence? && !run[i].event.Restart?
  }

  lemma {:induction false} RunKeepsFences(o: Options, s: State, issued: set<Id>, run: seq<Timed>)
    requires Inv(o, s) && s.tickets.Keys <= issued && PermittedRun(o, s, issued, run) && SetsNoFence(run)
    ensures KeepsFences(s, Run(o, s, run))
    decreases |run|
  {
    hide Inv, Step;
    if run == [] {
    } else {
      var e, now := run[0].event, run[0].now;
      var s1 := Step(o, s, e, now);
      assert s.seats.Keys == Elems(o.seats) by { SeatKeys(o, s); }
      StepKeepsFences(o, s, e, now);
      StepInv(o, s, issued, e, now);
      StepAdvances(o, s, issued, e, now);
      RunKeepsFences(o, s1, IssuedBy(issued, e), run[1..]);
      KeepsFencesChain(s, s1, Run(o, s1, run[1..]));
    }
  }

  lemma SeatKeys(o: Options, s: State)
    requires Inv(o, s)
    ensures s.seats.Keys == Elems(o.seats)
  {
  }
}
