/**
  The daily research budget over whole runs. An audit kept beside the coordinator records every
  ticket that has held a seat since the last budget reset, with the research runs authorized for it
  since then; pruned tickets stay in it. The coordinator's single counter is proved to be exactly one
  full reservation per audited ticket, so what it authorizes can never outspend the budget.
 */
module SessionBudget {
  import opened Common
  import opened Sums
  import opened SessionModel
  import opened SessionInvariant
  import opened SessionRuns

  // ---------------------------------------------------------------- the audit

  datatype Audit = Audit(runs: map<Id, nat>, authorized: nat)

  /** Tickets seated since the audit was last brought up to date enter it with no runs. */
  ghost function Charge(a: Audit, s: State): Audit {
    a.(runs := a.runs + map id | id in Holding(s.tickets) - a.runs.Keys :: 0)
  }

  /** A new day starts a new audit with the tickets whose reservation is carried over. */
  ghost function Renew(s: State, now: int, a: Audit): Audit {
    if UtcDay(now) == s.day then a
    else Audit(map id | id in Holding(s.tickets) :: 0, 0)
  }

  ghost function AuditSweep(o: Options, s: State, now: int, a: Audit): Audit {
    Charge(Renew(SweepTickets(o, s, s.order, now), now, a), Sweep(o, s, now))
  }

  ghost function AuditStep(o: Options, s: State, e: Event, now: int, a: Audit): Audit {
    var s' := Step(o, s, e, now);
    match e
    case Arrive(_, _) => Charge(AuditSweep(o, s, now, a), s')
    case Health(_, _, _, _) => Charge(a, s')
    case SetFence(_, _) => Charge(a, s')
    case Reserve(_) => AuditSweep(o, s, now, a)
    case Maintain => AuditSweep(o, s, now, a)
    case Research(id) =>
      var a1 := AuditSweep(o, s, now, a);
      if Authorize(o, s, id, now).1.Allowed? && id in a1.runs
      then Audit(a1.runs[id := a1.runs[id] + 1], a1.authorized + 1)
      else a1
    case Restart => AuditSweep(o, Reload(Export(s), now), now, a)
    case _ => a
  }

  ghost predicate Charged(o: Options, s: State, issued: set<Id>, a: Audit) {
    && Holding(s.tickets) <= a.runs.Keys <= issued
    && s.tickets.Keys <= issued
    && a.runs.Keys !! Waiting(s.tickets)
    && (forall id :: id in a.runs ==> a.runs[id] <= o.maxRuns)
    && (forall id :: id in Holding(s.tickets) ==> a.runs[id] <= s.tickets[id].runs)
    && a.authorized == Sum(a.runs)
  }

  ghost predicate Balanced(o: Options, s: State, a: Audit) {
    s.reserved == |a.runs| * o.Reservation() <= o.dailyBudget
  }

  ghost predicate BudgetInv(o: Options, s: State, issued: set<Id>, a: Audit) {
    Charged(o, s, issued, a) && Balanced(o, s, a)
  }

  /** Ending, pruning and editing tickets leave the books alone. */
  lemma QuietKeepsBudget(o: Options, s: State, s': State, issued: set<Id>, a: Audit)
    requires BudgetInv(o, s, issued, a)
    requires s'.reserved == s.reserved && s'.tickets.Keys <= s.tickets.Keys
    requires Holding(s'.tickets) <= Holding(s.tickets) && Waiting(s'.tickets) <= Waiting(s.tickets)
    requires forall id :: id in Holding(s'.tickets) ==> id in s.tickets && s.tickets[id].runs <= s'.tickets[id].runs
    ensures BudgetInv(o, s', issued, a)
  {
  }

  lemma ChargeNothing(a: Audit, s: State)
    requires Holding(s.tickets) <= a.runs.Keys
    ensures Charge(a, s) == a
  {
    assert Holding(s.tickets) - a.runs.Keys == {};
    assert (a.runs + map id | id in Holding(s.tickets) - a.runs.Keys :: 0) == a.runs;
  }

  lemma AssignCharged(o: Options, s: State, s': State, id: Id, issued: set<Id>, a: Audit)
    requires Charged(o, s, issued, a) && id in Waiting(s.tickets) && id in s'.tickets
    requires s'.tickets == s.tickets[id := s'.tickets[id]] && s'.tickets[id].Holder()
    ensures id !in a.runs
    ensures Charged(o, s', issued, a.(runs := a.runs[id := 0]))
    ensures Charge(a, s') == a.(runs := a.runs[id := 0])
  {
    assert Waiting(s'.tickets) == Waiting(s.tickets) - {id};
    assert Holding(s'.tickets) == Holding(s.tickets) + {id};
    SumAdd(a.runs, id, 0);
    hide Sum;
    assert Holding(s'.tickets) - a.runs.Keys == {id};
    assert (a.runs + map x | x in Holding(s'.tickets) - a.runs.Keys :: 0) == a.runs[id := 0];
  }

  lemma AssignBalanced(o: Options, s: State, s': State, id: Id, a: Audit)
    requires Balanced(o, s, a) && id !in a.runs
    requires s'.reserved == s.reserved + o.Reservation() <= o.dailyBudget
    ensures Balanced(o, s', a.(runs := a.runs[id := 0]))
  {
    hide Options.Reservation;
    PutSize(a.runs, id, 0);
    OneMore(|a.runs|, o.Reservation());
  }

  lemma AssignBudget(o: Options, s: State, w: Id, id: Id, rest: seq<Id>, now: int, issued: set<Id>, a: Audit)
    requires BudgetInv(o, s, issued, a) && id in s.tickets && s.tickets[id].phase == Queued && w in s.seats
    requires s.reserved + o.Reservation() <= o.dailyBudget
    ensures var s' := Assign(o, s.(queue := rest), w, id, now);
            BudgetInv(o, s', issued, a.(runs := a.runs[id := 0]))
            && Charge(a, s') == a.(runs := a.runs[id := 0])
  {
    var s' := Assign(o, s.(queue := rest), w, id, now);
    hide Options.Reservation, Charged, Charge, Balanced;
    AssignCharged(o, s, s', id, issued, a);
    AssignBalanced(o, s, s', id, a);
  }

  lemma OneMore(n: nat, r: nat)
    ensures (n + 1) * r == n * r + r
  {
  }

  lemma {:induction false} PumpKeepsHolders(o: Options, s: State, ws: seq<Id>, now: int)
    ensures Holding(s.tickets) <= Holding(PumpSeats(o, s, ws, now).tickets)
    decreases |ws|
  {
    if ws == [] {
    } else if ws[0] !in s.seats || !s.seats[ws[0]].Assignable() {
      PumpKeepsHolders(o, s, ws[1..], now);
    } else if s.queue != [] {
      var id := s.queue[0];
      var s1 := s.(queue := s.queue[1..]);
      if id !in s.tickets || s.tickets[id].phase != Queued {
        PumpKeepsHolders(o, s1, ws[1..], now);
      } else if s.reserved + o.Reservation() > o.dailyBudget {
        PumpKeepsHolders(o, End(s1, id, DailyBudgetExhausted, now), ws[1..], now);
        assert Holding(s.tickets) <= Holding(End(s1, id, DailyBudgetExhausted, now).tickets);
      } else {
        PumpKeepsHolders(o, Assign(o, s1, ws[0], id, now), ws[1..], now);
        assert Holding(s.tickets) <= Holding(Assign(o, s1, ws[0], id, now).tickets);
      }
    }
  }

  lemma ChargeTwice(a: Audit, s1: State, s2: State)
    requires Holding(s1.tickets) <= Holding(s2.tickets)
    ensures Charge(Charge(a, s1), s2) == Charge(a, s2)
  {
    assert Charge(Charge(a, s1), s2).runs == Charge(a, s2).runs;
  }

  lemma EndSelections(s: State, id: Id, reason: EndReason, now: int)
    requires id in s.tickets
    ensures var s' := End(s, id, reason, now);
            && Holding(s'.tickets) <= Holding(s.tickets) && Waiting(s'.tickets) <= Waiting(s.tickets)
            && (forall x :: x in Holding(s'.tickets) ==> x in s.tickets && s'.tickets[x] == s.tickets[x])
            && s'.reserved == s.reserved && s'.tickets.Keys == s.tickets.Keys
  {
    hide Freed;
  }

  lemma EndBudget(o: Options, s: State, id: Id, reason: EndReason, now: int, issued: set<Id>, a: Audit)
    requires BudgetInv(o, s, issued, a) && id in s.tickets
    ensures BudgetInv(o, End(s, id, reason, now), issued, a)
  {
    hide BudgetInv, End, Holding, Waiting;
    EndSelections(s, id, reason, now);
    HoldingKnown(End(s, id, reason, now).tickets);
    QuietKeepsBudget(o, s, End(s, id, reason, now), issued, a);
  }

  lemma HoldingKnown(tickets: map<Id, Ticket>)
    ensures forall x :: x in Holding(tickets) ==> x in tickets
  {
  }

  lemma {:induction false} PumpSeatsBudget(o: Options, s: State, ws: seq<Id>, now: int, issued: set<Id>, a: Audit)
    requires BudgetInv(o, s, issued, a)
    ensures BudgetInv(o, PumpSeats(o, s, ws, now), issued, Charge(a, PumpSeats(o, s, ws, now)))
    decreases |ws|
  {
    if ws == [] || (ws[0] in s.seats && s.seats[ws[0]].Assignable() && s.queue == []) {
      ChargeNothing(a, s);
    } else if ws[0] !in s.seats || !s.seats[ws[0]].Assignable() {
      hide BudgetInv, Charge;
      PumpSeatsBudget(o, s, ws[1..], now, issued, a);
    } else {
      var id, rest := s.queue[0], s.queue[1..];
      var s1 := s.(queue := rest);
      assert BudgetInv(o, s1, issued, a);
      hide BudgetInv, Charge;
      if id !in s.tickets || s.tickets[id].phase != Queued {
        PumpSeatsBudget(o, s1, ws[1..], now, issued, a);
      } else if s.reserved + o.Reservation() > o.dailyBudget {
        EndBudget(o, s1, id, DailyBudgetExhausted, now, issued, a);
        PumpSeatsBudget(o, End(s1, id, DailyBudgetExhausted, now), ws[1..], now, issued, a);
      } else {
        var s2 := Assign(o, s1, ws[0], id, now);
        AssignBudget(o, s, ws[0], id, rest, now, issued, a);
        PumpSeatsBudget(o, s2, ws[1..], now, issued, Charge(a, s2));
        PumpKeepsHolders(o, s2, ws[1..], now);
        ChargeTwice(a, s2, PumpSeats(o, s2, ws[1..], now));
      }
    }
  }

  lemma PumpBudget(o: Options, s: State, now: int, issued: set<Id>, a: Audit)
    requires BudgetInv(o, s, issued, a)
    ensures BudgetInv(o, Pump(o, s, now), issued, Charge(a, Pump(o, s, now)))
  {
    assert BudgetInv(o, CleanQueue(s), issued, a);
    hide BudgetInv, Charge;
    PumpSeatsBudget(o, CleanQueue(s), o.seats, now, issued, a);
  }

  // ---------------------------------------------------------------- the reset

  /** Carrying the outstanding reservations into a new day: one full reservation per seat holder. */
  lemma {:induction false} CarriedOverCounts(order: seq<Id>, tickets: map<Id, Ticket>, r: nat)
    requires forall id :: id in Holding(tickets) ==> tickets[id].reserved == r
    ensures CarriedOver(order, tickets) == |Keep(order, Holding(tickets))| * r
  {
    if order != [] {
      CarriedOverCounts(order[1..], tickets, r);
      OneMore(|Keep(order[1..], Holding(tickets))|, r);
    }
  }

  lemma {:induction false} DistinctCount(s: seq<Id>)
    requires NoDup(s)
    ensures |Elems(s)| == |s|
  {
    if s != [] {
      DistinctCount(s[1..]);
      assert Elems(s) == {s[0]} + Elems(s[1..]);
      assert s[0] !in s[1..];
    }
  }

  lemma HoldersCount(order: seq<Id>, tickets: map<Id, Ticket>)
    requires OrderedMap(order, tickets)
    ensures |Keep(order, Holding(tickets))| == |Holding(tickets)|
  {
    KeepElems(order, Holding(tickets));
    KeepNoDup(order, Holding(tickets));
    DistinctCount(Keep(order, Holding(tickets)));
    assert Elems(Keep(order, Holding(tickets))) == Holding(tickets);
  }

  lemma ResetCarriesHolders(o: Options, s: State, now: int)
    requires Inv(o, s) && UtcDay(now) != s.day
    ensures ResetBudget(s, now).reserved == |Holding(s.tickets)| * o.Reservation()
  {
    assert OrderedMap(s.order, s.tickets);
    hide Inv, Options.Reservation, OrderedMap;
    forall id | id in Holding(s.tickets) ensures s.tickets[id].reserved == o.Reservation() {
      InvTicket(o, s, id);
    }
    hide TicketOk;
    CarriedOverCounts(s.order, s.tickets, o.Reservation());
    HoldersCount(s.order, s.tickets);
  }

  lemma ResetBooks(o: Options, s: State, now: int, issued: set<Id>, a: Audit)
    requires Inv(o, s) && BudgetInv(o, s, issued, a)
    ensures BudgetInv(o, ResetBudget(s, now), issued, Renew(s, now, a))
  {
    hide Inv, CarriedOver, Options.Reservation;
    if UtcDay(now) != s.day {
      ResetCarriesHolders(o, s, now);
      var h := Holding(s.tickets);
      var a' := Renew(s, now, a);
      assert a'.runs.Keys == h;
      SumZeros(a'.runs);
      Smaller(h, a.runs.Keys, o.Reservation());
    }
  }

  lemma Smaller(x: set<Id>, y: set<Id>, r: nat)
    requires x <= y
    ensures |x| * r <= |y| * r
  {
    assert y == x + (y - x);
    assert |y| == |x| + |y - x|;
    assert |y| * r == |x| * r + |y - x| * r;
  }

  lemma {:induction false} SweepTicketsBudget(o: Options, s: State, ids: seq<Id>, now: int, issued: set<Id>, a: Audit)
    requires BudgetInv(o, s, issued, a)
    ensures BudgetInv(o, SweepTickets(o, s, ids, now), issued, a)
    decreases |ids|
  {
    hide BudgetInv, SweepOne;
    if ids == [] {
    } else if ids[0] !in s.tickets {
      SweepTicketsBudget(o, s, ids[1..], now, issued, a);
    } else {
      SweepOneBudget(o, s, ids[0], now, issued, a);
      SweepTicketsBudget(o, SweepOne(o, s, ids[0], now), ids[1..], now, issued, a);
    }
  }

  lemma EditBudget(o: Options, s: State, id: Id, t: Ticket, issued: set<Id>, a: Audit)
    requires BudgetInv(o, s, issued, a) && id in s.tickets && SamePlace(s.tickets[id], t) && s.tickets[id].runs <= t.runs
    ensures BudgetInv(o, Edit(s, id, t), issued, a)
  {
    var s' := Edit(s, id, t);
    SelectionsUnchanged(s.tickets, id, t);
    assert s'.tickets == s.tickets[id := t] && s'.reserved == s.reserved;
    hide BudgetInv, Edit;
    QuietKeepsBudget(o, s, s', issued, a);
  }

  lemma SweepOneBudget(o: Options, s: State, id: Id, now: int, issued: set<Id>, a: Audit)
    requires BudgetInv(o, s, issued, a) && id in s.tickets
    ensures BudgetInv(o, SweepOne(o, s, id, now), issued, a)
  {
    hide BudgetInv, End, Edit, Verdict, ReservationLapsed;
    var t := s.tickets[id];
    var t1 := t.(pending := None, pendingAt := None);
    var s1 := if ReservationLapsed(o, t, now) then Edit(s, id, t1) else s;
    EditBudget(o, s, id, t1, issued, a);
    EditKeys(s, id, t1);
    match Verdict(o, t, now)
    case Some(reason) => EndBudget(o, s1, id, reason, now, issued, a);
    case None =>
  }

  lemma EditKeys(s: State, id: Id, t: Ticket)
    requires id in s.tickets && t.seat == s.tickets[id].seat
    ensures Edit(s, id, t).tickets == s.tickets[id := t]
  {
  }

  lemma PruneBudget(o: Options, s: State, now: int, issued: set<Id>, a: Audit)
    requires BudgetInv(o, s, issued, a)
    ensures BudgetInv(o, Prune(s, now), issued, a)
  {
    var s' := Prune(s, now);
    hide BudgetInv, Stale, Excess;
    assert Holding(s'.tickets) <= Holding(s.tickets) && Waiting(s'.tickets) <= Waiting(s.tickets);
    QuietKeepsBudget(o, s, s', issued, a);
  }

  lemma SweepBudget(o: Options, s: State, now: int, issued: set<Id>, a: Audit)
    requires Inv(o, s) && BudgetInv(o, s, issued, a)
    ensures BudgetInv(o, Sweep(o, s, now), issued, AuditSweep(o, s, now, a))
  {
    hide Inv, BudgetInv, Charge, Renew, ResetBudget, Prune, Pump;
    var s1 := SweepTickets(o, s, s.order, now);
    SweepTicketsInv(o, s, s.order, now);
    SweepTicketsBudget(o, s, s.order, now, issued, a);
    ResetBooks(o, s1, now, issued, a);
    PruneBudget(o, ResetBudget(s1, now), now, issued, Renew(s1, now, a));
    PumpBudget(o, Prune(ResetBudget(s1, now), now), now, issued, Renew(s1, now, a));
  }

  // ---------------------------------------------------------------- every operation keeps the books

  lemma EnlistBudget(o: Options, s: State, visitor: Id, id: Id, now: int, issued: set<Id>, a: Audit)
    requires BudgetInv(o, s, issued, a) && id !in issued
    ensures BudgetInv(o, Enlist(o, s, visitor, id, now), issued + {id}, a)
  {
    var s' := Enlist(o, s, visitor, id, now);
    assert Holding(s'.tickets) == Holding(s.tickets) && Waiting(s'.tickets) == Waiting(s.tickets) + {id};
    hide Options.Reservation, Sum;
  }

  lemma AdmitBudget(o: Options, s: State, visitor: Id, id: Id, now: int, issued: set<Id>, a: Audit)
    requires Inv(o, s) && BudgetInv(o, s, issued, a) && id !in issued
    ensures BudgetInv(o, Admit(o, s, visitor, id, now).0, issued + {id}, AuditStep(o, s, Arrive(visitor, id), now, a))
  {
    hide Inv, BudgetInv, Sweep, AuditSweep, Pump, Charge, Enlist;
    var s1, a1 := Sweep(o, s, now), AuditSweep(o, s, now, a);
    SweepInv(o, s, now);
    SweepBudget(o, s, now, issued, a);
    IssueMore(o, s1, issued, id, a1);
    HoldersAudited(o, s1, issued, a1);
    ChargeNothing(a1, s1);
    if !HasLiveTicket(s1, visitor) {
      NoIndexNoTicket(o, s1, visitor);
      assert s1.(visitors := s1.visitors - {visitor}) == s1;
      if |s1.queue| < o.maxQueue {
        EnlistBudget(o, s1, visitor, id, now, issued, a1);
        PumpBudget(o, Enlist(o, s1, visitor, id, now), now, issued + {id}, a1);
      }
    }
  }

  lemma IssueMore(o: Options, s: State, issued: set<Id>, id: Id, a: Audit)
    requires BudgetInv(o, s, issued, a)
    ensures BudgetInv(o, s, issued + {id}, a)
  {
  }

  lemma HoldersAudited(o: Options, s: State, issued: set<Id>, a: Audit)
    requires BudgetInv(o, s, issued, a)
    ensures Holding(s.tickets) <= a.runs.Keys
  {
  }

  lemma ReportBudget(o: Options, s: State, w: Id, up: bool, g: Option<Gen>, epoch: Option<nat>, now: int, issued: set<Id>, a: Audit)
    requires Inv(o, s) && BudgetInv(o, s, issued, a)
    ensures var s' := Report(o, s, w, up, g, epoch, now).0; BudgetInv(o, s', issued, Charge(a, s'))
  {
    hide Inv, BudgetInv, Pump, ReportSeat, Charge;
    HoldersAudited(o, s, issued, a);
    ChargeNothing(a, s);
    if w in s.seats {
      var s1 := ReportSeat(s, w, up, g, now);
      ReportSeatShape(o, s, w, up, g, now);
      ReportReserved(s, w, up, g, now);
      HealthQuiet(s, w, s1, g, now);
      QuietKeepsBudget(o, s, s1, issued, a);
      PumpBudget(o, s1, now, issued, a);
    }
  }

  lemma ReportReserved(s: State, w: Id, up: bool, g: Option<Gen>, now: int)
    requires w in s.seats
    ensures ReportSeat(s, w, up, g, now).reserved == s.reserved
  {
    hide MarkIdle, Freed, Quarantine, PassedQuarantine;
  }

  lemma HealthQuiet(s: State, w: Id, s': State, g: Option<Gen>, now: int)
    requires HealthShape(s, w, s', g, now)
    ensures s'.tickets.Keys == s.tickets.Keys
    ensures Holding(s'.tickets) <= Holding(s.tickets) && Waiting(s'.tickets) <= Waiting(s.tickets)
    ensures forall id :: id in Holding(s'.tickets) ==> id in s.tickets && s.tickets[id].runs <= s'.tickets[id].runs
  {
  }

  lemma ConfirmBudget(o: Options, s: State, id: Id, version: int, observed: Option<Gen>, now: int, issued: set<Id>, a: Audit)
    requires BudgetInv(o, s, issued, a)
    ensures BudgetInv(o, Confirm(s, id, version, observed, now).0, issued, a)
  {
    hide BudgetInv, Freed;
    var s' := Confirm(s, id, version, observed, now).0;
    assert Holding(s'.tickets) <= Holding(s.tickets) && Waiting(s'.tickets) <= Waiting(s.tickets);
    assert forall x :: x in Holding(s'.tickets) ==> s'.tickets[x] == s.tickets[x];
    QuietKeepsBudget(o, s, s', issued, a);
  }

  lemma ReserveBudget(o: Options, s: State, id: Id, now: int, issued: set<Id>, a: Audit)
    requires Inv(o, s) && BudgetInv(o, s, issued, a)
    ensures BudgetInv(o, ReserveAttachment(o, s, id, now).0, issued, AuditSweep(o, s, now, a))
  {
    hide Inv, BudgetInv, Sweep, AuditSweep, Edit, End;
    var s1, a1 := Sweep(o, s, now), AuditSweep(o, s, now, a);
    SweepBudget(o, s, now, issued, a);
    if id in s1.tickets {
      var t := s1.tickets[id];
      var v := t.nextVersion + 1;
      EndBudget(o, s1, id, RateLimited, now, issued, a1);
      EditBudget(o, s1, id, t.(attempts := t.attempts + 1, nextVersion := v, pending := Some(v), pendingAt := Some(now)), issued, a1);
    }
  }

  lemma AttachmentBudget(o: Options, s: State, id: Id, version: int, previous: int, now: int, issued: set<Id>, a: Audit)
    requires Inv(o, s) && BudgetInv(o, s, issued, a)
    ensures BudgetInv(o, ActivateAttachment(s, id, version, now).0, issued, a)
    ensures BudgetInv(o, MarkConnectionStarted(s, id, version).0, issued, a)
    ensures BudgetInv(o, Rollback(s, id, version, previous), issued, a)
    ensures BudgetInv(o, CancelAttachment(s, id, version), issued, a)
    ensures BudgetInv(o, Detach(s, id, version, now), issued, a)
    ensures BudgetInv(o, Touch(s, id, now), issued, a)
  {
    hide Inv, BudgetInv, Edit, TicketOk;
    if id in s.tickets {
      var t := s.tickets[id];
      EditBudget(o, s, id, t.(pending := None, pendingAt := None), issued, a);
      EditBudget(o, s, id, t.(exposed := true), issued, a);
      EditBudget(o, s, id, t.(version := previous), issued, a);
      EditBudget(o, s, id, t.(disconnectedAt := Some(now)), issued, a);
      EditBudget(o, s, id, Activated(t, version, now), issued, a);
      TouchBudget(o, s, id, now, issued, a);
    }
  }

  lemma TouchBudget(o: Options, s: State, id: Id, now: int, issued: set<Id>, a: Audit)
    requires BudgetInv(o, s, issued, a)
    ensures BudgetInv(o, Touch(s, id, now), issued, a)
  {
    hide BudgetInv;
    var s' := Touch(s, id, now);
    if s' != s {
      SelectionsUnchanged(s.tickets, id, s'.tickets[id]);
    }
    QuietKeepsBudget(o, s, s', issued, a);
  }

  lemma AuthorizeBudget(o: Options, s: State, id: Id, now: int, issued: set<Id>, a: Audit)
    requires Inv(o, s) && BudgetInv(o, s, issued, a)
    ensures BudgetInv(o, Authorize(o, s, id, now).0, issued, AuditStep(o, s, Research(id), now, a))
    ensures Authorize(o, s, id, now).1.Allowed? ==> id in AuditSweep(o, s, now, a).runs
  {
    hide Inv, BudgetInv, Sweep, AuditSweep;
    var s1, a1 := Sweep(o, s, now), AuditSweep(o, s, now, a);
    SweepBudget(o, s, now, issued, a);
    if Authorize(o, s, id, now).1.Allowed? {
      AuthorizeOne(o, s1, Authorize(o, s, id, now).0, id, issued, a1);
    }
  }

  lemma AuthorizeOne(o: Options, s: State, s': State, id: Id, issued: set<Id>, a: Audit)
    requires BudgetInv(o, s, issued, a) && id in s.tickets && s.tickets[id].Holder() && s.tickets[id].runs < o.maxRuns
    requires id in s'.tickets && s'.tickets == s.tickets[id := s'.tickets[id]] && s'.reserved == s.reserved
    requires s'.tickets[id].phase == s.tickets[id].phase && s'.tickets[id].runs == s.tickets[id].runs + 1
    ensures id in a.runs && BudgetInv(o, s', issued, Audit(a.runs[id := a.runs[id] + 1], a.authorized + 1))
  {
    hide Options.Reservation, Sum;
    SelectionsUnchanged(s.tickets, id, s'.tickets[id]);
    assert id in Holding(s.tickets);
    SumIncrement(a.runs, id);
    assert a.runs[id := a.runs[id] + 1].Keys == a.runs.Keys;
    SameSize(a.runs, a.runs[id := a.runs[id] + 1]);
  }

  lemma SameSize(m: map<Id, nat>, m': map<Id, nat>)
    requires m.Keys == m'.Keys
    ensures |m| == |m'|
  {
    assert |m| == |m.Keys| && |m'| == |m'.Keys|;
  }

  lemma RestartBudget(o: Options, s: State, now: int, issued: set<Id>, a: Audit)
    requires Inv(o, s) && BudgetInv(o, s, issued, a)
    ensures Restore(o, Export(s), now).Some?
    ensures BudgetInv(o, Restore(o, Export(s), now).value, issued, AuditSweep(o, Reload(Export(s), now), now, a))
  {
    var s1 := Reload(Export(s), now);
    hide Inv, BudgetInv, Sweep, AuditSweep;
    ReloadInv(o, s, now);
    RestoreInv(o, s, now);
    ReloadQuiet(s, now);
    hide Reload;
    QuietKeepsBudget(o, s, s1, issued, a);
    SweepBudget(o, s1, now, issued, a);
  }

  lemma ReloadQuiet(s: State, now: int)
    ensures var s1 := Reload(Export(s), now);
            s1.reserved == s.reserved && s1.tickets.Keys == s.tickets.Keys
            && Holding(s1.tickets) == Holding(s.tickets) && Waiting(s1.tickets) == Waiting(s.tickets)
            && forall id :: id in s.tickets ==> s1.tickets[id].runs == s.tickets[id].runs
  {
    hide RebuildVisitors;
    var s1 := Reload(Export(s), now);
    assert forall id :: id in s.tickets ==> s1.tickets[id] == RestoredTicket(s.tickets[id], now);
  }

  lemma FenceBudget(o: Options, s: State, w: Id, on: bool, now: int, issued: set<Id>, a: Audit)
    requires BudgetInv(o, s, issued, a)
    ensures var s' := Fence(o, s, w, on, now).0; BudgetInv(o, s', issued, Charge(a, s'))
  {
    hide BudgetInv, Pump, Charge, FenceSeat;
    HoldersAudited(o, s, issued, a);
    ChargeNothing(a, s);
    if w in s.seats {
      var s1 := s.(seats := s.seats[w := FenceSeat(s.seats[w], on)]);
      QuietKeepsBudget(o, s, s1, issued, a);
      PumpBudget(o, s1, now, issued, a);
    }
  }

  lemma StepBudget(o: Options, s: State, issued: set<Id>, e: Event, now: int, a: Audit)
    requires Inv(o, s) && BudgetInv(o, s, issued, a) && s.tickets.Keys <= issued && Permitted(s, issued, e)
    ensures BudgetInv(o, Step(o, s, e, now), IssuedBy(issued, e), AuditStep(o, s, e, now, a))
  {
    hide Inv, BudgetInv, Charge, Admit, Report, Fence, Confirm, ReserveAttachment, ActivateAttachment, MarkConnectionStarted,
         Rollback, CancelAttachment, Touch, Authorize, Detach, End, Sweep, Restore, AuditSweep, Reload;
    match e
    case Arrive(visitor, id) => AdmitBudget(o, s, visitor, id, now, issued, a);
    case Health(w, up, g, epoch) => ReportBudget(o, s, w, up, g, epoch, now, issued, a);
    case SetFence(w, on) => FenceBudget(o, s, w, on, now, issued, a);
    case Handshake(id, v, g) => ConfirmBudget(o, s, id, v, g, now, issued, a);
    case Reserve(id) => ReserveBudget(o, s, id, now, issued, a);
    case Activate(id, v) => AttachmentBudget(o, s, id, v, 0, now, issued, a);
    case MarkStarted(id, v) => AttachmentBudget(o, s, id, v, 0, now, issued, a);
    case RollBack(id, v, previous) => AttachmentBudget(o, s, id, v, previous, now, issued, a);
    case Cancel(id, v) => AttachmentBudget(o, s, id, v, 0, now, issued, a);
    case Activity(id) => AttachmentBudget(o, s, id, 0, 0, now, issued, a);
    case Research(id) => AuthorizeBudget(o, s, id, now, issued, a);
    case Disconnect(id, v) => AttachmentBudget(o, s, id, v, 0, now, issued, a);
    case Kick(id, reason) => if id in s.tickets { EndBudget(o, s, id, reason, now, issued, a); }
    case Maintain => SweepBudget(o, s, now, issued, a);
    case Restart => RestartBudget(o, s, now, issued, a);
  }

  // ---------------------------------------------------------------- the promise

  ghost function AuditRun(o: Options, s: State, run: seq<Timed>, a: Audit): Audit
    decreases |run|
  {
    if run == [] then a
    else AuditRun(o, Step(o, s, run[0].event, run[0].now), run[1..], AuditStep(o, s, run[0].event, run[0].now, a))
  }

  lemma {:induction false} RunBudget(o: Options, s: State, issued: set<Id>, run: seq<Timed>, a: Audit)
    requires Inv(o, s) && BudgetInv(o, s, issued, a) && s.tickets.Keys <= issued && PermittedRun(o, s, issued, run)
    ensures BudgetInv(o, Run(o, s, run), IssuedIn(issued, run), AuditRun(o, s, run, a))
    decreases |run|
  {
    hide Inv, BudgetInv, Step, AuditStep, Advances;
    if run != [] {
      var e, now := run[0].event, run[0].now;
      StepInv(o, s, issued, e, now);
      StepAdvances(o, s, issued, e, now);
      StepBudget(o, s, issued, e, now, a);
      RunBudget(o, Step(o, s, e, now), IssuedBy(issued, e), run[1..], AuditStep(o, s, e, now, a));
    }
  }

  /**
    At any point of any run, the research runs authorized since the last budget reset, each at its
    full reservation, are covered by what the coordinator has reserved, and that by the daily budget.
    Tickets carried across midnight and tickets already pruned are accounted for.
   */
  lemma ResearchWithinBudget(o: Options, now0: int, run: seq<Timed>)
    requires o.Valid() && PermittedRun(o, Init(o, now0), {}, run)
    ensures var s := Run(o, Init(o, now0), run);
            AuditRun(o, Init(o, now0), run, Audit(map[], 0)).authorized * o.perRun <= s.reserved <= o.dailyBudget
  {
    hide Run, AuditRun, Inv, BudgetInv, PermittedRun, Init;
    var s0, a0 := Init(o, now0), Audit(map[], 0);
    InitInv(o, now0);
    InitBudget(o, now0);
    RunBudget(o, s0, {}, run, a0);
    BooksCoverRuns(o, Run(o, s0, run), IssuedIn({}, run), AuditRun(o, s0, run, a0));
  }

  lemma InitBudget(o: Options, now0: int)
    requires o.Valid()
    ensures BudgetInv(o, Init(o, now0), {}, Audit(map[], 0)) && Init(o, now0).tickets == map[]
  {
    hide Options.Reservation;
    var none: map<Id, nat> := map[];
    SumZeros(none);
    assert |none| == 0;
  }

  lemma BooksCoverRuns(o: Options, s: State, issued: set<Id>, a: Audit)
    requires BudgetInv(o, s, issued, a)
    ensures a.authorized * o.perRun <= s.reserved <= o.dailyBudget
  {
    hide Sum;
    SumBounded(a.runs, o.maxRuns);
    Scaled(a.authorized, |a.runs|, o.maxRuns, o.perRun);
  }

  lemma Scaled(total: nat, n: nat, maxRuns: nat, perRun: nat)
    requires total <= n * maxRuns
    ensures total * perRun <= n * (maxRuns * perRun)
  {
    assert (n * maxRuns - total) * perRun >= 0;
  }
}
