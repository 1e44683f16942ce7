/**
  Public seat admission, after server/public-session-coordinator.ts.

  Visitors hold tickets, tickets wait in a queue for seats, and a seat is one replaceable worker
  process. This module gives every operation of the coordinator as a function on values; module
  SessionCoordinator updates the same state in place and is proved equal to these functions.

  One operation reads the clock once. Identifiers and process generations are opaque.
 */
module SessionModel {
  import opened Common
  import opened Sorting

  /** The generation of a worker process, as reported by its health probe. */
  type Gen = nat

  datatype Options = Options(
    seats: seq<Id>,
    maxQueue: nat,
    ticketTtl: int,
    grace: int,
    idleLimit: int,
    absoluteLimit: int,
    maxRuns: nat,
    dailyBudget: nat,
    perRun: nat)
  {
    /** The constructor rejects everything else. */
    ghost predicate Valid() {
      && |seats| > 0 && NoDup(seats)
      && maxQueue > 0 && ticketTtl > 0 && grace > 0 && idleLimit > 0 && absoluteLimit > 0
      && maxRuns > 0 && dailyBudget > 0 && perRun > 0
    }

    /** What one admitted ticket reserves of the daily budget. */
    function Reservation(): nat {
      maxRuns * perRun
    }
  }

  datatype Phase = Queued | Admitted | Active | Ended

  datatype EndReason =
    | TicketExpired | NoShow | IdleTimeout | AbsoluteTimeout | DisconnectTimeout
    | WorkerUnavailable | RateLimited | ProtocolViolation | DailyBudgetExhausted

  datatype Ticket = Ticket(
    visitor: Id,
    phase: Phase,
    createdAt: int,
    ticketExpiresAt: int,
    seat: Option<Id>,
    generation: Option<Gen>,
    assignedAt: Option<int>,
    startedAt: Option<int>,
    lastActivityAt: Option<int>,
    disconnectedAt: Option<int>,
    version: int,
    nextVersion: int,
    pending: Option<int>,
    pendingAt: Option<int>,
    attempts: int,
    exposed: bool,  // workerConnectionStarted: the worker may hold this visitor's state
    runs: nat,
    reserved: nat,
    endedAt: Option<int>,
    endReason: Option<EndReason>)
  {
    predicate Live() { phase != Ended }

    /** Admitted or active: the ticket holds a seat. */
    predicate Holder() { phase == Admitted || phase == Active }
  }

  datatype Seat = Seat(
    ready: bool,
    ticket: Option<Id>,
    generation: Option<Gen>,
    replacementOf: Option<Gen>,
    requiresUnavailable: bool,
    quarantined: Option<Gen>,
    unavailableAfterQuarantine: bool,
    epoch: nat,
    idleSince: Option<int>,
    fenced: bool)  // drainIneligible
  {
    predicate Assignable() { ready && ticket.None? && !fenced }
  }

  /** `order` is the insertion order of the ticket map; `queue` may still name ended tickets between operations. */
  datatype State = State(
    seats: map<Id, Seat>,
    tickets: map<Id, Ticket>,
    order: seq<Id>,
    visitors: map<Id, Id>,
    queue: seq<Id>,
    day: int,
    reserved: nat)

  const RETENTION_MS := 120_000
  const MAX_CONNECTION_ATTEMPTS := 32
  const MAX_TOMBSTONES := 1_000

  function EmptySeat(): Seat {
    Seat(false, None, None, None, false, None, false, 0, None, false)
  }

  function Init(o: Options, now: int): State {
    State(map w | w in o.seats :: EmptySeat(), map[], [], map[], [], UtcDay(now), 0)
  }

  // ---------------------------------------------------------------- selections of tickets

  function Waiting(tickets: map<Id, Ticket>): set<Id> {
    set id | id in tickets && tickets[id].phase == Queued
  }

  function Holding(tickets: map<Id, Ticket>): set<Id> {
    set id | id in tickets && tickets[id].Holder()
  }

  function Finished(tickets: map<Id, Ticket>): set<Id> {
    set id | id in tickets && tickets[id].phase == Ended
  }

  // ---------------------------------------------------------------- elementary updates

  function BumpSeat(s: State, w: Id): State
    requires w in s.seats
  {
    s.(seats := s.seats[w := s.seats[w].(epoch := s.seats[w].epoch + 1)])
  }

  predicate Seated(s: State, id: Id)
    requires id in s.tickets
  {
    var t := s.tickets[id];
    t.seat.Some? && t.seat.value in s.seats && s.seats[t.seat.value].ticket == Some(id)
  }

  /** Replace a ticket's record and invalidate the probes in flight for its seat. */
  function Edit(s: State, id: Id, t: Ticket): State
    requires id in s.tickets && t.seat == s.tickets[id].seat
  {
    var s1 := s.(tickets := s.tickets[id := t]);
    if Seated(s1, id) then BumpSeat(s1, t.seat.value) else s1
  }

  /** The seat after its ticket ended: recycled, returned to service, or held until a healthy probe. */
  function Freed(k: Seat, t: Ticket, reason: EndReason, now: int): Seat {
    var k := k.(ticket := None, epoch := k.epoch + 1);
    if t.exposed then
      k.(ready := false, idleSince := None,
         replacementOf := if t.generation.Some? then t.generation else k.generation)
    else if reason != WorkerUnavailable then
      k.(ready := true, idleSince := Some(now), replacementOf := None)
    else
      k.(ready := false, idleSince := None, replacementOf := None)
  }

  function EndedTicket(t: Ticket, reason: EndReason, now: int): Ticket {
    t.(phase := Ended, endReason := Some(reason), endedAt := Some(now), pending := None, pendingAt := None)
  }

  function End(s: State, id: Id, reason: EndReason, now: int): State
    requires id in s.tickets
  {
    var t := s.tickets[id];
    if t.phase == Ended then s
    else
      var s1 := s.(tickets := s.tickets[id := EndedTicket(t, reason, now)], visitors := s.visitors - {t.visitor});
      if Seated(s, id) then
        s1.(seats := s.seats[t.seat.value := Freed(s.seats[t.seat.value], t, reason, now)])
      else s1
  }

  // ---------------------------------------------------------------- assignment

  function Assign(o: Options, s: State, w: Id, id: Id, now: int): State
    requires w in s.seats && id in s.tickets
  {
    var k := s.seats[w];
    s.(tickets := s.tickets[id := s.tickets[id].(
                    phase := Admitted, seat := Some(w), generation := k.generation,
                    assignedAt := Some(now), reserved := o.Reservation())],
       seats := s.seats[w := k.(ticket := Some(id), ready := false, idleSince := None, epoch := k.epoch + 1)],
       reserved := s.reserved + o.Reservation())
  }

  /** Hand the head of the queue to each assignable seat in turn, in configuration order. */
  function PumpSeats(o: Options, s: State, ws: seq<Id>, now: int): State
    decreases |ws|
  {
    if ws == [] then s
    else if ws[0] !in s.seats || !s.seats[ws[0]].Assignable() then PumpSeats(o, s, ws[1..], now)
    else if s.queue == [] then s
    else
      var id := s.queue[0];
      var s1 := s.(queue := s.queue[1..]);
      if id !in s.tickets || s.tickets[id].phase != Queued then PumpSeats(o, s1, ws[1..], now)
      else if s.reserved + o.Reservation() > o.dailyBudget then
        PumpSeats(o, End(s1, id, DailyBudgetExhausted, now), ws[1..], now)
      else PumpSeats(o, Assign(o, s1, ws[0], id, now), ws[1..], now)
  }

  function CleanQueue(s: State): State {
    s.(queue := Keep(s.queue, Waiting(s.tickets)))
  }

  function Pump(o: Options, s: State, now: int): State {
    PumpSeats(o, CleanQueue(s), o.seats, now)
  }

  // ---------------------------------------------------------------- sweep

  predicate ReservationLapsed(o: Options, t: Ticket, now: int) {
    t.pending.Some? && t.pendingAt.Some? && now - t.pendingAt.value >= o.grace
  }

  /** The reason for which a sweep ends this ticket, if any. */
  function Verdict(o: Options, t: Ticket, now: int): Option<EndReason> {
    if t.phase == Queued && now >= t.ticketExpiresAt then Some(TicketExpired)
    else if t.phase == Admitted && t.assignedAt.Some? then
      if now - t.assignedAt.value >= o.grace then Some(NoShow) else None
    else if t.phase != Active || t.startedAt.None? then None
    else if now - t.startedAt.value >= o.absoluteLimit then Some(AbsoluteTimeout)
    else if t.disconnectedAt.Some? then
      if now - t.disconnectedAt.value >= o.grace then Some(DisconnectTimeout) else None
    else if t.lastActivityAt.Some? && now - t.lastActivityAt.value >= o.idleLimit then Some(IdleTimeout)
    else None
  }

  function SweepOne(o: Options, s: State, id: Id, now: int): State
    requires id in s.tickets
  {
    var t := s.tickets[id];
    var s1 := if ReservationLapsed(o, t, now) then Edit(s, id, t.(pending := None, pendingAt := None)) else s;
    match Verdict(o, t, now)
    case Some(reason) => End(s1, id, reason, now)
    case None => s1
  }

  function SweepTickets(o: Options, s: State, ids: seq<Id>, now: int): State
    decreases |ids|
  {
    if ids == [] then s
    else if ids[0] !in s.tickets then SweepTickets(o, s, ids[1..], now)
    else SweepTickets(o, SweepOne(o, s, ids[0], now), ids[1..], now)
  }

  /** The reservations still outstanding, which a new day inherits. */
  function CarriedOver(order: seq<Id>, tickets: map<Id, Ticket>): nat {
    if order == [] then 0
    else (if order[0] in tickets && tickets[order[0]].Holder() then tickets[order[0]].reserved else 0)
         + CarriedOver(order[1..], tickets)
  }

  function ResetBudget(s: State, now: int): State {
    if UtcDay(now) == s.day then s
    else s.(day := UtcDay(now), reserved := CarriedOver(s.order, s.tickets))
  }

  function EndTime(t: Ticket, default: int): int {
    if t.endedAt.Some? then t.endedAt.value else default
  }

  function Discard(s: State, dead: set<Id>): State {
    s.(tickets := s.tickets - dead, order := Keep(s.order, s.tickets.Keys - dead))
  }

  /** Ended tickets past their retention. */
  function Stale(s: State, now: int): set<Id> {
    set id | id in s.tickets && s.tickets[id].phase == Ended && now - EndTime(s.tickets[id], now) >= RETENTION_MS
  }

  function EndedAt(tickets: map<Id, Ticket>, id: Id): int {
    if id in tickets then EndTime(tickets[id], 0) else 0
  }

  function EndedEarlier(tickets: map<Id, Ticket>): (Id, Id) -> bool {
    (a: Id, b: Id) => EndedAt(tickets, a) <= EndedAt(tickets, b)
  }

  /** Beyond the tombstone limit, the retained tickets that ended first. */
  function Overflow(retained: seq<Id>, tickets: map<Id, Ticket>): seq<Id> {
    var sorted := Sort(retained, EndedEarlier(tickets));
    if |sorted| <= MAX_TOMBSTONES then [] else sorted[..|sorted| - MAX_TOMBSTONES]
  }

  function Excess(s: State, now: int): seq<Id> {
    Overflow(Keep(s.order, Finished(s.tickets) - Stale(s, now)), s.tickets)
  }

  function Prune(s: State, now: int): State {
    Discard(s, Stale(s, now) + Elems(Excess(s, now)))
  }

  function Sweep(o: Options, s: State, now: int): State {
    Pump(o, Prune(ResetBudget(SweepTickets(o, s, s.order, now), now), now), now)
  }

  // ---------------------------------------------------------------- admission

  datatype Admission = Ticketed(id: Id) | QueueFull

  function NewTicket(o: Options, visitor: Id, now: int): Ticket {
    Ticket(visitor, Queued, now, now + o.ticketTtl, None, None, None, None, None, None,
           0, 0, None, None, 0, false, 0, 0, None, None)
  }

  function Enlist(o: Options, s: State, visitor: Id, id: Id, now: int): State {
    s.(tickets := s.tickets[id := NewTicket(o, visitor, now)],
       order := s.order + [id],
       visitors := s.visitors[visitor := id],
       queue := s.queue + [id])
  }

  predicate HasLiveTicket(s: State, visitor: Id) {
    visitor in s.visitors && s.visitors[visitor] in s.tickets && s.tickets[s.visitors[visitor]].Live()
  }

  /** `id` is the fresh identifier a new ticket would receive. */
  function Admit(o: Options, s: State, visitor: Id, id: Id, now: int): (State, Admission) {
    var s1 := Sweep(o, s, now);
    if HasLiveTicket(s1, visitor) then (s1, Ticketed(s1.visitors[visitor]))
    else
      var s2 := s1.(visitors := s1.visitors - {visitor});
      if |s2.queue| >= o.maxQueue then (s2, QueueFull)
      else (Pump(o, Enlist(o, s2, visitor, id, now), now), Ticketed(id))
  }

  // ---------------------------------------------------------------- worker health

  function MarkIdle(k: Seat, g: Gen, now: int): Seat {
    if k.requiresUnavailable || k.replacementOf == Some(g) then k.(ready := false, idleSince := None)
    else
      k.(ready := true, generation := Some(g), replacementOf := None,
         idleSince := if k.generation != Some(g) || k.idleSince.None? then Some(now) else k.idleSince)
  }

  /** The quarantine after a handshake that did not identify its process; None once it is passed. */
  function Quarantine(k: Seat, up: bool, g: Option<Gen>): Option<Seat> {
    var k := k.(ready := false, idleSince := None);
    if !up || g.None? then
      Some(if k.quarantined.Some? then k.(unavailableAfterQuarantine := true) else k)
    else if k.quarantined.None? then
      Some(k.(quarantined := g, unavailableAfterQuarantine := false))
    else if !k.unavailableAfterQuarantine || g == k.quarantined then Some(k)
    else None
  }

  function PassedQuarantine(k: Seat): Seat {
    k.(ready := false, idleSince := None,
       requiresUnavailable := false, quarantined := None, unavailableAfterQuarantine := false)
  }

  /** Apply a health report to seat `w` whose record is already `k`; `g` is None when unhealthy. */
  function ApplyHealth(s: State, w: Id, k: Seat, g: Option<Gen>, now: int): State
    requires w in s.seats
  {
    var s1 := s.(seats := s.seats[w := k]);
    if g.None? then
      var s2 := s.(seats := s.seats[w := k.(ready := false, idleSince := None)]);
      if k.ticket.Some? && k.ticket.value in s.tickets && s.tickets[k.ticket.value].Live()
      then End(s2, k.ticket.value, WorkerUnavailable, now)
      else s2
    else if k.ticket.Some? then
      var id := k.ticket.value;
      if id !in s.tickets || !s.tickets[id].Live() then
        s.(seats := s.seats[w := MarkIdle(k.(ticket := None), g.value, now)])
      else if g == s.tickets[id].generation then
        s.(seats := s.seats[w := k.(generation := g)])
      else if s.tickets[id].startedAt.None? then
        s.(seats := s.seats[w := k.(generation := g)], tickets := s.tickets[id := s.tickets[id].(generation := g)])
      else if s.tickets[id].disconnectedAt.Some? then
        var s2 := End(s1, id, WorkerUnavailable, now);
        s2.(seats := s2.seats[w := MarkIdle(s2.seats[w], g.value, now)])
      else s.(seats := s.seats[w := k.(ready := false, idleSince := None)])
    else s.(seats := s.seats[w := MarkIdle(k, g.value, now)])
  }

  datatype Health = UnknownSeat | StaleProbe | Applied

  /** The state before the closing pump of an applied report. */
  function ReportSeat(s: State, w: Id, up: bool, g: Option<Gen>, now: int): State
    requires w in s.seats
  {
    var k := s.seats[w];
    if k.fenced then
      s.(seats := s.seats[w := k.(generation := if g.Some? then g else k.generation, ready := false, idleSince := None)])
    else
      var k := k.(epoch := k.epoch + 1);
      var seen := if up then g else None;
      if !k.requiresUnavailable then ApplyHealth(s, w, k, seen, now)
      else
        match Quarantine(k, up, g)
        case Some(held) => s.(seats := s.seats[w := held])
        case None => ApplyHealth(s, w, PassedQuarantine(k), seen, now)
  }

  /** setWorkerReady: a report carrying an outdated probe epoch is discarded. */
  function Report(o: Options, s: State, w: Id, up: bool, g: Option<Gen>, epoch: Option<nat>, now: int): (State, Health) {
    if w !in s.seats then (s, UnknownSeat)
    else if epoch.Some? && epoch.value != s.seats[w].epoch then (s, StaleProbe)
    else (Pump(o, ReportSeat(s, w, up, g, now), now), Applied)
  }

  function FenceSeat(k: Seat, on: bool): Seat {
    if on then k.(fenced := true, ready := false, idleSince := None, epoch := k.epoch + 1)
    else k.(fenced := false)
  }

  /** setWorkerDrainIneligible. */
  function Fence(o: Options, s: State, w: Id, on: bool, now: int): (State, bool) {
    if w !in s.seats then (s, false)
    else (Pump(o, s.(seats := s.seats[w := FenceSeat(s.seats[w], on)]), now), true)
  }

  predicate CurrentConnection(s: State, id: Id, version: int) {
    id in s.tickets && s.tickets[id].phase == Active && s.tickets[id].version == version && s.tickets[id].seat.Some?
  }

  /** confirmWorkerGeneration: `observed` is the generation the handshake header named, if any. */
  function Confirm(s: State, id: Id, version: int, observed: Option<Gen>, now: int): (State, bool) {
    if !CurrentConnection(s, id, version) || !Seated(s, id) then (s, false)
    else
      var t := s.tickets[id];
      var w := t.seat.value;
      var k := s.seats[w].(epoch := s.seats[w].epoch + 1);
      if observed.Some? && observed == t.generation then
        (s.(seats := s.seats[w := k.(generation := observed)]), true)
      else
        var s1 :=
          if observed.Some? then
            s.(tickets := s.tickets[id := t.(generation := observed)], seats := s.seats[w := k.(generation := observed)])
          else
            s.(seats := s.seats[w := k.(requiresUnavailable := true, quarantined := None, unavailableAfterQuarantine := false)]);
        (End(s1, id, WorkerUnavailable, now), false)
  }

  // ---------------------------------------------------------------- browser attachments

  datatype Lease = Lease(version: int, previous: int)

  function ReserveAttachment(o: Options, s: State, id: Id, now: int): (State, Option<Lease>) {
    var s1 := Sweep(o, s, now);
    if id !in s1.tickets || s1.tickets[id].seat.None? || s1.tickets[id].phase == Ended then (s1, None)
    else
      var t := s1.tickets[id];
      if t.pending.Some? then (s1, None)
      else if t.attempts >= MAX_CONNECTION_ATTEMPTS then (End(s1, id, RateLimited, now), None)
      else
        var v := t.nextVersion + 1;
        (Edit(s1, id, t.(attempts := t.attempts + 1, nextVersion := v, pending := Some(v), pendingAt := Some(now))),
         Some(Lease(v, t.version)))
  }

  function Activated(t: Ticket, version: int, now: int): Ticket {
    t.(pending := None, pendingAt := None,
       phase := if t.phase == Admitted then Active else t.phase,
       startedAt := if t.phase == Admitted then Some(now) else t.startedAt,
       lastActivityAt := Some(now), disconnectedAt := None, version := version)
  }

  function ActivateAttachment(s: State, id: Id, version: int, now: int): (State, bool) {
    if id !in s.tickets || s.tickets[id].seat.None? || s.tickets[id].phase == Ended
       || s.tickets[id].pending != Some(version)
    then (s, false)
    else (Edit(s, id, Activated(s.tickets[id], version, now)), true)
  }

  function MarkConnectionStarted(s: State, id: Id, version: int): (State, bool) {
    if !CurrentConnection(s, id, version) then (s, false)
    else (Edit(s, id, s.tickets[id].(exposed := true)), true)
  }

  function Rollback(s: State, id: Id, version: int, previous: int): State {
    if id !in s.tickets || s.tickets[id].phase != Active || s.tickets[id].version != version || previous <= 0 then s
    else Edit(s, id, s.tickets[id].(version := previous))
  }

  function CancelAttachment(s: State, id: Id, version: int): State {
    if id !in s.tickets || s.tickets[id].pending != Some(version) then s
    else Edit(s, id, s.tickets[id].(pending := None, pendingAt := None))
  }

  function Touch(s: State, id: Id, now: int): State {
    if id in s.tickets && s.tickets[id].phase == Active
    then s.(tickets := s.tickets[id := s.tickets[id].(lastActivityAt := Some(now))])
    else s
  }

  function Detach(s: State, id: Id, version: int, now: int): State {
    if id in s.tickets && s.tickets[id].phase == Active && s.tickets[id].version == version
    then Edit(s, id, s.tickets[id].(disconnectedAt := Some(now)))
    else s
  }

  function Terminate(s: State, id: Id, reason: EndReason, now: int): State {
    if id in s.tickets then End(s, id, reason, now) else s
  }

  datatype Authorization = Allowed(remaining: int) | SessionUnavailable | ResearchLimitReached

  function Authorize(o: Options, s: State, id: Id, now: int): (State, Authorization) {
    var s1 := Sweep(o, s, now);
    if id !in s1.tickets || s1.tickets[id].phase != Active then (s1, SessionUnavailable)
    else if s1.tickets[id].runs >= o.maxRuns then (s1, ResearchLimitReached)
    else
      var t := s1.tickets[id].(runs := s1.tickets[id].runs + 1, lastActivityAt := Some(now));
      (s1.(tickets := s1.tickets[id := t]), Allowed(o.maxRuns - t.runs))
  }

  // ---------------------------------------------------------------- persistence

  /** Seat health and probe epochs are deliberately not exported. */
  datatype SavedSeat = SavedSeat(
    ticket: Option<Id>,
    generation: Option<Gen>,
    replacementOf: Option<Gen>,
    requiresUnavailable: bool,
    quarantined: Option<Gen>,
    unavailableAfterQuarantine: bool,
    idleSince: Option<int>,
    fenced: bool)

  datatype Saved = Saved(
    day: int,
    reserved: int,
    queue: seq<Id>,
    order: seq<Id>,
    tickets: map<Id, Ticket>,
    seats: map<Id, SavedSeat>)

  function SaveSeat(k: Seat): SavedSeat {
    SavedSeat(k.ticket, k.generation, k.replacementOf, k.requiresUnavailable, k.quarantined,
              k.unavailableAfterQuarantine, k.idleSince, k.fenced)
  }

  function Export(s: State): Saved {
    Saved(s.day, s.reserved, s.queue, s.order, s.tickets, map w | w in s.seats :: SaveSeat(s.seats[w]))
  }

  /** A restart severs every proxied connection: pending upgrades lapse and active tickets enter reconnect grace. */
  function RestoredTicket(t: Ticket, now: int): Ticket {
    var version := if t.version >= 0 then t.version else 0;
    t.(version := version,
       nextVersion := if t.nextVersion >= version then t.nextVersion else version,
       attempts := if t.attempts >= 0 then t.attempts else 0,
       exposed := t.exposed || t.startedAt.Some?,
       pending := None, pendingAt := None,
       endedAt := if t.phase == Ended && t.endedAt.None? then Some(now) else t.endedAt,
       disconnectedAt := if t.phase == Active then Some(now) else t.disconnectedAt)
  }

  function RestoredSeat(k: SavedSeat, now: int): Seat {
    Seat(false, k.ticket, k.generation, k.replacementOf, k.requiresUnavailable, k.quarantined,
         k.unavailableAfterQuarantine, 0,
         if k.ticket.Some? then None
         else if k.idleSince.Some? && k.idleSince.value >= 0 then Some(if k.idleSince.value < now then k.idleSince.value else now)
         else Some(now),
         k.fenced)
  }

  function RebuildVisitors(order: seq<Id>, tickets: map<Id, Ticket>): map<Id, Id> {
    if order == [] then map[]
    else
      var id := order[|order| - 1];
      var rest := RebuildVisitors(order[..|order| - 1], tickets);
      if id in tickets && tickets[id].Live() then rest[tickets[id].visitor := id] else rest
  }

  /** The state of a restarted gateway before its first sweep. */
  function Reload(saved: Saved, now: int): State
    requires saved.reserved >= 0
  {
    var tickets := map id | id in saved.tickets :: RestoredTicket(saved.tickets[id], now);
    State(map w | w in saved.seats :: RestoredSeat(saved.seats[w], now), tickets, saved.order,
          RebuildVisitors(saved.order, tickets), Keep(saved.queue, Waiting(tickets)), saved.day, saved.reserved)
  }

  /** None when the persisted seats or budget do not fit the configuration. */
  function Restore(o: Options, saved: Saved, now: int): Option<State> {
    if saved.seats.Keys != Elems(o.seats) || saved.reserved < 0 then None
    else Some(Sweep(o, Reload(saved, now), now))
  }
}
