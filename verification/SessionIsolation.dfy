/**
  Tenant isolation over whole runs: the moves of the gateway and of the world around it, and the
  theorem that a process one ticket has reached is never handed to another.
 */
module SessionIsolation {
  import opened Common
  import opened SessionModel
  import opened SessionInvariant
  import opened SessionRuns
  import opened SessionExposure

  datatype Move =
    | Do(event: Event)                           // an operation that hears nothing from a worker
    | Upgrade(id: Id, version: int)              // activate, then mark the connection started: one mutation
    | Connect(bridge: Bridge)                    // the upstream socket reaches whatever process runs now
    | Handshaken(dial: Dial, named: bool)        // its upgrade response, with or without a generation header
    | Ask(seat: Id)                              // a health check reads the probe epoch
    | Answer(seat: Id, epoch: nat, up: bool)     // the process that runs now answers, or nothing does
    | Deliver(probe: Probe)                      // the answer is applied
    | Replace(seat: Id, generation: Gen)         // the worker process is replaced
    | Reboot                                     // the gateway restarts from what it persisted

  /** The moves the world can make. Only a `Deliver` may report a healthy worker. */
  ghost predicate Possible(s: State, x: World, m: Move) {
    match m
    case Do(e) =>
      && Permitted(s, x.issued, e)
      && !e.Handshake? && !e.Activate? && !e.MarkStarted? && !e.Restart?
      && (e.Health? ==> !e.up && e.generation.None? && e.epoch.None?)
    case Upgrade(id, version) => true
    case Connect(b) => b in x.bridges && b.seat in x.current
    case Handshaken(d, named) => d in x.dials
    case Ask(w) => w in s.seats
    case Answer(w, epoch, up) => (w, epoch) in x.asked && w in x.current
    case Deliver(p) => p in x.answers
    case Replace(w, g) => w in x.current && x.current[w] < g
    case Reboot => true
  }

  /** What an upgrade makes of the ticket when it is granted. */
  function Upgraded(t: Ticket, version: int, now: int): Ticket {
    Activated(t, version, now).(exposed := true)
  }

  /** The gateway activates the attachment and, if that worked, marks the connection as started. */
  function UpgradeStep(s: State, id: Id, version: int, now: int): (State, bool) {
    var (s1, activated) := ActivateAttachment(s, id, version, now);
    if activated then MarkConnectionStarted(s1, id, version) else (s1, false)
  }

  function Expose(x: World, e: Exposure): World {
    x.(exposures := x.exposures + {e})
  }

  function Disconnected(x: World): World {
    x.(asked := {}, answers := {}, bridges := {}, dials := {})
  }

  function Next(o: Options, s: State, x: World, m: Move, now: int): (State, World)
    requires Possible(s, x, m)
  {
    match m
    case Do(e) => (Step(o, s, e, now), x.(issued := IssuedBy(x.issued, e)))
    case Upgrade(id, v) =>
      var (s1, granted) := UpgradeStep(s, id, v, now);
      if granted && s.tickets[id].seat.Some? && s.tickets[id].generation.Some? then
        var w := s.tickets[id].seat.value;
        (s1, Expose(x, Exposure(w, s.tickets[id].generation.value, id)).(bridges := x.bridges + {Bridge(id, v, w)}))
      else (s1, x)
    case Connect(b) => (s, x.(dials := x.dials + {Dial(b.id, b.version, b.seat, x.current[b.seat])}))
    case Handshaken(d, named) =>
      (Confirm(s, d.id, d.version, if named then Some(d.reached) else None, now).0,
       if CurrentConnection(s, d.id, d.version) then Expose(x, Exposure(d.seat, d.reached, d.id)) else x)
    case Ask(w) => (s, x.(asked := x.asked + {(w, s.seats[w].epoch)}))
    case Answer(w, epoch, up) =>
      (s, x.(answers := x.answers + {Probe(w, epoch, if up then Some(x.current[w]) else None)}))
    case Deliver(p) => (Report(o, s, p.seat, p.answer.Some?, p.answer, Some(p.epoch), now).0, x)
    case Replace(w, g) => (s, x.(current := x.current[w := g]))
    case Reboot =>
      (Step(o, s, Restart, now), Disconnected(x))
  }

  datatype TimedMove = TimedMove(move: Move, now: int)

  ghost predicate PossibleRun(o: Options, s: State, x: World, run: seq<TimedMove>)
    decreases |run|
  {
    run == [] ||
    (Possible(s, x, run[0].move)
     && var (s', x') := Next(o, s, x, run[0].move, run[0].now); PossibleRun(o, s', x', run[1..]))
  }

  ghost function RunMoves(o: Options, s: State, x: World, run: seq<TimedMove>): (State, World)
    requires PossibleRun(o, s, x, run)
    decreases |run|
  {
    if run == [] then (s, x)
    else var (s', x') := Next(o, s, x, run[0].move, run[0].now); RunMoves(o, s', x', run[1..])
  }

  function EmptyWorld(current: map<Id, Gen>): World {
    World(current, {}, {}, {}, {}, {}, {})
  }

  // ---------------------------------------------------------------- operations that hear nothing from a worker

  lemma PutContained(o: Options, s: State, x: World, id: Id, t: Ticket)
    requires Inv(o, s) && Contained(s, x) && id in s.tickets && PlainEdit(s.tickets[id], t)
    ensures Contained(s.(tickets := s.tickets[id := t]), x)
  {
    hide Inv, SafeAt, SeatBounded, SeatOk, Connections;
    EditConnections(s, x, id, t);
    SeatedTickets(o, s);
    SameSeats(o, s, s.(tickets := s.tickets[id := t]), x);
  }

  lemma FenceContained(o: Options, s: State, x: World, w: Id, on: bool, now: int)
    requires Inv(o, s) && Contained(s, x) && (on && w in s.seats ==> s.seats[w].ticket.None?)
    ensures Contained(Fence(o, s, w, on, now).0, x)
  {
    if w in s.seats {
      var k := FenceSeat(s.seats[w], on);
      InvSeat(o, s, w);
      assert SeatOk(k);
      hide Inv, Contained, SeatOk, Pump;
      PutSeatInv(o, s, w, k);
      DimContained(o, s, x, w, k);
      PumpContained(o, s.(seats := s.seats[w := k]), x, now);
    }
  }

  lemma ReserveContained(o: Options, s: State, x: World, id: Id, now: int)
    requires Inv(o, s) && Contained(s, x)
    ensures Contained(ReserveAttachment(o, s, id, now).0, x)
  {
    hide Inv, Contained, Sweep, End, Edit;
    var s1 := Sweep(o, s, now);
    SweepInv(o, s, now);
    SweepContained(o, s, x, now);
    if id in s1.tickets && s1.tickets[id].seat.Some? && s1.tickets[id].Live() && s1.tickets[id].pending.None? {
      var t := s1.tickets[id];
      if t.attempts >= MAX_CONNECTION_ATTEMPTS {
        EndContained(o, s1, x, id, RateLimited, now);
      } else {
        var v := t.nextVersion + 1;
        EditContained(o, s1, x, id, t.(attempts := t.attempts + 1, nextVersion := v, pending := Some(v), pendingAt := Some(now)));
      }
    }
  }

  lemma AuthorizeContained(o: Options, s: State, x: World, id: Id, now: int)
    requires Inv(o, s) && Contained(s, x)
    ensures Contained(Authorize(o, s, id, now).0, x)
  {
    hide Inv, Contained, Sweep;
    var s1 := Sweep(o, s, now);
    SweepInv(o, s, now);
    SweepContained(o, s, x, now);
    if id in s1.tickets && s1.tickets[id].phase == Active {
      PutContained(o, s1, x, id, s1.tickets[id].(runs := s1.tickets[id].runs + 1, lastActivityAt := Some(now)));
    }
  }

  lemma AttachmentContained(o: Options, s: State, x: World, id: Id, version: int, previous: int, now: int)
    requires Inv(o, s) && Contained(s, x)
    ensures Contained(Rollback(s, id, version, previous), x)
    ensures Contained(CancelAttachment(s, id, version), x)
    ensures Contained(Detach(s, id, version, now), x)
    ensures Contained(Touch(s, id, now), x)
  {
    hide Inv, Contained, Edit;
    if id in s.tickets {
      var t := s.tickets[id];
      EditContained(o, s, x, id, t.(version := previous));
      EditContained(o, s, x, id, t.(pending := None, pendingAt := None));
      EditContained(o, s, x, id, t.(disconnectedAt := Some(now)));
      PutContained(o, s, x, id, t.(lastActivityAt := Some(now)));
    }
  }

  /** A worker that fails is taken out of service; nothing is learned about its process. */
  lemma FailureContained(o: Options, s: State, x: World, w: Id, now: int)
    requires Inv(o, s) && Contained(s, x)
    ensures Contained(Report(o, s, w, false, None, None, now).0, x)
  {
    hide Inv, Contained, ReportSeat, Pump;
    if w in s.seats {
      ReportSeatInv(o, s, w, false, None, now);
      ReportSeatContained(o, s, x, w, false, None, now);
      PumpContained(o, ReportSeat(s, w, false, None, now), x, now);
    }
  }

  lemma DoContained(o: Options, s: State, x: World, e: Event, now: int)
    requires Inv(o, s) && Contained(s, x) && Possible(s, x, Do(e))
    ensures Contained(Step(o, s, e, now), x.(issued := IssuedBy(x.issued, e)))
  {
    KnownIssued(s, x);
    hide Inv, Contained, Admit, Report, Fence, Confirm, ReserveAttachment, ActivateAttachment, MarkConnectionStarted,
         Rollback, CancelAttachment, Touch, Authorize, Detach, End, Sweep, Restore;
    assert !e.Arrive? ==> x.(issued := IssuedBy(x.issued, e)) == x;
    match e
    case Arrive(visitor, id) => AdmitContained(o, s, x, visitor, id, now);
    case Health(w, up, g, epoch) => FailureContained(o, s, x, w, now);
    case SetFence(w, on) => FenceContained(o, s, x, w, on, now);
    case Reserve(id) => ReserveContained(o, s, x, id, now);
    case RollBack(id, v, previous) => AttachmentContained(o, s, x, id, v, previous, now);
    case Cancel(id, v) => AttachmentContained(o, s, x, id, v, 0, now);
    case Activity(id) => AttachmentContained(o, s, x, id, 0, 0, now);
    case Research(id) => AuthorizeContained(o, s, x, id, now);
    case Disconnect(id, v) => AttachmentContained(o, s, x, id, v, 0, now);
    case Kick(id, reason) => if id in s.tickets { EndContained(o, s, x, id, reason, now); }
    case Maintain => SweepContained(o, s, x, now);
  }

  // ---------------------------------------------------------------- upgrades

  lemma UpgradeShape(s: State, id: Id, version: int, now: int)
    requires id in s.tickets && UpgradeStep(s, id, version, now).1
    ensures var s' := UpgradeStep(s, id, version, now).0;
            s.tickets[id].Live() && s.tickets[id].seat.Some?
            && s'.tickets == s.tickets[id := Upgraded(s.tickets[id], version, now)]
            && s'.seats == if Seated(s, id) then
                             var w := s.tickets[id].seat.value;
                             s.seats[w := s.seats[w].(epoch := s.seats[w].epoch + 2)]
                           else s.seats
  {
    var s' := UpgradeStep(s, id, version, now).0;
    var s1 := ActivateAttachment(s, id, version, now).0;
    assert s1.tickets == s.tickets[id := Activated(s.tickets[id], version, now)];
    assert s'.tickets == s1.tickets[id := s1.tickets[id].(exposed := true)];
    assert Seated(s1, id) == Seated(s, id);
    hide Activated;
  }

  /** An upgrade is granted exactly when the version is the one reserved. */
  lemma UpgradeGrantedExactly(o: Options, s: State, id: Id, version: int, now: int)
    requires Inv(o, s)
    ensures UpgradeStep(s, id, version, now).1 <==> id in s.tickets && s.tickets[id].pending == Some(version)
    ensures !UpgradeStep(s, id, version, now).1 ==> UpgradeStep(s, id, version, now).0 == s
    ensures UpgradeStep(s, id, version, now).1 ==> s.tickets[id].Holder() && Seated(s, id) && s.tickets[id].generation.Some?
  {
    if id in s.tickets {
      InvTicket(o, s, id);
      assert LinkedMaps(s.seats, s.tickets);
    }
    hide Inv;
  }

  lemma UpgradeConnections(s: State, x: World, id: Id, version: int, now: int)
    requires Connections(s.tickets, x) && id in s.tickets && s.tickets[id].Holder()
    ensures Connections(s.tickets[id := Upgraded(s.tickets[id], version, now)], x)
  {
    var t' := Upgraded(s.tickets[id], version, now);
    assert t'.phase == Active && t'.exposed && t'.seat == s.tickets[id].seat && t'.generation == s.tickets[id].generation;
    var tickets' := s.tickets[id := t'];
    hide Upgraded;
    forall d | d in x.dials ensures DialOk(tickets', x.current, d) { assert DialOk(s.tickets, x.current, d); }
    forall b | b in x.bridges ensures BridgeOk(tickets', x.current, b) { assert BridgeOk(s.tickets, x.current, b); }
  }

  /** Once a seat's ticket is connected, its exposure joins those the seat already kept apart. */
  lemma UpgradedSafe(k: Seat, bare: bool, k': Seat, c: Gen, answers: set<Probe>, e: Exposure)
    requires SafeAt(k, bare, c, answers, e) && SeatBounded(e.seat, k, c, answers)
    requires k' == k.(epoch := k'.epoch) && k'.epoch >= k.epoch
    ensures SafeAt(k', false, c, answers, e)
  {
  }

  lemma OwnExposureSafe(k: Seat, c: Gen, answers: set<Probe>, e: Exposure)
    requires SeatBounded(e.seat, k, c, answers) && NoCurrentAnswers(e.seat, k, answers)
    requires k.ticket == Some(e.ticket) && k.generation == Some(e.generation) && !k.ready && !k.requiresUnavailable
    ensures SafeAt(k, false, c, answers, e)
  {
  }

  lemma ExposeContained(s: State, x: World, e: Exposure)
    requires Contained(s, x) && e.seat in s.seats && e.ticket in x.issued
    requires e.seat in x.current ==> SafeAt(s.seats[e.seat], Bare(s.tickets, s.seats[e.seat]), x.current[e.seat], x.answers, e)
    ensures Contained(s, Expose(x, e))
  {
    hide SafeAt, SeatBounded, DialOk, BridgeOk;
  }

  lemma BridgeContained(s: State, x: World, b: Bridge)
    requires Contained(s, x) && b.id in x.issued && BridgeOk(s.tickets, x.current, b)
    ensures Contained(s, x.(bridges := x.bridges + {b}))
  {
    hide SafeAt, SeatBounded, DialOk, BridgeOk;
  }

  lemma UpgradeContained(o: Options, s: State, x: World, id: Id, version: int, now: int)
    requires Inv(o, s) && Contained(s, x) && UpgradeStep(s, id, version, now).1
    ensures Contained(UpgradeStep(s, id, version, now).0, x)
  {
    hide Inv, SafeAt, SeatBounded, SeatOk, Connections, Upgraded, UpgradeStep;
    UpgradeGrantedExactly(o, s, id, version, now);
    UpgradeShape(s, id, version, now);
    UpgradedExposed(s.tickets[id], version, now);
    var s' := UpgradeStep(s, id, version, now).0;
    var w := s.tickets[id].seat.value;
    var k, k' := s.seats[w], s'.seats[w];
    assert k' == k.(epoch := k.epoch + 2);
    DimBounded(w, k, k', x.current[w], x.answers);
    UpgradeConnections(s, x, id, version, now);
    SeatedTickets(o, s);
    forall e | e in x.exposures && e.seat == w
      ensures SafeAt(k', Bare(s'.tickets, k'), x.current[w], x.answers, e)
    {
      assert SafeAt(k, Bare(s.tickets, k), x.current[w], x.answers, e);
      UpgradedSafe(k, Bare(s.tickets, k), k', x.current[w], x.answers, e);
    }
    OneSeat(o, s, s', x, w);
  }

  lemma UpgradedExposed(t: Ticket, version: int, now: int)
    ensures Upgraded(t, version, now).exposed
  {
  }

  lemma UpgradeMoveContained(o: Options, s: State, x: World, id: Id, version: int, now: int)
    requires Inv(o, s) && Contained(s, x) && Possible(s, x, Upgrade(id, version))
    ensures var (s', x') := Next(o, s, x, Upgrade(id, version), now); Contained(s', x')
  {
    UpgradeGrantedExactly(o, s, id, version, now);
    if UpgradeStep(s, id, version, now).1 {
      UpgradeContained(o, s, x, id, version, now);
      UpgradeShape(s, id, version, now);
      KnownIssued(s, x);
      var s' := UpgradeStep(s, id, version, now).0;
      var w, g := s.tickets[id].seat.value, s.tickets[id].generation.value;
      var e, b := Exposure(w, g, id), Bridge(id, version, w);
      assert s'.tickets[id] == Upgraded(s.tickets[id], version, now);
      assert BridgeOk(s'.tickets, x.current, b);
      assert s'.seats[w].epoch == s.seats[w].epoch + 2;
      EpochPast(w, s.seats[w], s'.seats[w], x.current[w], x.answers);
      SeatedReady(o, s, w);
      InvSeat(o, s, w);
      hide Inv, UpgradeStep;
      OwnExposureSafe(s'.seats[w], x.current[w], x.answers, e);
      hide Contained, SafeAt, SeatBounded, BridgeOk, NoCurrentAnswers, SeatOk;
      ExposeContained(s', x, e);
      BridgeContained(s', Expose(x, e), b);
    }
  }

  // ---------------------------------------------------------------- handshakes

  lemma ConnectContained(o: Options, s: State, x: World, b: Bridge)
    requires Inv(o, s) && Contained(s, x) && b in x.bridges && b.seat in x.current
    ensures Contained(s, x.(dials := x.dials + {Dial(b.id, b.version, b.seat, x.current[b.seat])}))
  {
    var d := Dial(b.id, b.version, b.seat, x.current[b.seat]);
    assert BridgeOk(s.tickets, x.current, b);
    if b.id in s.tickets && s.tickets[b.id].Live() {
      InvTicket(o, s, b.id);
      assert LinkedMaps(s.seats, s.tickets);
      assert SeatBounded(b.seat, s.seats[b.seat], x.current[b.seat], x.answers);
    }
    assert DialOk(s.tickets, x.current, d);
    hide Inv, SafeAt, SeatBounded, DialOk, BridgeOk;
  }

  /** The seat and ticket that a refused handshake leaves behind. */
  function RefusedSeat(k: Seat, t: Ticket, observed: Option<Gen>, now: int): Seat {
    var k1 := k.(epoch := k.epoch + 1);
    if observed.Some? then Freed(k1.(generation := observed), t.(generation := observed), WorkerUnavailable, now)
    else Freed(k1.(requiresUnavailable := true, quarantined := None, unavailableAfterQuarantine := false), t, WorkerUnavailable, now)
  }

  lemma ConfirmShape(s: State, id: Id, version: int, observed: Option<Gen>, now: int)
    requires CurrentConnection(s, id, version) && Seated(s, id) && !Confirm(s, id, version, observed, now).1
    ensures var s', w := Confirm(s, id, version, observed, now).0, s.tickets[id].seat.value;
            s'.seats == s.seats[w := RefusedSeat(s.seats[w], s.tickets[id], observed, now)]
            && id in s'.tickets && s'.tickets == s.tickets[id := s'.tickets[id]] && s'.tickets[id].phase == Ended
            && s'.tickets[id].exposed == s.tickets[id].exposed
  {
    hide Freed;
  }

  lemma RefusedSafe(k: Seat, t: Ticket, d: Dial, named: bool, now: int, c: Gen, x: World, e: Exposure)
    requires e.seat == d.seat && (e == Exposure(d.seat, d.reached, d.id) || SafeAt(k, !t.exposed, c, x.answers, e))
    requires SeatBounded(d.seat, k, c, x.answers) && d.reached <= c && t.exposed
    requires k.ticket == Some(d.id) && t.generation == k.generation && k.generation.Some? && !k.requiresUnavailable
    requires k.generation.value <= d.reached && (named ==> k.generation.value < d.reached)
    ensures SafeAt(RefusedSeat(k, t, if named then Some(d.reached) else None, now), false, c, x.answers, e)
    ensures SeatBounded(d.seat, RefusedSeat(k, t, if named then Some(d.reached) else None, now), c, x.answers)
  {
    var k' := RefusedSeat(k, t, if named then Some(d.reached) else None, now);
    assert k'.epoch == k.epoch + 2 && k'.ticket.None? && !k'.ready;
    EpochPast(d.seat, k, k', c, x.answers);
  }

  /** A current connection of a dial: its ticket is connected, seated, and bound to no younger process. */
  lemma DialledSeat(o: Options, s: State, x: World, d: Dial)
    requires Inv(o, s) && Contained(s, x) && d in x.dials && CurrentConnection(s, d.id, d.version)
    ensures var t := s.tickets[d.id];
            && t.exposed && t.seat == Some(d.seat) && d.seat in s.seats && d.seat in x.current && d.id in x.issued
            && s.seats[d.seat].ticket == Some(d.id) && t.generation == s.seats[d.seat].generation
            && t.generation.Some? && t.generation.value <= d.reached <= x.current[d.seat]
            && !s.seats[d.seat].requiresUnavailable && !s.seats[d.seat].ready
            && SeatBounded(d.seat, s.seats[d.seat], x.current[d.seat], x.answers)
  {
    hide SafeAt, SeatBounded;
    assert DialOk(s.tickets, x.current, d);
    assert LinkedMaps(s.seats, s.tickets);
    SeatedReady(o, s, d.seat);
  }

  lemma RefusedContained(o: Options, s: State, x: World, d: Dial, named: bool, now: int)
    requires Inv(o, s) && Contained(s, x) && d in x.dials && CurrentConnection(s, d.id, d.version)
    requires named ==> s.tickets[d.id].generation != Some(d.reached)
    ensures var s' := Confirm(s, d.id, d.version, if named then Some(d.reached) else None, now).0;
            Contained(s', Expose(x, Exposure(d.seat, d.reached, d.id)))
  {
    hide Inv, SafeAt, SeatBounded, SeatOk, Connections, RefusedSeat;
    var observed := if named then Some(d.reached) else None;
    DialledSeat(o, s, x, d);
    ConfirmShape(s, d.id, d.version, observed, now);
    hide Confirm;
    var s' := Confirm(s, d.id, d.version, observed, now).0;
    var t, w, e := s.tickets[d.id], d.seat, Exposure(d.seat, d.reached, d.id);
    var k, k' := s.seats[w], s'.seats[w];
    SeatedTickets(o, s);
    KnownIssued(s, x);
    TicketsCalm(s.tickets, s'.tickets, x);
    RefusedSafe(k, t, d, named, now, x.current[w], x, e);
    forall y | y in x.exposures && y.seat == w
      ensures SafeAt(k', Bare(s'.tickets, k'), x.current[w], x.answers, y)
    {
      assert SafeAt(k, Bare(s.tickets, k), x.current[w], x.answers, y);
      RefusedSafe(k, t, d, named, now, x.current[w], x, y);
    }
    RefusedFree(k, t, observed, now);
    OneSeat(o, s, s', x, w);
    hide Contained;
    ExposeContained(s', x, e);
  }

  lemma RefusedFree(k: Seat, t: Ticket, observed: Option<Gen>, now: int)
    ensures RefusedSeat(k, t, observed, now).ticket.None? && RefusedSeat(k, t, observed, now).epoch >= k.epoch
  {
  }

  lemma ConfirmedContained(o: Options, s: State, x: World, d: Dial, now: int)
    requires Inv(o, s) && Contained(s, x) && d in x.dials && CurrentConnection(s, d.id, d.version)
    requires s.tickets[d.id].generation == Some(d.reached)
    ensures var s' := Confirm(s, d.id, d.version, Some(d.reached), now).0;
            Contained(s', Expose(x, Exposure(d.seat, d.reached, d.id)))
  {
    var s' := Confirm(s, d.id, d.version, Some(d.reached), now).0;
    var w, e := d.seat, Exposure(d.seat, d.reached, d.id);
    assert DialOk(s.tickets, x.current, d);
    assert LinkedMaps(s.seats, s.tickets);
    var k := s.seats[w].(epoch := s.seats[w].epoch + 1);
    assert s' == s.(seats := s.seats[w := k]);
    assert s.tickets[d.id].exposed;
    SeatedReady(o, s, w);
    KnownIssued(s, x);
    EpochPast(w, s.seats[w], k, x.current[w], x.answers);
    DimBounded(w, s.seats[w], k, x.current[w], x.answers);
    hide Inv, Confirm;
    OwnExposureSafe(k, x.current[w], x.answers, e);
    hide SafeAt, SeatBounded, Contained;
    DimContained(o, s, x, w, k);
    ExposeContained(s', x, e);
  }

  lemma HandshakeContained(o: Options, s: State, x: World, d: Dial, named: bool, now: int)
    requires Inv(o, s) && Contained(s, x) && Possible(s, x, Handshaken(d, named))
    ensures var (s', x') := Next(o, s, x, Handshaken(d, named), now); Contained(s', x')
  {
    hide Inv, Contained;
    if CurrentConnection(s, d.id, d.version) {
      if named && s.tickets[d.id].generation == Some(d.reached) {
        ConfirmedContained(o, s, x, d, now);
      } else {
        RefusedContained(o, s, x, d, named, now);
      }
    }
  }

  // ---------------------------------------------------------------- probes and processes

  lemma AskContained(s: State, x: World, w: Id)
    requires Contained(s, x) && w in s.seats
    ensures Contained(s, x.(asked := x.asked + {(w, s.seats[w].epoch)}))
  {
    hide SafeAt, SeatBounded, DialOk, BridgeOk;
  }

  lemma AnsweredSafe(k: Seat, bare: bool, c: Gen, answers: set<Probe>, p: Probe, e: Exposure)
    requires SafeAt(k, bare, c, answers, e) && (p.answer.Some? ==> p.answer.value == c)
    ensures SafeAt(k, bare, c, answers + {p}, e)
  {
  }

  lemma AnsweredBounded(w: Id, k: Seat, c: Gen, answers: set<Probe>, p: Probe)
    requires SeatBounded(w, k, c, answers) && (p.seat == w ==> p.epoch <= k.epoch && (p.answer.Some? ==> p.answer.value == c))
    ensures SeatBounded(w, k, c, answers + {p})
  {
  }

  lemma AnswerContained(s: State, x: World, w: Id, epoch: nat, up: bool)
    requires Contained(s, x) && (w, epoch) in x.asked && w in x.current
    ensures Contained(s, x.(answers := x.answers + {Probe(w, epoch, if up then Some(x.current[w]) else None)}))
  {
    var p := Probe(w, epoch, if up then Some(x.current[w]) else None);
    assert w in s.seats && epoch <= s.seats[w].epoch;
    hide DialOk, BridgeOk, SafeAt, SeatBounded;
    forall e | e in x.exposures
      ensures SafeAt(s.seats[e.seat], Bare(s.tickets, s.seats[e.seat]), x.current[e.seat], x.answers + {p}, e)
    {
      if e.seat == w {
        AnsweredSafe(s.seats[w], Bare(s.tickets, s.seats[w]), x.current[w], x.answers, p, e);
      } else {
        OtherAnswerSafe(s.seats[e.seat], Bare(s.tickets, s.seats[e.seat]), x.current[e.seat], x.answers, p, e);
      }
    }
    forall y | y in s.seats ensures SeatBounded(y, s.seats[y], x.current[y], x.answers + {p}) {
      AnsweredBounded(y, s.seats[y], x.current[y], x.answers, p);
    }
  }

  lemma OtherAnswerSafe(k: Seat, bare: bool, c: Gen, answers: set<Probe>, p: Probe, e: Exposure)
    requires SafeAt(k, bare, c, answers, e) && p.seat != e.seat
    ensures SafeAt(k, bare, c, answers + {p}, e)
  {
  }

  /** A probe answer whose epoch is still the seat's says nothing that an exposed process could exploit. */
  lemma FreshAnswerIsCredible(s: State, x: World, p: Probe)
    requires Contained(s, x) && p in x.answers && p.answer.Some? && p.seat in s.seats && p.epoch == s.seats[p.seat].epoch
    ensures Credible(p.seat, s.seats[p.seat], x.current[p.seat], x, p.answer.value)
  {
    var k := s.seats[p.seat];
    assert SeatBounded(p.seat, k, x.current[p.seat], x.answers);
    forall e | e in x.exposures && e.seat == p.seat
      ensures e.generation <= p.answer.value && (e.generation == p.answer.value ==> Blocks(k, e))
    {
      assert SafeAt(k, Bare(s.tickets, k), x.current[p.seat], x.answers, e);
    }
  }

  lemma DeliverContained(o: Options, s: State, x: World, p: Probe, now: int)
    requires Inv(o, s) && Contained(s, x) && p in x.answers
    ensures Contained(Report(o, s, p.seat, p.answer.Some?, p.answer, Some(p.epoch), now).0, x)
  {
    if p.seat in s.seats && p.epoch == s.seats[p.seat].epoch {
      var up := p.answer.Some?;
      if up {
        FreshAnswerIsCredible(s, x, p);
      }
      hide Inv, Contained, Credible, ReportSeat, Pump;
      ReportSeatInv(o, s, p.seat, up, p.answer, now);
      ReportSeatContained(o, s, x, p.seat, up, p.answer, now);
      PumpContained(o, ReportSeat(s, p.seat, up, p.answer, now), x, now);
    }
  }

  lemma ReplaceContained(s: State, x: World, w: Id, g: Gen)
    requires Contained(s, x) && w in x.current && x.current[w] < g
    ensures Contained(s, x.(current := x.current[w := g]))
  {
    var current' := x.current[w := g];
    forall e | e in x.exposures
      ensures SafeAt(s.seats[e.seat], Bare(s.tickets, s.seats[e.seat]), current'[e.seat], x.answers, e)
    {
      assert SafeAt(s.seats[e.seat], Bare(s.tickets, s.seats[e.seat]), x.current[e.seat], x.answers, e);
    }
    forall y | y in s.seats ensures SeatBounded(y, s.seats[y], current'[y], x.answers) {
      assert SeatBounded(y, s.seats[y], x.current[y], x.answers);
    }
    forall d | d in x.dials ensures DialOk(s.tickets, current', d) { assert DialOk(s.tickets, x.current, d); }
    forall b | b in x.bridges ensures BridgeOk(s.tickets, current', b) { assert BridgeOk(s.tickets, x.current, b); }
    hide SafeAt, SeatBounded, DialOk, BridgeOk;
  }

  // ---------------------------------------------------------------- restarts

  lemma ReloadedSafe(k: Seat, bare: bool, c: Gen, answers: set<Probe>, now: int, bare': bool, e: Exposure)
    requires SafeAt(k, bare, c, answers, e) && (bare' ==> bare)
    ensures SafeAt(RestoredSeat(SaveSeat(k), now), bare', c, {}, e)
  {
  }

  lemma ReloadedBounded(w: Id, k: Seat, c: Gen, answers: set<Probe>, now: int)
    requires SeatBounded(w, k, c, answers)
    ensures SeatBounded(w, RestoredSeat(SaveSeat(k), now), c, {})
  {
  }

  lemma ReloadedMaps(s: State, now: int)
    ensures var s' := Reload(Export(s), now);
            s'.seats == (map w | w in s.seats :: RestoredSeat(SaveSeat(s.seats[w]), now))
            && s'.tickets == (map id | id in s.tickets :: RestoredTicket(s.tickets[id], now))
  {
    hide RestoredSeat, RestoredTicket, SaveSeat, RebuildVisitors, Waiting;
    var s' := Reload(Export(s), now);
    forall w | w in s.seats ensures s'.seats[w] == RestoredSeat(SaveSeat(s.seats[w]), now) {
    }
  }

  /** Nobody is bare after a reload who was not before. */
  lemma ReloadedBare(s: State, now: int, w: Id)
    requires w in s.seats
    ensures var s' := Reload(Export(s), now);
            w in s'.seats && (Bare(s'.tickets, s'.seats[w]) ==> Bare(s.tickets, s.seats[w]))
            && s'.seats[w] == RestoredSeat(SaveSeat(s.seats[w]), now)
  {
    ReloadedMaps(s, now);
    hide Reload, Export;
  }

  lemma ReloadedSeats(s: State, x: World, now: int)
    requires Safe(s.seats, s.tickets, x) && Bounded(s.seats, x)
    ensures var s' := Reload(Export(s), now); Safe(s'.seats, s'.tickets, Disconnected(x)) && Bounded(s'.seats, Disconnected(x))
  {
    hide SafeAt, SeatBounded, Reload, RestoredTicket, RestoredSeat, SaveSeat, Bare;
    var s' := Reload(Export(s), now);
    ReloadedMaps(s, now);
    forall w | w in s.seats
      ensures w in s'.seats && SeatBounded(w, s'.seats[w], x.current[w], {})
    {
      ReloadedBare(s, now, w);
      ReloadedBounded(w, s.seats[w], x.current[w], x.answers, now);
    }
    forall e | e in x.exposures
      ensures e.seat in s'.seats && SafeAt(s'.seats[e.seat], Bare(s'.tickets, s'.seats[e.seat]), x.current[e.seat], {}, e)
    {
      ReloadedBare(s, now, e.seat);
      ReloadedSafe(s.seats[e.seat], Bare(s.tickets, s.seats[e.seat]), x.current[e.seat], x.answers, now,
                   Bare(s'.tickets, s'.seats[e.seat]), e);
    }
    assert s'.seats.Keys == s.seats.Keys;
  }

  lemma ReloadedConnections(s: State, x: World, now: int)
    requires Connections(s.tickets, x)
    ensures Connections(Reload(Export(s), now).tickets, Disconnected(x))
  {
    ReloadedMaps(s, now);
    hide Reload, Export;
  }

  /** A restart forgets every connection and probe in flight, and nothing about exposed processes. */
  lemma ReloadContained(s: State, x: World, now: int)
    requires Contained(s, x)
    ensures Contained(Reload(Export(s), now), Disconnected(x))
  {
    hide Safe, Bounded, Connections, Reload;
    ReloadedSeats(s, x, now);
    ReloadedConnections(s, x, now);
  }

  lemma RebootContained(o: Options, s: State, x: World, now: int)
    requires Inv(o, s) && Contained(s, x)
    ensures Contained(Step(o, s, Restart, now), Disconnected(x))
  {
    assert o.Valid() && s.seats.Keys == Elems(o.seats);
    RestoreIsSweptReload(o, s, now);
    hide Contained, Reload, Sweep, Inv, Step, Restore, Disconnected, Export;
    ReloadContained(s, x, now);
    ReloadInv(o, s, now);
    SweepContained(o, Reload(Export(s), now), Disconnected(x), now);
  }

  lemma RestoreIsSweptReload(o: Options, s: State, now: int)
    requires s.seats.Keys == Elems(o.seats)
    ensures Step(o, s, Restart, now) == Sweep(o, Reload(Export(s), now), now)
  {
    hide Sweep, Reload;
    assert Export(s).seats.Keys == Elems(o.seats);
  }

  // ---------------------------------------------------------------- every run

  lemma NextContained(o: Options, s: State, x: World, m: Move, now: int)
    requires Inv(o, s) && Contained(s, x) && Possible(s, x, m)
    ensures var (s', x') := Next(o, s, x, m, now); Inv(o, s') && Contained(s', x')
  {
    hide Inv, Contained, Step, UpgradeStep, Confirm, Report;
    match m
    case Do(e) =>
      TicketsIssued(s, x);
      StepInv(o, s, x.issued, e, now);
      DoContained(o, s, x, e, now);
    case Upgrade(id, v) =>
      UpgradeMoveContained(o, s, x, id, v, now);
      UpgradeInv(o, s, id, v, now);
    case Connect(b) => ConnectContained(o, s, x, b);
    case Handshaken(d, named) =>
      ConfirmInv(o, s, d.id, d.version, if named then Some(d.reached) else None, now);
      HandshakeContained(o, s, x, d, named, now);
    case Ask(w) => AskContained(s, x, w);
    case Answer(w, epoch, up) => AnswerContained(s, x, w, epoch, up);
    case Deliver(p) =>
      ReportInv(o, s, p.seat, p.answer.Some?, p.answer, Some(p.epoch), now);
      DeliverContained(o, s, x, p, now);
    case Replace(w, g) => ReplaceContained(s, x, w, g);
    case Reboot =>
      TicketsIssued(s, x);
      StepInv(o, s, x.issued, Restart, now);
      RebootContained(o, s, x, now);
  }

  lemma TicketsIssued(s: State, x: World)
    requires Contained(s, x)
    ensures s.tickets.Keys <= x.issued
  {
  }

  lemma UpgradeInv(o: Options, s: State, id: Id, version: int, now: int)
    requires Inv(o, s)
    ensures Inv(o, UpgradeStep(s, id, version, now).0)
  {
    hide Inv, ActivateAttachment, MarkConnectionStarted;
    AttachmentInv(o, s, id, version, 0, now);
    AttachmentInv(o, ActivateAttachment(s, id, version, now).0, id, version, 0, now);
  }

  lemma {:induction false} RunContained(o: Options, s: State, x: World, run: seq<TimedMove>)
    requires Inv(o, s) && Contained(s, x) && PossibleRun(o, s, x, run)
    ensures var (s', x') := RunMoves(o, s, x, run); Inv(o, s') && Contained(s', x')
    decreases |run|
  {
    hide Inv, Contained, Next, Possible;
    if run != [] {
      var (s', x') := Next(o, s, x, run[0].move, run[0].now);
      NextContained(o, s, x, run[0].move, run[0].now);
      RunContained(o, s', x', run[1..]);
    }
  }

  lemma InitContained(o: Options, now: int, current: map<Id, Gen>)
    requires o.Valid() && current.Keys == Elems(o.seats)
    ensures Inv(o, Init(o, now)) && Contained(Init(o, now), EmptyWorld(current))
  {
    InitInv(o, now);
  }

  /** No other ticket can get at the process of exposure `e`. */
  ghost predicate Isolated(s: State, x: World, e: Exposure) {
    && e.seat in s.seats && e.seat in x.current
    && (s.seats[e.seat].ready ==> s.seats[e.seat].generation != Some(e.generation))
    && (forall id | id in s.tickets && s.tickets[id].Holder() && s.tickets[id].seat == Some(e.seat) ::
          s.tickets[id].generation == Some(e.generation) ==> id == e.ticket)
    && (forall b | b in x.bridges && b.id in s.tickets && s.tickets[b.id].phase == Active && b.seat == e.seat ::
          x.current[b.seat] == e.generation ==> b.id == e.ticket)
  }

  /**
    Tenant isolation. Whatever the visitors, the workers, the probes in flight and the restarts do, a
    process that ticket `e.ticket` has been recorded as reaching
      - is never the process of a seat that is ready for a new ticket,
      - is never the process that another admitted or active ticket is bound to, and
      - is never the process actually running behind a connection open for another active ticket.
   */
  lemma NoExposedProcessIsReassigned(o: Options, now0: int, current: map<Id, Gen>, run: seq<TimedMove>, e: Exposure)
    requires o.Valid() && current.Keys == Elems(o.seats)
    requires PossibleRun(o, Init(o, now0), EmptyWorld(current), run)
    requires e in RunMoves(o, Init(o, now0), EmptyWorld(current), run).1.exposures
    ensures var (s, x) := RunMoves(o, Init(o, now0), EmptyWorld(current), run); Isolated(s, x, e)
  {
    var (s, x) := RunMoves(o, Init(o, now0), EmptyWorld(current), run);
    InitContained(o, now0, current);
    RunContained(o, Init(o, now0), EmptyWorld(current), run);
    hide RunMoves, PossibleRun;
    IsolationHere(o, s, x, e);
  }

  lemma IsolationHere(o: Options, s: State, x: World, e: Exposure)
    requires Inv(o, s) && Contained(s, x) && e in x.exposures
    ensures Isolated(s, x, e)
  {
    var w := e.seat;
    assert SafeAt(s.seats[w], Bare(s.tickets, s.seats[w]), x.current[w], x.answers, e);
    assert SeatBounded(w, s.seats[w], x.current[w], x.answers);
    assert LinkedMaps(s.seats, s.tickets);
    InvSeat(o, s, w);
    forall b | b in x.bridges && b.id in s.tickets && s.tickets[b.id].phase == Active && b.seat == w
      ensures x.current[b.seat] == e.generation ==> b.id == e.ticket
    {
      assert BridgeOk(s.tickets, x.current, b);
      assert s.tickets[b.id].seat == Some(w) && s.seats[w].ticket == Some(b.id);
    }
  }
}
