/**
  Draining a seat takes two halves: the warm pool records the drain, the coordinator fences the seat.
  This module models the serialized mutations that change both (server/private-management-api.ts), the
  order in which server/public-live-gateway.ts writes them, a crash at any point between those writes,
  and the restart that puts the fences back.
 */
module Gateway {
  import opened Common
  import opened SessionModel
  import opened SessionInvariant
  import opened SessionRuns
  import opened SessionFences
  import opened SessionCoordinator
  import opened WarmPool

  datatype Operation =
    | Coordinate(run: seq<Timed>)                                    // maintenance or visitor traffic
    | DrainSeat(seat: Id, drainId: Id, expected: Option<Gen>)
    | ActivateSeat(seat: Id)

  /** Where the process stops, relative to the capacity write and the coordinator write after it. */
  datatype Fate = Completes | DiesBefore | DiesBetween | DiesAfter

  /**
    `written` is the coordinator state whose export was persisted last, and `writtenDrains` the persisted
    drains. The gateway serves requests only after its first maintenance mutation has been persisted.
   */
  datatype Gateway = Gateway(
    coord: State,
    drains: Drains,
    written: Option<State>,
    writtenDrains: Drains,
    serving: bool,
    issued: set<Id>)

  function DrainMutation(o: Options, c: Config, s: State, d: Drains, w: Id, drainId: Id, expected: Option<Gen>, now: int)
    : (State, Drains, bool)
  {
    if w !in s.seats then (s, d, false)
    else
      var seat := StatusOf(s, d, w, now);
      if expected.Some? && seat.generation != expected then (s, d, false)
      else
        var (d1, answer) := RequestDrain(c, d, seat, drainId, now);
        if answer.Refused? then (s, d1, false)
        else
          var (s1, known) := Fence(o, s, w, true, now);
          if !known then (s1, d1 - {w}, false) else (s1, d1, true)
  }

  function ActivateMutation(o: Options, s: State, d: Drains, w: Id, now: int): (State, Drains, bool) {
    if w !in s.seats then (s, d, false)
    else
      var generation := s.seats[w].generation;
      if w in d && generation == Some(d[w].generation) then (s, d, false)
      else
        var d1 := if w in d then (if ReleaseDrain(d, w, generation).1 then ReleaseDrain(d, w, generation).0 else d - {w}) else d;
        (Fence(o, s, w, false, now).0, d1, true)
  }

  /** The new coordinator state and drains, and whether a drain or activation was accepted. */
  function Mutation(o: Options, c: Config, g: Gateway, op: Operation, now: int): (State, Drains, bool) {
    match op
    case Coordinate(run) => (Run(o, g.coord, run), g.drains, false)
    case DrainSeat(w, drainId, expected) => DrainMutation(o, c, g.coord, g.drains, w, drainId, expected, now)
    case ActivateSeat(w) => ActivateMutation(o, g.coord, g.drains, w, now)
  }

  /** A restarted gateway fences the seat of every persisted drain again. */
  function Refence(o: Options, s: State, d: Drains, ws: seq<Id>, now: int): State
    decreases |ws|
  {
    if ws == [] then s
    else Refence(o, if ws[0] in d then Fence(o, s, ws[0], true, now).0 else s, d, ws[1..], now)
  }

  function Reloaded(o: Options, written: Option<State>, now: int): State {
    if written.None? then Init(o, now)
    else match Restore(o, Export(written.value), now) case Some(s) => s case None => Init(o, now)
  }

  function Boot(o: Options, written: Option<State>, d: Drains, issued: set<Id>, now: int): Gateway {
    Gateway(Refence(o, Reloaded(o, written, now), d, o.seats, now), d, written, d, false, issued)
  }

  function IssuedDuring(issued: set<Id>, op: Operation): set<Id> {
    match op case Coordinate(run) => IssuedIn(issued, run) case _ => issued
  }

  function Next(o: Options, c: Config, g: Gateway, op: Operation, fate: Fate, now: int, bootAt: int): Gateway {
    var (s, d, accepted) := Mutation(o, c, g, op, now);
    var issued := IssuedDuring(g.issued, op);
    match fate
    case Completes => Gateway(s, d, Some(s), d, true, issued)
    case DiesBefore => Boot(o, g.written, g.writtenDrains, issued, bootAt)
    case DiesBetween => Boot(o, g.written, d, issued, bootAt)
    case DiesAfter => Boot(o, Some(s), d, issued, bootAt)
  }

  ghost predicate Possible(o: Options, g: Gateway, op: Operation) {
    match op
    case Coordinate(run) => SetsNoFence(run) && PermittedRun(o, g.coord, g.issued, run)
    case _ => g.serving
  }

  // ---------------------------------------------------------------- the invariant

  /** Every recorded drain has its seat fenced, and the process it was recorded for was known. */
  ghost predicate DrainsHold(s: State, d: Drains) {
    forall w :: w in d ==> w in s.seats && s.seats[w].fenced && s.seats[w].generation.Some?
  }

  /** A coordinator state from which a restart can put every recorded drain into force. */
  ghost predicate Recoverable(s: State, d: Drains) {
    forall w :: w in d ==> w in s.seats && s.seats[w].ticket.None? && s.seats[w].generation.Some?
  }

  ghost predicate FencesRemembered(g: Gateway) {
    forall w :: w in g.coord.seats && g.coord.seats[w].fenced ==>
      w in g.drains || (g.written.Some? && w in g.written.value.seats && g.written.value.seats[w].fenced)
  }

  ghost predicate Held(o: Options, g: Gateway) {
    && Inv(o, g.coord) && g.coord.tickets.Keys <= g.issued
    && DrainsHold(g.coord, g.drains) && g.writtenDrains == g.drains
    && (g.written.Some? ==>
          Inv(o, g.written.value) && g.written.value.tickets.Keys <= g.issued && Recoverable(g.written.value, g.drains))
    && (g.written.None? ==> g.drains == map[])
    && (g.serving ==> g.written == Some(g.coord))
    && FencesRemembered(g)
  }

  lemma FencedIsFree(o: Options, s: State, w: Id)
    requires Inv(o, s) && w in s.seats && s.seats[w].fenced
    ensures s.seats[w].ticket.None? && !s.seats[w].ready && Resting(s.seats[w])
  {
    InvSeat(o, s, w);
  }

  lemma HoldIsRecoverable(o: Options, s: State, d: Drains)
    requires Inv(o, s) && DrainsHold(s, d)
    ensures Recoverable(s, d)
  {
    forall w | w in d ensures w in s.seats && s.seats[w].ticket.None? && s.seats[w].generation.Some? {
      FencedIsFree(o, s, w);
    }
  }

  // ---------------------------------------------------------------- restarts

  ghost predicate AtRest(s: State, d: Drains) {
    forall w :: w in d ==> w in s.seats && Resting(s.seats[w]) && s.seats[w].generation.Some?
  }

  /** What fencing seats again does to the seats: drained ones are fenced, others keep their fences. */
  ghost predicate Refenced(s: State, s': State, d: Drains, ws: seq<Id>) {
    && s'.seats.Keys == s.seats.Keys && AtRest(s', d)
    && (forall w :: w in d && w in ws ==> s'.seats[w].fenced)
    && (forall w :: w in s.seats && s.seats[w].fenced ==> s'.seats[w].fenced)
    && (forall w :: w in s.seats && s'.seats[w].fenced ==> s.seats[w].fenced || w in d)
  }

  lemma FenceOneAgain(o: Options, s: State, d: Drains, w: Id, now: int)
    requires Inv(o, s) && AtRest(s, d) && w in d
    ensures var s' := Fence(o, s, w, true, now).0;
            Inv(o, s') && Refenced(s, s', d, [w]) && s'.tickets.Keys == s.tickets.Keys
  {
    hide Inv, Pump;
    FenceInv(o, s, w, true, now);
    var s1 := s.(seats := s.seats[w := FenceSeat(s.seats[w], true)]);
    PumpLeaves(o, s1, now);
    PumpKeepsKeys(o, s1, now);
  }

  lemma PumpKeepsKeys(o: Options, s: State, now: int)
    ensures Pump(o, s, now).tickets.Keys == s.tickets.Keys
  {
    PumpSeatsAddsNothing(o, CleanQueue(s), o.seats, now);
  }

  lemma {:induction false} RefenceHolds(o: Options, s: State, d: Drains, ws: seq<Id>, now: int)
    requires Inv(o, s) && AtRest(s, d)
    ensures var s' := Refence(o, s, d, ws, now);
            Inv(o, s') && Refenced(s, s', d, ws) && s'.tickets.Keys == s.tickets.Keys
    decreases |ws|
  {
    hide Inv, Fence, Resting;
    if ws != [] {
      assert forall w :: w in ws <==> w == ws[0] || w in ws[1..];
      if ws[0] in d {
        FenceOneAgain(o, s, d, ws[0], now);
        RefenceHolds(o, Fence(o, s, ws[0], true, now).0, d, ws[1..], now);
      } else {
        RefenceHolds(o, s, d, ws[1..], now);
      }
    }
  }

  lemma ReloadedAtRest(o: Options, written: Option<State>, d: Drains, issued: set<Id>, now: int)
    requires o.Valid()
    requires written.Some? ==> Inv(o, written.value) && written.value.tickets.Keys <= issued && Recoverable(written.value, d)
    requires written.None? ==> d == map[]
    ensures var s := Reloaded(o, written, now);
            && Inv(o, s) && AtRest(s, d) && s.tickets.Keys <= issued
            && (written.Some? ==> KeepsFences(written.value, s))
            && (written.None? ==> forall w :: w in s.seats ==> !s.seats[w].fenced)
  {
    if written.None? {
      InitInv(o, now);
    } else {
      var s := written.value;
      assert s.seats.Keys == Elems(o.seats);
      hide Inv;
      RestoreInv(o, s, now);
      RestoreLeaves(o, s, now);
      hide Restore;
      RestoreIssues(o, s, now);
    }
  }

  lemma RestoreIssues(o: Options, s: State, now: int)
    requires Restore(o, Export(s), now).Some?
    ensures Restore(o, Export(s), now).value.tickets.Keys <= s.tickets.Keys
  {
    hide Sweep;
    var r := Reload(Export(s), now);
    assert r.tickets.Keys == s.tickets.Keys;
    SweepAddsNothing(o, r, now);
  }

  /** A restart puts every persisted drain back into force, whichever half of it had been written. */
  lemma BootHolds(o: Options, written: Option<State>, d: Drains, issued: set<Id>, now: int)
    requires o.Valid()
    requires written.Some? ==> Inv(o, written.value) && written.value.tickets.Keys <= issued && Recoverable(written.value, d)
    requires written.None? ==> d == map[]
    ensures var g := Boot(o, written, d, issued, now);
            && Held(o, g)
            && (written.Some? ==> forall w :: w in written.value.seats && written.value.seats[w].fenced ==>
                  w in g.coord.seats && g.coord.seats[w].fenced)
  {
    hide Inv, Reloaded, Refence, Recoverable, Resting;
    var s := Reloaded(o, written, now);
    ReloadedAtRest(o, written, d, issued, now);
    RefenceHolds(o, s, d, o.seats, now);
    SeatKeys(o, s);
    BootRemembers(written, s, Refence(o, s, d, o.seats, now), d, o.seats);
  }

  lemma BootRemembers(written: Option<State>, s: State, s': State, d: Drains, ws: seq<Id>)
    requires Refenced(s, s', d, ws) && s.seats.Keys == Elems(ws)
    requires written.Some? ==> KeepsFences(written.value, s)
    requires written.None? ==> forall w :: w in s.seats ==> !s.seats[w].fenced
    ensures DrainsHold(s', d)
    ensures forall w :: w in s'.seats && s'.seats[w].fenced ==>
              w in d || (written.Some? && w in written.value.seats && written.value.seats[w].fenced)
    ensures written.Some? ==> forall w :: w in written.value.seats && written.value.seats[w].fenced ==>
              w in s'.seats && s'.seats[w].fenced
  {
    assert forall w :: w in ws <==> w in s.seats.Keys;
  }

  // ---------------------------------------------------------------- mutations

  /** What fencing a free seat does: that seat's fence is set, and no other seat's changes. */
  lemma FenceEffect(o: Options, s: State, w: Id, now: int)
    requires Inv(o, s) && w in s.seats && s.seats[w].ticket.None?
    ensures var s' := Fence(o, s, w, true, now).0;
            && Inv(o, s') && s'.tickets.Keys == s.tickets.Keys && s'.seats.Keys == s.seats.Keys
            && s'.seats[w] == FenceSeat(s.seats[w], true)
            && forall x :: x in s.seats && x != w ==> SeatKeepsFence(s.seats[x], s'.seats[x])
  {
    hide Inv, Pump;
    FenceInv(o, s, w, true, now);
    var s1 := s.(seats := s.seats[w := FenceSeat(s.seats[w], true)]);
    PumpLeaves(o, s1, now);
    PumpKeepsKeys(o, s1, now);
  }

  /** Lifting a fence leaves the seat out of service until a fresh probe. */
  lemma UnfenceKeeps(o: Options, s: State, w: Id, now: int)
    requires Inv(o, s) && w in s.seats
    ensures var s' := Fence(o, s, w, false, now).0;
            && Inv(o, s') && s'.tickets.Keys == s.tickets.Keys && s'.seats.Keys == s.seats.Keys
            && !s'.seats[w].fenced
            && (s.seats[w].fenced ==> !s'.seats[w].ready && s'.seats[w].ticket.None?)
            && forall x :: x in s.seats && x != w ==> SeatKeepsFence(s.seats[x], s'.seats[x])
  {
    InvSeat(o, s, w);
    hide Inv, Pump;
    FenceInv(o, s, w, false, now);
    var s1 := s.(seats := s.seats[w := FenceSeat(s.seats[w], false)]);
    PumpLeaves(o, s1, now);
    PumpKeepsKeys(o, s1, now);
  }

  /** A drain is accepted only for a ready, free seat that has been idle long enough; its seat is then fenced. */
  lemma AcceptedDrain(o: Options, c: Config, s: State, d: Drains, w: Id, drainId: Id, expected: Option<Gen>, now: int)
    requires Inv(o, s) && DrainsHold(s, d)
    ensures var (s', d', accepted) := DrainMutation(o, c, s, d, w, drainId, expected, now);
            && (accepted <==>
                  && w in s.seats && w !in d && s.seats[w].Assignable() && s.seats[w].generation.Some?
                  && (expected.Some? ==> s.seats[w].generation == expected)
                  && IdleTime(StatusOf(s, d, w, now)) >= c.idleScaleDown)
            && (accepted ==>
                  && d' == d[w := Drain(drainId, s.seats[w].generation.value, now)]
                  && w in s'.seats && s'.seats[w] == FenceSeat(s.seats[w], true)
                  && s'.seats.Keys == s.seats.Keys && s'.tickets.Keys == s.tickets.Keys && Inv(o, s')
                  && forall x :: x in s.seats && x != w ==> SeatKeepsFence(s.seats[x], s'.seats[x]))
            && (!accepted ==> s' == s && d' == d)
  {
    hide Inv, StatusOf, RequestDrain, Fence, IdleTime, DrainsHold, FenceSeat, SeatKeepsFence;
    if w in s.seats {
      RequestAccepted(o, c, s, d, w, drainId, now);
      StatusNames(s, d, w, now);
      var (d1, answer) := RequestDrain(c, d, StatusOf(s, d, w, now), drainId, now);
      assert answer.Accepted? ==> s.seats[w].Assignable();
      if s.seats[w].ticket.None? {
        FenceKnown(o, s, w, now);
        FenceEffect(o, s, w, now);
        var seat := StatusOf(s, d, w, now);
        assert answer.Accepted? <==> w !in d && s.seats[w].Assignable() && s.seats[w].generation.Some? && IdleTime(seat) >= c.idleScaleDown;
      }
    }
  }

  lemma StatusNames(s: State, d: Drains, w: Id, now: int)
    requires w in s.seats
    ensures StatusOf(s, d, w, now).generation == s.seats[w].generation && StatusOf(s, d, w, now).seat == w
  {
  }

  lemma FenceKnown(o: Options, s: State, w: Id, now: int)
    requires w in s.seats
    ensures Fence(o, s, w, true, now).1
  {
  }

  lemma RequestAccepted(o: Options, c: Config, s: State, d: Drains, w: Id, drainId: Id, now: int)
    requires Inv(o, s) && DrainsHold(s, d) && w in s.seats
    ensures var seat := StatusOf(s, d, w, now);
            var (d', answer) := RequestDrain(c, d, seat, drainId, now);
            && (answer.Accepted? <==> w !in d && s.seats[w].Assignable() && s.seats[w].generation.Some? && IdleTime(seat) >= c.idleScaleDown)
            && (answer.Accepted? ==> d' == d[w := Drain(drainId, s.seats[w].generation.value, now)])
            && (answer.Refused? ==> d' == d)
  {
    InvSeat(o, s, w);
    hide Inv, IdleFor;
  }

  /** An activation is refused exactly while the drained process is still the one running. */
  lemma AcceptedActivation(o: Options, s: State, d: Drains, w: Id, now: int)
    requires Inv(o, s) && DrainsHold(s, d)
    ensures var (s', d', accepted) := ActivateMutation(o, s, d, w, now);
            && (accepted <==> w in s.seats && (w in d ==> s.seats[w].generation.Some? && s.seats[w].generation.value != d[w].generation))
            && (accepted ==>
                  && d' == d - {w} && w in s'.seats && !s'.seats[w].fenced
                  && (s.seats[w].fenced ==> !s'.seats[w].ready && s'.seats[w].ticket.None?)
                  && s'.seats.Keys == s.seats.Keys && s'.tickets.Keys == s.tickets.Keys && Inv(o, s')
                  && forall x :: x in s.seats && x != w ==> SeatKeepsFence(s.seats[x], s'.seats[x]))
            && (!accepted ==> s' == s && d' == d)
  {
    hide Inv, Fence;
    if w in s.seats {
      UnfenceKeeps(o, s, w, now);
      assert w !in d ==> d - {w} == d;
    }
  }

  lemma CoordinateHolds(o: Options, s: State, d: Drains, issued: set<Id>, run: seq<Timed>)
    requires Inv(o, s) && s.tickets.Keys <= issued && DrainsHold(s, d) && SetsNoFence(run) && PermittedRun(o, s, issued, run)
    ensures var s' := Run(o, s, run);
            Inv(o, s') && s'.tickets.Keys <= IssuedIn(issued, run) && DrainsHold(s', d) && KeepsFences(s, s')
    ensures issued <= IssuedIn(issued, run)
  {
    hide Inv, Run;
    RunInv(o, s, issued, run);
    RunKeepsFences(o, s, issued, run);
    IssuedGrows(issued, run);
  }

  lemma {:induction false} IssuedGrows(issued: set<Id>, run: seq<Timed>)
    ensures issued <= IssuedIn(issued, run)
    decreases |run|
  {
    if run != [] {
      IssuedGrows(IssuedBy(issued, run[0].event), run[1..]);
    }
  }

  /** Which fences a mutation may lift, and which drains it may drop. */
  ghost predicate MutationKeeps(o: Options, c: Config, g: Gateway, op: Operation, now: int) {
    var (s, d, accepted) := Mutation(o, c, g, op, now);
    && s.seats.Keys == g.coord.seats.Keys
    && (forall w :: w in s.seats && g.coord.seats[w].fenced && !s.seats[w].fenced ==> op == ActivateSeat(w) && accepted)
    && (forall w :: w in s.seats && s.seats[w].fenced && !g.coord.seats[w].fenced ==> w in d)
    && (forall w :: w in g.drains ==>
          || (w in d && d[w] == g.drains[w])
          || (op == ActivateSeat(w) && accepted && w in g.coord.seats
              && g.coord.seats[w].generation.Some? && g.coord.seats[w].generation.value != g.drains[w].generation))
    && (forall w :: w in d && w !in g.drains ==>
          g.serving && op.DrainSeat? && op.seat == w && accepted
          && w in g.coord.seats && g.coord.seats[w].ticket.None? && g.coord.seats[w].generation.Some?)
  }

  lemma MutationHolds(o: Options, c: Config, g: Gateway, op: Operation, now: int)
    requires Held(o, g) && Possible(o, g, op)
    ensures var (s, d, accepted) := Mutation(o, c, g, op, now);
            && Inv(o, s) && s.tickets.Keys <= IssuedDuring(g.issued, op) && DrainsHold(s, d)
            && g.issued <= IssuedDuring(g.issued, op)
            && MutationKeeps(o, c, g, op, now)
  {
    hide Inv, Run, DrainMutation, ActivateMutation, StatusOf, FenceSeat, SetsNoFence, PermittedRun, IssuedIn;
    match op
    case Coordinate(run) =>
      CoordinateHolds(o, g.coord, g.drains, g.issued, run);
    case DrainSeat(w, drainId, expected) =>
      AcceptedDrain(o, c, g.coord, g.drains, w, drainId, expected, now);
      if w in g.coord.seats {
        FencedSeat(g.coord.seats[w]);
      }
    case ActivateSeat(w) =>
      AcceptedActivation(o, g.coord, g.drains, w, now);
  }

  lemma FencedSeat(k: Seat)
    ensures FenceSeat(k, true).fenced && FenceSeat(k, true).generation == k.generation && FenceSeat(k, true).ticket == k.ticket
  {
  }

  /**
    The central fact about drains: every step of the gateway, including a crash before, between or
    after the two writes and the restart that follows, keeps every recorded drain in force.
   */
  lemma NextHolds(o: Options, c: Config, g: Gateway, op: Operation, fate: Fate, now: int, bootAt: int)
    requires o.Valid() && Held(o, g) && Possible(o, g, op)
    ensures Held(o, Next(o, c, g, op, fate, now, bootAt))
  {
    hide Inv, Mutation, Boot, IssuedDuring, Possible;
    MutationHolds(o, c, g, op, now);
    var (s, d, accepted) := Mutation(o, c, g, op, now);
    var issued := IssuedDuring(g.issued, op);
    HoldIsRecoverable(o, s, d);
    match fate
    case Completes =>
    case DiesBefore => BootHolds(o, g.written, g.drains, issued, bootAt);
    case DiesBetween =>
      if g.written.None? {
        assert d == map[];
      }
      BootHolds(o, g.written, d, issued, bootAt);
    case DiesAfter => BootHolds(o, Some(s), d, issued, bootAt);
  }

  // ---------------------------------------------------------------- every run

  datatype Stage = Stage(op: Operation, fate: Fate, now: int, bootAt: int)

  ghost predicate PossibleStages(o: Options, c: Config, g: Gateway, run: seq<Stage>)
    decreases |run|
  {
    run == [] ||
    (Possible(o, g, run[0].op)
     && PossibleStages(o, c, Next(o, c, g, run[0].op, run[0].fate, run[0].now, run[0].bootAt), run[1..]))
  }

  function RunStages(o: Options, c: Config, g: Gateway, run: seq<Stage>): Gateway
    decreases |run|
  {
    if run == [] then g
    else RunStages(o, c, Next(o, c, g, run[0].op, run[0].fate, run[0].now, run[0].bootAt), run[1..])
  }

  function FirstBoot(o: Options, now: int): Gateway {
    Boot(o, None, map[], {}, now)
  }

  lemma {:induction false} RunHolds(o: Options, c: Config, g: Gateway, run: seq<Stage>)
    requires o.Valid() && Held(o, g) && PossibleStages(o, c, g, run)
    ensures Held(o, RunStages(o, c, g, run))
    decreases |run|
  {
    hide Held, Next, Possible;
    if run != [] {
      NextHolds(o, c, g, run[0].op, run[0].fate, run[0].now, run[0].bootAt);
      RunHolds(o, c, Next(o, c, g, run[0].op, run[0].fate, run[0].now, run[0].bootAt), run[1..]);
    }
  }

  /**
    In every reachable state of the gateway, across mutations, crashes and restarts, the seat of every
    recorded drain is fenced, out of service and without a ticket, and its process is known.
   */
  lemma RecordedDrainsAreInForce(o: Options, c: Config, now: int, run: seq<Stage>, w: Id)
    requires o.Valid() && PossibleStages(o, c, FirstBoot(o, now), run)
    requires w in RunStages(o, c, FirstBoot(o, now), run).drains
    ensures var s := RunStages(o, c, FirstBoot(o, now), run).coord;
            w in s.seats && s.seats[w].fenced && !s.seats[w].ready && s.seats[w].ticket.None? && s.seats[w].generation.Some?
            && forall id :: id in s.tickets && s.tickets[id].Holder() ==> s.tickets[id].seat != Some(w)
  {
    BootHolds(o, None, map[], {}, now);
    RunHolds(o, c, FirstBoot(o, now), run);
    var g := RunStages(o, c, FirstBoot(o, now), run);
    hide RunStages, PossibleStages;
    InvSeat(o, g.coord, w);
    assert LinkedMaps(g.coord.seats, g.coord.tickets);
  }

  /** Whether this step answers, or would have answered, an activation of seat `w` with success. */
  ghost predicate Activates(o: Options, c: Config, g: Gateway, op: Operation, now: int, w: Id) {
    op == ActivateSeat(w) && Mutation(o, c, g, op, now).2
  }

  /**
    One step: a fence goes only by an accepted activation of that seat that reached the coordinator's
    record, and a drain record goes only by an accepted activation at a generation other than the
    drained one; otherwise both stay exactly as they are.
   */
  lemma FencesAndDrainsGoOnlyByActivation(o: Options, c: Config, g: Gateway, op: Operation, fate: Fate, now: int, bootAt: int, w: Id)
    requires o.Valid() && Held(o, g) && Possible(o, g, op) && w in g.coord.seats
    ensures var g' := Next(o, c, g, op, fate, now, bootAt);
            && w in g'.coord.seats
            && (g.coord.seats[w].fenced && !g'.coord.seats[w].fenced ==> Activates(o, c, g, op, now, w) && fate in {Completes, DiesAfter})
            && (w in g.drains ==>
                  || (w in g'.drains && g'.drains[w] == g.drains[w])
                  || (Activates(o, c, g, op, now, w)
                      && g.coord.seats[w].generation.Some? && g.coord.seats[w].generation.value != g.drains[w].generation))
  {
    MutationHolds(o, c, g, op, now);
    var (s, d, accepted) := Mutation(o, c, g, op, now);
    var issued := IssuedDuring(g.issued, op);
    var g' := Next(o, c, g, op, fate, now, bootAt);
    NextHolds(o, c, g, op, fate, now, bootAt);
    SeatKeys(o, g.coord);
    SeatKeys(o, g'.coord);
    assert w in s.seats;
    hide Inv, Mutation, Boot, IssuedDuring, Possible;
    HoldIsRecoverable(o, s, d);
    BootDrains(o, g.written, g.drains, issued, bootAt);
    BootDrains(o, g.written, d, issued, bootAt);
    BootDrains(o, Some(s), d, issued, bootAt);
    match fate
    case Completes =>
    case DiesBefore => BootHolds(o, g.written, g.drains, issued, bootAt);
    case DiesBetween =>
      if g.written.None? {
        assert d == map[];
      }
      BootHolds(o, g.written, d, issued, bootAt);
    case DiesAfter => BootHolds(o, Some(s), d, issued, bootAt);
  }

  lemma BootDrains(o: Options, written: Option<State>, d: Drains, issued: set<Id>, now: int)
    ensures Boot(o, written, d, issued, now).drains == d
  {
  }

  /** No step of the run is an accepted activation of seat `w`. */
  ghost predicate NeverActivated(o: Options, c: Config, g: Gateway, run: seq<Stage>, w: Id)
    decreases |run|
  {
    run == [] ||
    (!Activates(o, c, g, run[0].op, run[0].now, w)
     && NeverActivated(o, c, Next(o, c, g, run[0].op, run[0].fate, run[0].now, run[0].bootAt), run[1..], w))
  }

  /** A fenced seat stays fenced and unassigned through every run without an accepted activation of it. */
  lemma {:induction false} FencedUntilActivated(o: Options, c: Config, g: Gateway, run: seq<Stage>, w: Id)
    requires o.Valid() && Held(o, g) && PossibleStages(o, c, g, run) && NeverActivated(o, c, g, run, w)
    requires w in g.coord.seats && g.coord.seats[w].fenced
    ensures var g' := RunStages(o, c, g, run);
            && w in g'.coord.seats && g'.coord.seats[w].fenced && g'.coord.seats[w].ticket.None? && !g'.coord.seats[w].ready
            && (w in g.drains ==> w in g'.drains && g'.drains[w] == g.drains[w])
    decreases |run|
  {
    hide Held, Next, Possible, Activates;
    if run == [] {
      HeldInv(o, g);
      FencedIsFree(o, g.coord, w);
    } else {
      var r := run[0];
      NextHolds(o, c, g, r.op, r.fate, r.now, r.bootAt);
      FencesAndDrainsGoOnlyByActivation(o, c, g, r.op, r.fate, r.now, r.bootAt, w);
      FencedUntilActivated(o, c, Next(o, c, g, r.op, r.fate, r.now, r.bootAt), run[1..], w);
    }
  }

  lemma HeldInv(o: Options, g: Gateway)
    requires Held(o, g)
    ensures Inv(o, g.coord) && DrainsHold(g.coord, g.drains)
  {
  }

  // ---------------------------------------------------------------- the plan and the mutations agree

  lemma {:induction false} StatusesAre(s: State, d: Drains, ws: seq<Id>, now: int)
    ensures forall x :: x in Statuses(s, d, ws, now) ==> x.seat in s.seats && x == StatusOf(s, d, x.seat, now)
  {
    hide StatusOf;
    if ws != [] {
      StatusesAre(s, d, ws[1..], now);
      if ws[0] in s.seats {
        StatusNames(s, d, ws[0], now);
      }
    }
  }

  /** The plan names a drained seat for activation exactly when its activation would be accepted. */
  lemma PlanAgreesWithActivation(o: Options, g: Gateway, w: Id, now: int)
    requires Held(o, g) && w in g.drains
    ensures Replaced(g.drains, StatusOf(g.coord, g.drains, w, now)) <==> ActivateMutation(o, g.coord, g.drains, w, now).2
  {
    AcceptedActivation(o, g.coord, g.drains, w, now);
    FencedIsFree(o, g.coord, w);
    hide Inv, ActivateMutation, IdleFor;
  }

  /** Every seat the plan wants scaled down can be drained at once, at the process the plan saw. */
  lemma ScaleDownCandidatesAreDrainable(o: Options, c: Config, g: Gateway, now: int, x: SeatStatus, drainId: Id)
    requires Held(o, g) && x in ScaleDown(c, Statuses(g.coord, g.drains, o.seats, now))
    ensures DrainMutation(o, c, g.coord, g.drains, x.seat, drainId, x.generation, now).2
  {
    var seats := Statuses(g.coord, g.drains, o.seats, now);
    StatusesAre(g.coord, g.drains, o.seats, now);
    ScaleDownTakesTheLongestIdle(c, seats);
    hide Statuses, ScaleDown, DrainMutation, Inv;
    assert x in seats;
    AcceptedDrain(o, c, g.coord, g.drains, x.seat, drainId, x.generation, now);
    hide IdleFor;
  }

  // ---------------------------------------------------------------- the mutations as they run

  /** The two halves a management request changes within one mutation. */
  class ManagementApi {
    const coordinator: PublicSessionCoordinator
    const pool: CapacityWarmPool

    constructor (coordinator: PublicSessionCoordinator, pool: CapacityWarmPool)
      ensures this.coordinator == coordinator && this.pool == pool
    {
      this.coordinator := coordinator;
      this.pool := pool;
    }

    method DrainWorker(w: Id, drainId: Id, expected: Option<Gen>, now: int) returns (accepted: bool)
      requires Inv(coordinator.options, coordinator.View())
      modifies coordinator, pool
      ensures (coordinator.View(), pool.drains, accepted)
           == DrainMutation(coordinator.options, pool.config, old(coordinator.View()), old(pool.drains), w, drainId, expected, now)
      ensures Inv(coordinator.options, coordinator.View())
    {
      hide Inv, Fence, IdleFor;
      if w !in coordinator.seats {
        return false;
      }
      var seat := StatusOf(coordinator.View(), pool.drains, w, now);
      if expected.Some? && seat.generation != expected {
        return false;
      }
      var answer := pool.Request(seat, drainId, now);
      if answer.Refused? {
        return false;
      }
      FenceKnown(coordinator.options, coordinator.View(), w, now);
      var known := coordinator.SetWorkerDrainIneligible(w, true, now);
      // The seat exists, so the branch that rolls the pool's half back is never taken.
      assert known;
      return true;
    }

    method ActivateWorker(w: Id, now: int) returns (accepted: bool)
      requires Inv(coordinator.options, coordinator.View())
      modifies coordinator, pool
      ensures (coordinator.View(), pool.drains, accepted)
           == ActivateMutation(coordinator.options, old(coordinator.View()), old(pool.drains), w, now)
      ensures Inv(coordinator.options, coordinator.View())
    {
      hide Inv, Fence;
      if w !in coordinator.seats {
        return false;
      }
      var generation := coordinator.seats[w].generation;
      if w in pool.drains && generation.Some? && generation.value == pool.drains[w].generation {
        return false;
      }
      if w in pool.drains {
        var released := pool.Release(w, generation);
        // The guard above has excluded a refusal, so the forced release is never needed.
        assert released;
      }
      var known := coordinator.SetWorkerDrainIneligible(w, false, now);
      return true;
    }
  }
}
