/**
  Who owns a global research permit. A permit that the gate has handed over is held by exactly one
  waiting job or running attempt until it is given back or the gate itself ends it. The one way to lose
  a permit is found, shown by an example, and characterized exactly.
 */
module WorkerPermits {
  import opened Common
  import opened Workers
  import opened WorkerInvariant
  import opened WorkerRuns

  /** Acquire calls not yet answered, and every permit the gate has handed over so far. */
  datatype World = World(inFlight: multiset<Id>, granted: set<Id>)

  const Calm := World(multiset{}, {})

  ghost predicate Possible(x: World, e: Event) {
    e.Deliver? ==> x.inFlight[e.job] > 0 && (e.outcome.Given? ==> e.outcome.permit !in x.granted)
  }

  /** An accepted submission starts an acquire call for its job; its answer hands over at most one permit. */
  function NextWorld(o: Options, s: State, x: World, e: Event): World {
    match e
    case Submit(job, valid) =>
      if o.gated && Enqueue(o, s, job, valid).1 == Queued then x.(inFlight := x.inFlight + multiset{job}) else x
    case Deliver(job, r) =>
      World(x.inFlight - multiset{job}, x.granted + (if r.Given? then {r.permit} else {}))
    case _ => x
  }

  // ---------------------------------------------------------------- ownership

  /** Permits that need no owner any more: given back at least once, or ended by the gate. */
  function Free(s: State): set<Id> {
    s.released + s.over
  }

  ghost predicate WaitsFor(pending: map<Id, Option<Id>>, job: Id, p: Id) {
    job in pending && pending[job] == Some(p)
  }

  ghost predicate RunsOn(active: map<nat, Attempt>, a: nat, p: Id) {
    a in active && active[a].permit == Some(p)
  }

  ghost predicate Owned(s: State, p: Id) {
    (exists job :: WaitsFor(s.pending, job, p)) || (exists a :: RunsOn(s.active, a, p))
  }

  /** No permit has two holders, and no permit that has been given back or ended has one. */
  ghost predicate Exclusive(pending: map<Id, Option<Id>>, active: map<nat, Attempt>, free: set<Id>, granted: set<Id>) {
    && (forall j, p :: WaitsFor(pending, j, p) ==> p in granted && p !in free)
    && (forall a, p :: RunsOn(active, a, p) ==> p in granted && p !in free)
    && (forall j, k, p :: WaitsFor(pending, j, p) && WaitsFor(pending, k, p) ==> j == k)
    && (forall a, b, p :: RunsOn(active, a, p) && RunsOn(active, b, p) ==> a == b)
    && (forall j, a, p :: WaitsFor(pending, j, p) && RunsOn(active, a, p) ==> false)
    && free <= granted
  }

  ghost predicate Holds(s: State, x: World) {
    Exclusive(s.pending, s.active, Free(s), x.granted)
  }

  /** A permit the gate handed over that nobody holds and nobody has given back. */
  ghost predicate Orphan(s: State, x: World, p: Id) {
    p in x.granted && p !in Free(s) && !Owned(s, p)
  }

  // ---------------------------------------------------------------- slots leave other permits alone

  /** Existing attempts stay, and new ones run without a permit. */
  ghost predicate Extends(s: State, s': State) {
    && (forall a :: a in s.active ==> a in s'.active && s'.active[a] == s.active[a])
    && (forall a :: a in s'.active && a !in s.active ==> s'.active[a].permit.None?)
    && s'.pending == s.pending && s'.released == s.released && s'.over == s.over
  }

  ghost predicate Numbered(s: State) {
    forall a :: a in s.active ==> a < s.nextAttempt
  }

  lemma ExtendsChain(a: State, b: State, c: State)
    requires Extends(a, b) && Extends(b, c)
    ensures Extends(a, c)
  {
  }

  lemma VacateFresh(s: State, s': State, a: nat)
    requires a !in s.active && a in s'.active && a in s'.history && s'.active[a].permit.None?
    requires Extends(s, s')
    ensures Extends(s, Vacate(s', a))
  {
  }

  lemma {:induction false} PumpExtends(o: Options, s: State)
    requires Numbered(s)
    ensures Extends(s, PumpQueue(o, s)) && Numbered(PumpQueue(o, s))
    decreases |s.queue|, 0
  {
    if s.disposed || |s.active| >= o.concurrency || s.queue == [] {
    } else {
      var s1 := s.(queue := s.queue[1..]);
      var s2 := Dispatch(o, s1, s.queue[0], None).0;
      DispatchExtends(o, s1, s.queue[0]);
      PumpExtends(o, s2);
      ExtendsChain(s, s1, s2);
      ExtendsChain(s, s2, PumpQueue(o, s2));
    }
  }

  lemma {:induction false} DispatchExtends(o: Options, s: State, job: Id)
    requires Numbered(s)
    ensures Extends(s, Dispatch(o, s, job, None).0) && Numbered(Dispatch(o, s, job, None).0)
    decreases |s.queue|, 2
  {
    var a := s.nextAttempt;
    if o.launch(a) == SendThrows {
      var s1 := ReportError(Start(s, job, None), a);
      VacateFresh(s, s1, a);
      var s2 := Vacate(s1, a);
      hide Extends;
      PumpExtends(o, s2);
      ExtendsChain(s, s2, PumpQueue(o, s2));
    }
  }

  /** Giving up a slot gives its permit back and leaves every other attempt and permit alone. */
  ghost predicate Vacated(s: State, s': State, a: nat)
    requires a in s.active
  {
    && (forall b :: b in s.active && b != a ==> b in s'.active && s'.active[b] == s.active[b])
    && (forall b :: b in s'.active && (b !in s.active || b == a) ==> s'.active[b].permit.None?)
    && s'.pending == s.pending && s'.over == s.over && s'.released == s.released + Granted(s.active[a].permit)
  }

  lemma ReleaseVacates(o: Options, s: State, a: nat)
    requires Numbered(s) && a in s.active && a in s.history
    ensures Vacated(s, ReleaseSlot(o, s, a), a)
  {
    PumpExtends(o, Vacate(s, a));
    hide PumpQueue;
  }

  lemma InvNumbered(o: Options, s: State)
    requires Inv(o, s)
    ensures Numbered(s) && forall a :: a in s.active ==> a in s.history
  {
  }

  ghost predicate Known(s: State, p: Id) {
    Owned(s, p) || p in Free(s)
  }

  /** A step that neither loses nor invents a permit: each is held, given back or ended exactly if it was before. */
  ghost predicate Settles(s: State, s': State) {
    forall p :: Known(s, p) <==> Known(s', p)
  }

  lemma VacatedHolds(s: State, s': State, x: World, a: nat)
    requires Holds(s, x) && a in s.active && Vacated(s, s', a)
    ensures Holds(s', x) && Settles(s, s')
  {
    assert forall b, p :: RunsOn(s'.active, b, p) <==> RunsOn(s.active, b, p) && b != a;
    assert forall p :: p in Granted(s.active[a].permit) <==> RunsOn(s.active, a, p);
    SettlesByParts(s, s');
  }

  /** A way to see that a step settles: what stops running is given back, and so is what stops waiting. */
  lemma SettlesByParts(s: State, s': State)
    requires forall a, p :: RunsOn(s.active, a, p) ==> RunsOn(s'.active, a, p) || p in Free(s')
    requires forall j, p :: WaitsFor(s.pending, j, p) ==> WaitsFor(s'.pending, j, p) || p in Free(s')
    requires forall a, p :: RunsOn(s'.active, a, p) ==> Known(s, p)
    requires forall j, p :: WaitsFor(s'.pending, j, p) ==> Known(s, p)
    requires Free(s) <= Free(s') && forall p :: p in Free(s') ==> Known(s, p)
    ensures Settles(s, s')
  {
    forall p ensures Known(s, p) <==> Known(s', p) {
      if Owned(s, p) {
        if a :| RunsOn(s.active, a, p) {
        } else {
          var j :| WaitsFor(s.pending, j, p);
        }
      }
      if Owned(s', p) {
        if a :| RunsOn(s'.active, a, p) {
        } else {
          var j :| WaitsFor(s'.pending, j, p);
        }
      }
    }
  }

  lemma ExtendsHolds(s: State, s': State, x: World)
    requires Holds(s, x) && Extends(s, s')
    ensures Holds(s', x) && Settles(s, s')
  {
    assert forall b, p :: RunsOn(s'.active, b, p) <==> RunsOn(s.active, b, p);
    SettlesByParts(s, s');
  }

  /** Attempt records may change as long as the permits they hold do not. */
  lemma SamePermitsHold(s: State, s': State, x: World)
    requires Holds(s, x) && s'.pending == s.pending && Free(s') == Free(s) && s'.active.Keys == s.active.Keys
    requires forall a :: a in s.active ==> s'.active[a].permit == s.active[a].permit
    ensures Holds(s', x) && Settles(s, s')
  {
    assert forall b, p :: RunsOn(s'.active, b, p) <==> RunsOn(s.active, b, p);
    SettlesByParts(s, s');
  }

  /** A waiting job leaves and the permit it knew of, if any, is given back or ended. */
  lemma DroppedHolds(s: State, s': State, x: World, job: Id)
    requires Holds(s, x) && job in s.pending && s'.pending == s.pending - {job} && s'.active == s.active
    requires Free(s') == Free(s) + Granted(s.pending[job])
    ensures Holds(s', x) && Settles(s, s')
  {
    assert forall j, p :: WaitsFor(s'.pending, j, p) <==> WaitsFor(s.pending, j, p) && j != job;
    assert forall p :: p in Granted(s.pending[job]) <==> WaitsFor(s.pending, job, p);
    SettlesByParts(s, s');
  }

  /** A new waiting job knows of no permit yet. */
  lemma WaitingHolds(s: State, s': State, x: World, job: Id)
    requires Holds(s, x) && job !in s.pending && s'.pending == s.pending[job := None] && s'.active == s.active && Free(s') == Free(s)
    ensures Holds(s', x) && Settles(s, s')
  {
    assert forall j, p :: WaitsFor(s'.pending, j, p) <==> WaitsFor(s.pending, j, p);
    SettlesByParts(s, s');
  }

  /** The permit of a waiting job passes to the attempt started for it. */
  lemma MovedHolds(s: State, s': State, x: World, job: Id, a: nat)
    requires Holds(s, x) && job in s.pending && a !in s.active
    requires s'.pending == s.pending - {job} && Free(s') == Free(s)
    requires a in s'.active && s'.active == s.active[a := s'.active[a]] && s'.active[a].permit == s.pending[job]
    ensures Holds(s', x) && Settles(s, s')
  {
    assert forall j, p :: WaitsFor(s'.pending, j, p) <==> WaitsFor(s.pending, j, p) && j != job;
    assert forall b, p :: RunsOn(s'.active, b, p) <==> RunsOn(s.active, b, p) || (b == a && WaitsFor(s.pending, job, p));
    forall p ensures Known(s, p) <==> Known(s', p) {
      if Owned(s', p) {
        if b :| RunsOn(s'.active, b, p) {
        } else {
          var j :| WaitsFor(s'.pending, j, p);
        }
      }
      if Owned(s, p) {
        if b :| RunsOn(s.active, b, p) {
          assert RunsOn(s'.active, b, p);
        } else {
          var j :| WaitsFor(s.pending, j, p);
          assert j == job ==> RunsOn(s'.active, a, p);
        }
      }
    }
  }

  lemma SettlesChain(a: State, b: State, c: State)
    requires Settles(a, b) && Settles(b, c)
    ensures Settles(a, c)
  {
    hide Known;
    forall p ensures Known(a, p) <==> Known(c, p) {
      assert Known(a, p) <==> Known(b, p);
    }
  }

  lemma SameHolds(s: State, s': State, x: World)
    requires Holds(s, x) && s'.pending == s.pending && s'.active == s.active && s'.released == s.released && s'.over == s.over
    ensures Holds(s', x) && Settles(s, s')
  {
    SamePermitsHold(s, s', x);
  }

  // ---------------------------------------------------------------- operations without the gate

  lemma ReleaseHolds(o: Options, s: State, x: World, a: nat)
    requires Numbered(s) && Holds(s, x) && a in s.active && a in s.history
    ensures Holds(ReleaseSlot(o, s, a), x) && Settles(s, ReleaseSlot(o, s, a))
  {
    ReleaseVacates(o, s, a);
    hide ReleaseSlot, Vacated;
    VacatedHolds(s, ReleaseSlot(o, s, a), x, a);
  }

  lemma ErrorHolds(o: Options, s: State, x: World, a: nat)
    requires Numbered(s) && Holds(s, x) && a in s.active && a in s.history
    ensures var s' := ReleaseSlot(o, ReportError(s, a), a); Holds(s', x) && Settles(s, s')
  {
    var s1 := ReportError(s, a);
    hide ReleaseSlot, Holds, Settles;
    SameHolds(s, s1, x);
    ReleaseHolds(o, s1, x, a);
    SettlesChain(s, s1, ReleaseSlot(o, s1, a));
  }

  lemma FencedHolds(s: State, x: World, a: nat)
    requires Numbered(s) && Holds(s, x) && a in s.active && a in s.history
    ensures var s' := Fenced(s, a); Holds(s', x) && Settles(s, s') && Numbered(s') && a in s'.active && a in s'.history
  {
    hide Holds, Settles;
    SamePermitsHold(s, Fenced(s, a), x);
  }

  lemma EndingsHold(o: Options, s: State, x: World, a: nat)
    requires Inv(o, s) && Holds(s, x)
    ensures Holds(OnExit(o, s, a), x) && Settles(s, OnExit(o, s, a))
    ensures Holds(OnError(o, s, a), x) && Settles(s, OnError(o, s, a))
    ensures Holds(CancelGraceEnds(o, s, a), x) && Settles(s, CancelGraceEnds(o, s, a))
    ensures Holds(Expire(o, s, a), x) && Settles(s, Expire(o, s, a))
  {
    hide Inv, Holds, Settles, ReleaseSlot, ReportError, Fenced;
    InvNumbered(o, s);
    SameHolds(s, s, x);
    if a in s.active {
      ReleaseHolds(o, s, x, a);
      ErrorHolds(o, s, x, a);
      FencedHolds(s, x, a);
      ErrorHolds(o, Fenced(s, a), x, a);
      SettlesChain(s, Fenced(s, a), ReleaseSlot(o, ReportError(Fenced(s, a), a), a));
    }
  }

  lemma MessageHolds(s: State, x: World, a: nat, m: Message)
    requires Holds(s, x)
    ensures Holds(OnMessage(s, a, m), x) && Settles(s, OnMessage(s, a, m))
  {
    hide Holds, Settles;
    SamePermitsHold(s, OnMessage(s, a, m), x);
  }

  lemma CancelHolds(o: Options, s: State, x: World, job: Id, a: nat, sendFails: bool)
    requires Inv(o, s) && Holds(s, x)
    ensures var s' := Cancel(o, s, job, a, sendFails).0; Holds(s', x) && Settles(s, s')
  {
    hide Inv, Holds, Settles, ReleaseSlot, Fenced;
    InvNumbered(o, s);
    SameHolds(s, s, x);
    var s' := Cancel(o, s, job, a, sendFails).0;
    if s.disposed {
    } else if job in s.pending {
      assert Free(s') == Free(s) + Granted(s.pending[job]);
      DroppedHolds(s, s', x, job);
    } else if job in s.queue {
      SameHolds(s, s', x);
    } else if job !in s.settled && Runs(s, job, a) {
      FencedHolds(s, x, a);
      ReleaseHolds(o, Fenced(s, a), x, a);
      SettlesChain(s, Fenced(s, a), ReleaseSlot(o, Fenced(s, a), a));
    }
  }

  lemma EnqueueHolds(o: Options, s: State, x: World, job: Id, valid: bool)
    requires Inv(o, s) && Holds(s, x)
    ensures var s' := Enqueue(o, s, job, valid).0; Holds(s', x) && Settles(s, s')
  {
    InvNumbered(o, s);
    if job !in s.jobs {
      assert job !in s.pending by { JobsHold(s, job); }
    }
    hide Inv, Holds, Settles, Dispatch;
    SameHolds(s, s, x);
    var s' := Enqueue(o, s, job, valid).0;
    var s1 := s.(settled := Remove(s.settled, job));
    SameHolds(s, s1, x);
    if s.disposed || !valid || job in s.jobs || job in s.queue || |s.active| + |s.queue| + |s.pending| >= o.maxQueue {
    } else if o.gated {
      WaitingHolds(s, s', x, job);
    } else if |s.active| < o.concurrency {
      DispatchExtends(o, s1, job);
      ExtendsHolds(s1, Dispatch(o, s1, job, None).0, x);
      SettlesChain(s, s1, s');
    } else {
      SameHolds(s, s', x);
    }
  }

  lemma AllPermitsAre(s: State, p: Id)
    ensures p in AllPermits(s) <==> Owned(s, p)
  {
    if p in AllPermits(s) {
      if j :| j in s.pending && s.pending[j].Some? && s.pending[j].value == p {
        assert WaitsFor(s.pending, j, p);
      } else {
        var a :| a in s.active && s.active[a].permit.Some? && s.active[a].permit.value == p;
        assert RunsOn(s.active, a, p);
      }
    }
    if Owned(s, p) {
      if j :| WaitsFor(s.pending, j, p) {
        assert s.pending[j].value == p;
      } else {
        var a :| RunsOn(s.active, a, p);
        assert s.active[a].permit.value == p;
      }
    }
  }

  lemma DisposeHolds(s: State, x: World)
    requires Holds(s, x)
    ensures Holds(Dispose(s), x) && Settles(s, Dispose(s))
  {
    if s.disposed {
      SameHolds(s, s, x);
    } else {
      var s' := Dispose(s);
      hide AllPermits;
      forall p ensures Known(s, p) <==> Known(s', p) {
        AllPermitsAre(s, p);
      }
      forall p | p in Free(s') ensures p in x.granted {
        AllPermitsAre(s, p);
      }
    }
  }

  // ---------------------------------------------------------------- the gate

  lemma DispatchPermitHolds(o: Options, s: State, x: World, job: Id)
    requires Numbered(s) && Holds(s, x) && job in s.pending && s.pending[job].Some?
    ensures var (s', ok) := Dispatch(o, DropPending(s, job), job, s.pending[job]);
            var r := if ok then s' else s'.(released := s'.released + Granted(s.pending[job]));
            Holds(r, x) && Settles(s, r)
  {
    var permit := s.pending[job];
    var s1 := DropPending(s, job);
    var a := s1.nextAttempt;
    var (s', ok) := Dispatch(o, s1, job, permit);
    var r := if ok then s' else s'.(released := s'.released + Granted(permit));
    var started := Start(s1, job, permit);
    hide Holds, Settles;
    MovedHolds(s, started, x, job, a);
    match o.launch(a)
    case FactoryThrows =>
      assert Free(r) == Free(s) + Granted(permit);
      DroppedHolds(s, r, x, job);
    case Starts =>
    case SendThrows =>
      var failed := ReportError(started, a);
      hide ReleaseSlot;
      assert s' == ReleaseSlot(o, failed, a);
      SameHolds(started, failed, x);
      ReleaseHolds(o, failed, x, a);
      ReleaseVacates(o, failed, a);
      assert r.released == s'.released;
      SettlesChain(s, started, failed);
      SettlesChain(s, failed, s');
      assert r == s';
  }

  lemma PermitFailureHolds(s: State, x: World, job: Id, s1: State)
    requires Holds(s, x) && s1 == s.(released := s1.released, over := s1.over)
    requires job in s.pending ==> Free(s1) == Free(s) + Granted(s.pending[job])
    requires job !in s.pending ==> s1 == s
    ensures Holds(PermitFailure(s1, job), x) && Settles(s, PermitFailure(s1, job))
  {
    hide Holds, Settles;
    if job in s.pending {
      DroppedHolds(s, PermitFailure(s1, job), x, job);
    } else {
      SameHolds(s, s, x);
    }
  }

  lemma DispatchWithPermitHolds(o: Options, s: State, x: World, job: Id)
    requires Inv(o, s) && Holds(s, x)
    ensures Holds(DispatchWithPermit(o, s, job), x) && Settles(s, DispatchWithPermit(o, s, job))
  {
    hide Inv, Holds, Settles, Dispatch, PermitFailure;
    InvNumbered(o, s);
    SameHolds(s, s, x);
    if s.disposed || job !in s.pending {
    } else if s.pending[job].None? {
      PermitFailureHolds(s, x, job, s);
    } else if |s.active| < o.concurrency {
      DispatchPermitHolds(o, s, x, job);
    }
  }

  lemma PolledHolds(o: Options, s: State, x: World, job: Id, permit: Id, status: GateStatus)
    requires Inv(o, s) && Holds(s, x)
    ensures Holds(OnPoll(o, s, job, permit, status), x) && Settles(s, OnPoll(o, s, job, permit, status))
    ensures Holds(WaitTimeout(s, job), x) && Settles(s, WaitTimeout(s, job))
  {
    hide Inv, Holds, Settles, DispatchWithPermit, PermitFailure;
    SameHolds(s, s, x);
    DispatchWithPermitHolds(o, s, x, job);
    if job in s.pending {
      var timedOut := s.(released := s.released + Granted(s.pending[job]));
      assert Free(timedOut) == Free(s) + Granted(s.pending[job]);
      PermitFailureHolds(s, x, job, timedOut);
      if s.pending[job] == Some(permit) {
        var ended := s.(over := s.over + {permit});
        assert Free(ended) == Free(s) + Granted(s.pending[job]);
        PermitFailureHolds(s, x, job, ended);
      }
    }
  }

  function After(x: World, job: Id, r: Outcome): World {
    World(x.inFlight - multiset{job}, x.granted + (if r.Given? then {r.permit} else {}))
  }

  /** The effect of an acquire answer on who holds what: only what the job knew before can get lost. */
  ghost predicate Loses(s: State, s': State, x: World, job: Id, r: Outcome) {
    forall p :: Orphan(s', After(x, job, r), p) <==> Orphan(s, x, p) || WaitsFor(s.pending, job, p)
  }

  /** A waiting job forgets the permit it knew of. */
  lemma ForgottenHolds(s: State, x: World, job: Id)
    requires Holds(s, x) && job in s.pending
    ensures var s' := s.(pending := s.pending[job := None]);
            Holds(s', x) && forall p :: Orphan(s', x, p) <==> Orphan(s, x, p) || WaitsFor(s.pending, job, p)
  {
    var s' := s.(pending := s.pending[job := None]);
    assert forall j, p :: WaitsFor(s'.pending, j, p) <==> WaitsFor(s.pending, j, p) && j != job;
    forall p ensures Owned(s', p) <==> Owned(s, p) && !WaitsFor(s.pending, job, p) {
      if Owned(s, p) && !WaitsFor(s.pending, job, p) {
        if b :| RunsOn(s.active, b, p) {
          assert RunsOn(s'.active, b, p);
        } else {
          var j :| WaitsFor(s.pending, j, p);
          assert WaitsFor(s'.pending, j, p);
        }
      }
    }
  }

  /** A waiting job that knows of no permit learns of a new one. */
  lemma LearnedHolds(s: State, x: World, job: Id, p: Id)
    requires Holds(s, x) && job in s.pending && s.pending[job].None? && p !in x.granted
    ensures var s', x' := s.(pending := s.pending[job := Some(p)]), World(x.inFlight - multiset{job}, x.granted + {p});
            Holds(s', x') && forall q :: Orphan(s', x', q) <==> Orphan(s, x, q)
  {
    var s', x' := s.(pending := s.pending[job := Some(p)]), World(x.inFlight - multiset{job}, x.granted + {p});
    assert forall j, q :: WaitsFor(s'.pending, j, q) <==> WaitsFor(s.pending, j, q) || (j == job && q == p);
    assert WaitsFor(s'.pending, job, p);
    forall q ensures Owned(s', q) <==> Owned(s, q) || q == p {
      if Owned(s, q) {
        if b :| RunsOn(s.active, b, q) {
          assert RunsOn(s'.active, b, q);
        } else {
          var j :| WaitsFor(s.pending, j, q);
          assert WaitsFor(s'.pending, j, q);
        }
      }
    }
  }

  lemma SettlesOrphans(s: State, s': State, x: World)
    requires Settles(s, s')
    ensures forall p :: Orphan(s', x, p) <==> Orphan(s, x, p)
  {
    forall p ensures Orphan(s', x, p) <==> Orphan(s, x, p) {
      assert Known(s, p) <==> Known(s', p);
    }
  }

  lemma FailedOutcome(o: Options, s: State, x: World, job: Id, r: Outcome)
    requires Inv(o, s) && Holds(s, x) && !r.Given? && job in s.pending
    ensures var s' := PermitFailure(s, job); Holds(s', After(x, job, r)) && Loses(s, s', x, job, r)
  {
    hide Inv, Holds, Settles;
    var s1 := s.(pending := s.pending[job := None]);
    var s' := PermitFailure(s, job);
    ForgottenHolds(s, x, job);
    assert s1.pending - {job} == s.pending - {job};
    assert Free(s1) == Free(s1) + Granted(s1.pending[job]);
    DroppedHolds(s1, s', x, job);
    SettlesOrphans(s1, s', x);
    SameWorld(s', x, After(x, job, r));
    SameWorld(s, x, After(x, job, r));
  }

  lemma SameWorld(s: State, x: World, x': World)
    requires x'.granted == x.granted
    ensures Holds(s, x) <==> Holds(s, x')
    ensures forall p :: Orphan(s, x, p) <==> Orphan(s, x', p)
  {
  }

  lemma GivenOutcome(o: Options, s: State, x: World, job: Id, r: Outcome)
    requires Inv(o, s) && Holds(s, x) && r.Given? && r.permit !in x.granted && job in s.pending && !s.disposed
    ensures var s' := OnOutcome(o, s, job, r); Holds(s', After(x, job, r)) && Loses(s, s', x, job, r)
  {
    hide Holds, Settles, DispatchWithPermit;
    var s0 := s.(pending := s.pending[job := None]);
    var s1 := s.(pending := s.pending[job := Some(r.permit)]);
    var x' := After(x, job, r);
    ForgottenHolds(s, x, job);
    assert s0.pending[job := Some(r.permit)] == s1.pending;
    LearnedHolds(s0, x, job, r.permit);
    KnownPermitInv(o, s, job, r.permit);
    hide Inv;
    DispatchWithPermitHolds(o, s1, x', job);
    SettlesOrphans(s1, DispatchWithPermit(o, s1, job), x');
  }

  lemma ReturnedOutcome(s: State, x: World, job: Id, r: Outcome)
    requires Holds(s, x) && r.Given? && r.permit !in x.granted && job !in s.pending
    ensures var s' := s.(released := s.released + {r.permit});
            Holds(s', After(x, job, r)) && Loses(s, s', x, job, r)
  {
    var s' := s.(released := s.released + {r.permit});
    forall p ensures Owned(s', p) <==> Owned(s, p) {
      if Owned(s, p) {
        if b :| RunsOn(s.active, b, p) {
          assert RunsOn(s'.active, b, p);
        } else {
          var j :| WaitsFor(s.pending, j, p);
          assert WaitsFor(s'.pending, j, p);
        }
      }
    }
  }

  lemma OutcomeHolds(o: Options, s: State, x: World, job: Id, r: Outcome)
    requires Inv(o, s) && Holds(s, x) && (r.Given? ==> r.permit !in x.granted)
    ensures var s' := OnOutcome(o, s, job, r); Holds(s', After(x, job, r)) && Loses(s, s', x, job, r)
  {
    InvCore(o, s);
    hide Inv, Core, Holds, DispatchWithPermit;
    if job in s.pending {
      if r.Given? {
        GivenOutcome(o, s, x, job, r);
      } else {
        FailedOutcome(o, s, x, job, r);
      }
    } else if r.Given? {
      ReturnedOutcome(s, x, job, r);
    } else {
      SameWorld(s, x, After(x, job, r));
    }
  }

  // ---------------------------------------------------------------- every step

  /**
    Exactly which step loses a permit: one is lost by an acquire answer for a job that already knew of
    another permit, namely that other permit, and by nothing else. All others stay held by exactly one
    holder, given back, or ended by the gate.
   */
  lemma PermitIsLostExactlyWhenForgotten(o: Options, s: State, x: World, e: Event, p: Id)
    requires Inv(o, s) && Holds(s, x) && Possible(x, e)
    ensures var s', x' := Step(o, s, e), NextWorld(o, s, x, e);
            && Holds(s', x')
            && (Orphan(s', x', p) <==> Orphan(s, x, p) || (e.Deliver? && WaitsFor(s.pending, e.job, p)))
  {
    var s', x' := Step(o, s, e), NextWorld(o, s, x, e);
    if e.Deliver? {
      OutcomeHolds(o, s, x, e.job, e.outcome);
    } else {
      QuietStep(o, s, x, e);
      SettlesOrphans(s, s', x);
      SameWorld(s, x, x');
      SameWorld(s', x, x');
    }
  }

  lemma QuietStep(o: Options, s: State, x: World, e: Event)
    requires Inv(o, s) && Holds(s, x) && !e.Deliver?
    ensures Holds(Step(o, s, e), x) && Settles(s, Step(o, s, e))
  {
    hide Inv, Holds, Settles, Enqueue, Cancel, OnMessage, OnExit, OnError, Expire, CancelGraceEnds, OnPoll, WaitTimeout, Dispose;
    match e
    case Submit(job, valid) => EnqueueHolds(o, s, x, job, valid);
    case Abandon(job, a, sendFails) => CancelHolds(o, s, x, job, a, sendFails);
    case Heard(a, m) => MessageHolds(s, x, a, m);
    case Exited(a) => EndingsHold(o, s, x, a);
    case Broke(a) => EndingsHold(o, s, x, a);
    case DeadlineFires(a) => EndingsHold(o, s, x, a);
    case GraceFires(a) => EndingsHold(o, s, x, a);
    case Polled(job, permit, status) => PolledHolds(o, s, x, job, permit, status);
    case WaitFires(job) => PolledHolds(o, s, x, job, 0, StillQueued);
    case Shutdown => DisposeHolds(s, x);
  }

  // ---------------------------------------------------------------- every run

  /** Every other waiting job is as it was. */
  ghost predicate OthersWait(s: State, s': State, job: Option<Id>) {
    forall j :: j in s'.pending && Some(j) != job ==> j in s.pending && s'.pending[j] == s.pending[j]
  }

  lemma ReleasePending(o: Options, s: State, a: nat)
    requires Numbered(s) && a in s.active && a in s.history
    ensures ReleaseSlot(o, s, a).pending == s.pending
    ensures ReleaseSlot(o, ReportError(s, a), a).pending == s.pending
  {
    ReleaseVacates(o, s, a);
    ReleaseVacates(o, ReportError(s, a), a);
    hide ReleaseSlot;
  }

  lemma EndingsWait(o: Options, s: State, a: nat)
    requires Inv(o, s)
    ensures OnExit(o, s, a).pending == s.pending && OnError(o, s, a).pending == s.pending
    ensures CancelGraceEnds(o, s, a).pending == s.pending && Expire(o, s, a).pending == s.pending
  {
    hide Inv, ReleaseSlot, ReportError;
    InvNumbered(o, s);
    if a in s.active {
      ReleasePending(o, s, a);
      ReleasePending(o, Fenced(s, a), a);
    }
  }

  lemma DispatchPending(o: Options, s: State, job: Id, permit: Option<Id>)
    requires Numbered(s)
    ensures Dispatch(o, s, job, permit).0.pending == s.pending
  {
    if o.launch(s.nextAttempt) == SendThrows {
      ReleasePending(o, Start(s, job, permit), s.nextAttempt);
    }
  }

  lemma FailureWaits(s: State, job: Id)
    ensures OthersWait(s, PermitFailure(s, job), None)
  {
  }

  lemma GateWaits(o: Options, s: State, job: Id)
    requires Inv(o, s)
    ensures OthersWait(s, DispatchWithPermit(o, s, job), None)
    ensures OthersWait(s, PermitFailure(s, job), None)
  {
    hide Inv, Dispatch, PermitFailure;
    FailureWaits(s, job);
    InvNumbered(o, s);
    if job in s.pending {
      DispatchPending(o, DropPending(s, job), job, s.pending[job]);
    }
  }

  lemma OutcomeWaits(o: Options, s: State, job: Id, r: Outcome)
    requires Inv(o, s)
    ensures OthersWait(s, OnOutcome(o, s, job, r), Some(job))
  {
    hide Inv, DispatchWithPermit, PermitFailure;
    GateWaits(o, s, job);
    if r.Given? && job in s.pending {
      var s1 := s.(pending := s.pending[job := Some(r.permit)]);
      InvCore(o, s);
      KnownPermitInv(o, s, job, r.permit);
      GateWaits(o, s1, job);
    }
  }

  lemma SubmitWaits(o: Options, s: State, job: Id, valid: bool)
    requires Inv(o, s)
    ensures var (s', answer) := Enqueue(o, s, job, valid);
            && OthersWait(s, s', Some(job))
            && (job in s'.pending ==> (job in s.pending && s'.pending[job] == s.pending[job])
                                      || (o.gated && answer == Queued && s'.pending[job].None?))
  {
    InvNumbered(o, s);
    DispatchPending(o, s.(settled := Remove(s.settled, job)), job, None);
    hide Inv, Dispatch;
  }

  lemma CancelWaits(o: Options, s: State, job: Id, a: nat, sendFails: bool)
    requires Inv(o, s)
    ensures OthersWait(s, Cancel(o, s, job, a, sendFails).0, None)
  {
    hide Inv, ReleaseSlot, Remove;
    InvNumbered(o, s);
    if Runs(s, job, a) {
      ReleasePending(o, Fenced(s, a), a);
    }
  }

  lemma PollWaits(o: Options, s: State, job: Id, permit: Id, status: GateStatus)
    requires Inv(o, s)
    ensures OthersWait(s, OnPoll(o, s, job, permit, status), None)
    ensures OthersWait(s, WaitTimeout(s, job), None)
  {
    hide Inv, DispatchWithPermit;
    GateWaits(o, s, job);
  }

  lemma StepWaits(o: Options, s: State, e: Event)
    requires Inv(o, s) && !e.Submit? && !e.Deliver?
    ensures OthersWait(s, Step(o, s, e), None)
  {
    hide Inv, Enqueue, Cancel, OnExit, OnError, CancelGraceEnds, Expire, OnOutcome, OnPoll, WaitTimeout, AllPermits;
    match e
    case Abandon(job, a, sendFails) => CancelWaits(o, s, job, a, sendFails);
    case Heard(a, m) =>
    case Exited(a) => EndingsWait(o, s, a);
    case Broke(a) => EndingsWait(o, s, a);
    case DeadlineFires(a) => EndingsWait(o, s, a);
    case GraceFires(a) => EndingsWait(o, s, a);
    case Polled(job, permit, status) => PollWaits(o, s, job, permit, status);
    case WaitFires(job) => PollWaits(o, s, job, 0, StillQueued);
    case Shutdown =>
  }

  /** At most one acquire call per job is unanswered, and such a job knows of no permit yet. */
  ghost predicate Unanswered(s: State, x: World) {
    forall job :: x.inFlight[job] <= 1 && (x.inFlight[job] == 1 && job in s.pending ==> s.pending[job].None?)
  }

  lemma StepUnanswered(o: Options, s: State, x: World, e: Event)
    requires Inv(o, s) && Unanswered(s, x) && Possible(x, e) && (e.Submit? ==> x.inFlight[e.job] == 0)
    ensures Unanswered(Step(o, s, e), NextWorld(o, s, x, e))
  {
    var s', x' := Step(o, s, e), NextWorld(o, s, x, e);
    if e.Submit? {
      SubmitWaits(o, s, e.job, e.valid);
      hide Inv, Step, Enqueue;
      assert s' == Enqueue(o, s, e.job, e.valid).0 by { SubmitStep(o, s, e); }
      forall job ensures x'.inFlight[job] <= 1 && (x'.inFlight[job] == 1 && job in s'.pending ==> s'.pending[job].None?) {
      }
    } else if e.Deliver? {
      OutcomeWaits(o, s, e.job, e.outcome);
      hide Inv, OnOutcome;
      forall job ensures x'.inFlight[job] <= 1 && (x'.inFlight[job] == 1 && job in s'.pending ==> s'.pending[job].None?) {
      }
    } else {
      StepWaits(o, s, e);
      hide Inv, Step;
    }
  }

  lemma SubmitStep(o: Options, s: State, e: Event)
    requires e.Submit?
    ensures Step(o, s, e) == Enqueue(o, s, e.job, e.valid).0
  {
  }

  ghost predicate PossibleRun(o: Options, s: State, x: World, run: seq<Event>)
    decreases |run|
  {
    run == [] || (Possible(x, run[0]) && PossibleRun(o, Step(o, s, run[0]), NextWorld(o, s, x, run[0]), run[1..]))
  }

  /** No job is submitted while an acquire call for an earlier submission of it is unanswered. */
  ghost predicate Patient(o: Options, s: State, x: World, run: seq<Event>)
    decreases |run|
  {
    run == [] || ((run[0].Submit? ==> x.inFlight[run[0].job] == 0)
                  && Patient(o, Step(o, s, run[0]), NextWorld(o, s, x, run[0]), run[1..]))
  }

  function RunWorld(o: Options, s: State, x: World, run: seq<Event>): (State, World)
    decreases |run|
  {
    if run == [] then (s, x) else RunWorld(o, Step(o, s, run[0]), NextWorld(o, s, x, run[0]), run[1..])
  }

  lemma {:induction false} RunLosesNothing(o: Options, s: State, x: World, run: seq<Event>)
    requires Inv(o, s) && Holds(s, x) && Unanswered(s, x) && PossibleRun(o, s, x, run) && Patient(o, s, x, run)
    requires forall p :: !Orphan(s, x, p)
    ensures var (s', x') := RunWorld(o, s, x, run); Holds(s', x') && forall p :: !Orphan(s', x', p)
    decreases |run|
  {
    hide Inv, Holds, Step, NextWorld;
    if run != [] {
      var e := run[0];
      var s', x' := Step(o, s, e), NextWorld(o, s, x, e);
      StepInv(o, s, e);
      StepUnanswered(o, s, x, e);
      forall p ensures !Orphan(s', x', p) && Holds(s', x') {
        PermitIsLostExactlyWhenForgotten(o, s, x, e, p);
        if e.Deliver? {
          assert !WaitsFor(s.pending, e.job, p);
        }
      }
      assert Holds(s', x') by { PermitIsLostExactlyWhenForgotten(o, s, x, e, 0); }
      RunLosesNothing(o, s', x', run[1..]);
    }
  }

  /**
    In every run that submits a job again only after its earlier acquire call has been answered, each
    permit ever handed over is held by exactly one waiting job or running attempt, or has been given
    back, or has been ended by the gate.
   */
  lemma NoPermitIsLost(o: Options, run: seq<Event>, p: Id)
    requires o.Valid() && PossibleRun(o, Init, Calm, run) && Patient(o, Init, Calm, run)
    ensures var (s, x) := RunWorld(o, Init, Calm, run);
            && (p in x.granted ==> Owned(s, p) || p in s.released || p in s.over)
            && (forall a, b :: RunsOn(s.active, a, p) && RunsOn(s.active, b, p) ==> a == b)
            && (forall a :: RunsOn(s.active, a, p) ==> p !in s.released)
  {
    InitInv(o);
    RunLosesNothing(o, Init, Calm, run);
    var (s, x) := RunWorld(o, Init, Calm, run);
    hide RunWorld, Patient, PossibleRun;
    assert !Orphan(s, x, p);
    assert forall q :: q in s.released ==> q in Free(s);
  }

  /** The example: cancelled and submitted again while the first call is unanswered, and both calls are queued. */
  function Impatient(): seq<Event> {
    [Submit(1, true), Abandon(1, 0, false), Submit(1, true),
     Deliver(1, Given(10, false)), Deliver(1, Given(11, false))]
  }

  lemma Submits(o: Options, s: State, x: World)
    requires o.Valid() && o.gated && !s.disposed && 1 !in s.jobs && s.queue == [] && s.active == map[] && s.pending == map[]
    ensures var s' := Step(o, s, Submit(1, true));
            s'.pending == map[1 := None] && s'.jobs == s.jobs + {1} && s'.queue == [] && s'.active == map[] && !s'.disposed
            && s'.released == s.released && s'.over == s.over
            && NextWorld(o, s, x, Submit(1, true)) == x.(inFlight := x.inFlight + multiset{1})
  {
    hide Remove;
    assert |s.active| + |s.queue| + |s.pending| == 0;
  }

  lemma Abandons(o: Options, s: State, x: World)
    requires !s.disposed && s.pending == map[1 := None] && s.queue == [] && s.active == map[]
    ensures var s' := Step(o, s, Abandon(1, 0, false));
            s'.pending == map[] && s'.jobs == s.jobs - {1} && s'.queue == [] && s'.active == map[] && !s'.disposed
            && s'.released == s.released && s'.over == s.over && NextWorld(o, s, x, Abandon(1, 0, false)) == x
  {
    assert s.pending - {1} == map[];
    assert s.released + {} == s.released;
  }

  lemma Delivers(o: Options, s: State, x: World, p: Id)
    requires !s.disposed && 1 in s.pending && s.pending.Keys == {1} && s.active == map[]
    ensures var s' := Step(o, s, Deliver(1, Given(p, false)));
            s'.pending == map[1 := Some(p)] && s'.active == map[] && !s'.disposed
            && s'.released == s.released && s'.over == s.over
            && NextWorld(o, s, x, Deliver(1, Given(p, false))) == World(x.inFlight - multiset{1}, x.granted + {p})
  {
    assert s.pending[1 := Some(p)] == map[1 := Some(p)];
  }

  /** Without patience a permit can be lost: permit 10 is handed over and forgotten. */
  lemma ImpatientRunLosesAPermit(o: Options)
    requires o.Valid() && o.gated
    ensures PossibleRun(o, Init, Calm, Impatient()) && !Patient(o, Init, Calm, Impatient())
    ensures var (s, x) := RunWorld(o, Init, Calm, Impatient()); Orphan(s, x, 10)
  {
    UnrollEnd(o);
    hide RunWorld, PossibleRun, Patient, Step, NextWorld;
    var run := Impatient();
    var s1, x1 := Step(o, Init, run[0]), NextWorld(o, Init, Calm, run[0]);
    Submits(o, Init, Calm);
    Unroll(o, Init, Calm, run);
    var s2, x2 := Step(o, s1, run[1]), NextWorld(o, s1, x1, run[1]);
    Abandons(o, s1, x1);
    Unroll(o, s1, x1, run[1..]);
    var s3, x3 := Step(o, s2, run[2]), NextWorld(o, s2, x2, run[2]);
    Submits(o, s2, x2);
    Unroll(o, s2, x2, run[2..]);
    var s4, x4 := Step(o, s3, run[3]), NextWorld(o, s3, x3, run[3]);
    Delivers(o, s3, x3, 10);
    Unroll(o, s3, x3, run[3..]);
    var s5, x5 := Step(o, s4, run[4]), NextWorld(o, s4, x4, run[4]);
    Delivers(o, s4, x4, 11);
    Unroll(o, s4, x4, run[4..]);
    assert run[1..][1..] == run[2..] && run[2..][1..] == run[3..] && run[3..][1..] == run[4..] && run[4..][1..] == [];
    assert !Owned(s5, 10);
  }

  lemma UnrollEnd(o: Options)
    ensures forall s, x :: RunWorld(o, s, x, []) == (s, x)
    ensures forall s, x :: PossibleRun(o, s, x, [])
  {
  }

  lemma Unroll(o: Options, s: State, x: World, run: seq<Event>)
    requires run != []
    ensures var s', x' := Step(o, s, run[0]), NextWorld(o, s, x, run[0]);
            && RunWorld(o, s, x, run) == RunWorld(o, s', x', run[1..])
            && (PossibleRun(o, s, x, run) <==> Possible(x, run[0]) && PossibleRun(o, s', x', run[1..]))
            && (Patient(o, s, x, run) <==> (run[0].Submit? ==> x.inFlight[run[0].job] == 0) && Patient(o, s', x', run[1..]))
  {
    hide Step, NextWorld;
  }
}
