/**
  Whole runs of the research-worker coordinator: children, timers, the permit gate and callers act in
  any order. Attempts stay within their slots and their histories stay orderly throughout.
 */
module WorkerRuns {
  import opened Common
  import opened Workers
  import opened WorkerInvariant

  datatype Event =
    | Submit(job: Id, valid: bool)
    | Abandon(job: Id, attempt: nat, sendFails: bool)
    | Heard(attempt: nat, message: Message)
    | Exited(attempt: nat)
    | Broke(attempt: nat)
    | DeadlineFires(attempt: nat)
    | GraceFires(attempt: nat)
    | Deliver(job: Id, outcome: Outcome)
    | Polled(job: Id, permit: Id, status: GateStatus)
    | WaitFires(job: Id)
    | Shutdown

  function Step(o: Options, s: State, e: Event): State {
    match e
    case Submit(job, valid) => Enqueue(o, s, job, valid).0
    case Abandon(job, a, sendFails) => Cancel(o, s, job, a, sendFails).0
    case Heard(a, m) => OnMessage(s, a, m)
    case Exited(a) => OnExit(o, s, a)
    case Broke(a) => OnError(o, s, a)
    case DeadlineFires(a) => Expire(o, s, a)
    case GraceFires(a) => CancelGraceEnds(o, s, a)
    case Deliver(job, r) => OnOutcome(o, s, job, r)
    case Polled(job, permit, status) => OnPoll(o, s, job, permit, status)
    case WaitFires(job) => WaitTimeout(s, job)
    case Shutdown => Dispose(s)
  }

  function Run(o: Options, s: State, run: seq<Event>): State
    decreases |run|
  {
    if run == [] then s else Run(o, Step(o, s, run[0]), run[1..])
  }

  // ---------------------------------------------------------------- each operation keeps the invariant

  /** Histories go on, attempt numbers and disposal only go forward. */
  ghost predicate Onward(s: State, s': State) {
    Remembers(s.history, s'.history) && s.nextAttempt <= s'.nextAttempt && (s.disposed ==> s'.disposed)
  }

  lemma OnwardChain(a: State, b: State, c: State)
    requires Onward(a, b) && Onward(b, c)
    ensures Onward(a, c)
  {
    hide Remembers;
    RemembersChain(a.history, b.history, c.history);
  }

  lemma SameOnward(s: State, s': State)
    requires s'.history == s.history && s'.nextAttempt == s.nextAttempt && (s.disposed ==> s'.disposed)
    ensures Onward(s, s')
  {
  }

  lemma InvCore(o: Options, s: State)
    requires Inv(o, s)
    ensures Core(o, s, None) && forall a :: Core(o, s, Some(a))
    ensures forall a :: a in s.active ==> a in s.history
    ensures s.disposed ==> s.active == map[] && s.queue == [] && s.pending == map[]
  {
  }

  lemma ReleaseOnward(o: Options, s: State, a: nat)
    requires Core(o, s, Some(a)) && Releasable(s, a)
    ensures Inv(o, ReleaseSlot(o, s, a)) && Onward(s, ReleaseSlot(o, s, a))
  {
    hide Core, Inv, Remembers;
    ReleaseSlotCore(o, s, a);
  }

  lemma ForgetCore(o: Options, s: State, settled: seq<Id>)
    requires Inv(o, s)
    ensures Inv(o, s.(settled := settled)) && Onward(s, s.(settled := settled))
  {
    SameOnward(s, s.(settled := settled));
    hide Placed, Histories, Gone;
  }

  lemma QueuePlaced(s: State, job: Id)
    requires Placed(s.active, s.queue, s.pending, s.jobs) && job !in s.jobs && job !in s.queue
    ensures Placed(s.active, s.queue + [job], s.pending, s.jobs)
  {
  }

  lemma PendPlaced(s: State, job: Id, permit: Option<Id>)
    requires Placed(s.active, s.queue, s.pending, s.jobs) && (job !in s.jobs || job in s.pending) && job !in s.queue
    ensures Placed(s.active, s.queue, s.pending[job := permit], s.jobs + {job})
  {
  }

  lemma EnqueueInv(o: Options, s: State, job: Id, valid: bool)
    requires Inv(o, s)
    ensures Inv(o, Enqueue(o, s, job, valid).0) && Onward(s, Enqueue(o, s, job, valid).0)
  {
    SameOnward(s, s);
    if s.disposed || !valid || job in s.jobs || job in s.queue {
    } else {
      var s1 := s.(settled := Remove(s.settled, job));
      ForgetCore(o, s, Remove(s.settled, job));
      hide Histories, Gone, Remembers, Remove;
      if |s.active| + |s.queue| + |s.pending| >= o.maxQueue {
      } else if o.gated {
        assert job !in s.pending by { JobsHold(s, job); }
        PutSize(s.pending, job, None);
        PendPlaced(s1, job, None);
        hide Placed;
        SameOnward(s, s1.(pending := s1.pending[job := None], jobs := s1.jobs + {job}));
      } else if |s.active| < o.concurrency {
        hide Placed;
        DispatchCore(o, s1, job, None);
        assert s1.queue == [];
      } else {
        QueuePlaced(s1, job);
        hide Placed;
        SameOnward(s, s1.(queue := s1.queue + [job]));
      }
    }
  }

  lemma JobsHold(s: State, job: Id)
    requires Placed(s.active, s.queue, s.pending, s.jobs) && job !in s.jobs
    ensures job !in s.pending
  {
  }

  lemma DropPlaced(s: State, job: Id)
    requires Placed(s.active, s.queue, s.pending, s.jobs) && job in s.pending
    ensures var s' := DropPending(s, job);
            Placed(s'.active, s'.queue, s'.pending, s'.jobs) && |s'.pending| == |s.pending| - 1 && job !in s'.queue && job !in s'.jobs
  {
    DropSize(s.pending, job);
    hide NoDup;
    assert job in s.jobs;
  }

  /** A waiting job leaves; whatever else is recorded about permits and failures is free to change. */
  lemma DropCore(o: Options, s: State, job: Id, s': State)
    requires Inv(o, s) && job in s.pending
    requires s' == DropPending(s, job).(released := s'.released, over := s'.over, failures := s'.failures)
    ensures Inv(o, s') && Onward(s, s') && !s'.disposed && s'.queue == []
    ensures job !in s'.jobs && job !in s'.queue && |s'.active| + |s'.queue| + |s'.pending| < o.maxQueue
  {
    hide Placed, Histories, Gone;
    DropPlaced(s, job);
    SameOnward(s, s');
    assert s.pending != map[];
  }

  lemma UnqueuePlaced(s: State, job: Id)
    requires Placed(s.active, s.queue, s.pending, s.jobs) && job in s.queue
    ensures Placed(s.active, Remove(s.queue, job), s.pending, s.jobs) && |Remove(s.queue, job)| == |s.queue| - 1
  {
    RemoveElems(s.queue, job);
  }

  lemma UnqueueCore(o: Options, s: State, job: Id)
    requires Inv(o, s) && job in s.queue
    ensures Inv(o, s.(queue := Remove(s.queue, job))) && Onward(s, s.(queue := Remove(s.queue, job)))
  {
    hide Placed, Histories, Gone;
    UnqueuePlaced(s, job);
    hide Remove;
    SameOnward(s, s.(queue := Remove(s.queue, job)));
  }

  lemma FencedInv(o: Options, s: State, a: nat)
    requires Inv(o, s) && a in s.active && a in s.history
    ensures var s' := Fenced(s, a);
            Inv(o, s') && Core(o, s', Some(a)) && Releasable(s', a) && Onward(s, s')
  {
    hide Core, Remembers;
    FencedCore(o, s, a);
    CoreWeaken(o, Fenced(s, a), a);
  }

  lemma CancelInv(o: Options, s: State, job: Id, a: nat, sendFails: bool)
    requires Inv(o, s)
    ensures Inv(o, Cancel(o, s, job, a, sendFails).0) && Onward(s, Cancel(o, s, job, a, sendFails).0)
  {
    SameOnward(s, s);
    hide Inv, Core, Onward, Fenced, ReleaseSlot, Remove;
    if s.disposed {
    } else if job in s.pending {
      DropCore(o, s, job, Cancel(o, s, job, a, sendFails).0);
    } else if job in s.queue {
      UnqueueCore(o, s, job);
    } else if job !in s.settled && Runs(s, job, a) {
      FencedInv(o, s, a);
      ReleaseOnward(o, Fenced(s, a), a);
      OnwardChain(s, Fenced(s, a), ReleaseSlot(o, Fenced(s, a), a));
    }
  }

  lemma MessageHistory(t: Attempt, h: History, m: Message)
    requires Tracks(t, h) && Orderly(h) && h.errors == 0 && !t.cancelled && !t.terminal && m.sequence > t.lastSequence
    ensures var t' := t.(lastSequence := m.sequence, terminal := m.kind == Terminal);
            var h' := h.(sent := h.sent + [m.sequence], terminal := m.kind == Terminal);
            Tracks(t', h') && Orderly(h') && Continues(h, h')
  {
  }

  lemma PutInv(o: Options, s: State, a: nat, t: Attempt, h: History)
    requires Inv(o, s) && a in s.active && a in s.history && t.job == s.active[a].job
    requires Orderly(h) && Tracks(t, h) && Continues(s.history[a], h) && h.errors == 0
    ensures var s' := s.(active := s.active[a := t], history := s.history[a := h]); Inv(o, s') && Onward(s, s')
  {
    hide Placed, Histories, Gone, Remembers, Tracks, Orderly, Continues;
    PutHistories(s, a, t, h, None);
    PutPlaced(s, a, t);
  }

  lemma RunningInv(o: Options, s: State, a: nat)
    requires Inv(o, s) && a in s.active
    ensures a in s.history && Tracks(s.active[a], s.history[a]) && Orderly(s.history[a]) && s.history[a].errors == 0
  {
    RunningHistory(s, a);
  }

  lemma MessageInv(o: Options, s: State, a: nat, m: Message)
    requires Inv(o, s)
    ensures Inv(o, OnMessage(s, a, m)) && Onward(s, OnMessage(s, a, m))
  {
    hide Inv, Onward, Tracks, Orderly, Continues;
    SameOnward(s, s);
    if !s.disposed && a in s.active && a in s.history {
      var t, h := s.active[a], s.history[a];
      if !(t.cancelled || t.terminal || m.job != t.job || m.attempt != a || m.sequence <= t.lastSequence) {
        var ends := m.kind == Terminal;
        RunningInv(o, s, a);
        MessageHistory(t, h, m);
        PutInv(o, s, a, t.(lastSequence := m.sequence, terminal := ends), h.(sent := h.sent + [m.sequence], terminal := ends));
      }
    }
  }

  lemma ErrorInv(o: Options, s: State, a: nat)
    requires Core(o, s, None) && a in s.active && a in s.history && !s.active[a].terminal
    ensures var s' := ReleaseSlot(o, ReportError(s, a), a); Inv(o, s') && Onward(s, s')
  {
    hide Core, Inv, Remembers, ReleaseSlot, ReportError;
    ReportErrorCore(o, s, a);
    ReleaseOnward(o, ReportError(s, a), a);
    OnwardChain(s, ReportError(s, a), ReleaseSlot(o, ReportError(s, a), a));
  }

  lemma RunningFlags(o: Options, s: State, a: nat)
    requires Core(o, s, None) && a in s.active
    ensures a in s.history && s.history[a].terminal == s.active[a].terminal && s.history[a].cancelled == s.active[a].cancelled
  {
  }

  lemma EndingsInv(o: Options, s: State, a: nat)
    requires Inv(o, s)
    ensures Inv(o, OnExit(o, s, a)) && Onward(s, OnExit(o, s, a))
    ensures Inv(o, OnError(o, s, a)) && Onward(s, OnError(o, s, a))
    ensures Inv(o, CancelGraceEnds(o, s, a)) && Onward(s, CancelGraceEnds(o, s, a))
  {
    SameOnward(s, s);
    InvCore(o, s);
    hide Inv, Core, Onward, ReleaseSlot, ReportError;
    if a in s.active {
      RunningFlags(o, s, a);
      if !s.active[a].terminal {
        ErrorInv(o, s, a);
      }
      if s.active[a].terminal || s.active[a].cancelled {
        ReleaseOnward(o, s, a);
      }
    }
  }

  lemma ExpireInv(o: Options, s: State, a: nat)
    requires Inv(o, s)
    ensures Inv(o, Expire(o, s, a)) && Onward(s, Expire(o, s, a))
  {
    SameOnward(s, s);
    InvCore(o, s);
    hide Inv, Core, Onward, ReleaseSlot, ReportError;
    if a in s.active && !s.active[a].terminal && !s.active[a].cancelled {
      FencedInv(o, s, a);
      InvCore(o, Fenced(s, a));
      ErrorInv(o, Fenced(s, a), a);
      OnwardChain(s, Fenced(s, a), Expire(o, s, a));
    }
  }

  lemma PermitFailureInv(o: Options, s: State, job: Id, s1: State)
    requires Inv(o, s) && s1 == s.(released := s1.released, over := s1.over)
    ensures Inv(o, PermitFailure(s1, job)) && Onward(s, PermitFailure(s1, job))
  {
    SameOnward(s, s1);
    if job in s.pending {
      hide Inv, Onward;
      DropCore(o, s, job, PermitFailure(s1, job));
    } else {
      hide Placed, Histories, Gone;
    }
  }

  lemma DispatchWithPermitInv(o: Options, s: State, job: Id)
    requires Inv(o, s)
    ensures Inv(o, DispatchWithPermit(o, s, job)) && Onward(s, DispatchWithPermit(o, s, job))
  {
    SameOnward(s, s);
    hide Core, Remembers, PermitFailure;
    if s.disposed || job !in s.pending {
    } else if s.pending[job].None? {
      PermitFailureInv(o, s, job, s);
    } else if |s.active| < o.concurrency {
      var s1 := DropPending(s, job);
      DropCore(o, s, job, s1);
      DispatchCore(o, s1, job, s.pending[job]);
      var (s2, ok) := Dispatch(o, s1, job, s.pending[job]);
      assert Busy(o, s2);
      var s3 := if ok then s2 else s2.(released := s2.released + Granted(s.pending[job]));
      ReleasedIsFree(o, s2, s3);
      OnwardChain(s, s1, s2);
      SameOnward(s2, s3);
      OnwardChain(s, s2, s3);
    }
  }

  lemma ReleasedIsFree(o: Options, s: State, s': State)
    requires Inv(o, s) && s' == s.(released := s'.released)
    ensures Inv(o, s')
  {
    hide Placed, Histories, Gone;
  }

  lemma OutcomeInv(o: Options, s: State, job: Id, r: Outcome)
    requires Inv(o, s)
    ensures Inv(o, OnOutcome(o, s, job, r)) && Onward(s, OnOutcome(o, s, job, r))
  {
    SameOnward(s, s);
    PermitFailureInv(o, s, job, s);
    if r.Given? {
      if s.disposed || job !in s.pending {
        hide Inv;
        ReleasedIsFree(o, s, s.(released := s.released + {r.permit}));
        SameOnward(s, s.(released := s.released + {r.permit}));
      } else {
        var s1 := s.(pending := s.pending[job := Some(r.permit)]);
        KnownPermitInv(o, s, job, r.permit);
        hide Inv, DispatchWithPermit;
        SameOnward(s, s1);
        DispatchWithPermitInv(o, s1, job);
        OnwardChain(s, s1, DispatchWithPermit(o, s1, job));
      }
    } else {
      hide Inv, PermitFailure;
    }
  }

  lemma KnownPermitInv(o: Options, s: State, job: Id, permit: Id)
    requires Inv(o, s) && job in s.pending && !s.disposed
    ensures Inv(o, s.(pending := s.pending[job := Some(permit)]))
  {
    hide Histories, Gone;
    PutSize(s.pending, job, Some(permit));
    assert s.jobs + {job} == s.jobs;
    assert job !in s.queue;
    PendPlaced(s, job, Some(permit));
    hide Placed;
  }

  lemma WaitingInv(o: Options, s: State, job: Id, permit: Id, status: GateStatus)
    requires Inv(o, s)
    ensures Inv(o, OnPoll(o, s, job, permit, status)) && Onward(s, OnPoll(o, s, job, permit, status))
    ensures Inv(o, WaitTimeout(s, job)) && Onward(s, WaitTimeout(s, job))
  {
    SameOnward(s, s);
    hide Inv, Onward, DispatchWithPermit, PermitFailure;
    DispatchWithPermitInv(o, s, job);
    PermitFailureInv(o, s, job, s.(over := s.over + {permit}));
    if job in s.pending {
      PermitFailureInv(o, s, job, s.(released := s.released + Granted(s.pending[job])));
    }
  }

  lemma DisposeInv(o: Options, s: State)
    requires Inv(o, s)
    ensures Inv(o, Dispose(s)) && Onward(s, Dispose(s))
  {
    SameOnward(s, Dispose(s));
    hide AllPermits;
  }

  lemma StepInv(o: Options, s: State, e: Event)
    requires Inv(o, s)
    ensures Inv(o, Step(o, s, e)) && Onward(s, Step(o, s, e))
  {
    hide Inv, Onward, Enqueue, Cancel, OnMessage, OnExit, OnError, Expire, CancelGraceEnds, OnOutcome, OnPoll, WaitTimeout, Dispose;
    match e
    case Submit(job, valid) => EnqueueInv(o, s, job, valid);
    case Abandon(job, a, sendFails) => CancelInv(o, s, job, a, sendFails);
    case Heard(a, m) => MessageInv(o, s, a, m);
    case Exited(a) => EndingsInv(o, s, a);
    case Broke(a) => EndingsInv(o, s, a);
    case DeadlineFires(a) => ExpireInv(o, s, a);
    case GraceFires(a) => EndingsInv(o, s, a);
    case Deliver(job, r) => OutcomeInv(o, s, job, r);
    case Polled(job, permit, status) => WaitingInv(o, s, job, permit, status);
    case WaitFires(job) => WaitingInv(o, s, job, 0, StillQueued);
    case Shutdown => DisposeInv(o, s);
  }

  lemma {:induction false} RunInv(o: Options, s: State, run: seq<Event>)
    requires Inv(o, s)
    ensures Inv(o, Run(o, s, run)) && Onward(s, Run(o, s, run))
    decreases |run|
  {
    hide Inv, Onward, Step;
    if run == [] {
      SameOnward(s, s);
    } else {
      StepInv(o, s, run[0]);
      RunInv(o, Step(o, s, run[0]), run[1..]);
      OnwardChain(s, Step(o, s, run[0]), Run(o, s, run));
    }
  }

  // ---------------------------------------------------------------- what every run promises

  lemma InitInv(o: Options)
    requires o.Valid()
    ensures Inv(o, Init)
  {
  }

  /**
    In every reachable state no more than `concurrency` children run, all places together stay within
    the queue bound, a job has at most one running attempt, and while a job waits in the slot queue all
    slots are taken.
   */
  lemma SlotsAreNeverIdleOrOverrun(o: Options, run: seq<Event>)
    requires o.Valid()
    ensures var s := Run(o, Init, run);
            && |s.active| <= o.concurrency
            && |s.active| + |s.queue| + |s.pending| <= o.maxQueue
            && (s.queue != [] ==> |s.active| == o.concurrency)
            && (forall a, b | a in s.active && b in s.active :: s.active[a].job == s.active[b].job ==> a == b)
            && (forall a | a in s.active :: s.active[a].job !in s.queue && s.active[a].job !in s.pending)
  {
    InitInv(o);
    RunInv(o, Init, run);
    var s := Run(o, Init, run);
    hide Run, Histories, Gone;
    forall a | a in s.active ensures s.active[a].job !in s.queue {
      assert s.active[a].job in s.jobs;
    }
  }

  /**
    In every reachable state each attempt has forwarded strictly increasing sequence numbers, at most one
    terminal event or reported error, and if its slot has been given up it had ended, been cancelled or
    been reported.
   */
  lemma AttemptsAreOrderly(o: Options, run: seq<Event>, a: nat)
    requires o.Valid() && a in Run(o, Init, run).history
    ensures var s, h := Run(o, Init, run), Run(o, Init, run).history[a];
            && (forall i, j :: 0 <= i < j < |h.sent| ==> h.sent[i] < h.sent[j])
            && h.errors + (if h.terminal then 1 else 0) <= 1
            && (a !in s.active ==> s.disposed || h.terminal || h.cancelled || h.errors == 1)
  {
    InitInv(o);
    RunInv(o, Init, run);
    hide Run;
  }

  /** Once an attempt has ended, been cancelled or lost its slot, nothing more is ever forwarded from it. */
  lemma NothingFollowsTheEnd(o: Options, s: State, run: seq<Event>, a: nat)
    requires Inv(o, s) && a in s.history && s.history[a].Closed()
    ensures var s' := Run(o, s, run); a in s'.history && s'.history[a].sent == s.history[a].sent
  {
    RunInv(o, s, run);
    hide Run, Inv;
    assert Continues(s.history[a], Run(o, s, run).history[a]);
  }

  /** The last forwarded sequence number bounds the others. */
  lemma LastIsGreatest(t: Attempt, h: History, sequence: int)
    requires Tracks(t, h) && Increasing(h.sent)
    ensures t.lastSequence < sequence && sequence >= 0 <==> sequence >= 0 && forall x :: x in h.sent ==> x < sequence
  {
    if h.sent != [] {
      assert h.sent[|h.sent| - 1] in h.sent;
      forall x | x in h.sent ensures x <= h.sent[|h.sent| - 1] {
        var i :| 0 <= i < |h.sent| && h.sent[i] == x;
      }
    }
  }

  /** `m` is the next event of attempt `a` that the outside may see, given what it has seen so far. */
  ghost predicate Expected(s: State, a: nat, m: Message)
    requires a in s.history
  {
    && a in s.active && !s.history[a].Closed() && m.job == s.active[a].job && m.attempt == a
    && forall x :: x in s.history[a].sent ==> x < m.sequence
  }

  /**
    A message (its sequence number is a natural number) is forwarded exactly when its attempt still runs
    and has neither ended nor been cancelled, it names that attempt and its job, and its sequence number
    exceeds everything forwarded before.
   */
  lemma ForwardedExactly(o: Options, s: State, a: nat, m: Message)
    requires Inv(o, s) && a in s.history && m.sequence >= 0
    ensures var s' := OnMessage(s, a, m);
            && a in s'.history
            && s'.history[a].sent == if Expected(s, a, m) then s.history[a].sent + [m.sequence] else s.history[a].sent
  {
    if a in s.active {
      RunningInv(o, s, a);
      LastIsGreatest(s.active[a], s.history[a], m.sequence);
      assert !s.disposed;
    }
    hide Inv, Increasing;
  }
}
