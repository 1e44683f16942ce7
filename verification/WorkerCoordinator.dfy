/**
  The research-worker coordinator as it runs: one object updated in place by callers, children, timers
  and the permit gate, after server/research-worker-coordinator.ts, proved equal to the functions of
  module Workers. What it has told the outside is kept in ghost fields.
 */
module WorkerCoordinator {
  import opened Common
  import opened Workers
  import opened WorkerInvariant
  import opened WorkerRuns

  class ResearchWorkerCoordinator {
    const options: Options
    var active: map<nat, Attempt>
    var queue: seq<Id>
    var pending: map<Id, Option<Id>>
    var jobs: set<Id>
    var settled: seq<Id>
    var disposed: bool
    var nextAttempt: nat
    ghost var history: map<nat, History>
    ghost var failures: seq<Id>
    ghost var released: set<Id>
    ghost var over: set<Id>

    ghost function View(): State
      reads this
    {
      State(active, queue, pending, jobs, settled, disposed, nextAttempt, history, failures, released, over)
    }

    ghost predicate Valid()
      reads this
    {
      Inv(options, View()) && |settled| <= MAX_SETTLED
    }

    constructor (o: Options)
      requires o.Valid()
      ensures Valid() && options == o && View() == Init
    {
      options := o;
      active, queue, pending, jobs, settled, disposed, nextAttempt := map[], [], map[], {}, [], false, 0;
      history, failures, released, over := map[], [], {}, {};
      new;
      InitInv(o);
    }

    // -------------------------------------------------------------- slots

    /** Tell the consumer about a failed job; it cannot fail the coordinator. */
    method EmitError(job: Id)
      modifies this`failures
      ensures failures == old(failures) + [job]
    {
      failures := failures + [job];
    }

    method EmitAttemptError(a: nat)
      requires a in active && a in history
      modifies this`failures, this`history
      ensures View() == ReportError(old(View()), a)
    {
      history := history[a := history[a].(errors := history[a].errors + 1)];
      EmitError(active[a].job);
    }

    method RememberSettledJob(job: Id)
      modifies this`settled
      requires |settled| <= MAX_SETTLED
      ensures settled == RememberSettled(old(settled), job) && |settled| <= MAX_SETTLED
    {
      if job in settled {
        return;
      }
      settled := settled + [job];
      while |settled| > MAX_SETTLED
        invariant settled == old(settled) + [job] || settled == (old(settled) + [job])[1..]
        invariant |settled| < MAX_SETTLED ==> settled == old(settled) + [job]
        invariant |old(settled)| < MAX_SETTLED ==> settled == old(settled) + [job]
      {
        settled := settled[1..];
      }
    }

    method ReleaseSlotOf(a: nat)
      requires a in active ==> a in history
      requires |settled| <= MAX_SETTLED
      modifies this
      ensures View() == ReleaseSlot(options, old(View()), a) && |settled| <= MAX_SETTLED
      ensures |queue| <= |old(queue)|
      decreases |queue|, 1
    {
      hide PumpQueue, RememberSettled;
      if a !in active {
        return;
      }
      var t := active[a];
      active := active - {a};
      jobs := jobs - {t.job};
      released := released + Granted(t.permit);
      history := history[a := history[a].(released := true)];
      RememberSettledJob(t.job);
      PumpQueueUp();
    }

    method DispatchJob(job: Id, permit: Option<Id>) returns (ok: bool)
      requires |settled| <= MAX_SETTLED
      modifies this
      ensures (View(), ok) == Dispatch(options, old(View()), job, permit) && |settled| <= MAX_SETTLED
      ensures |queue| <= |old(queue)|
      decreases |queue|, 2
    {
      var a := nextAttempt;
      nextAttempt := nextAttempt + 1;
      if options.launch(a) == FactoryThrows {
        EmitError(job);
        return false;
      }
      active := active[a := Attempt(job, false, -1, false, permit)];
      jobs := jobs + {job};
      history := history[a := History([], false, false, 0, false)];
      if options.launch(a) == SendThrows {
        EmitAttemptError(a);
        ReleaseSlotOf(a);
        return false;
      }
      return true;
    }

    method PumpQueueUp()
      requires |settled| <= MAX_SETTLED
      modifies this
      ensures View() == PumpQueue(options, old(View())) && |settled| <= MAX_SETTLED
      ensures |queue| <= |old(queue)|
      decreases |queue|, 0
    {
      ghost var whole := PumpQueue(options, View());
      while !disposed && |active| < options.concurrency && queue != []
        invariant PumpQueue(options, View()) == whole && |settled| <= MAX_SETTLED
        invariant |queue| <= |old(queue)|
        decreases |queue|
      {
        var next := queue[0];
        queue := queue[1..];
        var ok := DispatchJob(next, None);
      }
    }

    // -------------------------------------------------------------- callers

    method EnqueueJob(job: Id, valid: bool) returns (answer: EnqueueAnswer)
      requires Valid()
      modifies this
      ensures Valid()
      ensures (View(), answer) == Enqueue(options, old(View()), job, valid)
    {
      hide Inv, Dispatch, Remove, Onward;
      EnqueueInv(options, View(), job, valid);
      if disposed || !valid || job in jobs || job in queue {
        return Rejected;
      }
      RemoveShorter(settled, job);
      settled := Remove(settled, job);
      if |active| + |queue| + |pending| >= options.maxQueue {
        return Rejected;
      }
      if options.gated {
        pending := pending[job := None];
        jobs := jobs + {job};
        return Queued;
      }
      if |active| < options.concurrency {
        var ok := DispatchJob(job, None);
        return if ok then Dispatched else Rejected;
      }
      queue := queue + [job];
      return Queued;
    }

    /** The running attempt of a job, if there is one. */
    method FindAttempt(job: Id) returns (found: Option<nat>)
      ensures found.Some? ==> found.value in active && active[found.value].job == job
      ensures found.None? ==> forall a :: a in active ==> active[a].job != job
    {
      var rest := active.Keys;
      found := None;
      while rest != {}
        invariant rest <= active.Keys
        invariant forall a :: a in active && a !in rest ==> active[a].job != job
        decreases |rest|
      {
        var a :| a in rest;
        if active[a].job == job {
          return Some(a);
        }
        rest := rest - {a};
      }
    }

    method CancelJob(job: Id, sendFails: bool) returns (answer: CancelAnswer)
      requires Valid()
      modifies this
      ensures Valid()
      ensures exists a :: (View(), answer) == Cancel(options, old(View()), job, a, sendFails)
                          && ((a in old(active) && old(active)[a].job == job) || forall b :: b in old(active) ==> old(active)[b].job != job)
    {
      hide Inv, Core, ReleaseSlot, Remove, Onward;
      var found := FindAttempt(job);
      var a := if found.Some? then found.value else 0;
      CancelInv(options, View(), job, a, sendFails);
      InvCore(options, View());
      ghost var was := View();
      answer := CancelAttempt(job, found, sendFails);
      assert (View(), answer) == Cancel(options, was, job, a, sendFails);
    }

    method CancelAttempt(job: Id, found: Option<nat>, sendFails: bool) returns (answer: CancelAnswer)
      requires |settled| <= MAX_SETTLED && (forall a :: a in active ==> a in history)
      requires found.Some? ==> found.value in active && active[found.value].job == job
      requires found.None? ==> forall a :: a in active ==> active[a].job != job
      modifies this
      ensures |settled| <= MAX_SETTLED
      ensures (View(), answer) == Cancel(options, old(View()), job, if found.Some? then found.value else 0, sendFails)
    {
      hide ReleaseSlot, Remove;
      if disposed {
        return NotFound;
      }
      if job in pending {
        released := released + Granted(pending[job]);
        pending := pending - {job};
        jobs := jobs - {job};
        return QueuedRemoved;
      }
      if job in queue {
        queue := Remove(queue, job);
        return QueuedRemoved;
      }
      if job in settled {
        return AlreadySettled;
      }
      if found.None? {
        return NotFound;
      }
      var a := found.value;
      active := active[a := active[a].(cancelled := true)];
      history := history[a := history[a].(cancelled := true)];
      if sendFails {
        ReleaseSlotOf(a);
      }
      return RunningCancelled;
    }

    method DisposeAll()
      requires Valid()
      modifies this
      ensures Valid() && View() == Dispose(old(View()))
    {
      hide Inv, AllPermits;
      DisposeInv(options, View());
      if disposed {
        return;
      }
      released := released + AllPermits(View());
      disposed := true;
      queue, pending, active, jobs, settled := [], map[], map[], {}, [];
    }

    // -------------------------------------------------------------- children and timers

    method HandleMessage(a: nat, m: Message)
      requires Valid()
      modifies this`active, this`history
      ensures Valid() && View() == OnMessage(old(View()), a, m)
    {
      hide Inv, Core, Onward;
      MessageInv(options, View(), a, m);
      InvCore(options, View());
      if disposed || a !in active {
        return;
      }
      var current := active[a];
      if current.cancelled || current.terminal || m.job != current.job || m.attempt != a || m.sequence <= current.lastSequence {
        return;
      }
      active := active[a := current.(lastSequence := m.sequence, terminal := m.kind == Terminal)];
      history := history[a := history[a].(sent := history[a].sent + [m.sequence], terminal := m.kind == Terminal)];
    }

    method HandleExit(a: nat)
      requires Valid()
      modifies this
      ensures Valid() && View() == OnExit(options, old(View()), a)
    {
      hide Inv, Core, ReleaseSlot, Onward;
      EndingsInv(options, View(), a);
      InvCore(options, View());
      if disposed || a !in active {
        return;
      }
      if !active[a].terminal && !active[a].cancelled {
        EmitAttemptError(a);
      }
      ReleaseSlotOf(a);
    }

    method HandleError(a: nat)
      requires Valid()
      modifies this
      ensures Valid() && View() == OnError(options, old(View()), a)
    {
      hide Inv, Core, ReleaseSlot, Onward;
      EndingsInv(options, View(), a);
      InvCore(options, View());
      if disposed || a !in active || active[a].terminal {
        return;
      }
      EmitAttemptError(a);
      ReleaseSlotOf(a);
    }

    method ExpireAttempt(a: nat)
      requires Valid()
      modifies this
      ensures Valid() && View() == Expire(options, old(View()), a)
    {
      hide Inv, Core, ReleaseSlot, Onward;
      ExpireInv(options, View(), a);
      InvCore(options, View());
      if a !in active || active[a].terminal || active[a].cancelled {
        return;
      }
      active := active[a := active[a].(cancelled := true)];
      history := history[a := history[a].(cancelled := true)];
      EmitAttemptError(a);
      ReleaseSlotOf(a);
    }

    // -------------------------------------------------------------- the permit gate

    method SettlePermitFailure(job: Id)
      modifies this`pending, this`jobs, this`failures
      ensures View() == PermitFailure(old(View()), job)
    {
      if job !in pending {
        return;
      }
      pending := pending - {job};
      jobs := jobs - {job};
      EmitError(job);
    }

    method DispatchGranted(job: Id)
      requires |settled| <= MAX_SETTLED
      modifies this
      ensures |settled| <= MAX_SETTLED && View() == DispatchWithPermit(options, old(View()), job)
    {
      hide Dispatch;
      if disposed || job !in pending {
        return;
      }
      if pending[job].None? {
        SettlePermitFailure(job);
        return;
      }
      if |active| >= options.concurrency {
        return;
      }
      var permit := pending[job];
      pending := pending - {job};
      jobs := jobs - {job};
      var ok := DispatchJob(job, permit);
      if !ok {
        released := released + Granted(permit);
      }
    }

    method HandleOutcome(job: Id, r: Outcome)
      requires Valid()
      modifies this
      ensures Valid() && View() == OnOutcome(options, old(View()), job, r)
    {
      hide Inv, DispatchWithPermit, PermitFailure, Onward;
      OutcomeInv(options, View(), job, r);
      if r.AcquireThrows? {
        SettlePermitFailure(job);
        return;
      }
      if disposed || job !in pending {
        if r.Given? {
          released := released + {r.permit};
        }
        return;
      }
      if r.Refused? {
        SettlePermitFailure(job);
        return;
      }
      pending := pending[job := Some(r.permit)];
      if r.acquired {
        DispatchGranted(job);
      }
    }

    method HandlePoll(job: Id, permit: Id, status: GateStatus)
      requires Valid()
      modifies this
      ensures Valid() && View() == OnPoll(options, old(View()), job, permit, status)
    {
      hide Inv, DispatchWithPermit, PermitFailure, Onward;
      WaitingInv(options, View(), job, permit, status);
      if disposed || job !in pending || pending[job] != Some(permit) {
        return;
      }
      if status == NowAcquired {
        DispatchGranted(job);
      } else if status == Ended {
        over := over + {permit};
        SettlePermitFailure(job);
      }
    }

    method HandleWaitTimeout(job: Id)
      requires Valid()
      modifies this
      ensures Valid() && View() == WaitTimeout(old(View()), job)
    {
      hide Inv, PermitFailure, Onward;
      WaitingInv(options, View(), job, 0, StillQueued);
      if disposed || job !in pending {
        return;
      }
      released := released + Granted(pending[job]);
      SettlePermitFailure(job);
    }
  }

  lemma {:induction false} RemoveShorter(s: seq<Id>, x: Id)
    ensures |Remove(s, x)| <= |s|
  {
    if s != [] && s[0] != x {
      RemoveShorter(s[1..], x);
    }
  }
}
