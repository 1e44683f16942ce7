/**
  What every step of the research-worker coordinator keeps: slots, queue and waiting jobs within their
  bounds, one place per job, and an orderly history for every attempt.
 */
module WorkerInvariant {
  import opened Common
  import opened Workers

  // ---------------------------------------------------------------- the invariant

  ghost predicate Increasing(s: seq<int>) {
    forall i, j :: 0 <= i < j < |s| ==> s[i] < s[j]
  }

  /** What the outside may have seen of any attempt: strictly increasing events, at most one bad or final word. */
  ghost predicate Orderly(h: History) {
    && Increasing(h.sent)
    && h.errors + (if h.terminal then 1 else 0) <= 1
    && (h.released ==> h.terminal || h.cancelled || h.errors == 1)
  }

  /** The record of a running attempt agrees with what the outside has seen of it. */
  ghost predicate Tracks(t: Attempt, h: History) {
    && t.terminal == h.terminal && t.cancelled == h.cancelled && !h.released
    && t.lastSequence == (if h.sent == [] then -1 else h.sent[|h.sent| - 1])
  }

  ghost predicate Histories(active: map<nat, Attempt>, history: map<nat, History>, next: nat, failing: Option<nat>) {
    && (forall a :: a in history ==> a < next && Orderly(history[a]))
    && (forall a :: a in active ==> a in history && Tracks(active[a], history[a]))
    && (forall a :: a in active && Some(a) != failing ==> history[a].errors == 0)
  }

  ghost predicate Gone(active: map<nat, Attempt>, history: map<nat, History>, disposed: bool) {
    forall a :: a in history && a !in active ==> history[a].released || disposed
  }

  /** Every job is in one place: running, waiting for a slot, or waiting for a permit. */
  ghost predicate Placed(active: map<nat, Attempt>, queue: seq<Id>, pending: map<Id, Option<Id>>, jobs: set<Id>) {
    && (forall a :: a in active ==> active[a].job in jobs && active[a].job !in pending)
    && (forall a, b :: a in active && b in active && active[a].job == active[b].job ==> a == b)
    && (forall j :: j in pending ==> j in jobs)
    && NoDup(queue) && (forall j :: j in queue ==> j !in jobs)
  }

  ghost predicate Core(o: Options, s: State, failing: Option<nat>) {
    && o.Valid() && |s.active| <= o.concurrency
    && |s.active| + |s.queue| + |s.pending| <= o.maxQueue
    && (o.gated ==> s.queue == []) && (s.pending != map[] ==> o.gated)
    && Placed(s.active, s.queue, s.pending, s.jobs)
    && Histories(s.active, s.history, s.nextAttempt, failing)
    && Gone(s.active, s.history, s.disposed)
    && (s.disposed ==> s.active == map[] && s.queue == [] && s.pending == map[])
  }

  /** Jobs wait in the queue only while every slot is taken. */
  ghost predicate Busy(o: Options, s: State) {
    s.queue != [] ==> |s.active| == o.concurrency
  }

  ghost predicate Inv(o: Options, s: State) {
    Core(o, s, None) && Busy(o, s)
  }

  // ---------------------------------------------------------------- what steps do to permits and histories

  /** Permits held by running attempts stay held or are released; the waiting jobs are as they were. */
  ghost predicate Flows(s: State, s': State) {
    && s'.pending == s.pending && s'.over == s.over && s.released <= s'.released
    && (forall a :: a in s.active && s.active[a].permit.Some? ==>
          (a in s'.active && s'.active[a].permit == s.active[a].permit) || s.active[a].permit.value in s'.released)
    && s.nextAttempt <= s'.nextAttempt && (s.disposed ==> s'.disposed)
    && Remembers(s.history, s'.history)
  }

  /** Histories only grow, and nothing follows a terminal event, a cancellation or a release. */
  ghost predicate Remembers(h: map<nat, History>, h': map<nat, History>) {
    forall a :: a in h ==> a in h' && Continues(h[a], h'[a])
  }

  ghost predicate Continues(h: History, h': History) {
    && |h.sent| <= |h'.sent| && h'.sent[..|h.sent|] == h.sent
    && (h.terminal ==> h'.terminal) && (h.cancelled ==> h'.cancelled) && (h.released ==> h'.released)
    && h.errors <= h'.errors
    && (h.Closed() ==> h'.sent == h.sent)
  }

  lemma ContinuesChain(a: History, b: History, c: History)
    requires Continues(a, b) && Continues(b, c)
    ensures Continues(a, c)
  {
    assert c.sent[..|a.sent|] == c.sent[..|b.sent|][..|a.sent|];
  }

  lemma RemembersChain(a: map<nat, History>, b: map<nat, History>, c: map<nat, History>)
    requires Remembers(a, b) && Remembers(b, c)
    ensures Remembers(a, c)
  {
    hide Continues;
    forall x | x in a ensures x in c && Continues(a[x], c[x]) {
      ContinuesChain(a[x], b[x], c[x]);
    }
  }

  lemma FlowsChain(a: State, b: State, c: State)
    requires Flows(a, b) && Flows(b, c)
    ensures Flows(a, c)
  {
    hide Remembers;
    RemembersChain(a.history, b.history, c.history);
    forall x | x in a.active && a.active[x].permit.Some?
      ensures (x in c.active && c.active[x].permit == a.active[x].permit) || a.active[x].permit.value in c.released
    {
      if x in b.active && b.active[x].permit == a.active[x].permit {
      } else {
        assert a.active[x].permit.value in b.released;
      }
    }
  }

  lemma SameFlows(s: State, s': State)
    requires s'.pending == s.pending && s'.over == s.over && s'.released == s.released && s'.active == s.active
    requires s.nextAttempt <= s'.nextAttempt && s'.disposed == s.disposed && s'.history == s.history
    ensures Flows(s, s')
  {
  }

  // ---------------------------------------------------------------- starting an attempt

  lemma StartHistories(s: State, job: Id, permit: Option<Id>)
    requires Histories(s.active, s.history, s.nextAttempt, None) && Gone(s.active, s.history, s.disposed)
    ensures var s' := Start(s, job, permit);
            Histories(s'.active, s'.history, s'.nextAttempt, None) && Gone(s'.active, s'.history, s'.disposed)
            && Remembers(s.history, s'.history) && s.nextAttempt !in s.active
  {
    var s' := Start(s, job, permit);
    assert s.nextAttempt !in s.history;
    assert forall x :: x in s.active ==> s'.active[x] == s.active[x] && x != s.nextAttempt;
  }

  lemma StartPlaced(s: State, job: Id, permit: Option<Id>)
    requires Placed(s.active, s.queue, s.pending, s.jobs) && s.nextAttempt !in s.active
    requires job !in s.jobs && job !in s.queue
    ensures var s' := Start(s, job, permit); Placed(s'.active, s'.queue, s'.pending, s'.jobs)
  {
  }

  lemma StartCore(o: Options, s: State, job: Id, permit: Option<Id>)
    requires Core(o, s, None) && !s.disposed && job !in s.jobs && job !in s.queue
    requires |s.active| < o.concurrency && |s.active| + |s.queue| + |s.pending| < o.maxQueue
    ensures Core(o, Start(s, job, permit), None) && Flows(s, Start(s, job, permit))
  {
    hide Histories, Gone, Placed, Remembers;
    StartHistories(s, job, permit);
    StartPlaced(s, job, permit);
    PutSize(s.active, s.nextAttempt, Attempt(job, false, -1, false, permit));
  }

  // ---------------------------------------------------------------- ending an attempt

  ghost predicate Releasable(s: State, a: nat) {
    a in s.active && a in s.history && (s.history[a].terminal || s.history[a].cancelled || s.history[a].errors == 1)
  }

  /** Replacing the record and the history of one running attempt. */
  lemma PutHistories(s: State, a: nat, t: Attempt, h: History, failing: Option<nat>)
    requires Histories(s.active, s.history, s.nextAttempt, None) && Gone(s.active, s.history, s.disposed)
    requires a in s.active && a in s.history && Orderly(h) && Tracks(t, h) && Continues(s.history[a], h)
    requires failing == Some(a) || h.errors == 0
    ensures Histories(s.active[a := t], s.history[a := h], s.nextAttempt, failing)
    ensures Gone(s.active[a := t], s.history[a := h], s.disposed)
    ensures Remembers(s.history, s.history[a := h])
  {
    ContinuesItself();
    hide Orderly, Tracks, Continues;
  }

  lemma ContinuesItself()
    ensures forall h :: Continues(h, h)
  {
  }

  lemma PutPlaced(s: State, a: nat, t: Attempt)
    requires Placed(s.active, s.queue, s.pending, s.jobs) && a in s.active && t.job == s.active[a].job
    ensures Placed(s.active[a := t], s.queue, s.pending, s.jobs) && |s.active[a := t]| == |s.active|
  {
    PutSize(s.active, a, t);
    hide NoDup;
  }

  lemma RunningHistory(s: State, a: nat)
    requires Histories(s.active, s.history, s.nextAttempt, None) && a in s.active
    ensures a in s.history && Tracks(s.active[a], s.history[a]) && Orderly(s.history[a]) && s.history[a].errors == 0
  {
  }

  lemma ErrorHistory(t: Attempt, h: History)
    requires Tracks(t, h) && Orderly(h) && !t.terminal && h.errors == 0
    ensures var h' := h.(errors := h.errors + 1); Tracks(t, h') && Orderly(h') && Continues(h, h')
  {
  }

  lemma FencedHistory(t: Attempt, h: History)
    requires Tracks(t, h) && Orderly(h)
    ensures var h' := h.(cancelled := true); Tracks(t.(cancelled := true), h') && Orderly(h') && Continues(h, h')
  {
  }

  lemma ReportErrorCore(o: Options, s: State, a: nat)
    requires Core(o, s, None) && a in s.active && !s.active[a].terminal && a in s.history
    ensures var s' := ReportError(s, a);
            Core(o, s', Some(a)) && Releasable(s', a) && Flows(s, s') && s'.queue == s.queue && s'.active == s.active
  {
    hide Placed, Histories, Gone, Remembers, Tracks, Orderly, Continues;
    RunningHistory(s, a);
    var h' := s.history[a].(errors := s.history[a].errors + 1);
    ErrorHistory(s.active[a], s.history[a]);
    PutHistories(s, a, s.active[a], h', Some(a));
    assert s.active[a := s.active[a]] == s.active;
    assert s.history[a := h'][a].errors == 1;
  }

  lemma FencedCore(o: Options, s: State, a: nat)
    requires Core(o, s, None) && a in s.active && a in s.history
    ensures var s' := Fenced(s, a);
            Core(o, s', None) && Releasable(s', a) && Flows(s, s') && s'.queue == s.queue && |s'.active| == |s.active|
  {
    hide Placed, Histories, Gone, Remembers, Tracks, Orderly, Continues;
    RunningHistory(s, a);
    FencedHistory(s.active[a], s.history[a]);
    PutHistories(s, a, s.active[a].(cancelled := true), s.history[a].(cancelled := true), None);
    PutPlaced(s, a, s.active[a].(cancelled := true));
  }

  lemma VacateHistories(s: State, a: nat)
    requires Histories(s.active, s.history, s.nextAttempt, Some(a)) && Gone(s.active, s.history, s.disposed) && Releasable(s, a)
    ensures var s' := Vacate(s, a);
            Histories(s'.active, s'.history, s'.nextAttempt, None) && Gone(s'.active, s'.history, s'.disposed)
            && Remembers(s.history, s'.history)
  {
  }

  lemma VacatePlaced(s: State, a: nat)
    requires Placed(s.active, s.queue, s.pending, s.jobs) && a in s.active && a in s.history
    requires s.active[a].job !in s.queue
    ensures var s' := Vacate(s, a); Placed(s'.active, s'.queue, s'.pending, s'.jobs)
  {
  }

  lemma VacateCore(o: Options, s: State, a: nat)
    requires Core(o, s, Some(a)) && Releasable(s, a)
    ensures Core(o, Vacate(s, a), None) && Flows(s, Vacate(s, a)) && Vacate(s, a).queue == s.queue
  {
    hide Histories, Gone, Remembers;
    assert s.active[a].job !in s.queue;
    hide Placed;
    VacateHistories(s, a);
    VacatePlaced(s, a);
    DropSize(s.active, a);
    hide RememberSettled;
  }

  lemma CoreWeaken(o: Options, s: State, a: nat)
    requires Core(o, s, None)
    ensures Core(o, s, Some(a))
  {
  }

  // ---------------------------------------------------------------- the mutually recursive steps

  lemma {:induction false} ReleaseSlotCore(o: Options, s: State, a: nat)
    requires Core(o, s, Some(a)) && Releasable(s, a)
    ensures var s' := ReleaseSlot(o, s, a); Inv(o, s') && Flows(s, s') && a !in s'.active
    decreases |s.queue|, 1
  {
    hide Core, Flows;
    VacateCore(o, s, a);
    assert a < s.nextAttempt by { KnownAttempt(o, s, a); }
    var s1 := Vacate(s, a);
    PumpQueueCore(o, s1);
    FlowsChain(s, s1, PumpQueue(o, s1));
    PumpStartsFresh(o, s1, a);
  }

  lemma KnownAttempt(o: Options, s: State, a: nat)
    requires Core(o, s, Some(a)) && a in s.active
    ensures a < s.nextAttempt
  {
  }

  lemma {:induction false} DispatchCore(o: Options, s: State, job: Id, permit: Option<Id>)
    requires Core(o, s, None) && !s.disposed && job !in s.jobs && job !in s.queue
    requires |s.active| < o.concurrency && |s.active| + |s.queue| + |s.pending| < o.maxQueue
    ensures var (s', ok) := Dispatch(o, s, job, permit);
            && Core(o, s', None) && Flows(s, s')
            && (ok ==> s' == Start(s, job, permit))
            && (!ok ==> Busy(o, s') || (s'.queue == s.queue && s'.active == s.active))
    decreases |s.queue|, 2
  {
    var a := s.nextAttempt;
    match o.launch(a)
    case FactoryThrows =>
      SameFlows(s, Fail(s.(nextAttempt := a + 1), job));
    case Starts =>
      hide Core, Flows;
      StartCore(o, s, job, permit);
    case SendThrows =>
      hide Core, Flows;
      StartCore(o, s, job, permit);
      var s1 := Start(s, job, permit);
      ReportErrorCore(o, s1, a);
      var s2 := ReportError(s1, a);
      ReleaseSlotCore(o, s2, a);
      FlowsChain(s, s1, s2);
      FlowsChain(s, s2, ReleaseSlot(o, s2, a));
  }

  lemma TakeNext(o: Options, s: State)
    requires Core(o, s, None) && s.queue != []
    ensures var s1 := s.(queue := s.queue[1..]);
            Core(o, s1, None) && Flows(s, s1) && s.queue[0] !in s1.jobs && s.queue[0] !in s1.queue
            && |s1.active| + |s1.queue| + |s1.pending| < o.maxQueue
  {
    assert s.queue[0] in s.queue;
    assert forall j :: j in s.queue[1..] ==> j in s.queue;
    hide Histories, Gone;
    assert Remembers(s.history, s.history);
  }

  lemma {:induction false} PumpQueueCore(o: Options, s: State)
    requires Core(o, s, None)
    ensures Inv(o, PumpQueue(o, s)) && Flows(s, PumpQueue(o, s))
    decreases |s.queue|, 0
  {
    if s.disposed || |s.active| >= o.concurrency || s.queue == [] {
      SameFlows(s, s);
      assert s.disposed ==> s.queue == [];
    } else {
      hide Core, Flows;
      TakeNext(o, s);
      var s1 := s.(queue := s.queue[1..]);
      var s2 := Dispatch(o, s1, s.queue[0], None).0;
      DispatchCore(o, s1, s.queue[0], None);
      PumpQueueCore(o, s2);
      FlowsChain(s, s1, s2);
      FlowsChain(s, s2, PumpQueue(o, s2));
    }
  }

  /** New attempts are numbered past every old one. */
  lemma {:induction false} PumpStartsFresh(o: Options, s: State, a: nat)
    requires a !in s.active && a < s.nextAttempt
    ensures a !in PumpQueue(o, s).active && a < PumpQueue(o, s).nextAttempt
    decreases |s.queue|, 0
  {
    if s.disposed || |s.active| >= o.concurrency || s.queue == [] {
    } else {
      var s1 := s.(queue := s.queue[1..]);
      DispatchStartsFresh(o, s1, s.queue[0], a);
      PumpStartsFresh(o, Dispatch(o, s1, s.queue[0], None).0, a);
    }
  }

  lemma {:induction false} DispatchStartsFresh(o: Options, s: State, job: Id, a: nat)
    requires a !in s.active && a < s.nextAttempt
    ensures a !in Dispatch(o, s, job, None).0.active && a < Dispatch(o, s, job, None).0.nextAttempt
    decreases |s.queue|, 2
  {
    if o.launch(s.nextAttempt) == SendThrows {
      var s1 := ReportError(Start(s, job, None), s.nextAttempt);
      PumpStartsFresh(o, Vacate(s1, s.nextAttempt), a);
    }
  }
}
