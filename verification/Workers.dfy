/**
  Research workers, after server/research-worker-coordinator.ts: a slot machine that starts one child
  process per attempt, fences its events by attempt, sequence, cancellation and terminal flag, and holds
  a global research permit for the child's lifetime when a permit gate is configured.

  Timers and promises are steps that may happen at any time. Whether a child can be forked, and whether
  its run message can be sent, is decided by an oracle on the attempt id.
 */
module Workers {
  import opened Common

  datatype Launch = FactoryThrows | SendThrows | Starts

  datatype Options = Options(concurrency: nat, maxQueue: nat, gated: bool, launch: nat -> Launch)
  {
    /** The constructor clamps its arguments into this range. */
    ghost predicate Valid() {
      1 <= concurrency <= 6 && maxQueue >= 1
    }
  }

  datatype Attempt = Attempt(job: Id, terminal: bool, lastSequence: int, cancelled: bool, permit: Option<Id>)

  /** What the outside has seen of an attempt: forwarded sequence numbers and reported errors. */
  datatype History = History(sent: seq<int>, terminal: bool, cancelled: bool, errors: nat, released: bool)
  {
    predicate Closed() { terminal || cancelled || released }
  }

  /**
    `pending` maps a job that waits for a global permit to the permit request it knows of. The last five
    fields record what the coordinator has said and done: attempts, failed jobs, permits given back, and
    permits the gateway itself has ended.
   */
  datatype State = State(
    active: map<nat, Attempt>,
    queue: seq<Id>,
    pending: map<Id, Option<Id>>,
    jobs: set<Id>,
    settled: seq<Id>,
    disposed: bool,
    nextAttempt: nat,
    history: map<nat, History>,
    failures: seq<Id>,
    released: set<Id>,
    over: set<Id>)

  const MAX_SETTLED := 64

  const Init := State(map[], [], map[], {}, [], false, 0, map[], [], {}, {})

  function Granted(p: Option<Id>): set<Id> {
    if p.Some? then {p.value} else {}
  }

  function RememberSettled(settled: seq<Id>, job: Id): seq<Id> {
    if job in settled then settled
    else if |settled| < MAX_SETTLED then settled + [job]
    else (settled + [job])[|settled| + 1 - MAX_SETTLED..]
  }

  // ---------------------------------------------------------------- slots

  function Fail(s: State, job: Id): State {
    s.(failures := s.failures + [job])
  }

  function ReportError(s: State, a: nat): State
    requires a in s.active && a in s.history
  {
    Fail(s, s.active[a].job).(history := s.history[a := s.history[a].(errors := s.history[a].errors + 1)])
  }

  /** The attempt record exists from before its first message is sent. */
  function Start(s: State, job: Id, permit: Option<Id>): State {
    var a := s.nextAttempt;
    s.(nextAttempt := a + 1,
       active := s.active[a := Attempt(job, false, -1, false, permit)],
       jobs := s.jobs + {job},
       history := s.history[a := History([], false, false, 0, false)])
  }

  /** The slot is free, the permit goes back, the job is remembered as settled. */
  function Vacate(s: State, a: nat): State
    requires a in s.active && a in s.history
  {
    var t := s.active[a];
    s.(active := s.active - {a},
       jobs := s.jobs - {t.job},
       settled := RememberSettled(s.settled, t.job),
       released := s.released + Granted(t.permit),
       history := s.history[a := s.history[a].(released := true)])
  }

  function ReleaseSlot(o: Options, s: State, a: nat): (r: State)
    ensures |r.queue| <= |s.queue|
    decreases |s.queue|, 1
  {
    if a !in s.active || a !in s.history then s else PumpQueue(o, Vacate(s, a))
  }

  function Dispatch(o: Options, s: State, job: Id, permit: Option<Id>): (r: (State, bool))
    ensures |r.0.queue| <= |s.queue|
    decreases |s.queue|, 2
  {
    var a := s.nextAttempt;
    match o.launch(a)
    case FactoryThrows => (Fail(s.(nextAttempt := a + 1), job), false)
    case Starts => (Start(s, job, permit), true)
    case SendThrows => (ReleaseSlot(o, ReportError(Start(s, job, permit), a), a), false)
  }

  function PumpQueue(o: Options, s: State): (r: State)
    ensures |r.queue| <= |s.queue|
    decreases |s.queue|, 0
  {
    if s.disposed || |s.active| >= o.concurrency || s.queue == [] then s
    else PumpQueue(o, Dispatch(o, s.(queue := s.queue[1..]), s.queue[0], None).0)
  }

  // ---------------------------------------------------------------- operations

  datatype EnqueueAnswer = Dispatched | Queued | Rejected

  function Enqueue(o: Options, s: State, job: Id, valid: bool): (State, EnqueueAnswer) {
    if s.disposed || !valid || job in s.jobs || job in s.queue then (s, Rejected)
    else
      var s1 := s.(settled := Remove(s.settled, job));
      if |s.active| + |s.queue| + |s.pending| >= o.maxQueue then (s1, Rejected)
      else if o.gated then (s1.(pending := s1.pending[job := None], jobs := s1.jobs + {job}), Queued)
      else if |s.active| < o.concurrency then
        var (s2, ok) := Dispatch(o, s1, job, None);
        (s2, if ok then Dispatched else Rejected)
      else (s1.(queue := s1.queue + [job]), Queued)
  }

  function DropPending(s: State, job: Id): State {
    s.(pending := s.pending - {job}, jobs := s.jobs - {job})
  }

  datatype CancelAnswer = QueuedRemoved | RunningCancelled | AlreadySettled | NotFound

  predicate Runs(s: State, job: Id, a: nat) {
    a in s.active && s.active[a].job == job && a in s.history
  }

  function Fenced(s: State, a: nat): State
    requires a in s.active && a in s.history
  {
    s.(active := s.active[a := s.active[a].(cancelled := true)],
       history := s.history[a := s.history[a].(cancelled := true)])
  }

  /** `a` is the attempt that runs the job, if any; `sendFails`: the cancel message cannot be delivered. */
  function Cancel(o: Options, s: State, job: Id, a: nat, sendFails: bool): (State, CancelAnswer) {
    if s.disposed then (s, NotFound)
    else if job in s.pending then (DropPending(s, job).(released := s.released + Granted(s.pending[job])), QueuedRemoved)
    else if job in s.queue then (s.(queue := Remove(s.queue, job)), QueuedRemoved)
    else if job in s.settled then (s, AlreadySettled)
    else if Runs(s, job, a) then
      (if sendFails then ReleaseSlot(o, Fenced(s, a), a) else Fenced(s, a), RunningCancelled)
    else (s, NotFound)
  }

  datatype Kind = Progress | Terminal

  /** An IPC message that passed shape validation. */
  datatype Message = Message(job: Id, attempt: nat, sequence: int, kind: Kind)

  function OnMessage(s: State, a: nat, m: Message): State {
    if s.disposed || a !in s.active || a !in s.history then s
    else
      var t := s.active[a];
      if t.cancelled || t.terminal || m.job != t.job || m.attempt != a || m.sequence <= t.lastSequence then s
      else
        var ends := m.kind == Terminal;
        s.(active := s.active[a := t.(lastSequence := m.sequence, terminal := ends)],
           history := s.history[a := s.history[a].(sent := s.history[a].sent + [m.sequence], terminal := ends)])
  }

  function OnExit(o: Options, s: State, a: nat): State {
    if s.disposed || a !in s.active || a !in s.history then s
    else if !s.active[a].terminal && !s.active[a].cancelled then ReleaseSlot(o, ReportError(s, a), a)
    else ReleaseSlot(o, s, a)
  }

  function OnError(o: Options, s: State, a: nat): State {
    if s.disposed || a !in s.active || a !in s.history || s.active[a].terminal then s
    else ReleaseSlot(o, ReportError(s, a), a)
  }

  /** The parent deadline fires. */
  function Expire(o: Options, s: State, a: nat): State {
    if a !in s.active || a !in s.history || s.active[a].terminal || s.active[a].cancelled then s
    else ReleaseSlot(o, ReportError(Fenced(s, a), a), a)
  }

  /** The grace period of a cancelled attempt ends; its timer is only set by a cancellation. */
  function CancelGraceEnds(o: Options, s: State, a: nat): State {
    if a !in s.active || !s.active[a].cancelled then s else ReleaseSlot(o, s, a)
  }

  // ---------------------------------------------------------------- the permit gate

  datatype Outcome = Refused | Given(permit: Id, acquired: bool) | AcquireThrows

  function PermitFailure(s: State, job: Id): State {
    if job in s.pending then Fail(DropPending(s, job), job) else s
  }

  /** The permit is granted: fork if a local slot is free, and wait on otherwise. */
  function DispatchWithPermit(o: Options, s: State, job: Id): State {
    if s.disposed || job !in s.pending then s
    else if s.pending[job].None? then PermitFailure(s, job)
    else if |s.active| >= o.concurrency then s
    else
      var permit := s.pending[job];
      var (s1, ok) := Dispatch(o, DropPending(s, job), job, permit);
      if ok then s1 else s1.(released := s1.released + Granted(permit))
  }

  /** The answer to an acquire call started by an earlier `Enqueue` of this job. */
  function OnOutcome(o: Options, s: State, job: Id, r: Outcome): State {
    if r.AcquireThrows? then PermitFailure(s, job)
    else if s.disposed || job !in s.pending then
      if r.Given? then s.(released := s.released + {r.permit}) else s
    else if r.Refused? then PermitFailure(s, job)
    else
      var s1 := s.(pending := s.pending[job := Some(r.permit)]);
      if r.acquired then DispatchWithPermit(o, s1, job) else s1
  }

  datatype GateStatus = StillQueued | NowAcquired | Ended

  /** The answer to a status poll for one permit request. */
  function OnPoll(o: Options, s: State, job: Id, permit: Id, status: GateStatus): State {
    if s.disposed || job !in s.pending || s.pending[job] != Some(permit) then s
    else match status
         case StillQueued => s
         case NowAcquired => DispatchWithPermit(o, s, job)
         case Ended => PermitFailure(s.(over := s.over + {permit}), job)
  }

  function WaitTimeout(s: State, job: Id): State {
    if s.disposed || job !in s.pending then s
    else PermitFailure(s.(released := s.released + Granted(s.pending[job])), job)
  }

  function AllPermits(s: State): set<Id> {
    (set job | job in s.pending && s.pending[job].Some? :: s.pending[job].value)
    + (set a | a in s.active && s.active[a].permit.Some? :: s.active[a].permit.value)
  }

  function Dispose(s: State): State {
    if s.disposed then s
    else s.(disposed := true, queue := [], pending := map[], active := map[], jobs := {}, settled := [],
            released := s.released + AllPermits(s))
  }
}
