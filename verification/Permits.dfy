/**
  Research permits, after server/research-permit-coordinator.ts: a global cap on running research
  jobs with a first-in-first-out queue behind it. One operation reads the clock once.
 */
module Permits {
  import opened Common

  datatype Status = Queued | Acquired

  datatype Permit = Permit(
    session: Id,
    status: Status,
    generation: Id,
    queuedAt: int,
    acquiredAt: Option<int>,
    expiresAt: int,
    heartbeatAt: int)

  datatype Options = Options(maxConcurrent: nat, maxQueue: nat, queueTtl: int, acquireTtl: int)
  {
    /** The constructor rejects everything else. */
    ghost predicate Valid() {
      1 <= maxConcurrent <= 6 && maxQueue >= 1
    }
  }

  /** `order` is the insertion order of the permit map; `settled` the ids settled last, oldest first. */
  datatype State = State(
    permits: map<Id, Permit>,
    order: seq<Id>,
    queue: seq<Id>,
    settled: seq<Id>)

  const MAX_RECENTLY_SETTLED := 128

  const Init := State(map[], [], [], [])

  // ---------------------------------------------------------------- sequences without one element

  lemma {:induction false} RemoveConcat(a: seq<Id>, b: seq<Id>, x: Id)
    ensures Remove(a + b, x) == if x in a then Remove(a, x) + b else a + Remove(b, x)
  {
    if a == [] {
      assert a + b == b;
    } else {
      assert (a + b)[1..] == a[1..] + b && (a + b)[0] == a[0];
      if a[0] != x {
        RemoveConcat(a[1..], b, x);
      }
    }
  }

  // ---------------------------------------------------------------- elementary steps

  /** Remember the most recently settled ids, each once. */
  function Remember(settled: seq<Id>, id: Id): seq<Id> {
    if id in settled then settled
    else if |settled| < MAX_RECENTLY_SETTLED then settled + [id]
    else (settled + [id])[|settled| + 1 - MAX_RECENTLY_SETTLED..]
  }

  /** Drop a permit from the map; the queue is left alone. */
  function Settle(s: State, id: Id): State {
    s.(permits := s.permits - {id}, order := Remove(s.order, id), settled := Remember(s.settled, id))
  }

  function AcquiredIds(permits: map<Id, Permit>): set<Id> {
    set id | id in permits && permits[id].status == Acquired
  }

  function QueuedIds(permits: map<Id, Permit>): set<Id> {
    set id | id in permits && permits[id].status == Queued
  }

  function CountAcquired(s: State): nat {
    |Keep(s.order, AcquiredIds(s.permits))|
  }

  /** The head of the queue gets a slot. */
  function Promoted(s: State, now: int): State
    requires s.queue != [] && s.queue[0] in s.permits
  {
    s.(queue := s.queue[1..],
       permits := s.permits[s.queue[0] := s.permits[s.queue[0]].(status := Acquired, acquiredAt := Some(now))])
  }

  /** Give free slots to the head of the queue, settling permits that expired while they waited. */
  function Pump(o: Options, s: State, now: int): State
    decreases |s.queue|
  {
    if CountAcquired(s) >= o.maxConcurrent || s.queue == [] then s
    else
      var id := s.queue[0];
      var s1 := s.(queue := s.queue[1..]);
      if id !in s.permits || s.permits[id].status != Queued then Pump(o, s1, now)
      else if now >= s.permits[id].expiresAt then Pump(o, Settle(s1, id), now)
      else Pump(o, Promoted(s, now), now)
  }

  // ---------------------------------------------------------------- operations

  /** A permit acquired at clock zero carries no acquisition time as far as the hard timeout can tell. */
  predicate Overheld(o: Options, p: Permit, now: int) {
    p.status == Acquired && p.acquiredAt.Some? && p.acquiredAt.value != 0 && now - p.acquiredAt.value >= o.acquireTtl
  }

  predicate Overdue(p: Permit, now: int) {
    p.status == Queued && now >= p.expiresAt
  }

  function SweepOne(o: Options, s: State, id: Id, now: int): State {
    if id !in s.permits then s
    else if Overdue(s.permits[id], now) then Settle(s.(queue := Remove(s.queue, id)), id)
    else if Overheld(o, s.permits[id], now) then Pump(o, Settle(s, id), now)
    else s
  }

  function SweepKeys(o: Options, s: State, keys: seq<Id>, now: int): State
    decreases |keys|
  {
    if keys == [] then s else SweepKeys(o, SweepOne(o, s, keys[0], now), keys[1..], now)
  }

  function Sweep(o: Options, s: State, now: int): State {
    SweepKeys(o, s, s.order, now)
  }

  datatype AcquireAnswer = Granted | Waiting(position: nat) | Collision | QueueFull

  function Position(queue: seq<Id>, id: Id): nat {
    if queue == [] then 0
    else if queue[0] == id then 1
    else var p := Position(queue[1..], id); if p == 0 then 0 else p + 1
  }

  /** A new permit takes a free slot or goes to the back of the queue. */
  function Issue(o: Options, s: State, session: Id, generation: Id, id: Id, now: int): (State, AcquireAnswer) {
    if CountAcquired(s) < o.maxConcurrent then
      (s.(permits := s.permits[id := Permit(session, Acquired, generation, now, Some(now), now + o.queueTtl, now)],
          order := s.order + [id]), Granted)
    else
      (s.(permits := s.permits[id := Permit(session, Queued, generation, now, None, now + o.queueTtl, now)],
          order := s.order + [id], queue := s.queue + [id]), Waiting(|s.queue| + 1))
  }

  function Acquire(o: Options, s: State, session: Id, generation: Id, id: Id, now: int): (State, AcquireAnswer) {
    var s1 := Sweep(o, s, now);
    if id in s1.permits then
      var p := s1.permits[id];
      if p.session != session then (s1, Collision)
      else if p.status == Acquired then (s1, Granted)
      else (s1.(permits := s1.permits[id := p.(heartbeatAt := now)]), Waiting(Position(s1.queue, id)))
    else if |s1.queue| >= o.maxQueue then (s1, QueueFull)
    else Issue(o, s1, session, generation, id, now)
  }

  datatype ReleaseAnswer = Released | AlreadyReleased | NotFound

  function Missing(s: State, id: Id): ReleaseAnswer {
    if id in s.settled then AlreadyReleased else NotFound
  }

  function Release(o: Options, s: State, id: Id, now: int): (State, ReleaseAnswer) {
    if id !in s.permits then (s, Missing(s, id))
    else if s.permits[id].status == Queued then (Pump(o, Settle(s.(queue := Remove(s.queue, id)), id), now), Released)
    else (Pump(o, Settle(s, id), now), Released)
  }

  datatype CancelAnswer = QueuedRemoved | RunningReleased | AlreadyGone | Unknown

  function Cancel(o: Options, s: State, id: Id, now: int): (State, CancelAnswer) {
    if id !in s.permits then (s, if id in s.settled then AlreadyGone else Unknown)
    else if s.permits[id].status == Queued then (Settle(s.(queue := Remove(s.queue, id)), id), QueuedRemoved)
    else (Pump(o, Settle(s, id), now), RunningReleased)
  }

  function Heartbeat(s: State, id: Id, now: int): (State, bool) {
    if id !in s.permits || s.permits[id].status != Queued || now >= s.permits[id].expiresAt then (s, false)
    else (s.(permits := s.permits[id := s.permits[id].(heartbeatAt := now)]), true)
  }

  predicate IsStale(s: State, id: Id, session: Id, current: Id) {
    id in s.permits && s.permits[id].session == session && s.permits[id].generation != current
  }

  /** Cancel what a replaced worker process left behind. */
  function ReclaimKeys(o: Options, s: State, keys: seq<Id>, session: Id, current: Id, now: int): (State, nat)
    decreases |keys|
  {
    if keys == [] then (s, 0)
    else if !IsStale(s, keys[0], session, current) then ReclaimKeys(o, s, keys[1..], session, current, now)
    else
      var (s1, n) := ReclaimKeys(o, Cancel(o, s, keys[0], now).0, keys[1..], session, current, now);
      (s1, n + 1)
  }

  function Reclaim(o: Options, s: State, session: Id, current: Id, now: int): (State, nat) {
    ReclaimKeys(o, s, s.order, session, current, now)
  }

  /** The queue is not exported: it is rebuilt from the permits, in their order. */
  datatype Saved = Saved(order: seq<Id>, permits: map<Id, Permit>)

  function Export(s: State): Saved {
    Saved(s.order, s.permits)
  }

  /** What a coordinator that remembers `settled` becomes. */
  function Restore(o: Options, settled: seq<Id>, saved: Saved, now: int): State {
    Sweep(o, State(saved.permits, saved.order, Keep(saved.order, QueuedIds(saved.permits)), settled), now)
  }

  // ---------------------------------------------------------------- the invariant

  /** The permits are exactly those in `held`, which have a slot, and those in `queue`, which wait for one. */
  ghost predicate Split(permits: map<Id, Permit>, held: seq<Id>, queue: seq<Id>) {
    && NoDup(held) && NoDup(queue)
    && (forall id :: id in held ==> id in permits && permits[id].status == Acquired && permits[id].acquiredAt.Some?)
    && (forall id :: id in queue ==> id in permits && permits[id].status == Queued)
    && (forall id :: id in permits ==> id in held || id in queue)
  }

  /** The permits that hold a slot: everything in insertion order before the queue. */
  function Held(s: State): seq<Id>
    requires |s.queue| <= |s.order|
  {
    s.order[..|s.order| - |s.queue|]
  }

  /** In insertion order, the permits are the acquired ones followed by the queue. */
  ghost predicate Aligned(s: State) {
    && |s.queue| <= |s.order| && s.order == Held(s) + s.queue
    && Split(s.permits, Held(s), s.queue)
    && |s.settled| <= MAX_RECENTLY_SETTLED && NoDup(s.settled)
  }

  /** No more than the cap, and nobody waits while a slot is free. */
  ghost predicate Inv(o: Options, s: State) {
    o.Valid() && Aligned(s) && |Held(s)| <= o.maxConcurrent && (s.queue != [] ==> |Held(s)| == o.maxConcurrent)
  }

  lemma AlignedFrom(s: State, held: seq<Id>)
    requires s.order == held + s.queue && Split(s.permits, held, s.queue) && |s.settled| <= MAX_RECENTLY_SETTLED && NoDup(s.settled)
    ensures Aligned(s) && Held(s) == held
  {
    assert s.order[..|held|] == held;
  }

  lemma HeldAre(s: State)
    requires Aligned(s)
    ensures Keep(s.order, AcquiredIds(s.permits)) == Held(s) && CountAcquired(s) == |Held(s)|
    ensures Keep(s.order, QueuedIds(s.permits)) == s.queue
  {
    var h, a, q := Held(s), AcquiredIds(s.permits), QueuedIds(s.permits);
    KeepConcat(h, s.queue, a);
    KeepConcat(h, s.queue, q);
    KeepAll(h, a);
    KeepNone(s.queue, a);
    KeepNone(h, q);
    KeepAll(s.queue, q);
  }

  lemma RememberKeeps(settled: seq<Id>, id: Id)
    requires |settled| <= MAX_RECENTLY_SETTLED && NoDup(settled)
    ensures |Remember(settled, id)| <= MAX_RECENTLY_SETTLED && NoDup(Remember(settled, id)) && id in Remember(settled, id)
  {
    if id !in settled {
      assert (settled + [id])[|settled|] == id;
    }
  }

  lemma DropFromSplit(permits: map<Id, Permit>, held: seq<Id>, queue: seq<Id>, id: Id)
    requires Split(permits, held, queue)
    ensures Split(permits - {id}, Remove(held, id), Remove(queue, id))
    ensures id in held ==> id !in queue && |Remove(held, id)| == |held| - 1 && Remove(queue, id) == queue
    ensures id in queue ==> id !in held && Remove(held, id) == held
  {
    RemoveElems(held, id);
    RemoveElems(queue, id);
    if id !in held { RemoveAbsent(held, id); }
    if id !in queue { RemoveAbsent(queue, id); }
  }

  lemma {:induction false} RemoveAbsent(s: seq<Id>, x: Id)
    requires x !in s
    ensures Remove(s, x) == s
  {
    if s != [] {
      RemoveAbsent(s[1..], x);
    }
  }

  /** Settling an acquired permit frees its slot. */
  lemma SettleHeld(s: State, id: Id)
    requires Aligned(s) && id in Held(s)
    ensures Aligned(Settle(s, id)) && Held(Settle(s, id)) == Remove(Held(s), id) && |Held(Settle(s, id))| == |Held(s)| - 1
    ensures Settle(s, id).queue == s.queue
  {
    DropFromSplit(s.permits, Held(s), s.queue, id);
    RemoveConcat(Held(s), s.queue, id);
    RememberKeeps(s.settled, id);
    hide Split, Remove, Remember;
    AlignedFrom(Settle(s, id), Remove(Held(s), id));
  }

  /** Settling a queued permit that has left the queue. */
  lemma SettleQueued(s: State, id: Id)
    requires Aligned(s) && id in s.queue
    ensures var s' := Settle(s.(queue := Remove(s.queue, id)), id);
            Aligned(s') && Held(s') == Held(s) && s'.queue == Remove(s.queue, id)
  {
    DropFromSplit(s.permits, Held(s), s.queue, id);
    RemoveConcat(Held(s), s.queue, id);
    RememberKeeps(s.settled, id);
    hide Split, Remove, Remember;
    AlignedFrom(Settle(s.(queue := Remove(s.queue, id)), id), Held(s));
  }

  lemma PromoteSplit(permits: map<Id, Permit>, held: seq<Id>, queue: seq<Id>, p: Permit)
    requires Split(permits, held, queue) && queue != [] && p.status == Acquired && p.acquiredAt.Some?
    ensures Split(permits[queue[0] := p], held + [queue[0]], queue[1..])
  {
    var id := queue[0];
    assert id in queue && id !in queue[1..] && id !in held;
  }

  lemma PromoteAligned(s: State, now: int)
    requires Aligned(s) && s.queue != [] && s.queue[0] in s.permits
    ensures Aligned(Promoted(s, now)) && Held(Promoted(s, now)) == Held(s) + [s.queue[0]]
  {
    hide Split, NoDup;
    var id := s.queue[0];
    PromoteSplit(s.permits, Held(s), s.queue, s.permits[id].(status := Acquired, acquiredAt := Some(now)));
    assert s.order == Held(s) + ([id] + s.queue[1..]);
    AlignedFrom(Promoted(s, now), Held(s) + [id]);
  }

  lemma {:induction false} PumpInv(o: Options, s: State, now: int)
    requires o.Valid() && Aligned(s) && |Held(s)| <= o.maxConcurrent
    ensures Inv(o, Pump(o, s, now))
    decreases |s.queue|
  {
    HeldAre(s);
    hide Aligned, Settle;
    if CountAcquired(s) < o.maxConcurrent && s.queue != [] {
      var id := s.queue[0];
      HeadIsQueued(s);
      assert Remove(s.queue, id) == s.queue[1..];
      if now >= s.permits[id].expiresAt {
        SettleQueued(s, id);
        PumpInv(o, Settle(s.(queue := s.queue[1..]), id), now);
      } else {
        PromoteAligned(s, now);
        PumpInv(o, Promoted(s, now), now);
      }
    }
  }

  lemma HeadIsQueued(s: State)
    requires Aligned(s) && s.queue != []
    ensures s.queue[0] in s.queue && s.queue[0] in s.permits && s.permits[s.queue[0]].status == Queued
  {
  }

  lemma WhereIs(s: State, id: Id)
    requires Aligned(s) && id in s.permits
    ensures s.permits[id].status == Queued <==> id in s.queue
    ensures s.permits[id].status == Acquired <==> id in Held(s)
  {
    assert id in s.order;
  }

  lemma SweepOneInv(o: Options, s: State, id: Id, now: int)
    requires Inv(o, s)
    ensures Inv(o, SweepOne(o, s, id, now))
  {
    if id in s.permits {
      WhereIs(s, id);
      hide Aligned, Settle;
      if Overdue(s.permits[id], now) {
        SettleQueued(s, id);
        if Remove(s.queue, id) != [] {
          assert s.queue != [];
        }
      } else if Overheld(o, s.permits[id], now) {
        SettleHeld(s, id);
        PumpInv(o, Settle(s, id), now);
      }
    }
  }

  lemma {:induction false} SweepKeysInv(o: Options, s: State, keys: seq<Id>, now: int)
    requires Inv(o, s)
    ensures Inv(o, SweepKeys(o, s, keys, now))
    decreases |keys|
  {
    hide Inv, SweepOne;
    if keys != [] {
      SweepOneInv(o, s, keys[0], now);
      SweepKeysInv(o, SweepOne(o, s, keys[0], now), keys[1..], now);
    }
  }

  lemma AppendSplit(permits: map<Id, Permit>, held: seq<Id>, queue: seq<Id>, id: Id, p: Permit)
    requires Split(permits, held, queue) && id !in permits
    ensures p.status == Queued ==> Split(permits[id := p], held, queue + [id])
    ensures p.status == Acquired && p.acquiredAt.Some? ==> Split(permits[id := p], held + [id], queue)
  {
    assert id !in held && id !in queue;
  }

  lemma AppendQueued(o: Options, s: State, id: Id, p: Permit)
    requires Inv(o, s) && id !in s.permits && p.status == Queued && CountAcquired(s) >= o.maxConcurrent
    ensures Inv(o, s.(permits := s.permits[id := p], order := s.order + [id], queue := s.queue + [id]))
  {
    HeldAre(s);
    AppendSplit(s.permits, Held(s), s.queue, id, p);
    hide Split, CountAcquired;
    AlignedFrom(s.(permits := s.permits[id := p], order := s.order + [id], queue := s.queue + [id]), Held(s));
  }

  lemma AppendAcquired(o: Options, s: State, id: Id, p: Permit)
    requires Inv(o, s) && id !in s.permits && p.status == Acquired && p.acquiredAt.Some? && CountAcquired(s) < o.maxConcurrent
    ensures s.queue == [] && Inv(o, s.(permits := s.permits[id := p], order := s.order + [id]))
  {
    HeldAre(s);
    AppendSplit(s.permits, Held(s), s.queue, id, p);
    hide Split, CountAcquired;
    AlignedFrom(s.(permits := s.permits[id := p], order := s.order + [id]), Held(s) + [id]);
  }

  /** Renewing a heartbeat moves nothing. */
  lemma TouchInv(o: Options, s: State, id: Id, now: int)
    requires Inv(o, s) && id in s.permits
    ensures Inv(o, s.(permits := s.permits[id := s.permits[id].(heartbeatAt := now)]))
  {
    AlignedFrom(s.(permits := s.permits[id := s.permits[id].(heartbeatAt := now)]), Held(s));
  }

  lemma AcquireInv(o: Options, s: State, session: Id, generation: Id, id: Id, now: int)
    requires Inv(o, s)
    ensures Inv(o, Acquire(o, s, session, generation, id, now).0)
  {
    hide Sweep, Inv;
    var s1 := Sweep(o, s, now);
    SweepInv(o, s, now);
    if id in s1.permits {
      TouchInv(o, s1, id, now);
    } else if |s1.queue| < o.maxQueue {
      if CountAcquired(s1) < o.maxConcurrent {
        AppendAcquired(o, s1, id, Permit(session, Acquired, generation, now, Some(now), now + o.queueTtl, now));
      } else {
        AppendQueued(o, s1, id, Permit(session, Queued, generation, now, None, now + o.queueTtl, now));
      }
    }
  }

  lemma SweepInv(o: Options, s: State, now: int)
    requires Inv(o, s)
    ensures Inv(o, Sweep(o, s, now))
  {
    SweepKeysInv(o, s, s.order, now);
  }

  lemma CancelInv(o: Options, s: State, id: Id, now: int)
    requires Inv(o, s)
    ensures Inv(o, Cancel(o, s, id, now).0) && Inv(o, Release(o, s, id, now).0)
  {
    if id in s.permits {
      WhereIs(s, id);
      hide Aligned, Settle;
      if s.permits[id].status == Queued {
        SettleQueued(s, id);
        var s' := Settle(s.(queue := Remove(s.queue, id)), id);
        assert s'.queue != [] ==> s.queue != [] by { SettleQueue(s.(queue := Remove(s.queue, id)), id); }
        PumpInv(o, s', now);
      } else {
        SettleHeld(s, id);
        PumpInv(o, Settle(s, id), now);
      }
    }
  }

  lemma SettleQueue(s: State, id: Id)
    ensures Settle(s, id).queue == s.queue
  {
  }

  lemma HeartbeatInv(o: Options, s: State, id: Id, now: int)
    requires Inv(o, s)
    ensures Inv(o, Heartbeat(s, id, now).0)
  {
    hide Inv;
    if id in s.permits {
      TouchInv(o, s, id, now);
    }
  }

  lemma {:induction false} ReclaimKeysInv(o: Options, s: State, keys: seq<Id>, session: Id, current: Id, now: int)
    requires Inv(o, s)
    ensures Inv(o, ReclaimKeys(o, s, keys, session, current, now).0)
    decreases |keys|
  {
    hide Inv, Cancel;
    if keys != [] {
      CancelInv(o, s, keys[0], now);
      if IsStale(s, keys[0], session, current) {
        ReclaimKeysInv(o, Cancel(o, s, keys[0], now).0, keys[1..], session, current, now);
      } else {
        ReclaimKeysInv(o, s, keys[1..], session, current, now);
      }
    }
  }

  /**
    The queue is not part of the export, yet restoring an export is exactly a sweep of the exported
    state; only the memory of settled ids is the restoring process's own.
   */
  lemma RestoreIsSweep(o: Options, s: State, settled: seq<Id>, now: int)
    requires Inv(o, s)
    ensures Restore(o, settled, Export(s), now) == Sweep(o, s.(settled := settled), now)
  {
    HeldAre(s);
  }

  // ---------------------------------------------------------------- what a pump can do to a permit

  /** A pump promotes or expires waiting permits and does nothing else. */
  lemma {:induction false} PumpOnlyPromotes(o: Options, s: State, now: int)
    requires Aligned(s)
    ensures var s' := Pump(o, s, now);
            && (forall id | id in s'.permits ::
                  && id in s.permits
                  && (s'.permits[id] == s.permits[id]
                      || s'.permits[id] == s.permits[id].(status := Acquired, acquiredAt := Some(now))))
            && (forall id :: id in s.permits && id !in s'.permits ==> Overdue(s.permits[id], now))
    decreases |s.queue|
  {
    hide Aligned, Settle, CountAcquired;
    if CountAcquired(s) < o.maxConcurrent && s.queue != [] {
      var id := s.queue[0];
      HeadIsQueued(s);
      assert Remove(s.queue, id) == s.queue[1..];
      if now >= s.permits[id].expiresAt {
        SettleQueued(s, id);
        PumpOnlyPromotes(o, Settle(s.(queue := s.queue[1..]), id), now);
        SettleDrops(s.(queue := s.queue[1..]), id);
      } else {
        PromoteAligned(s, now);
        PumpOnlyPromotes(o, Promoted(s, now), now);
      }
    }
  }

  lemma SettleDrops(s: State, id: Id)
    ensures Settle(s, id).permits == s.permits - {id} && Settle(s, id).queue == s.queue
  {
  }

  // ---------------------------------------------------------------- expiry

  /** No limit condemns this permit at `now`. */
  ghost predicate Fresh(o: Options, p: Permit, now: int) {
    !Overdue(p, now) && (o.acquireTtl > 0 ==> !Overheld(o, p, now))
  }

  lemma SweepOneFresh(o: Options, s: State, id: Id, now: int)
    requires Inv(o, s)
    ensures var s' := SweepOne(o, s, id, now);
            forall x :: x in s'.permits ==> x in s.permits && (x == id || Fresh(o, s.permits[x], now) ==> Fresh(o, s'.permits[x], now))
  {
    if id in s.permits {
      WhereIs(s, id);
      SettleDrops(s, id);
      SettleDrops(s.(queue := Remove(s.queue, id)), id);
      hide Aligned, Settle;
      if !Overdue(s.permits[id], now) && Overheld(o, s.permits[id], now) {
        SettleHeld(s, id);
        PumpOnlyPromotes(o, Settle(s, id), now);
      }
    }
  }

  lemma {:induction false} SweepKeysFresh(o: Options, s: State, keys: seq<Id>, now: int)
    requires Inv(o, s)
    ensures var s' := SweepKeys(o, s, keys, now);
            forall x :: x in s'.permits ==> x in s.permits && (x in keys || Fresh(o, s.permits[x], now) ==> Fresh(o, s'.permits[x], now))
    decreases |keys|
  {
    hide Inv, Fresh, SweepOne;
    if keys != [] {
      assert forall x :: x in keys <==> x == keys[0] || x in keys[1..];
      SweepOneFresh(o, s, keys[0], now);
      SweepOneInv(o, s, keys[0], now);
      SweepKeysFresh(o, SweepOne(o, s, keys[0], now), keys[1..], now);
    }
  }

  /** After a sweep no permit is past its queue limit, nor, unless acquired at clock zero, past its hard timeout. */
  lemma SweepEnforcesLimits(o: Options, s: State, now: int, id: Id)
    requires Inv(o, s) && o.acquireTtl > 0 && id in Sweep(o, s, now).permits
    ensures var p := Sweep(o, s, now).permits[id];
            && (p.status == Queued ==> now < p.expiresAt)
            && (p.status == Acquired && p.acquiredAt != Some(0) ==> p.acquiredAt.Some? && now - p.acquiredAt.value < o.acquireTtl)
  {
    SweepKeysFresh(o, s, s.order, now);
    SweepInv(o, s, now);
    hide SweepKeys;
    WhereIs(Sweep(o, s, now), id);
    assert id in s.permits && id in s.order;
  }

  // ---------------------------------------------------------------- releasing twice

  lemma {:induction false} PumpRemembers(o: Options, s: State, now: int, id: Id)
    requires id !in s.permits && id in s.settled && NoDup(s.settled)
    requires exists i :: 0 <= i < |s.settled| && s.settled[i] == id && |s.settled| - i + |s.queue| <= MAX_RECENTLY_SETTLED
    ensures id !in Pump(o, s, now).permits && id in Pump(o, s, now).settled
    decreases |s.queue|
  {
    if CountAcquired(s) < o.maxConcurrent && s.queue != [] {
      var k := s.queue[0];
      var s1 := s.(queue := s.queue[1..]);
      var i :| 0 <= i < |s.settled| && s.settled[i] == id && |s.settled| - i + |s.queue| <= MAX_RECENTLY_SETTLED;
      if k !in s.permits || s.permits[k].status != Queued {
        PumpRemembers(o, s1, now, id);
      } else if now >= s.permits[k].expiresAt {
        var r := Remember(s.settled, k);
        if k in s.settled {
          assert r[i] == id;
        } else if |s.settled| < MAX_RECENTLY_SETTLED {
          assert r[i] == id;
        } else {
          var cut := |s.settled| + 1 - MAX_RECENTLY_SETTLED;
          assert r[i - cut] == id;
        }
        assert NoDup(r);
        PumpRemembers(o, Settle(s1, k), now, id);
      } else {
        PumpRemembers(o, Promoted(s, now), now, id);
      }
    }
  }

  /** The place of `id` in the memory of settled ids, counted from the end. */
  function FromEnd(settled: seq<Id>, id: Id): nat {
    if settled == [] then 0 else if settled[|settled| - 1] == id then 1 else 1 + FromEnd(settled[..|settled| - 1], id)
  }

  lemma {:induction false} FromEndIs(settled: seq<Id>, id: Id)
    requires id in settled
    ensures 1 <= FromEnd(settled, id) <= |settled| && settled[|settled| - FromEnd(settled, id)] == id
  {
    if settled[|settled| - 1] != id {
      FromEndIs(settled[..|settled| - 1], id);
    }
  }

  lemma NewestIsLast(settled: seq<Id>, id: Id)
    requires id !in settled
    ensures FromEnd(Remember(settled, id), id) == 1
  {
    var r := Remember(settled, id);
    assert r != [] && r[|r| - 1] == id;
  }

  /** Serving the queue after a settlement leaves the id in the memory while that has room for the queue behind it. */
  lemma StillRemembered(o: Options, s: State, s0: State, id: Id, now: int)
    requires s0.settled == Remember(s.settled, id) && |s.settled| <= MAX_RECENTLY_SETTLED && NoDup(s.settled)
    requires id !in s0.permits && |s0.queue| <= |s.queue|
    requires FromEnd(Remember(s.settled, id), id) + |s.queue| <= MAX_RECENTLY_SETTLED
    ensures id in Pump(o, s0, now).settled
  {
    RememberKeeps(s.settled, id);
    FromEndIs(s0.settled, id);
    var i := |s0.settled| - FromEnd(s0.settled, id);
    hide Remember, FromEnd, Pump;
    assert s0.settled[i] == id && |s0.settled| - i + |s0.queue| <= MAX_RECENTLY_SETTLED;
    PumpRemembers(o, s0, now, id);
  }

  /**
    A permit is released once: the same release again changes nothing, and it is answered as already
    released as long as the memory of settled ids has room for the queue behind the permit's own place in it,
    which is the last one unless the same id had been settled before.
   */
  lemma ReleaseIsFinal(o: Options, s: State, id: Id, now: int, later: int)
    requires Inv(o, s) && id in s.permits
    ensures var s1 := Release(o, s, id, now).0;
            && Release(o, s, id, now).1 == Released && id !in s1.permits
            && Release(o, s1, id, later).0 == s1 && Release(o, s1, id, later).1 != Released
            && (FromEnd(Remember(s.settled, id), id) + |s.queue| <= MAX_RECENTLY_SETTLED ==>
                  Release(o, s1, id, later).1 == AlreadyReleased)
    ensures id !in s.settled ==> FromEnd(Remember(s.settled, id), id) == 1
  {
    hide Pump, Remember, FromEnd, Remove, Held, NoDup;
    if id !in s.settled {
      NewestIsLast(s.settled, id);
    }
    ReleaseDrops(o, s, id, now);
    var s0 := if s.permits[id].status == Queued then Settle(s.(queue := Remove(s.queue, id)), id) else Settle(s, id);
    RemoveElems(s.queue, id);
    if FromEnd(Remember(s.settled, id), id) + |s.queue| <= MAX_RECENTLY_SETTLED {
      StillRemembered(o, s, s0, id, now);
    }
  }

  lemma ReleaseDrops(o: Options, s: State, id: Id, now: int)
    requires Inv(o, s) && id in s.permits
    ensures id !in Release(o, s, id, now).0.permits
  {
    WhereIs(s, id);
    SettleDrops(s, id);
    SettleDrops(s.(queue := Remove(s.queue, id)), id);
    hide Aligned, Settle;
    if s.permits[id].status == Queued {
      SettleQueued(s, id);
      PumpOnlyPromotes(o, Settle(s.(queue := Remove(s.queue, id)), id), now);
    } else {
      SettleHeld(s, id);
      PumpOnlyPromotes(o, Settle(s, id), now);
    }
  }

  // ---------------------------------------------------------------- reclaiming after a worker restart

  /** Cancelling one permit touches no other, except that a waiting one may get the free slot or expire. */
  lemma CancelLocal(o: Options, s: State, id: Id, now: int)
    requires Inv(o, s)
    ensures var s' := Cancel(o, s, id, now).0;
            && id !in s'.permits
            && (forall x | x in s'.permits ::
                  && x in s.permits && s'.permits[x].session == s.permits[x].session
                  && s'.permits[x].generation == s.permits[x].generation && s'.permits[x].expiresAt == s.permits[x].expiresAt)
            && (forall x :: x in s.permits && x !in s'.permits ==> x == id || Overdue(s.permits[x], now))
  {
    if id in s.permits {
      WhereIs(s, id);
      SettleDrops(s, id);
      SettleDrops(s.(queue := Remove(s.queue, id)), id);
      hide Aligned, Settle;
      if s.permits[id].status == Acquired {
        SettleHeld(s, id);
        PumpOnlyPromotes(o, Settle(s, id), now);
      }
    }
  }

  lemma {:induction false} ReclaimKeysLeave(o: Options, s: State, keys: seq<Id>, session: Id, current: Id, now: int)
    requires Inv(o, s)
    ensures var s' := ReclaimKeys(o, s, keys, session, current, now).0;
            && (forall x | x in s'.permits ::
                  && x in s.permits && s'.permits[x].session == s.permits[x].session
                  && s'.permits[x].generation == s.permits[x].generation && s'.permits[x].expiresAt == s.permits[x].expiresAt)
            && (forall x :: x in keys ==> !IsStale(s', x, session, current))
            && (forall x :: x in s.permits && x !in s'.permits ==> IsStale(s, x, session, current) || now >= s.permits[x].expiresAt)
    decreases |keys|
  {
    hide Inv, Cancel;
    if keys != [] {
      assert forall x :: x in keys <==> x == keys[0] || x in keys[1..];
      if IsStale(s, keys[0], session, current) {
        CancelLocal(o, s, keys[0], now);
        CancelInv(o, s, keys[0], now);
        ReclaimKeysLeave(o, Cancel(o, s, keys[0], now).0, keys[1..], session, current, now);
      } else {
        ReclaimKeysLeave(o, s, keys[1..], session, current, now);
      }
    }
  }

  /** A reclaim leaves no permit of a replaced worker process, and drops no other except by expiry. */
  lemma ReclaimIsExact(o: Options, s: State, session: Id, current: Id, now: int)
    requires Inv(o, s)
    ensures var s' := Reclaim(o, s, session, current, now).0;
            && Inv(o, s')
            && (forall x :: x in s'.permits && s'.permits[x].session == session ==> s'.permits[x].generation == current)
            && (forall x :: x in s.permits && x !in s'.permits ==> IsStale(s, x, session, current) || now >= s.permits[x].expiresAt)
  {
    ReclaimKeysLeave(o, s, s.order, session, current, now);
    ReclaimKeysInv(o, s, s.order, session, current, now);
    hide ReclaimKeys;
    assert forall x :: x in s.permits ==> x in s.order;
  }

  // ---------------------------------------------------------------- whole runs

  datatype Event =
    | Ask(session: Id, generation: Id, id: Id)
    | GiveBack(id: Id)
    | Abandon(id: Id)
    | Beat(id: Id)
    | Recycle(session: Id, generation: Id)
    | Maintain
    | Restart

  /** A restarted coordinator starts with an empty memory of settled ids. */
  function Step(o: Options, s: State, e: Event, now: int): State {
    match e
    case Ask(session, generation, id) => Acquire(o, s, session, generation, id, now).0
    case GiveBack(id) => Release(o, s, id, now).0
    case Abandon(id) => Cancel(o, s, id, now).0
    case Beat(id) => Heartbeat(s, id, now).0
    case Recycle(session, generation) => Reclaim(o, s, session, generation, now).0
    case Maintain => Sweep(o, s, now)
    case Restart => Restore(o, [], Export(s), now)
  }

  datatype Timed = At(event: Event, now: int)

  function Run(o: Options, s: State, run: seq<Timed>): State
    decreases |run|
  {
    if run == [] then s else Run(o, Step(o, s, run[0].event, run[0].now), run[1..])
  }

  lemma ForgetSettled(o: Options, s: State)
    requires Inv(o, s)
    ensures Inv(o, s.(settled := []))
  {
    AlignedFrom(s.(settled := []), Held(s));
  }

  lemma StepInv(o: Options, s: State, e: Event, now: int)
    requires Inv(o, s)
    ensures Inv(o, Step(o, s, e, now))
  {
    hide Inv, Acquire, Release, Cancel, Heartbeat, Sweep, Restore;
    match e
    case Ask(session, generation, id) => AcquireInv(o, s, session, generation, id, now);
    case GiveBack(id) => CancelInv(o, s, id, now);
    case Abandon(id) => CancelInv(o, s, id, now);
    case Beat(id) => HeartbeatInv(o, s, id, now);
    case Recycle(session, generation) => ReclaimKeysInv(o, s, s.order, session, generation, now);
    case Maintain => SweepInv(o, s, now);
    case Restart =>
      RestoreIsSweep(o, s, [], now);
      ForgetSettled(o, s);
      SweepInv(o, s.(settled := []), now);
  }

  lemma {:induction false} RunInv(o: Options, s: State, run: seq<Timed>)
    requires Inv(o, s)
    ensures Inv(o, Run(o, s, run))
    decreases |run|
  {
    hide Inv, Step;
    if run != [] {
      StepInv(o, s, run[0].event, run[0].now);
      RunInv(o, Step(o, s, run[0].event, run[0].now), run[1..]);
    }
  }

  /**
    In every reachable state at most `maxConcurrent` permits are acquired, a permit waits only while all
    slots are taken, and the queue is the waiting permits in the order in which they were asked for.
   */
  lemma CapIsKeptAndNeverIdle(o: Options, run: seq<Timed>)
    requires o.Valid()
    ensures var s := Run(o, Init, run);
            && |AcquiredIds(s.permits)| <= o.maxConcurrent
            && (QueuedIds(s.permits) != {} ==> |AcquiredIds(s.permits)| == o.maxConcurrent)
            && s.queue == Keep(s.order, QueuedIds(s.permits))
  {
    var s := Run(o, Init, run);
    assert Inv(o, Init);
    RunInv(o, Init, run);
    hide Run;
    HeldAre(s);
    assert AcquiredIds(s.permits) == Elems(Held(s));
    ElemsSize(Held(s));
    if id :| id in QueuedIds(s.permits) {
      assert id in s.queue;
    }
  }

  // ---------------------------------------------------------------- first come, first served

  ghost predicate Before(s: seq<Id>, a: Id, b: Id) {
    exists i, j :: 0 <= i < j < |s| && s[i] == a && s[j] == b
  }

  /** While both are present, `a` stands before `b`. */
  ghost predicate Ahead(s: seq<Id>, a: Id, b: Id) {
    a in s && b in s ==> Before(s, a, b)
  }

  lemma BeforeCons(x: Id, s: seq<Id>, a: Id, b: Id)
    requires Before(s, a, b) || (x == a && b in s)
    ensures Before([x] + s, a, b)
  {
    var t := [x] + s;
    if Before(s, a, b) {
      var i, j :| 0 <= i < j < |s| && s[i] == a && s[j] == b;
      assert t[i + 1] == a && t[j + 1] == b;
    } else {
      var j :| 0 <= j < |s| && s[j] == b;
      assert t[0] == a && t[j + 1] == b;
    }
  }

  lemma BeforeTail(s: seq<Id>, a: Id, b: Id)
    requires s != [] && Before(s, a, b)
    ensures if s[0] == a && !Before(s[1..], a, b) then b in s[1..] else Before(s[1..], a, b)
  {
    var i, j :| 0 <= i < j < |s| && s[i] == a && s[j] == b;
    assert s[1..][j - 1] == b;
    if i > 0 {
      assert s[1..][i - 1] == a;
    }
  }

  lemma {:induction false} RemoveAhead(s: seq<Id>, x: Id, a: Id, b: Id)
    requires NoDup(s) && Ahead(s, a, b)
    ensures Ahead(Remove(s, x), a, b)
  {
    RemoveElems(s, x);
    if a in Remove(s, x) && b in Remove(s, x) {
      hide Before;
      BeforeTail(s, a, b);
      assert s[0] !in s[1..];
      if s[0] != x {
        RemoveElems(s[1..], x);
        if Before(s[1..], a, b) {
          RemoveAhead(s[1..], x, a, b);
        }
        BeforeCons(s[0], Remove(s[1..], x), a, b);
      }
    }
  }

  lemma AppendAhead(s: seq<Id>, x: Id, a: Id, b: Id)
    requires Ahead(s, a, b) && x !in s && x != a
    ensures Ahead(s + [x], a, b)
  {
    var t := s + [x];
    if a in t && b in t {
      assert a in s;
      if b == x {
        var i :| 0 <= i < |s| && s[i] == a;
        assert t[i] == a && t[|s|] == b;
      } else {
        var i, j :| 0 <= i < j < |s| && s[i] == a && s[j] == b;
        assert t[i] == a && t[j] == b;
      }
    }
  }

  lemma AlignedOrder(s: State)
    requires Aligned(s)
    ensures NoDup(s.order) && forall id :: id in s.order <==> id in s.permits
  {
    var h := Held(s);
    forall i, j | 0 <= i < j < |s.order| ensures s.order[i] != s.order[j] {
      if i < |h| <= j {
        assert s.order[i] == h[i] && s.order[j] == s.queue[j - |h|];
        assert h[i] in h && s.queue[j - |h|] in s.queue;
      } else if |h| <= i {
        assert s.order[i] == s.queue[i - |h|] && s.order[j] == s.queue[j - |h|];
      } else {
        assert s.order[i] == h[i] && s.order[j] == h[j];
      }
    }
  }

  lemma SettleAhead(s: State, id: Id, a: Id, b: Id)
    requires Aligned(s) && Ahead(s.order, a, b)
    ensures Ahead(Settle(s, id).order, a, b)
  {
    AlignedOrder(s);
    RemoveAhead(s.order, id, a, b);
  }

  lemma {:induction false} PumpAhead(o: Options, s: State, now: int, a: Id, b: Id)
    requires Aligned(s) && Ahead(s.order, a, b)
    ensures Ahead(Pump(o, s, now).order, a, b)
    decreases |s.queue|
  {
    hide Aligned, Settle, CountAcquired, Ahead;
    if CountAcquired(s) < o.maxConcurrent && s.queue != [] {
      var id := s.queue[0];
      HeadIsQueued(s);
      assert Remove(s.queue, id) == s.queue[1..];
      if now >= s.permits[id].expiresAt {
        SettleQueued(s, id);
        SettleAhead(s, id, a, b);
        assert Settle(s.(queue := s.queue[1..]), id).order == Settle(s, id).order by { SettleOrder(s, s.(queue := s.queue[1..]), id); }
        PumpAhead(o, Settle(s.(queue := s.queue[1..]), id), now, a, b);
      } else {
        PromoteAligned(s, now);
        PumpAhead(o, Promoted(s, now), now, a, b);
      }
    }
  }

  lemma SettleOrder(s: State, s': State, id: Id)
    requires s'.order == s.order
    ensures Settle(s', id).order == Settle(s, id).order
  {
  }

  lemma SweepOneAhead(o: Options, s: State, id: Id, now: int, a: Id, b: Id)
    requires Inv(o, s) && Ahead(s.order, a, b)
    ensures Ahead(SweepOne(o, s, id, now).order, a, b)
  {
    if id in s.permits {
      WhereIs(s, id);
      SettleAhead(s, id, a, b);
      SettleOrder(s, s.(queue := Remove(s.queue, id)), id);
      hide Aligned, Settle, Ahead;
      if !Overdue(s.permits[id], now) && Overheld(o, s.permits[id], now) {
        SettleHeld(s, id);
        PumpAhead(o, Settle(s, id), now, a, b);
      }
    }
  }

  lemma {:induction false} SweepKeysAhead(o: Options, s: State, keys: seq<Id>, now: int, a: Id, b: Id)
    requires Inv(o, s) && Ahead(s.order, a, b)
    ensures Ahead(SweepKeys(o, s, keys, now).order, a, b)
    decreases |keys|
  {
    hide Inv, Ahead, SweepOne;
    if keys != [] {
      SweepOneAhead(o, s, keys[0], now, a, b);
      SweepOneInv(o, s, keys[0], now);
      SweepKeysAhead(o, SweepOne(o, s, keys[0], now), keys[1..], now, a, b);
    }
  }

  lemma CancelAhead(o: Options, s: State, id: Id, now: int, a: Id, b: Id)
    requires Inv(o, s) && Ahead(s.order, a, b)
    ensures Ahead(Cancel(o, s, id, now).0.order, a, b) && Ahead(Release(o, s, id, now).0.order, a, b)
  {
    if id in s.permits {
      WhereIs(s, id);
      SettleAhead(s, id, a, b);
      SettleOrder(s, s.(queue := Remove(s.queue, id)), id);
      hide Aligned, Settle, Ahead;
      if s.permits[id].status == Queued {
        SettleQueued(s, id);
        PumpAhead(o, Settle(s.(queue := Remove(s.queue, id)), id), now, a, b);
      } else {
        SettleHeld(s, id);
        PumpAhead(o, Settle(s, id), now, a, b);
      }
    }
  }

  lemma {:induction false} ReclaimKeysAhead(o: Options, s: State, keys: seq<Id>, session: Id, current: Id, now: int, a: Id, b: Id)
    requires Inv(o, s) && Ahead(s.order, a, b)
    ensures Ahead(ReclaimKeys(o, s, keys, session, current, now).0.order, a, b)
    decreases |keys|
  {
    hide Inv, Cancel, Ahead;
    if keys != [] {
      CancelInv(o, s, keys[0], now);
      CancelAhead(o, s, keys[0], now, a, b);
      if IsStale(s, keys[0], session, current) {
        ReclaimKeysAhead(o, Cancel(o, s, keys[0], now).0, keys[1..], session, current, now, a, b);
      } else {
        ReclaimKeysAhead(o, s, keys[1..], session, current, now, a, b);
      }
    }
  }

  /** An ask that finds `a` absent, after its sweep, and puts it at the end. An ask that finds it changes no order. */
  ghost predicate Reissues(o: Options, s: State, e: Event, now: int, a: Id) {
    e.Ask? && e.id == a && a !in Sweep(o, s, now).permits && a in Step(o, s, e, now).permits
  }

  ghost predicate NeverReissued(o: Options, s: State, run: seq<Timed>, a: Id)
    decreases |run|
  {
    run == []
    || (!Reissues(o, s, run[0].event, run[0].now, a) && NeverReissued(o, Step(o, s, run[0].event, run[0].now), run[1..], a))
  }

  lemma AcquireAhead(o: Options, s: State, session: Id, generation: Id, id: Id, now: int, a: Id, b: Id)
    requires Inv(o, s) && Ahead(s.order, a, b) && !Reissues(o, s, Ask(session, generation, id), now, a)
    ensures Ahead(Acquire(o, s, session, generation, id, now).0.order, a, b)
  {
    SweepKeysAhead(o, s, s.order, now, a, b);
    SweepInv(o, s, now);
    var s1 := Sweep(o, s, now);
    AlignedOrder(s1);
    hide Inv, Sweep, Ahead;
    if id !in s1.permits && id != a {
      AppendAhead(s1.order, id, a, b);
    }
  }

  lemma StepAhead(o: Options, s: State, e: Event, now: int, a: Id, b: Id)
    requires Inv(o, s) && Ahead(s.order, a, b) && !Reissues(o, s, e, now, a)
    ensures Ahead(Step(o, s, e, now).order, a, b)
  {
    hide Inv, Ahead, Acquire, Release, Cancel, Restore;
    match e
    case Ask(session, generation, id) => AcquireAhead(o, s, session, generation, id, now, a, b);
    case GiveBack(id) => CancelAhead(o, s, id, now, a, b);
    case Abandon(id) => CancelAhead(o, s, id, now, a, b);
    case Beat(id) =>
    case Recycle(session, generation) => ReclaimKeysAhead(o, s, s.order, session, generation, now, a, b);
    case Maintain => SweepKeysAhead(o, s, s.order, now, a, b);
    case Restart =>
      RestoreIsSweep(o, s, [], now);
      ForgetSettled(o, s);
      SweepKeysAhead(o, s.(settled := []), s.order, now, a, b);
  }

  lemma {:induction false} RunAhead(o: Options, s: State, run: seq<Timed>, a: Id, b: Id)
    requires Inv(o, s) && Ahead(s.order, a, b) && NeverReissued(o, s, run, a)
    ensures Ahead(Run(o, s, run).order, a, b)
    decreases |run|
  {
    hide Inv, Step, Ahead, Reissues;
    if run != [] {
      StepInv(o, s, run[0].event, run[0].now);
      StepAhead(o, s, run[0].event, run[0].now, a, b);
      RunAhead(o, Step(o, s, run[0].event, run[0].now), run[1..], a, b);
    }
  }

  /**
    First come, first served, over whole runs and restarts: if `a` was asked for before `b` and is not issued
    again after it has left, then whenever both are present and `b` has a slot, so has `a`.
   */
  lemma FirstComeFirstServed(o: Options, s: State, run: seq<Timed>, a: Id, b: Id)
    requires Inv(o, s) && Before(s.order, a, b) && NeverReissued(o, s, run, a)
    ensures var s' := Run(o, s, run);
            a in s'.permits && b in s'.permits && s'.permits[b].status == Acquired ==> s'.permits[a].status == Acquired
  {
    var s' := Run(o, s, run);
    RunAhead(o, s, run, a, b);
    RunInv(o, s, run);
    hide Run;
    AlignedOrder(s');
    if a in s'.permits && b in s'.permits && s'.permits[b].status == Acquired {
      WhereIs(s', b);
      var i, j :| 0 <= i < j < |s'.order| && s'.order[i] == a && s'.order[j] == b;
      assert b !in s'.queue;
      assert Held(s')[i] == a;
    }
  }
}
