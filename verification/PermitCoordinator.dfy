/**
  The research-permit coordinator as the gateway runs it: one object updated in place, after
  server/research-permit-coordinator.ts, proved equal to the functions of module Permits.
 */
module PermitCoordinator {
  import opened Common
  import opened Permits

  datatype Answer<T> = Disposed | Answer(value: T)

  class ResearchPermitCoordinator {
    const options: Options
    var permits: map<Id, Permit>
    var order: seq<Id>
    var queue: seq<Id>
    var recentlySettled: set<Id>
    var recentlySettledOrder: seq<Id>
    var disposed: bool

    ghost function View(): State
      reads this
    {
      State(permits, order, queue, recentlySettledOrder)
    }

    /** The settled set mirrors its order, and a disposed coordinator holds nothing. */
    ghost predicate Valid()
      reads this
    {
      && Inv(options, View())
      && recentlySettled == Elems(recentlySettledOrder)
      && (disposed ==> View() == Init)
    }

    constructor (o: Options)
      requires o.Valid()
      ensures Valid() && options == o && View() == Init && !disposed
    {
      options := o;
      permits, order, queue, recentlySettled, recentlySettledOrder, disposed := map[], [], [], {}, [], false;
    }

    // -------------------------------------------------------------- helpers

    method Count() returns (count: nat)
      ensures count == CountAcquired(View())
    {
      count := 0;
      ghost var acquired := AcquiredIds(permits);
      for i := 0 to |order|
        invariant count == |Keep(order[..i], acquired)|
      {
        assert order[..i + 1] == order[..i] + [order[i]];
        KeepConcat(order[..i], [order[i]], acquired);
        if order[i] in permits && permits[order[i]].status == Acquired {
          count := count + 1;
        }
      }
      assert order[..|order|] == order;
    }

    method RememberSettled(id: Id)
      requires recentlySettled == Elems(recentlySettledOrder)
      requires |recentlySettledOrder| <= MAX_RECENTLY_SETTLED && NoDup(recentlySettledOrder)
      modifies this`recentlySettled, this`recentlySettledOrder
      ensures recentlySettled == Elems(recentlySettledOrder)
      ensures recentlySettledOrder == Remember(old(recentlySettledOrder), id)
    {
      ghost var was := recentlySettledOrder;
      MemberElems(was, id);
      if id in recentlySettled {
        return;
      }
      ElemsAppend(was, id);
      hide Elems;
      recentlySettled := recentlySettled + {id};
      recentlySettledOrder := recentlySettledOrder + [id];
      while |recentlySettledOrder| > MAX_RECENTLY_SETTLED
        invariant recentlySettled == Elems(recentlySettledOrder) && NoDup(recentlySettledOrder)
        invariant recentlySettledOrder == was + [id]
                  || (|recentlySettledOrder| == MAX_RECENTLY_SETTLED == |was| && recentlySettledOrder == (was + [id])[1..])
      {
        var expired := recentlySettledOrder[0];
        ElemsDropFirst(recentlySettledOrder);
        recentlySettledOrder := recentlySettledOrder[1..];
        recentlySettled := recentlySettled - {expired};
      }
    }

    /** The permit leaves the map and is remembered as settled. */
    method SettlePermit(id: Id)
      requires recentlySettled == Elems(recentlySettledOrder)
      requires |recentlySettledOrder| <= MAX_RECENTLY_SETTLED && NoDup(recentlySettledOrder)
      modifies this`permits, this`order, this`recentlySettled, this`recentlySettledOrder
      ensures recentlySettled == Elems(recentlySettledOrder)
      ensures View() == Settle(old(View()), id)
    {
      RememberSettled(id);
      permits := permits - {id};
      order := Remove(order, id);
    }

    method PumpQueue(now: int)
      requires options.Valid() && Aligned(View()) && |Held(View())| <= options.maxConcurrent && !disposed
      requires recentlySettled == Elems(recentlySettledOrder)
      modifies this`permits, this`order, this`queue, this`recentlySettled, this`recentlySettledOrder
      ensures View() == Pump(options, old(View()), now)
      ensures Valid()
    {
      hide Split, Settle, CountAcquired, Elems, Inv;
      ghost var whole := Pump(options, View(), now);
      PumpInv(options, View(), now);
      var count := Count();
      while count < options.maxConcurrent && queue != []
        invariant Pump(options, View(), now) == whole
        invariant Aligned(View()) && |Held(View())| <= options.maxConcurrent && count == CountAcquired(View())
        invariant recentlySettled == Elems(recentlySettledOrder)
        decreases |queue|
      {
        PumpOne(now);
        count := Count();
      }
    }

    /** The head of the queue gets a free slot, or is settled if it waited too long. */
    method PumpOne(now: int)
      requires Aligned(View()) && CountAcquired(View()) < options.maxConcurrent && queue != []
      requires recentlySettled == Elems(recentlySettledOrder)
      modifies this`permits, this`order, this`queue, this`recentlySettled, this`recentlySettledOrder
      ensures Aligned(View()) && |Held(View())| <= options.maxConcurrent
      ensures recentlySettled == Elems(recentlySettledOrder)
      ensures queue == old(queue)[1..] && Pump(options, View(), now) == Pump(options, old(View()), now)
    {
      hide Aligned, Settle, CountAcquired, Elems;
      var id := queue[0];
      ghost var before := View();
      HeadIsQueued(before);
      HeldAre(before);
      assert Remove(queue, id) == queue[1..];
      SettledBound(before);
      queue := queue[1..];
      if now >= permits[id].expiresAt {
        SettleQueued(before, id);
        SettlePermit(id);
      } else {
        PromoteAligned(before, now);
        permits := permits[id := permits[id].(status := Acquired, acquiredAt := Some(now))];
        assert View() == Promoted(before, now);
      }
    }

    // -------------------------------------------------------------- operations

    method SweepPermit(id: Id, now: int)
      requires Valid() && !disposed
      modifies this`permits, this`order, this`queue, this`recentlySettled, this`recentlySettledOrder
      ensures View() == SweepOne(options, old(View()), id, now)
      ensures Valid()
    {
      SweepOneInv(options, View(), id, now);
      if id !in permits {
        return;
      }
      WhereIs(View(), id);
      SettledBound(View());
      hide Aligned, Settle, Elems;
      if permits[id].status == Queued && now >= permits[id].expiresAt {
        queue := Remove(queue, id);
        SettlePermit(id);
      } else if permits[id].status == Acquired && permits[id].acquiredAt.Some? && permits[id].acquiredAt.value != 0
                && now - permits[id].acquiredAt.value >= options.acquireTtl {
        SettleHeld(View(), id);
        SettlePermit(id);
        PumpQueue(now);
      }
    }

    method SweepAll(now: int)
      requires Valid()
      modifies this`permits, this`order, this`queue, this`recentlySettled, this`recentlySettledOrder
      ensures View() == Sweep(options, old(View()), now)
      ensures Valid()
    {
      hide Inv, SweepOne;
      var keys := order;
      if disposed {
        return;
      }
      ghost var whole := SweepKeys(options, View(), keys, now);
      assert keys[0..] == keys;
      for i := 0 to |keys|
        invariant SweepKeys(options, View(), keys[i..], now) == whole
        invariant Valid()
      {
        assert keys[i..][0] == keys[i] && keys[i..][1..] == keys[i + 1..];
        SweepPermit(keys[i], now);
      }
    }

    method AcquirePermit(session: Id, generation: Id, id: Id, now: int) returns (r: Answer<AcquireAnswer>)
      requires Valid()
      modifies this
      ensures Valid() && disposed == old(disposed)
      ensures r.Disposed? <==> disposed
      ensures disposed ==> View() == old(View())
      ensures !disposed ==> (View(), r.value) == Acquire(options, old(View()), session, generation, id, now)
    {
      hide Inv, Sweep, CountAcquired, Elems, Issue;
      if disposed {
        return Disposed;
      }
      AcquireInv(options, View(), session, generation, id, now);
      SweepAll(now);
      if id in permits {
        var existing := permits[id];
        if existing.session != session {
          return Answer(Collision);
        }
        if existing.status == Queued {
          permits := permits[id := existing.(heartbeatAt := now)];
          return Answer(Waiting(Position(queue, id)));
        }
        return Answer(Granted);
      }
      if |queue| >= options.maxQueue {
        return Answer(QueueFull);
      }
      var answer := IssuePermit(session, generation, id, now);
      return Answer(answer);
    }

    /** A permit nobody holds yet: acquired while there is a slot, queued otherwise. */
    method IssuePermit(session: Id, generation: Id, id: Id, now: int) returns (answer: AcquireAnswer)
      requires id !in permits
      modifies this`permits, this`order, this`queue
      ensures (View(), answer) == Issue(options, old(View()), session, generation, id, now)
    {
      hide CountAcquired;
      var acquired := Count();
      order := order + [id];
      if acquired < options.maxConcurrent {
        permits := permits[id := Permit(session, Acquired, generation, now, Some(now), now + options.queueTtl, now)];
        return Granted;
      }
      permits := permits[id := Permit(session, Queued, generation, now, None, now + options.queueTtl, now)];
      queue := queue + [id];
      return Waiting(|queue|);
    }

    method ReleasePermit(id: Id, now: int) returns (r: Answer<ReleaseAnswer>)
      requires Valid()
      modifies this
      ensures Valid() && disposed == old(disposed)
      ensures r.Disposed? <==> disposed
      ensures disposed ==> View() == old(View())
      ensures !disposed ==> (View(), r.value) == Release(options, old(View()), id, now)
    {
      MemberElems(recentlySettledOrder, id);
      hide Aligned, Settle, Elems, CountAcquired;
      if disposed {
        return Disposed;
      }
      if id !in permits {
        return Answer(if id in recentlySettled then AlreadyReleased else NotFound);
      }
      SettledBound(View());
      WhereIs(View(), id);
      if permits[id].status == Queued {
        SettleQueued(View(), id);
        queue := Remove(queue, id);
      } else {
        SettleHeld(View(), id);
      }
      SettlePermit(id);
      PumpQueue(now);
      return Answer(Released);
    }

    method CancelPermit(id: Id, now: int) returns (r: Answer<CancelAnswer>)
      requires Valid()
      modifies this
      ensures Valid() && disposed == old(disposed)
      ensures r.Disposed? <==> disposed
      ensures disposed ==> View() == old(View())
      ensures !disposed ==> (View(), r.value) == Cancel(options, old(View()), id, now)
    {
      MemberElems(recentlySettledOrder, id);
      hide Aligned, Settle, Elems, CountAcquired;
      if disposed {
        return Disposed;
      }
      if id !in permits {
        return Answer(if id in recentlySettled then AlreadyGone else Unknown);
      }
      CancelInv(options, View(), id, now);
      SettledBound(View());
      WhereIs(View(), id);
      if permits[id].status == Queued {
        queue := Remove(queue, id);
        SettlePermit(id);
        return Answer(QueuedRemoved);
      }
      SettleHeld(View(), id);
      SettlePermit(id);
      PumpQueue(now);
      return Answer(RunningReleased);
    }

    method HeartbeatPermit(id: Id, now: int) returns (alive: bool)
      requires Valid()
      modifies this
      ensures Valid() && disposed == old(disposed)
      ensures (View(), alive) == Heartbeat(old(View()), id, now)
    {
      hide Inv, Elems;
      HeartbeatInv(options, View(), id, now);
      if disposed || id !in permits || permits[id].status != Queued || now >= permits[id].expiresAt {
        return false;
      }
      permits := permits[id := permits[id].(heartbeatAt := now)];
      return true;
    }

    method ReclaimStaleGeneration(session: Id, current: Id, now: int) returns (reclaimed: nat)
      requires Valid()
      modifies this
      ensures Valid() && disposed == old(disposed)
      ensures (View(), reclaimed) == Reclaim(options, old(View()), session, current, now)
    {
      hide Inv, Cancel;
      var keys := order;
      reclaimed := 0;
      ghost var whole := ReclaimKeys(options, View(), keys, session, current, now);
      assert keys[0..] == keys;
      for i := 0 to |keys|
        invariant Valid() && disposed == old(disposed)
        invariant ReclaimKeys(options, View(), keys[i..], session, current, now).0 == whole.0
        invariant reclaimed + ReclaimKeys(options, View(), keys[i..], session, current, now).1 == whole.1
      {
        assert keys[i..][0] == keys[i] && keys[i..][1..] == keys[i + 1..];
        if keys[i] in permits && permits[keys[i]].session == session && permits[keys[i]].generation != current {
          var answer := CancelPermit(keys[i], now);
          reclaimed := reclaimed + 1;
        }
      }
    }

    method Dispose()
      modifies this
      requires Valid()
      ensures Valid() && disposed && View() == Init
    {
      assert options.Valid();
      hide Inv;
      EmptyInv(options);
      disposed := true;
      permits, order, queue, recentlySettled, recentlySettledOrder := map[], [], [], {}, [];
    }

    /** Only what another coordinator exported in a valid state may be restored. */
    method RestoreState(saved: Saved, ghost exported: State, now: int)
      requires Valid() && !disposed && Inv(options, exported) && saved == Export(exported)
      modifies this
      ensures Valid() && !disposed
      ensures View() == Restore(options, old(recentlySettledOrder), saved, now)
    {
      hide Inv, Elems;
      RestoredInv(options, exported, View());
      LoadPermits(saved);
      SweepAll(now);
    }

    method LoadPermits(saved: Saved)
      modifies this`permits, this`order, this`queue
      ensures permits == saved.permits && order == saved.order
      ensures queue == Keep(saved.order, QueuedIds(saved.permits))
    {
      permits, order, queue := saved.permits, [], [];
      for i := 0 to |saved.order|
        invariant permits == saved.permits && order == saved.order[..i]
        invariant queue == Keep(saved.order[..i], QueuedIds(saved.permits))
      {
        var id := saved.order[i];
        assert saved.order[..i + 1] == saved.order[..i] + [id];
        KeepConcat(saved.order[..i], [id], QueuedIds(saved.permits));
        order := order + [id];
        if id in permits && permits[id].status == Queued {
          queue := queue + [id];
        }
      }
      assert saved.order[..|saved.order|] == saved.order;
    }
  }

  /** What is rebuilt from an export satisfies the invariant, whatever the restoring process remembers. */
  lemma RestoredInv(o: Options, exported: State, own: State)
    requires Inv(o, exported) && Inv(o, own)
    ensures Inv(o, State(exported.permits, exported.order, Keep(exported.order, QueuedIds(exported.permits)), own.settled))
  {
    HeldAre(exported);
    AlignedFrom(exported.(settled := own.settled), Held(exported));
  }

  lemma EmptyInv(o: Options)
    requires o.Valid()
    ensures Inv(o, Init)
  {
  }

  lemma MemberElems(s: seq<Id>, id: Id)
    ensures id in Elems(s) <==> id in s
  {
  }

  lemma ElemsAppend(s: seq<Id>, id: Id)
    requires NoDup(s) && id !in s
    ensures NoDup(s + [id]) && Elems(s + [id]) == Elems(s) + {id}
  {
  }

  lemma ElemsDropFirst(s: seq<Id>)
    requires NoDup(s) && s != []
    ensures NoDup(s[1..]) && Elems(s[1..]) == Elems(s) - {s[0]}
  {
    assert forall x :: x in s <==> x == s[0] || x in s[1..];
    assert s[0] !in s[1..];
  }

  lemma SettledBound(s: State)
    requires Aligned(s)
    ensures |s.settled| <= MAX_RECENTLY_SETTLED && NoDup(s.settled)
  {
  }
}
