/**
  The trigger dry run over many polls, with a clock that does not run backwards. No day has more triggers
  than its cap, whatever the policy. Triggers of one target keep their distance, although the cooldown
  table is truncated, as long as the cap times the days a cooldown can touch is small enough; module
  TriggerLimits shows that the bound is exact.
 */
module TriggerRuns {
  import opened Common
  import opened Sorting
  import opened TriggerModel
  import opened TriggerReader
  import opened TriggerWriter

  // ---------------------------------------------------------------- the history of triggers

  function Triggers(created: seq<Candidate>): seq<Cooldown> {
    if created == [] then []
    else (if created[0].wouldTrigger && created[0].targetKey.Some? then [Cooldown(created[0].targetKey.value, created[0].evaluatedAt)] else [])
         + Triggers(created[1..])
  }

  function Count(h: seq<Cooldown>, day: int): nat {
    if h == [] then 0 else (if UtcDay(h[0].last) == day then 1 else 0) + Count(h[1..], day)
  }

  /** The latest trigger of a target. */
  function Latest(h: seq<Cooldown>, key: Route): Option<int> {
    if h == [] then None
    else if h[|h| - 1].key == key then Some(h[|h| - 1].last)
    else Latest(h[..|h| - 1], key)
  }

  ghost predicate Chronological(h: seq<Cooldown>, now: int) {
    && (forall i :: 0 <= i < |h| ==> 1 <= h[i].last <= now)
    && (forall i, j :: 0 <= i < j < |h| ==> h[i].last <= h[j].last)
  }

  /** Two triggers of one target are at least the cooldown apart. */
  ghost predicate Spaced(h: seq<Cooldown>, p: Policy) {
    forall i, j :: 0 <= i < j < |h| && h[i].key == h[j].key ==> h[i].last + p.cooldown <= h[j].last
  }

  ghost predicate Capped(h: seq<Cooldown>, p: Policy) {
    forall day :: Count(h, day) <= p.dailyCap
  }

  lemma {:induction false} CountAppend(h: seq<Cooldown>, x: Cooldown, day: int)
    ensures Count(h + [x], day) == Count(h, day) + (if UtcDay(x.last) == day then 1 else 0)
  {
    if h == [] {
      assert h + [x] == [x];
    } else {
      assert (h + [x])[1..] == h[1..] + [x];
      CountAppend(h[1..], x, day);
    }
  }

  lemma {:induction false} LatestBounds(h: seq<Cooldown>, key: Route, now: int)
    requires Chronological(h, now)
    ensures Latest(h, key).Some? ==> Cooldown(key, Latest(h, key).value) in h
    ensures forall i :: 0 <= i < |h| && h[i].key == key ==> Latest(h, key).Some? && h[i].last <= Latest(h, key).value
  {
    if h != [] && h[|h| - 1].key != key {
      LatestBounds(h[..|h| - 1], key, now);
    }
  }

  lemma LatestAppend(h: seq<Cooldown>, x: Cooldown, key: Route)
    ensures Latest(h + [x], key) == if x.key == key then Some(x.last) else Latest(h, key)
  {
    assert (h + [x])[..|h|] == h;
  }

  // ---------------------------------------------------------------- one candidate

  /** What a candidate that would trigger tells: it passed its target's cooldown and the day's cap. */
  lemma TriggerPassedItsGates(d: Decision, p: Policy, at: int, last: Option<int>, today: int)
    requires EvaluateCandidate(d, p, at, last, today).Some? && EvaluateCandidate(d, p, at, last, today).value.wouldTrigger
    ensures var c := EvaluateCandidate(d, p, at, last, today).value;
            && c.targetKey.Some? && c.targetKey == ProposeRoute(d) && c.evaluatedAt == at && today < p.dailyCap
            && (last.Some? ==> at >= SafeAdd(last.value, p.cooldown))
  {
    GatesAre(d, p, at, last, today);
    hide Gates, SafeAdd;
  }

  lemma OneTrigger(c: Candidate)
    ensures Triggers([c]) == if c.wouldTrigger && c.targetKey.Some? then [Cooldown(c.targetKey.value, c.evaluatedAt)] else []
  {
    assert [c][1..] == [];
  }

  lemma {:induction false} TriggersConcat(a: seq<Candidate>, b: seq<Candidate>)
    ensures Triggers(a + b) == Triggers(a) + Triggers(b)
  {
    if a == [] {
      assert a + b == b;
    } else {
      assert (a + b)[1..] == a[1..] + b;
      TriggersConcat(a[1..], b);
    }
  }

  lemma Glue(a: seq<Candidate>, b: seq<Candidate>, c: seq<Candidate>)
    requires |a| <= |b| <= |c| && b[..|a|] == a && c[..|b|] == b
    ensures c[..|a|] == a && c[|a|..] == b[|a|..] + c[|b|..]
  {
  }

  lemma GlueHistory(h: seq<Cooldown>, a: seq<Cooldown>, b: seq<Cooldown>)
    ensures h + a + b == h + (a + b)
  {
  }

  // ---------------------------------------------------------------- the daily cap

  ghost predicate NotAfter(h: seq<Cooldown>, day: int) {
    forall i :: 0 <= i < |h| ==> UtcDay(h[i].last) <= day
  }

  /** In the middle of a poll at `at`, today's counter is the number of triggers today. */
  ghost predicate Tallied(w: Work, h: seq<Cooldown>, p: Policy, at: int) {
    Capped(h, p) && NotAfter(h, UtcDay(at)) && w.today.wouldTrigger == Count(h, UtcDay(at))
  }

  lemma AppendTally(h: seq<Cooldown>, x: Cooldown, p: Policy, at: int)
    requires Capped(h, p) && NotAfter(h, UtcDay(at)) && x.last == at && Count(h, UtcDay(at)) < p.dailyCap
    ensures Capped(h + [x], p) && NotAfter(h + [x], UtcDay(at)) && Count(h + [x], UtcDay(at)) == Count(h, UtcDay(at)) + 1
  {
    forall day ensures Count(h + [x], day) == Count(h, day) + (if UtcDay(at) == day then 1 else 0) {
      CountAppend(h, x, day);
    }
  }

  /** How one more decision changes the work: the candidate it creates, if any, and what that triggers. */
  lemma ConsiderTally(w: Work, d: Decision, p: Policy, at: int, h: seq<Cooldown>)
    requires Tallied(w, h, p, at) && Consider(w, d, p, at).Some?
    ensures var w' := Consider(w, d, p, at).value;
            && |w.created| <= |w'.created| && w'.created[..|w.created|] == w.created
            && Tallied(w', h + Triggers(w'.created[|w.created|..]), p, at)
  {
    hide Capped, NotAfter, EvaluateCandidate, Count;
    var w' := Consider(w, d, p, at).value;
    assert h + [] == h;
    if CandidateId(d.id) in w.known {
      assert w'.created[|w.created|..] == [];
    } else {
      var key := ProposeRoute(d);
      var last := if key.Some? then LastTrigger(w.cooldowns, key.value) else None;
      var c := EvaluateCandidate(d, p, at, last, w.today.wouldTrigger).value;
      assert w'.created[|w.created|..] == [c];
      OneTrigger(c);
      if c.wouldTrigger {
        TriggerPassedItsGates(d, p, at, last, w.today.wouldTrigger);
        AppendTally(h, Cooldown(key.value, at), p, at);
      }
    }
  }

  lemma {:induction false} ConsiderAllTally(w: Work, ds: seq<Decision>, p: Policy, at: int, h: seq<Cooldown>)
    requires Tallied(w, h, p, at) && ConsiderAll(w, ds, p, at).Some?
    ensures var w' := ConsiderAll(w, ds, p, at).value;
            && |w.created| <= |w'.created| && w'.created[..|w.created|] == w.created
            && Tallied(w', h + Triggers(w'.created[|w.created|..]), p, at)
    decreases |ds|
  {
    hide Tallied, Consider;
    if ds == [] {
      assert w.created[|w.created|..] == [];
      assert h + [] == h;
    } else {
      var w1 := Consider(w, ds[0], p, at).value;
      ConsiderTally(w, ds[0], p, at, h);
      var h1 := h + Triggers(w1.created[|w.created|..]);
      ConsiderAllTally(w1, ds[1..], p, at, h1);
      var w' := ConsiderAll(w1, ds[1..], p, at).value;
      Glue(w.created, w1.created, w'.created);
      TriggersConcat(w1.created[|w.created|..], w'.created[|w1.created|..]);
      GlueHistory(h, Triggers(w1.created[|w.created|..]), Triggers(w'.created[|w1.created|..]));
    }
  }

  /** Between polls, after one at `now`: the table of days ends with today, and counts its triggers. */
  ghost predicate DaysBetween(days: seq<DayState>, h: seq<Cooldown>, p: Policy, now: int) {
    && Capped(h, p) && NotAfter(h, UtcDay(now))
    && UniqueBy(days, DayKey) && (forall x :: x in days ==> x.day <= UtcDay(now))
    && (match DayAggregate(days, UtcDay(now))
        case Some(a) => a.wouldTrigger == Count(h, UtcDay(now))
        case None => Count(h, UtcDay(now)) == 0)
  }

  lemma {:induction false} NoneLater(h: seq<Cooldown>, day: int)
    requires forall i :: 0 <= i < |h| ==> UtcDay(h[i].last) < day
    ensures Count(h, day) == 0
  {
    if h != [] {
      NoneLater(h[1..], day);
    }
  }

  lemma {:induction false} NoSuchDay(days: seq<DayState>, day: int)
    requires forall x :: x in days ==> x.day != day
    ensures DayAggregate(days, day).None?
  {
    if days != [] {
      assert days[0] in days;
      NoSuchDay(days[1..], day);
    }
  }

  lemma BeginTally(s: DryRun, h: seq<Cooldown>, p: Policy, now: int, at: int)
    requires DaysBetween(s.days, h, p, now) && now <= at
    ensures Tallied(Begin(s, at), h, p, at)
  {
    DayMonotone(now, at);
    if UtcDay(now) < UtcDay(at) {
      NoSuchDay(s.days, UtcDay(at));
      NoneLater(h, UtcDay(at));
    }
  }

  lemma DayMonotone(a: int, b: int)
    requires a <= b
    ensures UtcDay(a) <= UtcDay(b)
  {
  }

  /** Today is the latest day, so it survives the truncation of the day table. */
  lemma TodayStays(days: seq<DayState>, day: int, a: Aggregate)
    requires UniqueBy(days, DayKey) && forall x :: x in days ==> x.day <= day
    ensures var r := Take(Sort(SetDay(days, day, a), LatestDayFirst()), MAX_DAYS);
            && UniqueBy(r, DayKey) && (forall x :: x in r ==> x.day <= day) && DayAggregate(r, day) == Some(a)
  {
    var all := SetDay(days, day, a);
    SetDayKeeps(days, day, a);
    SortElems(all, LatestDayFirst());
    SortUniqueBy(all, LatestDayFirst(), DayKey);
    Preorders();
    SortSorts(all, LatestDayFirst());
    var full := Sort(all, LatestDayFirst());
    var r := Take(full, MAX_DAYS);
    TakeFacts(full, MAX_DAYS);
    hide Sort, SetDay;
    assert DayState(day, a) in all && DayState(day, a) in full;
    var k :| 0 <= k < |full| && full[k] == DayState(day, a);
    forall x | x in full ensures x.day <= day {
      assert x in all;
    }
    LatestIsFirst(full, day, k);
    assert r[0] == full[0];
    forall x | x in r ensures x.day <= day {
      var i :| 0 <= i < |r| && r[i] == x;
      assert x in full && x in all;
    }
    forall i, j | 0 <= i < j < |r| ensures DayKey(r[i]) != DayKey(r[j]) {
      assert DayKey(full[i]) != DayKey(full[j]);
    }
  }

  lemma LatestIsFirst(full: seq<DayState>, day: int, k: nat)
    requires Sorted(full, LatestDayFirst()) && UniqueBy(full, DayKey) && k < |full| && full[k].day == day
    requires forall x :: x in full ==> x.day <= day
    ensures k == 0
  {
    var first := full[0];
    assert first in full;
    assert forall j :: 0 < j < |full| ==> LatestDayFirst()(first, full[j]) && DayKey(first) != DayKey(full[j]);
  }

  lemma RecordDays(s: DryRun, h: seq<Cooldown>, p: Policy, now: int, ds: seq<Decision>, at: int, maxStored: nat)
    requires DaysBetween(s.days, h, p, now) && now <= at && Record(s, ds, p, at, maxStored).Some?
    ensures var (s', created) := Record(s, ds, p, at, maxStored).value;
            DaysBetween(s'.days, h + Triggers(created), p, at)
  {
    var w0 := Begin(s, at);
    BeginTally(s, h, p, now, at);
    ConsiderAllTally(w0, ds, p, at, h);
    var w := ConsiderAll(w0, ds, p, at).value;
    assert w.created[|w0.created|..] == w.created;
    DayMonotone(now, at);
    TodayStays(s.days, UtcDay(at), w.today);
    hide Sort, Take, Live, SetDay, ConsiderAll, Capped;
  }

  datatype Batch = Batch(decisions: seq<Decision>, at: int, maxStored: nat)

  /** A poll that throws leaves the stored state as it was. */
  function Next(s: DryRun, h: seq<Cooldown>, p: Policy, b: Batch): (DryRun, seq<Cooldown>) {
    match Record(s, b.decisions, p, b.at, b.maxStored)
    case Some(r) => (r.0, h + Triggers(r.1))
    case None => (s, h)
  }

  function RunBatches(s: DryRun, h: seq<Cooldown>, p: Policy, run: seq<Batch>): (DryRun, seq<Cooldown>)
    decreases |run|
  {
    if run == [] then (s, h)
    else var (s', h') := Next(s, h, p, run[0]); RunBatches(s', h', p, run[1..])
  }

  /** The clock does not run backwards. */
  ghost predicate Forward(now: int, run: seq<Batch>) {
    && (forall i :: 0 <= i < |run| ==> now <= run[i].at)
    && (forall i, j :: 0 <= i < j < |run| ==> run[i].at <= run[j].at)
  }

  lemma {:induction false} RunDays(s: DryRun, h: seq<Cooldown>, p: Policy, now: int, run: seq<Batch>)
    requires DaysBetween(s.days, h, p, now) && Forward(now, run)
    ensures Capped(RunBatches(s, h, p, run).1, p)
    decreases |run|
  {
    hide Record;
    if run != [] {
      var b := run[0];
      var (s', h') := Next(s, h, p, b);
      assert Forward(if Record(s, b.decisions, p, b.at, b.maxStored).Some? then b.at else now, run[1..]);
      if Record(s, b.decisions, p, b.at, b.maxStored).Some? {
        RecordDays(s, h, p, now, b.decisions, b.at, b.maxStored);
        hide DaysBetween, Capped;
        RunDays(s', h', p, b.at, run[1..]);
      } else {
        hide DaysBetween, Capped;
        RunDays(s, h, p, now, run[1..]);
      }
    }
  }

  /** Over any sequence of polls and for any policy, no UTC day has more triggers than the daily cap. */
  lemma DayCapAlwaysHolds(p: Policy, now: int, run: seq<Batch>)
    requires p.dailyCap >= 0 && Forward(now, run)
    ensures Capped(RunBatches(EmptyDryRun(p), [], p, run).1, p)
  {
    RunDays(EmptyDryRun(p), [], p, now, run);
  }

  // ---------------------------------------------------------------- how many triggers a cooldown can see

  /** How many triggers fall on the `n` days from `day` on. */
  function CountDays(h: seq<Cooldown>, day: int, n: nat): nat {
    if n == 0 then 0 else Count(h, day + n - 1) + CountDays(h, day, n - 1)
  }

  lemma {:induction false} CountDaysCons(x: Cooldown, h: seq<Cooldown>, day: int, n: nat)
    ensures CountDays([x] + h, day, n) == CountDays(h, day, n) + (if day <= UtcDay(x.last) < day + n then 1 else 0)
  {
    if n > 0 {
      CountDaysCons(x, h, day, n - 1);
      assert ([x] + h)[1..] == h;
    }
  }

  lemma {:induction false} CountDaysBound(h: seq<Cooldown>, day: int, n: nat, p: Policy)
    requires Capped(h, p) && p.dailyCap >= 0
    ensures CountDays(h, day, n) <= p.dailyCap * n
  {
    if n > 0 {
      CountDaysBound(h, day, n - 1, p);
      Distributes(p.dailyCap, n);
    }
  }

  lemma Distributes(a: int, n: nat)
    requires n > 0
    ensures a * n == a * (n - 1) + a
  {
  }

  /** Triggers since `since`, that moment included. */
  function Recent(h: seq<Cooldown>, since: int): seq<Cooldown> {
    if h == [] then [] else (if h[0].last >= since then [h[0]] else []) + Recent(h[1..], since)
  }

  lemma {:induction false} RecentAre(h: seq<Cooldown>, since: int)
    ensures forall x :: x in Recent(h, since) <==> x in h && x.last >= since
  {
    if h != [] {
      RecentAre(h[1..], since);
      assert forall x :: x in h <==> x == h[0] || x in h[1..];
    }
  }

  lemma {:induction false} RecentAppend(h: seq<Cooldown>, x: Cooldown, since: int)
    ensures |Recent(h + [x], since)| == |Recent(h, since)| + (if x.last >= since then 1 else 0)
  {
    if h == [] {
      assert h + [x] == [x];
    } else {
      assert (h + [x])[1..] == h[1..] + [x];
      RecentAppend(h[1..], x, since);
    }
  }

  lemma {:induction false} RecentBound(h: seq<Cooldown>, since: int, now: int)
    requires forall i :: 0 <= i < |h| ==> h[i].last <= now
    requires since <= now
    ensures |Recent(h, since)| <= CountDays(h, UtcDay(since), UtcDay(now) - UtcDay(since) + 1)
  {
    if h != [] {
      RecentBound(h[1..], since, now);
      assert h == [h[0]] + h[1..];
      CountDaysCons(h[0], h[1..], UtcDay(since), UtcDay(now) - UtcDay(since) + 1);
    }
  }

  lemma DistinctFit(small: seq<Cooldown>, big: seq<Cooldown>)
    requires UniqueKeys(small) && forall x :: x in small ==> x in big
    ensures |small| <= |big|
  {
    assert NoDup(small);
    ElemsSize(small);
    ElemsBound(big);
    assert Elems(small) <= Elems(big);
    SubsetSize(Elems(small), Elems(big));
  }

  /** The most UTC days that the milliseconds of one cooldown can touch. */
  function DaysTouched(p: Policy): int {
    (p.cooldown - 2) / DAY_MS + 2
  }

  /** The most triggers that can fall within one cooldown. */
  function Crowd(p: Policy): int {
    p.dailyCap * DaysTouched(p)
  }

  lemma LessDays(cap: int, n: int, m: int)
    requires 0 <= cap && n <= m
    ensures cap * n <= cap * m
  {
  }

  lemma Spans(p: Policy, at: int, since: int)
    requires at - p.cooldown < since <= at && p.cooldown >= 2
    ensures 1 <= UtcDay(at) - UtcDay(since) + 1 <= DaysTouched(p)
  {
  }

  /** Triggers younger than one cooldown: at most the crowd, and fewer by what is left of today's cap. */
  lemma RecentCrowd(h: seq<Cooldown>, p: Policy, at: int, since: int)
    requires ValidPolicy(p) && Capped(h, p) && (forall i :: 0 <= i < |h| ==> h[i].last <= at)
    requires at - p.cooldown < since <= at
    ensures |Recent(h, since)| <= Crowd(p) - (p.dailyCap - Count(h, UtcDay(at)))
  {
    var n := UtcDay(at) - UtcDay(since) + 1;
    Spans(p, at, since);
    RecentBound(h, since, at);
    CountDaysBound(h, UtcDay(since), n - 1, p);
    LessDays(p.dailyCap, n, DaysTouched(p));
    Distributes(p.dailyCap, n);
    assert CountDays(h, UtcDay(since), n) == Count(h, UtcDay(at)) + CountDays(h, UtcDay(since), n - 1);
  }

  // ---------------------------------------------------------------- what the cooldown table remembers

  /** The table has given this trigger up for want of room: as many as fill it have come since. */
  ghost predicate CrowdedOut(h: seq<Cooldown>, last: int) {
    |Recent(h, last)| > MAX_COOLDOWNS
  }

  /** The table holds nothing but latest triggers, and those of all targets still cooling down, unless crowded out. */
  ghost predicate Recalls(cooldowns: seq<Cooldown>, h: seq<Cooldown>, p: Policy, now: int) {
    && UniqueKeys(cooldowns)
    && (forall x :: x in cooldowns ==> Latest(h, x.key) == Some(x.last))
    && (forall k :: Latest(h, k).Some? && now < Latest(h, k).value + p.cooldown ==>
          Cooldown(k, Latest(h, k).value) in cooldowns || CrowdedOut(h, Latest(h, k).value))
  }

  ghost predicate Ordinary(p: Policy, at: int) {
    ValidPolicy(p) && 1 <= at && ValidDayName(UtcDay(at))
  }

  lemma NoClamp(p: Policy, at: int, last: int)
    requires Ordinary(p, at) && last <= at
    ensures SafeAdd(last, p.cooldown) == last + p.cooldown
  {
  }

  /** No more than 2,001 triggers fit into one cooldown: the table's 2,000 and the one that would repeat. */
  ghost predicate TableSuffices(p: Policy) {
    Crowd(p) <= MAX_COOLDOWNS + 1
  }

  lemma AppendRecalls(cs: seq<Cooldown>, h: seq<Cooldown>, key: Route, p: Policy, at: int)
    requires Recalls(cs, h, p, at) && InRange(cs) && Within(at, 1, MAX_SAFE)
    ensures Recalls(SetTrigger(cs, key, at), h + [Cooldown(key, at)], p, at)
  {
    var x := Cooldown(key, at);
    SetTriggerKeeps(cs, key, at);
    forall k ensures Latest(h + [x], k) == if k == key then Some(at) else Latest(h, k) {
      LatestAppend(h, x, k);
    }
    forall last ensures CrowdedOut(h, last) ==> CrowdedOut(h + [x], last) {
      RecentAppend(h, x, last);
    }
    hide Latest, CrowdedOut;
  }

  /** If the table's entry no longer gates a target and today has room, its latest trigger is a cooldown ago. */
  lemma PassedCooldown(cs: seq<Cooldown>, h: seq<Cooldown>, key: Route, p: Policy, at: int)
    requires Recalls(cs, h, p, at) && Chronological(h, at) && Ordinary(p, at) && TableSuffices(p)
    requires Capped(h, p) && Count(h, UtcDay(at)) < p.dailyCap
    requires LastTrigger(cs, key).Some? ==> at >= SafeAdd(LastTrigger(cs, key).value, p.cooldown)
    ensures Latest(h, key).Some? ==> Latest(h, key).value + p.cooldown <= at
    ensures Within(at, 1, MAX_SAFE)
  {
    LastTriggerFinds(cs, key);
    LatestBounds(h, key, at);
    if Latest(h, key).Some? && at < Latest(h, key).value + p.cooldown {
      var last := Latest(h, key).value;
      NoClamp(p, at, last);
      RecentCrowd(h, p, at, last);
    }
  }

  lemma SetTriggerKeepsRange(cs: seq<Cooldown>, key: Route, at: int, p: Policy)
    requires UniqueKeys(cs) && InRange(cs) && Ordinary(p, at)
    ensures InRange(SetTrigger(cs, key, at)) && Within(at, 1, MAX_SAFE)
  {
    SetTriggerKeeps(cs, key, at);
  }

  /** In the middle of a poll at `at`. */
  ghost predicate Midway(w: Work, h: seq<Cooldown>, p: Policy, at: int) {
    && Tallied(w, h, p, at) && Chronological(h, at) && Spaced(h, p)
    && Recalls(w.cooldowns, h, p, at) && InRange(w.cooldowns)
  }

  lemma AppendSpaced(h: seq<Cooldown>, key: Route, p: Policy, at: int)
    requires Chronological(h, at) && Spaced(h, p) && at >= 1
    requires Latest(h, key).Some? ==> Latest(h, key).value + p.cooldown <= at
    ensures Chronological(h + [Cooldown(key, at)], at) && Spaced(h + [Cooldown(key, at)], p)
  {
    LatestBounds(h, key, at);
  }

  lemma ConsiderMidway(w: Work, d: Decision, p: Policy, at: int, h: seq<Cooldown>)
    requires Midway(w, h, p, at) && Ordinary(p, at) && TableSuffices(p) && Consider(w, d, p, at).Some?
    ensures var w' := Consider(w, d, p, at).value;
            && |w.created| <= |w'.created| && w'.created[..|w.created|] == w.created
            && Midway(w', h + Triggers(w'.created[|w.created|..]), p, at)
  {
    hide Tallied, Chronological, Spaced, Recalls, InRange, Ordinary, TableSuffices, EvaluateCandidate, Count;
    ConsiderTally(w, d, p, at, h);
    var w' := Consider(w, d, p, at).value;
    assert h + [] == h;
    if CandidateId(d.id) in w.known {
      assert w'.created[|w.created|..] == [];
    } else {
      var key := ProposeRoute(d);
      var last := if key.Some? then LastTrigger(w.cooldowns, key.value) else None;
      var c := EvaluateCandidate(d, p, at, last, w.today.wouldTrigger).value;
      assert w'.created[|w.created|..] == [c];
      OneTrigger(c);
      if c.wouldTrigger {
        TriggerPassedItsGates(d, p, at, last, w.today.wouldTrigger);
        TriggerMidway(w, key.value, p, at, h);
      }
    }
  }

  /** A candidate that triggers joins the history and the cooldown table. */
  lemma TriggerMidway(w: Work, key: Route, p: Policy, at: int, h: seq<Cooldown>)
    requires Midway(w, h, p, at) && Ordinary(p, at) && TableSuffices(p) && w.today.wouldTrigger < p.dailyCap
    requires LastTrigger(w.cooldowns, key).Some? ==> at >= SafeAdd(LastTrigger(w.cooldowns, key).value, p.cooldown)
    ensures var cs, h' := SetTrigger(w.cooldowns, key, at), h + [Cooldown(key, at)];
            Chronological(h', at) && Spaced(h', p) && Recalls(cs, h', p, at) && InRange(cs)
  {
    hide Chronological, Spaced, Recalls, InRange, Capped, Latest;
    PassedCooldown(w.cooldowns, h, key, p, at);
    AppendSpaced(h, key, p, at);
    AppendRecalls(w.cooldowns, h, key, p, at);
    assert UniqueKeys(w.cooldowns) by { RecallsUnique(w.cooldowns, h, p, at); }
    SetTriggerKeepsRange(w.cooldowns, key, at, p);
  }

  lemma RecallsUnique(cs: seq<Cooldown>, h: seq<Cooldown>, p: Policy, at: int)
    requires Recalls(cs, h, p, at)
    ensures UniqueKeys(cs)
  {
  }

  lemma {:induction false} ConsiderAllMidway(w: Work, ds: seq<Decision>, p: Policy, at: int, h: seq<Cooldown>)
    requires Midway(w, h, p, at) && Ordinary(p, at) && TableSuffices(p) && ConsiderAll(w, ds, p, at).Some?
    ensures var w' := ConsiderAll(w, ds, p, at).value;
            && |w.created| <= |w'.created| && w'.created[..|w.created|] == w.created
            && Midway(w', h + Triggers(w'.created[|w.created|..]), p, at)
    decreases |ds|
  {
    hide Midway, Consider, Ordinary, TableSuffices;
    if ds == [] {
      assert w.created[|w.created|..] == [];
      assert h + [] == h;
    } else {
      var w1 := Consider(w, ds[0], p, at).value;
      ConsiderMidway(w, ds[0], p, at, h);
      var h1 := h + Triggers(w1.created[|w.created|..]);
      ConsiderAllMidway(w1, ds[1..], p, at, h1);
      var w' := ConsiderAll(w1, ds[1..], p, at).value;
      Glue(w.created, w1.created, w'.created);
      TriggersConcat(w1.created[|w.created|..], w'.created[|w1.created|..]);
      GlueHistory(h, Triggers(w1.created[|w.created|..]), Triggers(w'.created[|w1.created|..]));
    }
  }

  // ---------------------------------------------------------------- truncation

  /** An entry cut off the sorted table has at least as many later ones before it as the table holds. */
  lemma CutOffIsCrowdedOut(sorted: seq<Cooldown>, h: seq<Cooldown>, x: Cooldown)
    requires Sorted(sorted, LatestTriggerFirst()) && UniqueKeys(sorted) && (forall y :: y in sorted ==> y in h)
    requires x in sorted && x !in Take(sorted, MAX_COOLDOWNS)
    ensures CrowdedOut(h, x.last)
  {
    var i :| 0 <= i < |sorted| && sorted[i] == x;
    var kept := Take(sorted, MAX_COOLDOWNS);
    assert forall j :: 0 <= j < |kept| ==> kept[j] in kept && kept[j] == sorted[j];
    var front := sorted[..i + 1];
    RecentAre(h, x.last);
    forall y | y in front ensures y in Recent(h, x.last) {
      var j :| 0 <= j < |front| && front[j] == y;
      assert sorted[j] == y && y in sorted;
      assert j < i ==> LatestTriggerFirst()(sorted[j], sorted[i]);
    }
    DistinctFit(front, Recent(h, x.last));
  }

  /** A sorted and truncated table of the live entries still recalls everything but what is crowded out. */
  lemma SettledRecalls(cs: seq<Cooldown>, h: seq<Cooldown>, p: Policy, at: int)
    requires Recalls(cs, h, p, at) && Chronological(h, at) && Ordinary(p, at)
    ensures Recalls(Take(Sort(Live(cs, p, at), LatestTriggerFirst()), MAX_COOLDOWNS), h, p, at)
  {
    var live := Live(cs, p, at);
    LiveAre(cs, p, at);
    assert UniqueBy(live, TargetOf);
    SortUniqueBy(live, LatestTriggerFirst(), TargetOf);
    SortElems(live, LatestTriggerFirst());
    Preorders();
    SortSorts(live, LatestTriggerFirst());
    var full := Sort(live, LatestTriggerFirst());
    var r := Take(full, MAX_COOLDOWNS);
    TakeFacts(full, MAX_COOLDOWNS);
    hide Sort, Live, Take, CrowdedOut;
    forall i, j | 0 <= i < j < |full| ensures full[i].key != full[j].key {
      assert TargetOf(full[i]) != TargetOf(full[j]);
    }
    forall x | x in full ensures Latest(h, x.key) == Some(x.last) && x in h {
      assert x in live && x in cs;
      LatestBounds(h, x.key, at);
      assert x == Cooldown(x.key, x.last);
    }
    forall k | Latest(h, k).Some? && at < Latest(h, k).value + p.cooldown
      ensures Cooldown(k, Latest(h, k).value) in r || CrowdedOut(h, Latest(h, k).value)
    {
      var x := Cooldown(k, Latest(h, k).value);
      LatestBounds(h, k, at);
      NoClamp(p, at, x.last);
      if x in cs {
        assert x in live && x in full;
        if x !in r {
          CutOffIsCrowdedOut(full, h, x);
        }
      }
    }
    forall x | x in r ensures x in full {
      var i :| 0 <= i < |r| && r[i] == x;
    }
  }

  /** Between polls, after one at `now`. */
  ghost predicate Between(s: DryRun, h: seq<Cooldown>, p: Policy, now: int) {
    && DaysBetween(s.days, h, p, now) && Chronological(h, now) && Spaced(h, p)
    && Recalls(s.cooldowns, h, p, now) && InRange(s.cooldowns)
  }

  lemma BeginMidway(s: DryRun, h: seq<Cooldown>, p: Policy, now: int, at: int)
    requires Between(s, h, p, now) && now <= at
    ensures Midway(Begin(s, at), h, p, at)
  {
    hide CrowdedOut, Latest;
    BeginTally(s, h, p, now, at);
  }

  lemma RecordBetween(s: DryRun, h: seq<Cooldown>, p: Policy, now: int, ds: seq<Decision>, at: int, maxStored: nat)
    requires Between(s, h, p, now) && now <= at && Ordinary(p, at) && TableSuffices(p)
    requires Record(s, ds, p, at, maxStored).Some?
    ensures var (s', created) := Record(s, ds, p, at, maxStored).value;
            Between(s', h + Triggers(created), p, at)
  {
    hide DaysBetween, Spaced, Recalls, TableSuffices, Tallied;
    var w0 := Begin(s, at);
    BeginMidway(s, h, p, now, at);
    ConsiderAllMidway(w0, ds, p, at, h);
    RecordDays(s, h, p, now, ds, at, maxStored);
    var w := ConsiderAll(w0, ds, p, at).value;
    assert w.created[|w0.created|..] == w.created;
    var h' := h + Triggers(w.created);
    RecallsUnique(w.cooldowns, h', p, at);
    SettledRecalls(w.cooldowns, h', p, at);
    SettledCooldowns(w.cooldowns, p, at);
    hide Sort, Take, Live, SetDay, ConsiderAll;
  }

  /** All polls happen in years of four digits, after the epoch. */
  ghost predicate OrdinaryRun(p: Policy, run: seq<Batch>) {
    forall i :: 0 <= i < |run| ==> Ordinary(p, run[i].at)
  }

  /** The moment of the last poll, or of the state before. */
  function End(now: int, run: seq<Batch>): int {
    if run == [] then now else run[|run| - 1].at
  }

  lemma {:induction false} RunBetween(s: DryRun, h: seq<Cooldown>, p: Policy, now: int, run: seq<Batch>)
    requires Between(s, h, p, now) && Forward(now, run) && OrdinaryRun(p, run) && TableSuffices(p)
    ensures var (s', h') := RunBatches(s, h, p, run);
            exists moment :: now <= moment <= End(now, run) && Between(s', h', p, moment)
    decreases |run|
  {
    hide Record, Between, TableSuffices, Ordinary;
    if run == [] {
      assert RunBatches(s, h, p, run) == (s, h);
      assert now <= now <= End(now, run) && Between(s, h, p, now);
    } else {
      var b := run[0];
      assert OrdinaryRun(p, run[1..]);
      if Record(s, b.decisions, p, b.at, b.maxStored).Some? {
        RecordBetween(s, h, p, now, b.decisions, b.at, b.maxStored);
        var (s', h') := Next(s, h, p, b);
        assert Forward(b.at, run[1..]) && End(b.at, run[1..]) == End(now, run);
        RunBetween(s', h', p, b.at, run[1..]);
        var (s2, h2) := RunBatches(s', h', p, run[1..]);
        var moment :| b.at <= moment <= End(now, run) && Between(s2, h2, p, moment);
        assert RunBatches(s, h, p, run) == (s2, h2);
      } else {
        assert Forward(now, run[1..]) && now <= End(now, run[1..]) <= End(now, run);
        RunBetween(s, h, p, now, run[1..]);
        var (s2, h2) := RunBatches(s, h, p, run[1..]);
        var moment :| now <= moment <= End(now, run[1..]) && Between(s2, h2, p, moment);
        assert RunBatches(s, h, p, run) == (s2, h2);
      }
    }
  }

  lemma EmptyBetween(p: Policy, now: int)
    requires p.dailyCap >= 0
    ensures Between(EmptyDryRun(p), [], p, now)
  {
  }

  /**
    Over any sequence of polls, if at most 2,001 triggers can fall within one cooldown: triggers of one
    target are at least the cooldown apart.
   */
  lemma TriggersAreSpaced(p: Policy, run: seq<Batch>)
    requires ValidPolicy(p) && TableSuffices(p) && Forward(1, run) && OrdinaryRun(p, run)
    ensures Spaced(RunBatches(EmptyDryRun(p), [], p, run).1, p)
  {
    EmptyBetween(p, 1);
    RunBetween(EmptyDryRun(p), [], p, 1, run);
    hide RunBatches, Spaced;
  }

  /** The policy a scout has by default, under which 16 triggers can fall within one cooldown. */
  const DEFAULT_POLICY := Policy(80, 7_200_000, 21_600_000, 8)

  lemma DefaultTriggersAreSpaced(run: seq<Batch>)
    requires Forward(1, run) && OrdinaryRun(DEFAULT_POLICY, run)
    ensures Spaced(RunBatches(EmptyDryRun(DEFAULT_POLICY), [], DEFAULT_POLICY, run).1, DEFAULT_POLICY)
  {
    assert Crowd(DEFAULT_POLICY) == 16;
    TriggersAreSpaced(DEFAULT_POLICY, run);
  }

  /** No target's latest trigger is missing from the table while it is still cooling down at `now`. */
  ghost predicate KeepsLive(cooldowns: seq<Cooldown>, h: seq<Cooldown>, p: Policy, now: int) {
    forall k :: Latest(h, k).Some? && now < Latest(h, k).value + p.cooldown ==> Cooldown(k, Latest(h, k).value) in cooldowns
  }

  lemma RecallsKeepLive(s: DryRun, h: seq<Cooldown>, p: Policy, moment: int, now: int)
    requires Between(s, h, p, moment) && moment <= now && ValidPolicy(p) && Crowd(p) <= MAX_COOLDOWNS
    ensures KeepsLive(s.cooldowns, h, p, now)
  {
    forall k | Latest(h, k).Some? && now < Latest(h, k).value + p.cooldown
      ensures Cooldown(k, Latest(h, k).value) in s.cooldowns
    {
      LatestBounds(h, k, moment);
      RecentCrowd(h, p, moment, Latest(h, k).value);
      assert Count(h, UtcDay(moment)) <= p.dailyCap;
    }
  }

  // ---------------------------------------------------------------- everything a run writes is read

  /** A decision is one the evaluator has made of some item. */
  ghost predicate Evaluated(d: Decision) {
    exists source, item, observedAt, tracked :: d == EvaluateEvent(source, item, observedAt, tracked)
  }

  ghost predicate EvaluatedRun(run: seq<Batch>) {
    forall i :: 0 <= i < |run| ==>
      run[i].maxStored <= MAX_CANDIDATES && ValidDayName(UtcDay(run[i].at))
      && forall k :: 0 <= k < |run[i].decisions| ==> Evaluated(run[i].decisions[k])
  }

  function DecisionsIn(run: seq<Batch>): nat {
    if run == [] then 0 else |run[0].decisions| + DecisionsIn(run[1..])
  }

  /** No counter exceeds `n`. */
  ghost predicate CountedTo(s: DryRun, n: int) {
    s.totals.evaluated <= n && forall x :: x in s.days ==> x.aggregate.evaluated <= n
  }

  lemma OneReason(d: Decision)
    requires Evaluated(d)
    ensures Distinct(d.reasons)
  {
    var source, item, observedAt, tracked :| d == EvaluateEvent(source, item, observedAt, tracked);
    assert |EvaluateEvent(source, item, observedAt, tracked).reasons| == 1;
  }

  lemma {:induction false} ConsiderAllAdds(w: Work, ds: seq<Decision>, p: Policy, at: int)
    requires ConsiderAll(w, ds, p, at).Some?
    ensures var w' := ConsiderAll(w, ds, p, at).value;
            w'.totals.evaluated <= w.totals.evaluated + |ds| && w'.today.evaluated <= w.today.evaluated + |ds|
    decreases |ds|
  {
    if ds != [] {
      hide EvaluateCandidate;
      var w1 := Consider(w, ds[0], p, at).value;
      assert w1.totals.evaluated <= w.totals.evaluated + 1 && w1.today.evaluated <= w.today.evaluated + 1;
      hide Consider;
      ConsiderAllAdds(w1, ds[1..], p, at);
    }
  }

  lemma {:induction false} SetDayAmong(days: seq<DayState>, day: int, a: Aggregate)
    ensures forall x :: x in SetDay(days, day, a) ==> x == DayState(day, a) || x in days
  {
    if days != [] && days[0].day != day {
      SetDayAmong(days[1..], day, a);
    }
  }

  lemma RecordCounts(s: DryRun, ds: seq<Decision>, p: Policy, at: int, maxStored: nat, n: nat)
    requires Record(s, ds, p, at, maxStored).Some? && CountedTo(s, n)
    ensures CountedTo(Record(s, ds, p, at, maxStored).value.0, n + |ds|)
  {
    var w0 := Begin(s, at);
    DayAggregateFound(s.days, UtcDay(at));
    ConsiderAllAdds(w0, ds, p, at);
    var w := ConsiderAll(w0, ds, p, at).value;
    var all := SetDay(s.days, UtcDay(at), w.today);
    SetDayAmong(s.days, UtcDay(at), w.today);
    SortElems(all, LatestDayFirst());
    TakeFacts(Sort(all, LatestDayFirst()), MAX_DAYS);
    assert w0.today.evaluated <= n;
    hide Sort, Take, SetDay, Live, ConsiderAll, Begin;
    var s' := Settle(s, w, p, at, maxStored);
    forall x | x in s'.days ensures x.aggregate.evaluated <= n + |ds| {
      var i :| 0 <= i < |s'.days| && s'.days[i] == x;
      assert x in Sort(all, LatestDayFirst()) && x in all;
    }
  }

  lemma {:induction false} RunWritten(s: DryRun, h: seq<Cooldown>, p: Policy, run: seq<Batch>, n: nat)
    requires Written(s) && ValidPolicy(p) && EvaluatedRun(run) && CountedTo(s, n) && n + DecisionsIn(run) <= MAX_SAFE
    ensures Written(RunBatches(s, h, p, run).0)
    decreases |run|
  {
    hide Written, Record, ValidPolicy, Evaluated;
    if run != [] {
      var b := run[0];
      assert EvaluatedRun(run[1..]);
      if Record(s, b.decisions, p, b.at, b.maxStored).Some? {
        forall k | 0 <= k < |b.decisions| ensures Distinct(b.decisions[k].reasons) {
          OneReason(b.decisions[k]);
        }
        assert HasRoom(s, |b.decisions|) by {
          assert forall i :: 0 <= i < |s.days| ==> s.days[i] in s.days;
        }
        WrittenStatesAreRead(s, b.decisions, p, b.at, b.maxStored);
        RecordCounts(s, b.decisions, p, b.at, b.maxStored, n);
        var (s', h') := Next(s, h, p, b);
        RunWritten(s', h', p, run[1..], n + |b.decisions|);
      } else {
        RunWritten(s, h, p, run[1..], n);
      }
    }
  }

  /**
    Whatever decisions of the evaluator a run of polls records, from the empty state on: the strict reader
    accepts the state, as long as days have four-digit years and no more decisions than a counter can count.
   */
  lemma WrittenRunsAreRead(p: Policy, run: seq<Batch>)
    requires ValidPolicy(p) && EvaluatedRun(run) && DecisionsIn(run) <= MAX_SAFE
    ensures ValidDryRun(RunBatches(EmptyDryRun(p), [], p, run).0)
  {
    hide RunBatches, ValidDryRun, EvaluatedRun, ValidPolicy, Within;
    EmptyIsWritten(p);
    RunWritten(EmptyDryRun(p), [], p, run, 0);
  }
}
