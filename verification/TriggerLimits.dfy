/**
  The bound under which the cooldown table may be truncated is exact: for every valid policy beyond it
  there is a run of polls in which the table forgets a target that is still cooling down, and one trigger
  further there is a run in which that target triggers again.
 */
module TriggerLimits {
  import opened Common
  import opened Sorting
  import opened TriggerModel
  import opened TriggerReader
  import opened TriggerWriter
  import opened TriggerRuns

  // ---------------------------------------------------------------- decisions that trigger at once

  /** A trading halt of security `symbol`, observed at `at`. */
  function Notice(symbol: Symbol, id: Id, at: int): Decision {
    Decision(id, at, None, Halt, Structured, [symbol], Some(Ticker(symbol)), Admit, 100, [StructuredHalt])
  }

  /** Halts of `n` different securities, numbered from `first`. */
  function Flood(first: nat, n: nat, at: int): seq<Decision>
    decreases n
  {
    if n == 0 then [] else [Notice(first, first, at)] + Flood(first + 1, n - 1, at)
  }

  function Burst(first: nat, n: nat, at: int): seq<Cooldown>
    decreases n
  {
    if n == 0 then [] else [Cooldown(TickerBrief(first), at)] + Burst(first + 1, n - 1, at)
  }

  lemma {:induction false} LastTriggerIn(cs: seq<Cooldown>, key: Route)
    ensures LastTrigger(cs, key).Some? ==> Cooldown(key, LastTrigger(cs, key).value) in cs
  {
    if cs != [] && cs[0].key != key {
      LastTriggerIn(cs[1..], key);
    }
  }

  lemma NoticePasses(symbol: Symbol, id: Id, p: Policy, at: int, today: int)
    requires Ordinary(p, at) && 0 <= today < p.dailyCap
    ensures var c := EvaluateCandidate(Notice(symbol, id, at), p, at, None, today);
            && c.Some? && c.value.wouldTrigger && c.value.targetKey == Some(TickerBrief(symbol))
            && c.value.evaluatedAt == at && c.value.id == id
  {
    assert Distinct([symbol]);
  }

  /** A halt under a new id, of a security the table does not know, on a day with room, triggers. */
  lemma NoticeTriggers(w: Work, symbol: Symbol, id: Id, p: Policy, at: int)
    requires Ordinary(p, at) && 0 <= w.today.wouldTrigger < p.dailyCap
    requires id !in w.known && LastTrigger(w.cooldowns, TickerBrief(symbol)).None?
    ensures var r := Consider(w, Notice(symbol, id, at), p, at);
            && r.Some? && |r.value.created| == |w.created| + 1 && r.value.created[..|w.created|] == w.created
            && Triggers(r.value.created[|w.created|..]) == [Cooldown(TickerBrief(symbol), at)]
            && r.value.today.wouldTrigger == w.today.wouldTrigger + 1
            && r.value.cooldowns == SetTrigger(w.cooldowns, TickerBrief(symbol), at)
            && r.value.known == w.known + {id} && r.value.created[|w.created|].id == id
  {
    NoticePasses(symbol, id, p, at, w.today.wouldTrigger);
    hide EvaluateCandidate, Ordinary;
    var c := EvaluateCandidate(Notice(symbol, id, at), p, at, None, w.today.wouldTrigger).value;
    var w' := Consider(w, Notice(symbol, id, at), p, at).value;
    assert w'.created[|w.created|..] == [c];
    OneTrigger(c);
  }

  /** No id and no security from `next` on has been seen. */
  ghost predicate Unseen(w: Work, next: nat) {
    && (forall id :: id in w.known ==> id < next)
    && (forall x :: x in w.cooldowns ==> x.key.TickerBrief? && x.key.symbol < next)
    && (forall i :: 0 <= i < |w.created| ==> w.created[i].id < next)
  }

  lemma {:induction false} SetTriggerAdds(cs: seq<Cooldown>, key: Route, at: int)
    ensures forall x :: x in SetTrigger(cs, key, at) ==> x == Cooldown(key, at) || x in cs
  {
    if cs != [] && cs[0].key != key {
      SetTriggerAdds(cs[1..], key, at);
    }
  }

  lemma NoticeUnseen(w: Work, first: nat, p: Policy, at: int)
    requires Ordinary(p, at) && 0 <= w.today.wouldTrigger < p.dailyCap && Unseen(w, first)
    ensures var r := Consider(w, Notice(first, first, at), p, at);
            && r.Some? && |r.value.created| == |w.created| + 1 && r.value.created[..|w.created|] == w.created
            && Triggers(r.value.created[|w.created|..]) == [Cooldown(TickerBrief(first), at)]
            && r.value.today.wouldTrigger == w.today.wouldTrigger + 1 && Unseen(r.value, first + 1)
            && (forall x :: x in r.value.cooldowns ==> x == Cooldown(TickerBrief(first), at) || x in w.cooldowns)
  {
    LastTriggerIn(w.cooldowns, TickerBrief(first));
    NoticeTriggers(w, first, first, p, at);
    SetTriggerAdds(w.cooldowns, TickerBrief(first), at);
    hide Consider, Ordinary;
    var w' := Consider(w, Notice(first, first, at), p, at).value;
    forall i | 0 <= i < |w'.created| ensures w'.created[i].id < first + 1 {
      assert i < |w.created| ==> w'.created[i] == w'.created[..|w.created|][i];
    }
  }

  lemma {:induction false} FloodTriggers(w: Work, first: nat, n: nat, p: Policy, at: int)
    requires Ordinary(p, at) && 0 <= w.today.wouldTrigger && w.today.wouldTrigger + n <= p.dailyCap && Unseen(w, first)
    ensures var r := ConsiderAll(w, Flood(first, n, at), p, at);
            && r.Some? && |w.created| <= |r.value.created| && r.value.created[..|w.created|] == w.created
            && Triggers(r.value.created[|w.created|..]) == Burst(first, n, at)
            && r.value.today.wouldTrigger == w.today.wouldTrigger + n && Unseen(r.value, first + n)
            && (forall x :: x in r.value.cooldowns ==> x in Burst(first, n, at) || x in w.cooldowns)
    decreases n
  {
    hide Consider, Unseen, Ordinary;
    if n == 0 {
      assert w.created[|w.created|..] == [];
    } else {
      var ds := Flood(first, n, at);
      assert ds[1..] == Flood(first + 1, n - 1, at);
      NoticeUnseen(w, first, p, at);
      var w1 := Consider(w, ds[0], p, at).value;
      FloodTriggers(w1, first + 1, n - 1, p, at);
      var w' := ConsiderAll(w1, ds[1..], p, at).value;
      Glue(w.created, w1.created, w'.created);
      TriggersConcat(w1.created[|w.created|..], w'.created[|w1.created|..]);
    }
  }

  // ---------------------------------------------------------------- polls that flood the table

  /** The last millisecond of the first day, and then the first of each day. */
  function Moment(day: nat): int {
    if day == 0 then DAY_MS - 1 else DAY_MS * day
  }

  lemma Moments(day: nat, later: nat)
    requires day <= later
    ensures UtcDay(Moment(day)) == day && 1 <= Moment(day) <= Moment(later)
  {
  }

  function Lesser(a: nat, b: nat): nat {
    if a < b then a else b
  }

  /** Halts of `n` more securities, as many a day as the cap allows, from `day` and `first` on. */
  function Floods(p: Policy, day: nat, first: nat, n: nat): seq<Batch>
    requires p.dailyCap > 0
    decreases n
  {
    if n == 0 then []
    else
      var m := Lesser(p.dailyCap, n);
      [Batch(Flood(first, m, Moment(day)), Moment(day), 1)] + Floods(p, day + 1, first + m, n - m)
  }

  /** After polls that flooded the table up to `day`: `h` holds one trigger each of the securities before `next`. */
  ghost predicate Flooded(s: DryRun, h: seq<Cooldown>, p: Policy, next: nat, day: int) {
    && s.policy == p && |h| == next && |s.cooldowns| <= MAX_COOLDOWNS
    && (forall i :: 0 <= i < next ==> h[i].key == TickerBrief(i) && Moment(0) <= h[i].last && UtcDay(h[i].last) <= day)
    && (forall x :: x in s.cooldowns ==> x in h)
    && (forall i :: 0 <= i < |s.candidates| ==> s.candidates[i].id < next)
    && UniqueBy(s.days, DayKey) && (forall x :: x in s.days ==> x.day <= day)
  }

  lemma {:induction false} BurstIs(first: nat, n: nat, at: int)
    ensures |Burst(first, n, at)| == n
    ensures forall i :: 0 <= i < n ==> Burst(first, n, at)[i] == Cooldown(TickerBrief(first + i), at)
    decreases n
  {
    if n > 0 {
      BurstIs(first + 1, n - 1, at);
      var b := Burst(first + 1, n - 1, at);
      assert forall i :: 0 < i < n ==> Burst(first, n, at)[i] == b[i - 1];
    }
  }

  lemma {:induction false} LiveAmong(cs: seq<Cooldown>, p: Policy, now: int)
    ensures forall x :: x in Live(cs, p, now) ==> x in cs
  {
    if cs != [] {
      LiveAmong(cs[1..], p, now);
    }
  }

  /** The three tables after a poll hold nothing that was not there or has not been created. */
  lemma SettledAmong(s: DryRun, w: Work, p: Policy, at: int, maxStored: nat)
    ensures var s' := Settle(s, w, p, at, maxStored);
            && |s'.cooldowns| <= MAX_COOLDOWNS && s'.policy == p
            && (forall x :: x in s'.cooldowns ==> x in w.cooldowns)
            && (forall x :: x in s'.candidates ==> x in w.created + s.candidates)
  {
    var cs, all := Live(w.cooldowns, p, at), w.created + s.candidates;
    LiveAmong(w.cooldowns, p, at);
    SortElems(cs, LatestTriggerFirst());
    SortElems(all, NewestFirst());
    TakeFacts(Sort(cs, LatestTriggerFirst()), MAX_COOLDOWNS);
    TakeFacts(Sort(all, NewestFirst()), maxStored);
    var s' := Settle(s, w, p, at, maxStored);
    hide Sort, Take, Live, SetDay;
    forall x | x in s'.cooldowns ensures x in w.cooldowns {
      var i :| 0 <= i < |s'.cooldowns| && s'.cooldowns[i] == x;
      assert x in Sort(cs, LatestTriggerFirst());
      assert x in cs;
    }
    forall x | x in s'.candidates ensures x in all {
      var i :| 0 <= i < |s'.candidates| && s'.candidates[i] == x;
      assert x in Sort(all, NewestFirst());
    }
  }

  lemma BeginUnseen(s: DryRun, h: seq<Cooldown>, p: Policy, next: nat, day: int, at: int)
    requires Flooded(s, h, p, next, day) && day < UtcDay(at)
    ensures Unseen(Begin(s, at), next) && Begin(s, at).today.wouldTrigger == 0
  {
    NoSuchDay(s.days, UtcDay(at));
  }

  /** What is left of the day's counter after a poll of `n` halts. */
  ghost predicate CountsToday(s: DryRun, day: int, n: int) {
    DayAggregate(s.days, day).Some? && DayAggregate(s.days, day).value.wouldTrigger == n
  }

  lemma FloodPoll(s: DryRun, h: seq<Cooldown>, p: Policy, next: nat, day: int, n: nat, at: int)
    requires Flooded(s, h, p, next, day) && day < UtcDay(at) && Moment(0) <= at && Ordinary(p, at) && n <= p.dailyCap
    ensures var r := Record(s, Flood(next, n, at), p, at, 1);
            && r.Some? && Triggers(r.value.1) == Burst(next, n, at)
            && Flooded(r.value.0, h + Burst(next, n, at), p, next + n, UtcDay(at)) && CountsToday(r.value.0, UtcDay(at), n)
  {
    hide Ordinary;
    var w0 := Begin(s, at);
    BeginUnseen(s, h, p, next, day, at);
    FloodTriggers(w0, next, n, p, at);
    var w := ConsiderAll(w0, Flood(next, n, at), p, at).value;
    assert w.created[|w0.created|..] == w.created;
    hide ConsiderAll, Moment, Sort, Take, Live, SetDay, Burst, Triggers;
    SettledAmong(s, w, p, at, 1);
    TodayStays(s.days, UtcDay(at), w.today);
    var s' := Settle(s, w, p, at, 1);
    FloodedStill(s, h, p, next, day, n, at, w, s');
  }

  lemma FloodedStill(s: DryRun, h: seq<Cooldown>, p: Policy, next: nat, day: int, n: nat, at: int, w: Work, s': DryRun)
    requires Flooded(s, h, p, next, day) && day < UtcDay(at) && Moment(0) <= at && Unseen(w, next + n)
    requires |s'.cooldowns| <= MAX_COOLDOWNS && s'.policy == p
    requires forall x :: x in s'.cooldowns ==> x in Burst(next, n, at) || x in s.cooldowns
    requires forall x :: x in s'.candidates ==> x in w.created + s.candidates
    requires UniqueBy(s'.days, DayKey) && forall x :: x in s'.days ==> x.day <= UtcDay(at)
    ensures Flooded(s', h + Burst(next, n, at), p, next + n, UtcDay(at))
  {
    BurstIs(next, n, at);
    var b := Burst(next, n, at);
    hide Moment;
    forall i | 0 <= i < |s'.candidates| ensures s'.candidates[i].id < next + n {
      var x := s'.candidates[i];
      assert x in s'.candidates;
      if x in w.created {
        var j :| 0 <= j < |w.created| && w.created[j] == x;
      } else {
        var j :| 0 <= j < |s.candidates| && s.candidates[j] == x;
      }
    }
    forall i | 0 <= i < next + n
      ensures (h + b)[i].key == TickerBrief(i) && Moment(0) <= (h + b)[i].last && UtcDay((h + b)[i].last) <= UtcDay(at)
    {
      if i >= next {
        assert (h + b)[i] == b[i - next];
      }
    }
  }

  /** The day of the last flood, and how many halts it had. */
  function LastDay(p: Policy, day: nat, n: nat): nat
    requires p.dailyCap > 0 && n > 0
    decreases n
  {
    if n <= p.dailyCap then day else LastDay(p, day + 1, n - p.dailyCap)
  }

  function LastCount(p: Policy, n: nat): nat
    requires p.dailyCap > 0 && n > 0
    decreases n
  {
    if n <= p.dailyCap then n else LastCount(p, n - p.dailyCap)
  }

  lemma {:induction false} LastDayIs(p: Policy, day: nat, n: nat)
    requires p.dailyCap > 0 && n > 0
    ensures day <= LastDay(p, day, n)
    ensures n == p.dailyCap * (LastDay(p, day, n) - day) + LastCount(p, n) && 1 <= LastCount(p, n) <= p.dailyCap
    decreases n
  {
    if n > p.dailyCap {
      LastDayIs(p, day + 1, n - p.dailyCap);
      var k := LastDay(p, day, n) - day;
      Distributes(p.dailyCap, k);
    }
  }

  /** What a flood of `n` halts leaves behind. */
  lemma {:induction false} FloodsRun(s: DryRun, h: seq<Cooldown>, p: Policy, day: nat, next: nat, n: nat)
    requires ValidPolicy(p) && n > 0 && Flooded(s, h, p, next, day as int - 1)
    requires LastDay(p, day, n) < DAYS_WITH_NAMES
    ensures var (s', h') := RunBatches(s, h, p, Floods(p, day, next, n));
            var last := LastDay(p, day, n);
            Flooded(s', h', p, next + n, last) && CountsToday(s', last, LastCount(p, n))
    decreases n
  {
    hide Record, Flooded, CountsToday, Moment;
    var m := Lesser(p.dailyCap, n);
    var at := Moment(day);
    LastDayIs(p, day, n);
    Moments(day, day);
    Moments(0, day);
    FloodPoll(s, h, p, next, day as int - 1, m, at);
    var run := Floods(p, day, next, n);
    assert run[1..] == Floods(p, day + 1, next + m, n - m);
    var (s1, h1) := Next(s, h, p, run[0]);
    if n > m {
      FloodsRun(s1, h1, p, day + 1, next + m, n - m);
    } else {
      assert run[1..] == [];
    }
  }

  /** An earlier poll in front of a run. */
  lemma ForwardCons(p: Policy, b: Batch, rest: seq<Batch>, next: int)
    requires Ordinary(p, b.at) && b.at <= next && Forward(next, rest) && OrdinaryRun(p, rest)
    ensures Forward(b.at, [b] + rest) && OrdinaryRun(p, [b] + rest) && End(b.at, [b] + rest) == End(b.at, rest)
  {
    hide Ordinary;
    var run := [b] + rest;
    assert forall i :: 0 < i < |run| ==> run[i] == rest[i - 1];
  }

  lemma {:induction false} FloodsGoForward(p: Policy, day: nat, first: nat, n: nat)
    requires ValidPolicy(p) && n > 0 && LastDay(p, day, n) < DAYS_WITH_NAMES
    ensures var run := Floods(p, day, first, n);
            && Forward(Moment(day), run) && OrdinaryRun(p, run)
            && run != [] && End(1, run) == Moment(LastDay(p, day, n))
    decreases n
  {
    hide Moment, Forward, OrdinaryRun;
    var m := Lesser(p.dailyCap, n);
    LastDayIs(p, day, n);
    Moments(day, LastDay(p, day, n));
    assert Ordinary(p, Moment(day));
    hide Ordinary;
    var b := Batch(Flood(first, m, Moment(day)), Moment(day), 1);
    var rest := Floods(p, day + 1, first + m, n - m);
    if n > m {
      FloodsGoForward(p, day + 1, first + m, n - m);
      Moments(day, day + 1);
    } else {
      assert rest == [];
      EmptyRun(p, Moment(day));
    }
    ForwardCons(p, b, rest, if n > m then Moment(day + 1) else Moment(day));
  }

  lemma EmptyRun(p: Policy, now: int)
    ensures Forward(now, []) && OrdinaryRun(p, [])
  {
  }

  // ---------------------------------------------------------------- the table forgets

  /** The entries that all the flooded securities should have. */
  lemma {:induction false} LatestOfFlood(h: seq<Cooldown>, k: nat)
    requires k < |h| && forall i :: 0 <= i < |h| ==> h[i].key == TickerBrief(i)
    ensures Latest(h, TickerBrief(k)) == Some(h[k].last)
  {
    if k < |h| - 1 {
      LatestOfFlood(h[..|h| - 1], k);
    }
  }

  /** A table that holds fewer entries than are live has lost one. */
  lemma FloodLosesOne(s: DryRun, h: seq<Cooldown>, p: Policy, next: nat, day: int) returns (k: nat)
    requires Flooded(s, h, p, next, day) && next > MAX_COOLDOWNS
    ensures k < next && h[k] !in s.cooldowns && LastTrigger(s.cooldowns, TickerBrief(k)).None?
  {
    if forall i :: 0 <= i < next ==> h[i] in s.cooldowns {
      assert UniqueKeys(h);
      forall x | x in h ensures x in s.cooldowns {
        var i :| 0 <= i < |h| && h[i] == x;
      }
      DistinctFit(h, s.cooldowns);
      assert false;
    }
    k :| 0 <= k < next && h[k] !in s.cooldowns;
    LastTriggerIn(s.cooldowns, TickerBrief(k));
    if LastTrigger(s.cooldowns, TickerBrief(k)).Some? {
      NotInFlood(s, h, p, next, day, k, LastTrigger(s.cooldowns, TickerBrief(k)).value);
      assert false;
    }
  }

  lemma NotInFlood(s: DryRun, h: seq<Cooldown>, p: Policy, next: nat, day: int, k: nat, last: int)
    requires Flooded(s, h, p, next, day) && k < next && h[k] !in s.cooldowns
    ensures Cooldown(TickerBrief(k), last) !in s.cooldowns
  {
    assert forall i :: 0 <= i < next && h[i].key == TickerBrief(k) ==> h[i] == h[k];
  }

  /** All that a flood of one crowd triggers is still cooling down at its end. */
  lemma StillCooling(p: Policy, last: nat)
    requires ValidPolicy(p) && last < DaysTouched(p)
    ensures Moment(last) < Moment(0) + p.cooldown && last < DAYS_WITH_NAMES
  {
    LessDays(DAY_MS, last, DaysTouched(p) - 1);
  }

  lemma LastOfCrowd(p: Policy, n: nat, last: nat, count: nat)
    requires ValidPolicy(p) && 1 <= n <= Crowd(p) && n == p.dailyCap * last + count && 1 <= count
    ensures last < DaysTouched(p)
    ensures n == Crowd(p) - 1 && p.dailyCap > 1 && count <= p.dailyCap ==> count == p.dailyCap - 1
  {
    if last >= DaysTouched(p) {
      LessDays(p.dailyCap, DaysTouched(p), last);
      assert false;
    }
    if n == Crowd(p) - 1 && p.dailyCap > 1 && count <= p.dailyCap {
      if last < DaysTouched(p) - 1 {
        LessDays(p.dailyCap, last + 1, DaysTouched(p) - 1);
        Distributes(p.dailyCap, last + 1);
        Distributes(p.dailyCap, DaysTouched(p));
        assert false;
      }
      Distributes(p.dailyCap, DaysTouched(p));
    }
  }

  /** A flood of `n` halts from the empty state: what it leaves, and a target the table has lost. */
  lemma FloodForgets(p: Policy, n: nat) returns (k: nat)
    requires ValidPolicy(p) && MAX_COOLDOWNS < n <= Crowd(p)
    ensures var run := Floods(p, 0, 0, n);
            var (s, h) := RunBatches(EmptyDryRun(p), [], p, run);
            && Forward(1, run) && OrdinaryRun(p, run) && run != [] && End(1, run) == Moment(LastDay(p, 0, n))
            && LastDay(p, 0, n) < DaysTouched(p) && LastDay(p, 0, n) < DAYS_WITH_NAMES
            && Flooded(s, h, p, n, LastDay(p, 0, n)) && CountsToday(s, LastDay(p, 0, n), LastCount(p, n))
            && k < n && h[k] !in s.cooldowns && LastTrigger(s.cooldowns, TickerBrief(k)).None?
            && Moment(LastDay(p, 0, n)) < h[k].last + p.cooldown
  {
    hide RunBatches, CountsToday;
    var last := LastDay(p, 0, n);
    LastDayIs(p, 0, n);
    LastOfCrowd(p, n, last, LastCount(p, n));
    StillCooling(p, last);
    FloodsGoForward(p, 0, 0, n);
    Moments(0, 0);
    FloodsRun(EmptyDryRun(p), [], p, 0, 0, n);
    var (s, h) := RunBatches(EmptyDryRun(p), [], p, Floods(p, 0, 0, n));
    k := FloodLosesOne(s, h, p, n, last);
  }

  /** Beyond 2,000 triggers to a cooldown, a flood of them makes the table lose one that is still cooling down. */
  lemma FloodLosesLive(p: Policy)
    requires ValidPolicy(p) && Crowd(p) > MAX_COOLDOWNS
    ensures var run := Floods(p, 0, 0, Crowd(p));
            var (s, h) := RunBatches(EmptyDryRun(p), [], p, run);
            Forward(1, run) && OrdinaryRun(p, run) && !KeepsLive(s.cooldowns, h, p, End(1, run))
  {
    var k := FloodForgets(p, Crowd(p));
    hide RunBatches, LastDay, Moment;
    var (s, h) := RunBatches(EmptyDryRun(p), [], p, Floods(p, 0, 0, Crowd(p)));
    LatestOfFlood(h, k);
    assert Cooldown(TickerBrief(k), h[k].last) == h[k];
  }

  /** After any run of polls, the table holds every trigger that is still cooling down. */
  ghost predicate LiveTriggersAreKept(p: Policy, run: seq<Batch>) {
    var (s, h) := RunBatches(EmptyDryRun(p), [], p, run);
    forall now :: End(1, run) <= now ==> KeepsLive(s.cooldowns, h, p, now)
  }

  /** The truncated table never loses a trigger that is still cooling down if and only if 2,000 is a crowd or more. */
  lemma LiveTriggersAreKeptExactly(p: Policy)
    requires ValidPolicy(p)
    ensures (forall run | Forward(1, run) && OrdinaryRun(p, run) :: LiveTriggersAreKept(p, run)) <==> Crowd(p) <= MAX_COOLDOWNS
  {
    hide RunBatches;
    if Crowd(p) <= MAX_COOLDOWNS {
      forall run | Forward(1, run) && OrdinaryRun(p, run) ensures LiveTriggersAreKept(p, run) {
        EmptyBetween(p, 1);
        RunBetween(EmptyDryRun(p), [], p, 1, run);
        var (s, h) := RunBatches(EmptyDryRun(p), [], p, run);
        var moment :| Between(s, h, p, moment) && moment <= End(1, run);
        forall now | End(1, run) <= now ensures KeepsLive(s.cooldowns, h, p, now) {
          RecallsKeepLive(s, h, p, moment, now);
        }
      }
    } else {
      FloodLosesLive(p);
      hide Crowd, KeepsLive;
      var run := Floods(p, 0, 0, Crowd(p));
      assert End(1, run) <= End(1, run) && !LiveTriggersAreKept(p, run);
    }
  }

  // ---------------------------------------------------------------- and a target triggers again

  lemma {:induction false} RunAppend(s: DryRun, h: seq<Cooldown>, p: Policy, run: seq<Batch>, b: Batch)
    ensures var (s1, h1) := RunBatches(s, h, p, run);
            RunBatches(s, h, p, run + [b]) == Next(s1, h1, p, b)
    decreases |run|
  {
    hide Next;
    if run == [] {
      assert run + [b] == [b];
    } else {
      var (s1, h1) := Next(s, h, p, run[0]);
      assert (run + [b])[1..] == run[1..] + [b];
      RunAppend(s1, h1, p, run[1..], b);
    }
  }

  /** A new halt of a target the table has lost triggers on a day with room, however live the last one is. */
  lemma LostTargetTriggers(s: DryRun, h: seq<Cooldown>, p: Policy, next: nat, k: nat, day: nat)
    requires Flooded(s, h, p, next, day) && LastTrigger(s.cooldowns, TickerBrief(k)).None?
    requires Ordinary(p, Moment(day)) && CountsToday(s, day, p.dailyCap - 1)
    ensures Next(s, h, p, Batch([Notice(k, next, Moment(day))], Moment(day), 1)).1 == h + [Cooldown(TickerBrief(k), Moment(day))]
  {
    var at := Moment(day);
    Moments(day, day);
    hide Moment, Ordinary;
    var w0 := Begin(s, at);
    NoticeTriggers(w0, k, next, p, at);
    var d := Notice(k, next, at);
    var w := Consider(w0, d, p, at).value;
    hide Consider, Settle;
    assert ConsiderAll(w, [d][1..], p, at) == Some(w);
    assert w.created[|w0.created|..] == w.created;
  }

  /** Where a flood of one less than a crowd leads, and one more halt on its last day. */
  function FloodAndOne(p: Policy, k: nat): seq<Batch>
    requires ValidPolicy(p) && Crowd(p) > 1
  {
    var at := Moment(LastDay(p, 0, Crowd(p) - 1));
    Floods(p, 0, 0, Crowd(p) - 1) + [Batch([Notice(k, Crowd(p) - 1, at)], at, 1)]
  }

  lemma FloodRepeats(p: Policy) returns (k: nat)
    requires ValidPolicy(p) && !TableSuffices(p)
    ensures var run := FloodAndOne(p, k);
            Forward(1, run) && OrdinaryRun(p, run) && !Spaced(RunBatches(EmptyDryRun(p), [], p, run).1, p)
  {
    hide RunBatches, Moment;
    var n: nat := Crowd(p) - 1;
    var last := LastDay(p, 0, n);
    k := FloodForgets(p, n);
    CapAboveOne(p);
    LastDayIs(p, 0, n);
    LastOfCrowd(p, n, last, LastCount(p, n));
    Moments(last, last);
    OneMoreRepeats(p, k, n, last, Floods(p, 0, 0, n));
  }

  /** The same halt again, at the moment of the last poll. */
  lemma OneMoreRepeats(p: Policy, k: nat, n: nat, last: nat, flood: seq<Batch>)
    requires Forward(1, flood) && OrdinaryRun(p, flood) && flood != [] && End(1, flood) == Moment(last)
    requires ValidPolicy(p) && last < DAYS_WITH_NAMES && k < n
    requires var (s, h) := RunBatches(EmptyDryRun(p), [], p, flood);
             && Flooded(s, h, p, n, last) && CountsToday(s, last, p.dailyCap - 1)
             && LastTrigger(s.cooldowns, TickerBrief(k)).None? && Moment(last) < h[k].last + p.cooldown
    ensures var run := flood + [Batch([Notice(k, n, Moment(last))], Moment(last), 1)];
            Forward(1, run) && OrdinaryRun(p, run) && !Spaced(RunBatches(EmptyDryRun(p), [], p, run).1, p)
  {
    hide RunBatches, Moment;
    Moments(last, last);
    var at := Moment(last);
    var b := Batch([Notice(k, n, at)], at, 1);
    var (s, h) := RunBatches(EmptyDryRun(p), [], p, flood);
    RunAppend(EmptyDryRun(p), [], p, flood, b);
    assert Ordinary(p, at);
    LostTargetTriggers(s, h, p, n, k, last);
    hide CountsToday, Next, Ordinary;
    var h' := h + [Cooldown(TickerBrief(k), at)];
    assert h'[k] == h[k] && h'[n].key == h'[k].key;
  }

  lemma CapAboveOne(p: Policy)
    requires ValidPolicy(p) && !TableSuffices(p)
    ensures p.dailyCap > 1
  {
    assert DaysTouched(p) <= 31;
  }

  /** Triggers of one target keep the cooldown's distance over all runs if and only if 2,001 is a crowd or more. */
  lemma TriggersAreSpacedExactly(p: Policy)
    requires ValidPolicy(p)
    ensures (forall run | Forward(1, run) && OrdinaryRun(p, run) :: Spaced(RunBatches(EmptyDryRun(p), [], p, run).1, p))
            <==> TableSuffices(p)
  {
    hide RunBatches, Spaced;
    if TableSuffices(p) {
      forall run | Forward(1, run) && OrdinaryRun(p, run) ensures Spaced(RunBatches(EmptyDryRun(p), [], p, run).1, p) {
        TriggersAreSpaced(p, run);
      }
    } else {
      var k := FloodRepeats(p);
      hide FloodAndOne, Crowd;
      var run := FloodAndOne(p, k);
      assert Forward(1, run) && OrdinaryRun(p, run) && !Spaced(RunBatches(EmptyDryRun(p), [], p, run).1, p);
    }
  }
}
