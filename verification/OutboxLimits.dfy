/**
  How many candidates the outbox may hold before its daily cap fails. Attempts of the day are forgotten only
  once the records up to the last live one and the candidates polled since outnumber its 2,000 places, and a
  run that the scout can go through then makes a fifth adapter call on one day. Within that bound no candidate
  is accepted twice either.

  In that run every candidate that a drain comes to is still stored as a trigger, as it is when 2,000 of them,
  the most that can be configured, are kept.
 */
module OutboxLimits {
  import opened Common
  import opened Sorting
  import opened Outbox

  /** What the trigger policy can allow at most on one UTC day. */
  const MAX_TRIGGERS_A_DAY := 1_000

  // ---------------------------------------------------------------- what a run polls

  /** The candidates of all polls, in order. */
  function PostedIds(run: seq<Event>): seq<Id> {
    if run == [] then [] else (if run[0].Poll? then run[0].news else []) + PostedIds(run[1..])
  }

  function PostedOn(run: seq<Event>, day: int): nat {
    if run == [] then 0
    else (if run[0].Poll? && UtcDay(run[0].at) == day then |run[0].news| else 0) + PostedOn(run[1..], day)
  }

  lemma {:induction false} PostedConcat(a: seq<Event>, b: seq<Event>)
    ensures PostedIds(a + b) == PostedIds(a) + PostedIds(b)
    ensures forall day :: PostedOn(a + b, day) == PostedOn(a, day) + PostedOn(b, day)
  {
    if a == [] {
      assert a + b == b;
    } else {
      assert (a + b)[1..] == a[1..] + b;
      PostedConcat(a[1..], b);
    }
  }

  // ---------------------------------------------------------------- the front of the outbox

  /** The records up to the last live one. Behind it, all have finished. */
  function Front(records: seq<Record>): nat {
    if records == [] then 0
    else
      var rest := Front(records[1..]);
      if rest > 0 then 1 + rest else if records[0].Live() then 1 else 0
  }

  /** From place `f` on, every record has finished and carries no attempt of `day`. */
  ghost predicate Fronted(records: seq<Record>, f: nat, day: int) {
    f <= |records| && forall i :: f <= i < |records| ==> !records[i].Live() && Occurrences(records[i].days, day) == 0
  }

  lemma {:induction false} FrontFits(records: seq<Record>, day: int)
    requires Attempts(records, day) == 0
    ensures Fronted(records, Front(records), day)
  {
    if records != [] {
      FrontFits(records[1..], day);
      var f := Front(records);
      forall i | f <= i < |records| ensures !records[i].Live() && Occurrences(records[i].days, day) == 0 {
        if i > 0 {
          assert records[i] == records[1..][i - 1];
        }
      }
    }
  }

  lemma {:induction false} AdmitPrepends(records: seq<Record>, news: seq<Id>, at: int)
    ensures var all := Admit(records, news, at);
            |records| <= |all| <= |records| + |news| && all[|all| - |records|..] == records
    decreases |news|
  {
    if news != [] {
      if Find(records, news[0]).Some? || |LiveOnes(records)| >= MAX_RECORDS {
        AdmitPrepends(records, news[1..], at);
      } else {
        var more := [NewRecord(news[0], at)] + records;
        AdmitPrepends(more, news[1..], at);
        var all := Admit(more, news[1..], at);
        assert all[|all| - |records|..] == all[|all| - |more|..][1..];
      }
    }
  }

  lemma Associates(a: seq<Record>, b: seq<Record>, c: seq<Record>)
    ensures a + (b + c) == a + b + c
  {
  }

  lemma SplitCons(r: Record, rest: seq<Record>)
    ensures LiveOnes([r] + rest) == (if r.Live() then [r] else []) + LiveOnes(rest)
    ensures Terminal([r] + rest) == (if r.Live() then [] else [r]) + Terminal(rest)
  {
    assert ([r] + rest)[1..] == rest;
  }

  lemma {:induction false} SplitConcat(a: seq<Record>, b: seq<Record>)
    ensures LiveOnes(a + b) == LiveOnes(a) + LiveOnes(b) && Terminal(a + b) == Terminal(a) + Terminal(b)
  {
    if a == [] {
      assert a + b == b;
    } else {
      hide LiveOnes, Terminal;
      var r, rest := a[0], a[1..];
      SplitCons(r, rest);
      SplitCons(r, rest + b);
      assert a == [r] + rest && a + b == [r] + (rest + b);
      SplitConcat(rest, b);
      Associates(if r.Live() then [r] else [], LiveOnes(rest), LiveOnes(b));
      Associates(if r.Live() then [] else [r], Terminal(rest), Terminal(b));
    }
  }

  lemma {:induction false} AllDone(records: seq<Record>)
    requires forall i :: 0 <= i < |records| ==> !records[i].Live()
    ensures LiveOnes(records) == [] && Terminal(records) == records
  {
    if records != [] {
      AllDone(records[1..]);
    }
  }

  lemma {:induction false} NoneOnDay(records: seq<Record>, day: int)
    requires forall i :: 0 <= i < |records| ==> Occurrences(records[i].days, day) == 0
    ensures Attempts(records, day) == 0
  {
    if records != [] {
      NoneOnDay(records[1..], day);
    }
  }

  lemma Regroup(live: seq<Record>, done: seq<Record>, back: seq<Record>)
    ensures live + [] + (done + back) == (live + done) + back
  {
  }

  /** In the order of a retention the back stays where it is. */
  lemma BackStays(all: seq<Record>, f: nat)
    requires f <= |all| && forall i :: f <= i < |all| ==> !all[i].Live()
    ensures var both := LiveOnes(all) + Terminal(all);
            |both| == |all| && forall i :: f <= i < |all| ==> both[i] == all[i]
  {
    hide LiveOnes, Terminal, Attempts;
    var a, b := all[..f], all[f..];
    assert all == a + b;
    SplitConcat(a, b);
    AllDone(b);
    SplitAttempts(a, 0);
    Regroup(LiveOnes(a), Terminal(a), b);
  }

  /** A retention keeps the whole front while that has room, and so forgets no attempt of the day. */
  lemma RetainKeepsFront(all: seq<Record>, f: nat, day: int)
    requires Fronted(all, f, day) && f <= MAX_RECORDS
    ensures Fronted(Retain(all), f, day) && Attempts(Dropped(all), day) == 0
  {
    hide LiveOnes, Terminal, Retain, Dropped, Attempts;
    BackStays(all, f);
    RetainIsPrefix(all);
    RetainSize(all);
    var both, n := LiveOnes(all) + Terminal(all), |Retain(all)|;
    assert forall i :: 0 <= i < |Dropped(all)| ==> Dropped(all)[i] == both[n + i];
    NoneOnDay(Dropped(all), day);
  }

  lemma RetainSize(all: seq<Record>)
    ensures |Retain(all)| == if |all| <= MAX_RECORDS then |all| else MAX_RECORDS
  {
    SplitAttempts(all, 0);
  }

  /** The candidates a step polls. */
  function Posts(e: Event): nat {
    if e.Poll? then |e.news| else 0
  }

  lemma {:induction false} ReplaceAt(records: seq<Record>, r: Record) returns (k: nat)
    requires Find(records, r.candidate).Some?
    ensures k < |records| && records[k] == Find(records, r.candidate).value && Replace(records, r) == records[k := r]
  {
    k := 0;
    if records[0].candidate != r.candidate {
      var j := ReplaceAt(records[1..], r);
      k := j + 1;
      assert [records[0]] + records[1..][j := r] == records[k := r];
    }
  }

  lemma TouchedIsLive(x: World, e: Event)
    requires Base(x) && Touched(x, e).Some?
    ensures Touched(x, e).value.Live()
  {
  }

  /** Each step keeps the front of a day, but for the candidates it polls, and forgets nothing while that has room. */
  lemma StepFronted(x: World, e: Event, f: nat, day: int) returns (f': nat)
    requires Base(x) && Fronted(x.records, f, day) && f + Posts(e) <= MAX_RECORDS
    ensures f' <= f + Posts(e) && Fronted(Step(x, e).records, f', day) && Forgets(x, e, day) == 0
  {
    hide Find, Replace, Recovered, Retain, Admit, Dropped, Sort, Attempts, UniqueRecords;
    f' := f;
    match e
    case Poll(news, at) =>
      if x.phase.Idle? {
        AdmitPrepends(x.records, news, at);
        var all := Admit(x.records, news, at);
        var added := |all| - |x.records|;
        f' := f + added;
        assert forall i :: added <= i < |all| ==> all[i] == all[added..][i - added];
        RetainKeepsFront(all, f', day);
      }
    case StartDrain(at) => RecoveredFacts(x.records, at);
    case CallAdapter =>
    case Die =>
    case _ =>
      StepRewrites(x, e);
      if Touched(x, e).Some? {
        TouchedIsLive(x, e);
        var r := Rewritten(x, e, Touched(x, e).value);
        var k := ReplaceAt(x.records, r);
        assert k < f;
      }
  }

  lemma {:induction false} NothingForgotten(x: World, run: seq<Event>, f: nat, day: int)
    requires Base(x) && Fronted(x.records, f, day) && f + |PostedIds(run)| <= MAX_RECORDS
    ensures Forgotten(x, run, day) == 0
    decreases |run|
  {
    hide Base, Fronted, Step, Forgets;
    if run != [] {
      StepBase(x, run[0]);
      var f' := StepFronted(x, run[0], f, day);
      NothingForgotten(Step(x, run[0]), run[1..], f', day);
    }
  }

  // ---------------------------------------------------------------- a day that has not begun

  ghost predicate NoDrainOn(run: seq<Event>, day: int) {
    forall i :: 0 <= i < |run| && run[i].StartDrain? ==> UtcDay(run[i].at) != day
  }

  /** No drain has counted anything against the day. */
  ghost predicate Quiet(x: World, day: int) {
    Attempts(x.records, day) == 0 && CallsOn(x.calls, day) == 0 && (!x.phase.Idle? ==> x.phase.today != day)
  }

  lemma StepQuiet(x: World, e: Event, day: int)
    requires Base(x) && Quiet(x, day) && (e.StartDrain? ==> UtcDay(e.at) != day)
    ensures Quiet(Step(x, e), day)
  {
    hide Find, Replace, Recovered, Retain, Admit, Dropped, Sort, Attempts, UniqueRecords, CallsOn;
    match e
    case Poll(news, at) =>
      AdmitFacts(x.records, news, at) by { assert UniqueRecords(x.records); }
      RetentionForgetsExactlyTheDropped(Admit(x.records, news, at), day);
    case StartDrain(at) => RecoveredFacts(x.records, at);
    case Die =>
    case CallAdapter => CallCounted(x, day);
    case _ =>
      StepRewrites(x, e);
      if Touched(x, e).Some? {
        RewrittenAttempts(x, e, day);
      }
  }

  lemma {:induction false} RunQuiet(x: World, run: seq<Event>, day: int)
    requires Base(x) && Quiet(x, day) && NoDrainOn(run, day)
    ensures Base(Run(x, run)) && Quiet(Run(x, run), day)
    decreases |run|
  {
    hide Base, Quiet, Step;
    if run != [] {
      StepBase(x, run[0]);
      StepQuiet(x, run[0], day);
      RunQuiet(Step(x, run[0]), run[1..], day);
    }
  }

  /**
    Across deaths and restarts at any point: if no drain before has counted against the day, and the records up
    to the last live one and the candidates polled since are at most 2,000, the day has at most four calls.
   */
  lemma DailyCapHoldsWithRoom(past: seq<Event>, run: seq<Event>, day: int)
    requires NoDrainOn(past, day) && Front(Run(Empty, past).records) + |PostedIds(run)| <= MAX_RECORDS
    ensures CallsOn(Run(Empty, past + run).calls, day) <= DAILY_CAP
  {
    RunQuiet(Empty, past, day);
    RunConcat(Empty, past, run);
    hide Run;
    var x := Run(Empty, past);
    FrontFits(x.records, day);
    NothingForgotten(x, run, Front(x.records), day);
    RunCounted(x, run, day, 0);
  }

  lemma {:induction false} SizeBound(x: World, run: seq<Event>)
    requires |x.records| <= MAX_RECORDS && Base(x)
    ensures |Run(x, run).records| <= MAX_RECORDS
    decreases |run|
  {
    hide Base, Step;
    if run != [] {
      StepBase(x, run[0]);
      StepSize(x, run[0]);
      SizeBound(Step(x, run[0]), run[1..]);
    }
  }

  /** A step adds at most the candidates it polls, and a retention cuts the outbox to its bound. */
  lemma StepSize(x: World, e: Event)
    requires Base(x)
    ensures |Step(x, e).records| <= |x.records| + Posts(e)
    ensures |x.records| <= MAX_RECORDS ==> |Step(x, e).records| <= MAX_RECORDS
  {
    hide Find, Replace, Recovered, Retain, Admit, Dropped, Sort, Attempts, UniqueRecords;
    match e
    case Poll(news, at) =>
      AdmitPrepends(x.records, news, at);
      RetainSize(Admit(x.records, news, at));
    case StartDrain(at) => RecoveredFacts(x.records, at);
    case CallAdapter =>
    case Die =>
    case _ =>
      StepRewrites(x, e);
      if Touched(x, e).Some? {
        var k := ReplaceAt(x.records, Rewritten(x, e, Touched(x, e).value));
      }
  }

  lemma {:induction false} FrontWithin(records: seq<Record>)
    ensures Front(records) <= |records|
  {
    if records != [] {
      FrontWithin(records[1..]);
    }
  }

  // ---------------------------------------------------------------- runs that the scout can go through

  /** No visit finds its candidate gone, no settlement comes in, and no error is blank. */
  ghost predicate Gentle(run: seq<Event>) {
    forall i :: 0 <= i < |run| ==>
      (run[i].Visit? ==> run[i].retained) && !run[i].Settle? && (run[i].Answered? ==> run[i].text > 0)
  }

  ghost predicate DrainsFollowPolls(run: seq<Event>) {
    forall i :: 0 <= i < |run| && run[i].StartDrain? ==> i > 0 && run[i - 1].Poll?
  }

  /**
    The clock does not run backwards, no day has more new candidates than a trigger policy can allow, no
    candidate comes twice, a drain only ever follows a poll, and the reader accepts the file at every step.
   */
  ghost predicate Receivable(run: seq<Event>) {
    && Forward(1, run) && (forall day :: PostedOn(run, day) <= MAX_TRIGGERS_A_DAY) && NoDup(PostedIds(run))
    && DrainsFollowPolls(run) && AlwaysReadable(Empty, run)
  }

  lemma {:induction false} GentleNeverSpoils(x: World, run: seq<Event>)
    requires Gentle(run)
    ensures NeverSpoils(x, run)
    decreases |run|
  {
    hide Step, Touched;
    if run != [] {
      GentleNeverSpoils(Step(x, run[0]), run[1..]);
    }
  }

  lemma CarefulConcat(a: seq<Event>, b: seq<Event>)
    requires Gentle(a) && Gentle(b) && DrainsFollowPolls(a) && DrainsFollowPolls(b)
    ensures Gentle(a + b) && DrainsFollowPolls(a + b)
  {
    forall i | 0 <= i < |a + b| && (a + b)[i].StartDrain? ensures i > 0 && (a + b)[i - 1].Poll? {
      if i >= |a| {
        assert b[i - |a|].StartDrain?;
        assert (a + b)[i - 1] == b[i - |a| - 1];
      }
    }
  }

  /** All readings lie between `low` and `high`. */
  ghost predicate ReadBetween(run: seq<Event>, low: int, high: int) {
    forall i :: 0 <= i < |run| && Reading(run[i]).Some? ==> low <= Reading(run[i]).value <= high
  }

  lemma {:induction false} ForwardFromEarlier(now: int, later: int, run: seq<Event>)
    requires now <= later && Forward(later, run)
    ensures Forward(now, run)
    decreases |run|
  {
    hide Ordinary;
    if run != [] && Reading(run[0]).None? {
      ForwardFromEarlier(now, later, run[1..]);
    }
  }

  lemma {:induction false} ForwardConcat(now: int, a: seq<Event>, t: int, b: seq<Event>)
    requires now <= t && Forward(now, a) && ReadBetween(a, now, t) && Forward(t, b)
    ensures Forward(now, a + b)
    decreases |a|
  {
    hide Ordinary;
    if a == [] {
      assert a + b == b;
      ForwardFromEarlier(now, t, b);
    } else {
      assert (a + b)[1..] == a[1..] + b && (a + b)[0] == a[0];
      assert ReadBetween(a[1..], now, t);
      if Reading(a[0]).None? {
        ForwardConcat(now, a[1..], t, b);
      } else {
        assert ReadBetween(a[1..], Reading(a[0]).value, t) by { ForwardBounds(Reading(a[0]).value, a[1..]); }
        ForwardConcat(Reading(a[0]).value, a[1..], t, b);
      }
    }
  }

  lemma {:induction false} ForwardBounds(now: int, run: seq<Event>)
    requires Forward(now, run)
    ensures forall i :: 0 <= i < |run| && Reading(run[i]).Some? ==> now <= Reading(run[i]).value
    decreases |run|
  {
    hide Ordinary;
    if run != [] {
      var next := if Reading(run[0]).Some? then Reading(run[0]).value else now;
      ForwardBounds(next, run[1..]);
      assert forall i :: 0 < i < |run| ==> run[i] == run[1..][i - 1];
    }
  }

  /** A clock that stands still. */
  lemma {:induction false} SteadyForward(at: int, run: seq<Event>)
    requires Ordinary(at) && ReadBetween(run, at, at)
    ensures Forward(at, run)
    decreases |run|
  {
    hide Ordinary;
    if run != [] {
      assert ReadBetween(run[1..], at, at);
      SteadyForward(at, run[1..]);
    }
  }

  // ---------------------------------------------------------------- an outbox of untried records

  function Range(first: nat, n: nat): seq<Id>
    decreases n
  {
    if n == 0 then [] else [first] + Range(first + 1, n - 1)
  }

  lemma {:induction false} RangeIs(first: nat, n: nat)
    ensures |Range(first, n)| == n && forall i :: 0 <= i < n ==> Range(first, n)[i] == first + i
    decreases n
  {
    if n > 0 {
      RangeIs(first + 1, n - 1);
    }
  }

  lemma RangeConcat(first: nat, n: nat, m: nat)
    ensures Range(first, n) + Range(first + n, m) == Range(first, n + m)
  {
    RangeIs(first, n);
    RangeIs(first + n, m);
    RangeIs(first, n + m);
  }

  lemma {:induction false} AllLive(records: seq<Record>)
    requires forall r :: r in records ==> Untried(r)
    ensures LiveOnes(records) == records && Terminal(records) == []
  {
    if records != [] {
      assert records[0] in records;
      AllLive(records[1..]);
    }
  }

  ghost predicate UntriedBelow(records: seq<Record>, n: nat) {
    forall r :: r in records ==> Untried(r) && r.candidate < n
  }

  lemma {:induction false} FloodAdmits(records: seq<Record>, first: nat, n: nat, at: int)
    requires UntriedBelow(records, first) && |records| + n <= MAX_RECORDS
    ensures var all := Admit(records, Range(first, n), at); |all| == |records| + n && UntriedBelow(all, first + n)
    decreases n
  {
    hide Find, LiveOnes, Terminal;
    if n > 0 {
      FindFacts(records, first);
      AllLive(records);
      assert Range(first, n)[0] == first && Range(first, n)[1..] == Range(first + 1, n - 1);
      var more := [NewRecord(first, at)] + records;
      assert UntriedBelow(more, first + 1);
      hide UntriedBelow;
      assert Admit(records, Range(first, n), at) == Admit(more, Range(first + 1, n - 1), at);
      FloodAdmits(more, first + 1, n - 1, at);
    }
  }

  /** The candidates before `n` are on record, and nothing has been attempted. */
  ghost predicate Piled(x: World, n: nat) {
    x.phase.Idle? && |x.records| == n && UniqueRecords(x.records) && UntriedBelow(x.records, n) && x.calls == []
  }

  lemma PollPiles(x: World, n: nat, m: nat, at: int)
    requires Piled(x, n) && n + m <= MAX_RECORDS
    ensures Piled(Step(x, Poll(Range(n, m), at)), n + m)
  {
    FloodAdmits(x.records, n, m, at);
    AdmitFacts(x.records, Range(n, m), at);
    var all := Admit(x.records, Range(n, m), at);
    AllLive(all);
    hide Admit, Range, LiveOnes, Terminal, UniqueRecords, UntriedBelow;
    assert all[..|all|] == all && all + [] == all;
  }

  lemma DeathPiles(x: World, n: nat)
    requires Piled(x, n)
    ensures Piled(Step(x, Die), n)
  {
  }

  // ---------------------------------------------------------------- four attempts that are turned down

  predicate Tried(r: Record, today: int) {
    r.status == Failed && r.days == [today]
  }

  ghost predicate UntriedOrTried(records: seq<Record>, today: int) {
    forall r :: r in records ==> Untried(r) || Tried(r, today)
  }

  /** `done` records have been attempted and failed in this drain, and `rest` are the others. */
  ghost predicate Trying(x: World, today: int, done: nat, rest: seq<Id>) {
    && x.phase == Draining(today, done, 0, rest) && x.recovered && UniqueRecords(x.records)
    && |x.records| == MAX_RECORDS && (forall r :: r in x.records ==> r.candidate < MAX_RECORDS)
    && NoDup(rest) && |rest| + done == MAX_RECORDS
    && (forall i :: 0 <= i < |rest| ==> Find(x.records, rest[i]).Some? && Untried(Find(x.records, rest[i]).value))
    && UntriedOrTried(x.records, today) && |LiveOnes(x.records)| + done == MAX_RECORDS && CallsOn(x.calls, today) == done
  }

  lemma {:induction false} CandidatesAre(records: seq<Record>)
    ensures |Candidates(records)| == |records| && forall i :: 0 <= i < |records| ==> Candidates(records)[i] == records[i].candidate
  {
    if records != [] {
      CandidatesAre(records[1..]);
    }
  }

  /** The order of a drain: each record once. */
  lemma OrderIs(records: seq<Record>)
    requires UniqueRecords(records)
    ensures var order := Candidates(Sort(records, OldestFirst()));
            && NoDup(order) && |order| == |records|
            && (forall i :: 0 <= i < |order| ==> Find(records, order[i]).Some?)
            && (forall r :: r in records ==> r.candidate in order)
  {
    var sorted := Sort(records, OldestFirst());
    assert NoDup(records);
    SortNoDup(records, OldestFirst());
    SortElems(records, OldestFirst());
    SortPermutes(records, OldestFirst());
    CandidatesAre(sorted);
    hide Sort, Candidates, Find;
    var order := Candidates(sorted);
    forall i | 0 <= i < |order| ensures Find(records, order[i]).Some? {
      assert sorted[i] in sorted && sorted[i] in records;
      FindFacts(records, order[i]);
    }
    forall i, j | 0 <= i < j < |order| ensures order[i] != order[j] {
      assert sorted[i] in sorted && sorted[j] in sorted && sorted[i] != sorted[j];
      TellApart(records, sorted[i], sorted[j]);
    }
    forall r | r in records ensures r.candidate in order {
      assert r in sorted;
      var i :| 0 <= i < |sorted| && sorted[i] == r;
      assert order[i] == r.candidate;
    }
  }

  lemma RecoveredSame(records: seq<Record>, at: int, today: int)
    requires UntriedOrTried(records, today)
    ensures Recovered(records, at) == records
  {
    RecoveredFacts(records, at);
    assert forall i :: 0 <= i < |records| ==> records[i] in records;
  }

  lemma StartTrying(x: World, at: int)
    requires Piled(x, MAX_RECORDS)
    ensures var x1 := Step(x, StartDrain(at)); x1.phase.Draining? && Trying(x1, UtcDay(at), 0, x1.phase.rest)
  {
    assert UntriedOrTried(x.records, UtcDay(at));
    RecoveredSame(x.records, at, UtcDay(at));
    NoAttempts(x.records, UtcDay(at));
    AllLive(x.records);
    OrderIs(x.records);
    hide Sort, Candidates, Find, Attempts, Recovered, LiveOnes;
    forall id | Find(x.records, id).Some? ensures Untried(Find(x.records, id).value) {
      FindFacts(x.records, id);
    }
  }

  lemma {:induction false} NoAttempts(records: seq<Record>, day: int)
    requires forall r :: r in records ==> Untried(r)
    ensures Attempts(records, day) == 0
  {
    if records != [] {
      assert records[0] in records;
      NoAttempts(records[1..], day);
    }
  }

  lemma {:induction false} ReplaceLive(records: seq<Record>, r: Record)
    requires Find(records, r.candidate).Some?
    ensures |LiveOnes(Replace(records, r))| + (if Find(records, r.candidate).value.Live() then 1 else 0)
         == |LiveOnes(records)| + (if r.Live() then 1 else 0)
  {
    if records[0].candidate != r.candidate {
      ReplaceLive(records[1..], r);
    }
  }

  lemma {:induction false} ReplaceTwice(records: seq<Record>, r: Record, q: Record)
    requires r.candidate == q.candidate
    ensures Replace(Replace(records, r), q) == Replace(records, q)
  {
    if records != [] {
      ReplaceTwice(records[1..], r, q);
    }
  }

  function Attempt(at: int): seq<Event> {
    [Visit(true, at), CallAdapter, Answered(Rejected, 1, at)]
  }

  lemma AttemptRewrites(x: World, today: int, done: nat, rest: seq<Id>, at: int)
    requires Trying(x, today, done, rest) && done < DAILY_CAP
    ensures var r := Find(x.records, rest[0]).value;
            Run(x, Attempt(at)) == x.(records := Replace(x.records, Answering(Reserving(r, today, at), Rejected, 1, at)),
                                      phase := Draining(today, done + 1, 0, rest[1..]), calls := x.calls + [Call(rest[0], today)])
  {
    var id := rest[0];
    var r := Find(x.records, id).value;
    FindFacts(x.records, id);
    var r1 := Reserving(r, today, at);
    PutRecord(x.records, r1);
    ReplaceTwice(x.records, r1, Answering(r1, Rejected, 1, at));
    hide Replace, Find, UniqueRecords, LiveOnes;
    RunThree(x, Visit(true, at), CallAdapter, Answered(Rejected, 1, at));
  }

  lemma TryOne(x: World, today: int, done: nat, rest: seq<Id>, at: int)
    requires Trying(x, today, done, rest) && done < DAILY_CAP
    ensures Trying(Run(x, Attempt(at)), today, done + 1, rest[1..])
  {
    var r := Find(x.records, rest[0]).value;
    var q := Answering(Reserving(r, today, at), Rejected, 1, at);
    AttemptRewrites(x, today, done, rest, at);
    FindFacts(x.records, rest[0]);
    assert q.days == [today] && q.candidate == rest[0];
    PutRecord(x.records, q);
    ReplaceLive(x.records, q);
    ReplaceElems(x.records, q);
    assert (x.calls + [Call(rest[0], today)])[..|x.calls|] == x.calls;
    hide Replace, Find, UniqueRecords, LiveOnes, Run;
  }

  function FourAttempts(at: int): seq<Event> {
    Attempt(at) + (Attempt(at) + (Attempt(at) + (Attempt(at) + [Visit(true, at)])))
  }

  /** Four records have failed today, and the drain has ended at the cap. */
  ghost predicate Spent(x: World, today: int) {
    && x.phase.Idle? && x.recovered && UniqueRecords(x.records)
    && |x.records| == MAX_RECORDS && (forall r :: r in x.records ==> r.candidate < MAX_RECORDS)
    && UntriedOrTried(x.records, today) && |LiveOnes(x.records)| + DAILY_CAP == MAX_RECORDS && CallsOn(x.calls, today) == DAILY_CAP
  }

  lemma FourAttemptsSpend(x: World, today: int, rest: seq<Id>, at: int)
    requires Trying(x, today, 0, rest)
    ensures Spent(Run(x, FourAttempts(at)), today)
  {
    hide Run, Attempt;
    var stop := [Visit(true, at)];
    RunConcat(x, Attempt(at), Attempt(at) + (Attempt(at) + (Attempt(at) + stop)));
    TryOne(x, today, 0, rest, at);
    var x1 := Run(x, Attempt(at));
    RunConcat(x1, Attempt(at), Attempt(at) + (Attempt(at) + stop));
    TryOne(x1, today, 1, rest[1..], at);
    var x2 := Run(x1, Attempt(at));
    RunConcat(x2, Attempt(at), Attempt(at) + stop);
    TryOne(x2, today, 2, rest[2..], at);
    var x3 := Run(x2, Attempt(at));
    RunConcat(x3, Attempt(at), stop);
    TryOne(x3, today, 3, rest[3..], at);
    var x4 := Run(x3, Attempt(at));
    StopAtCap(x4, today, rest[4..], at);
  }

  lemma StopAtCap(x: World, today: int, rest: seq<Id>, at: int)
    requires Trying(x, today, DAILY_CAP, rest)
    ensures Spent(Run(x, [Visit(true, at)]), today)
  {
    assert [Visit(true, at)] == [Visit(true, at)] + [];
    RunCons(x, Visit(true, at), []);
    RunNone(Step(x, Visit(true, at)));
    hide Run;
  }

  // ---------------------------------------------------------------- one more candidate, and a fifth call

  lemma {:induction false} TriedAttempts(records: seq<Record>, today: int)
    requires forall r :: r in records ==> Tried(r, today)
    ensures Attempts(records, today) == |records|
  {
    if records != [] {
      assert records[0] in records && records[0].days == [today] && [today][1..] == [];
      assert Occurrences([today], today) == 1;
      TriedAttempts(records[1..], today);
    }
  }

  /** A drain may still attempt something today, and there is something to attempt. */
  ghost predicate Room(x: World, today: int) {
    && x.phase.Idle? && x.recovered && UniqueRecords(x.records) && UntriedOrTried(x.records, today)
    && Attempts(x.records, today) < DAILY_CAP && (exists r :: r in x.records && Untried(r))
  }

  /** One more candidate joins the live records; of the four failed ones the retention drops the last. */
  lemma OneMoreIsAdmitted(records: seq<Record>, at: int)
    requires |records| == MAX_RECORDS && |LiveOnes(records)| + DAILY_CAP == MAX_RECORDS && Find(records, MAX_RECORDS).None?
    ensures var live, done := [NewRecord(MAX_RECORDS, at)] + LiveOnes(records), Terminal(records);
            Admit(records, [MAX_RECORDS], at) == [NewRecord(MAX_RECORDS, at)] + records
            && |done| == DAILY_CAP && Retain(Admit(records, [MAX_RECORDS], at)) == live + done[..DAILY_CAP - 1]
  {
    var all := [NewRecord(MAX_RECORDS, at)] + records;
    assert [MAX_RECORDS][1..] == [] && all[1..] == records;
    SplitAttempts(records, 0);
    assert LiveOnes(all) == [NewRecord(MAX_RECORDS, at)] + LiveOnes(records) && Terminal(all) == Terminal(records);
  }

  lemma OneMoreDropsOne(x: World, today: int, at: int)
    requires Spent(x, today)
    ensures var x1 := Step(x, Poll([MAX_RECORDS], at)); Room(x1, today) && x1.calls == x.calls
  {
    hide LiveOnes, Terminal, Admit, Retain, Attempts, Find, UniqueRecords, CallsOn, Dropped;
    FindFacts(x.records, MAX_RECORDS);
    OneMoreIsAdmitted(x.records, at);
    AdmitFacts(x.records, [MAX_RECORDS], at);
    RetainFinds(Admit(x.records, [MAX_RECORDS], at));
    SplitElems(x.records);
    var latest := NewRecord(MAX_RECORDS, at);
    var live, kept := [latest] + LiveOnes(x.records), Terminal(x.records)[..DAILY_CAP - 1];
    NoAttempts(live, today);
    forall r | r in kept ensures Tried(r, today) {
      assert r in Terminal(x.records);
    }
    TriedAttempts(kept, today);
    AttemptsConcat(live, kept, today);
    assert latest in live + kept;
  }

  function Visits(k: nat, at: int): seq<Event> {
    if k == 0 then [] else [Visit(true, at)] + Visits(k - 1, at)
  }

  /** A drain with room passes over the failed records until it comes to a pending one. */
  lemma {:induction false} Seek(x: World, today: int, attempts: int, rest: seq<Id>, at: int) returns (k: nat)
    requires x.phase == Draining(today, attempts, 0, rest) && attempts < DAILY_CAP && UntriedOrTried(x.records, today)
    requires forall i :: 0 <= i < |rest| ==> Find(x.records, rest[i]).Some?
    requires exists i :: 0 <= i < |rest| && Untried(Find(x.records, rest[i]).value)
    ensures var x1 := Run(x, Visits(k, at)); x1.phase.Calling? && x1.phase.today == today && x1.calls == x.calls
    decreases |rest|
  {
    FindFacts(x.records, rest[0]);
    hide Find, Replace, Run;
    var x1 := Step(x, Visit(true, at));
    if Untried(Find(x.records, rest[0]).value) {
      k := 1;
      RunCons(x, Visit(true, at), []);
      RunNone(x1);
      assert Visits(1, at) == [Visit(true, at)] + [];
    } else {
      assert x1 == x.(phase := Draining(today, attempts, 0, rest[1..]));
      var i :| 0 <= i < |rest| && Untried(Find(x.records, rest[i]).value);
      assert rest[1..][i - 1] == rest[i];
      var j := Seek(x1, today, attempts, rest[1..], at);
      k := j + 1;
      RunCons(x, Visit(true, at), Visits(j, at));
    }
  }

  /** A drain that starts with room comes to a pending record. */
  lemma StartSeeks(x: World, at: int) returns (k: nat)
    requires Room(x, UtcDay(at))
    ensures var x1 := Run(Step(x, StartDrain(at)), Visits(k, at));
            x1.phase.Calling? && x1.phase.today == UtcDay(at) && x1.calls == x.calls
  {
    hide Run, Sort, Candidates, Find, Attempts, Visits;
    OrderIs(x.records);
    var r :| r in x.records && Untried(r);
    FindUnique(x.records, r);
    var x1 := Step(x, StartDrain(at));
    var rest := x1.phase.rest;
    var i :| 0 <= i < |rest| && rest[i] == r.candidate;
    assert Untried(Find(x.records, rest[i]).value);
    k := Seek(x1, UtcDay(at), Attempts(x.records, UtcDay(at)), rest, at);
  }

  lemma OneMoreCall(x: World, at: int) returns (k: nat)
    requires Room(x, UtcDay(at))
    ensures CallsOn(Run(x, [StartDrain(at)] + (Visits(k, at) + [CallAdapter])).calls, UtcDay(at)) == CallsOn(x.calls, UtcDay(at)) + 1
  {
    hide Run, Room, CallsOn, Visits;
    k := StartSeeks(x, at);
    var x1 := Step(x, StartDrain(at));
    var x2 := Run(x1, Visits(k, at));
    RunCons(x, StartDrain(at), Visits(k, at) + [CallAdapter]);
    RunConcat(x1, Visits(k, at), [CallAdapter]);
    assert [CallAdapter] == [CallAdapter] + [];
    RunCons(x2, CallAdapter, []);
    RunNone(Step(x2, CallAdapter));
    CallCounted(x2, UtcDay(at));
  }

  // ---------------------------------------------------------------- the run that exceeds the cap

  /** The last millisecond of a day. */
  function Late(day: nat): int {
    DAY_MS * (day + 1) - 1
  }

  /** The day on which the cap falls, and its first millisecond. */
  const CRITICAL_DAY := 4
  const CRITICAL := DAY_MS * 4

  function AtMost(n: nat): nat {
    if n <= MAX_TRIGGERS_A_DAY then n else MAX_TRIGGERS_A_DAY
  }

  /** `p` candidates on days 0 and 1. The scout dies before it drains them. */
  function Past(p: nat): seq<Event> {
    [Poll(Range(0, AtMost(p)), Late(0)), Die, Poll(Range(AtMost(p), p - AtMost(p)), Late(1)), Die]
  }

  /** On days 2 and 3, as many as the outbox still has places; the drain begins after midnight. */
  function Filling(p: nat): seq<Event>
    requires p <= MAX_RECORDS
  {
    var q := MAX_RECORDS - p;
    [Poll(Range(p, AtMost(q)), Late(2)), Die, Poll(Range(p + AtMost(q), q - AtMost(q)), Late(3)), StartDrain(CRITICAL)]
  }

  /** Four attempts are turned down, one more candidate comes, and the next drain calls the adapter a fifth time. */
  function Overdrawing(k: nat): seq<Event> {
    FourAttempts(CRITICAL) + ([Poll([MAX_RECORDS], CRITICAL), StartDrain(CRITICAL)] + (Visits(k, CRITICAL) + [CallAdapter]))
  }

  lemma RunFour(x: World, a: Event, b: Event, c: Event, d: Event)
    ensures Run(x, [a, b, c, d]) == Step(Step(Step(Step(x, a), b), c), d)
  {
    hide Step, Run;
    assert [a, b, c, d] == [a] + [b, c, d];
    RunCons(x, a, [b, c, d]);
    RunThree(Step(x, a), b, c, d);
  }

  lemma PastPiles(p: nat)
    requires p <= MAX_RECORDS
    ensures Piled(Run(Empty, Past(p)), p)
  {
    hide Step, Run, Range;
    var a, b := Poll(Range(0, AtMost(p)), Late(0)), Poll(Range(AtMost(p), p - AtMost(p)), Late(1));
    RunFour(Empty, a, Die, b, Die);
    assert Piled(Empty, 0);
    hide Piled;
    PollPiles(Empty, 0, AtMost(p), Late(0));
    DeathPiles(Step(Empty, a), AtMost(p));
    PollPiles(Step(Step(Empty, a), Die), AtMost(p), p - AtMost(p), Late(1));
    DeathPiles(Step(Step(Step(Empty, a), Die), b), p);
  }

  lemma FillingStarts(x: World, p: nat)
    requires p <= MAX_RECORDS && Piled(x, p)
    ensures var x1 := Run(x, Filling(p)); x1.phase.Draining? && Trying(x1, CRITICAL_DAY, 0, x1.phase.rest)
  {
    hide Step, Run, Range, Piled, Trying;
    var q := MAX_RECORDS - p;
    var a, b := Poll(Range(p, AtMost(q)), Late(2)), Poll(Range(p + AtMost(q), q - AtMost(q)), Late(3));
    RunFour(x, a, Die, b, StartDrain(CRITICAL));
    PollPiles(x, p, AtMost(q), Late(2));
    DeathPiles(Step(x, a), p + AtMost(q));
    PollPiles(Step(Step(x, a), Die), p + AtMost(q), q - AtMost(q), Late(3));
    StartTrying(Step(Step(Step(x, a), Die), b), CRITICAL);
  }

  lemma OverdrawingCalls(x: World, rest: seq<Id>) returns (k: nat)
    requires Trying(x, CRITICAL_DAY, 0, rest)
    ensures CallsOn(Run(x, Overdrawing(k)).calls, CRITICAL_DAY) == DAILY_CAP + 1
  {
    hide Run, Step, FourAttempts, Trying, Visits, CallsOn, Room;
    FourAttemptsSpend(x, CRITICAL_DAY, rest, CRITICAL);
    var x1 := Run(x, FourAttempts(CRITICAL));
    OneMoreDropsOne(x1, CRITICAL_DAY, CRITICAL);
    var poll := Poll([MAX_RECORDS], CRITICAL);
    k := OneMoreCall(Step(x1, poll), CRITICAL);
    var tail := Visits(k, CRITICAL) + [CallAdapter];
    RunConcat(x, FourAttempts(CRITICAL), [poll, StartDrain(CRITICAL)] + tail);
    assert [poll, StartDrain(CRITICAL)] + tail == [poll] + ([StartDrain(CRITICAL)] + tail);
    RunCons(x1, poll, [StartDrain(CRITICAL)] + tail);
  }

  // ---------------------------------------------------------------- and that the scout can go through it

  ghost predicate VisitsOnly(run: seq<Event>, at: int) {
    forall i :: 0 <= i < |run| ==>
      run[i] == Visit(true, at) || run[i] == CallAdapter || run[i] == Answered(Rejected, 1, at)
  }

  lemma {:induction false} VisitsAre(k: nat, at: int)
    ensures VisitsOnly(Visits(k, at), at)
  {
    if k > 0 {
      VisitsAre(k - 1, at);
    }
  }

  lemma {:induction false} VisitsPostNothing(run: seq<Event>, at: int)
    requires VisitsOnly(run, at)
    ensures PostedIds(run) == [] && forall day :: PostedOn(run, day) == 0
  {
    if run != [] {
      VisitsPostNothing(run[1..], at);
    }
  }

  /** A part of a run at one moment that polls nothing. */
  ghost predicate Still(run: seq<Event>) {
    && Gentle(run) && DrainsFollowPolls(run) && ReadBetween(run, CRITICAL, CRITICAL)
    && PostedIds(run) == [] && forall day :: PostedOn(run, day) == 0
  }

  lemma VisitsAreStill(run: seq<Event>)
    requires VisitsOnly(run, CRITICAL)
    ensures Still(run)
  {
    VisitsPostNothing(run, CRITICAL);
    hide PostedIds, PostedOn;
  }

  lemma PartsAreStill(k: nat)
    ensures Still(FourAttempts(CRITICAL)) && Still(Visits(k, CRITICAL) + [CallAdapter])
  {
    hide Still;
    assert VisitsOnly(FourAttempts(CRITICAL), CRITICAL);
    VisitsAreStill(FourAttempts(CRITICAL));
    VisitsAre(k, CRITICAL);
    VisitsAreStill(Visits(k, CRITICAL) + [CallAdapter]);
  }

  lemma OnePollIsCareful()
    ensures var poll := [Poll([MAX_RECORDS], CRITICAL), StartDrain(CRITICAL)];
            && Gentle(poll) && DrainsFollowPolls(poll) && ReadBetween(poll, CRITICAL, CRITICAL)
            && PostedIds(poll) == [MAX_RECORDS] && forall day :: PostedOn(poll, day) == if day == CRITICAL_DAY then 1 else 0
  {
    PollPosts(Poll([MAX_RECORDS], CRITICAL), StartDrain(CRITICAL));
    hide PostedIds, PostedOn;
  }

  /** The last part of the run, at one moment. */
  lemma OverdrawingIsCareful(k: nat)
    ensures var b := Overdrawing(k);
            && Gentle(b) && DrainsFollowPolls(b) && ReadBetween(b, CRITICAL, CRITICAL)
            && PostedIds(b) == [MAX_RECORDS] && forall day :: PostedOn(b, day) == if day == CRITICAL_DAY then 1 else 0
  {
    hide FourAttempts, Visits, PostedIds, PostedOn, Gentle, DrainsFollowPolls;
    var first, poll, tail := FourAttempts(CRITICAL), [Poll([MAX_RECORDS], CRITICAL), StartDrain(CRITICAL)], Visits(k, CRITICAL) + [CallAdapter];
    PartsAreStill(k);
    OnePollIsCareful();
    PostedConcat(poll, tail);
    PostedConcat(first, poll + tail);
    CarefulConcat(poll, tail);
    CarefulConcat(first, poll + tail);
  }

  lemma PollPosts(poll: Event, other: Event)
    requires poll.Poll? && !other.Poll?
    ensures PostedIds([poll, other]) == poll.news
    ensures forall day :: PostedOn([poll, other], day) == if UtcDay(poll.at) == day then |poll.news| else 0
  {
    assert [poll, other][1..] == [other] && [other][1..] == [];
    assert PostedIds([other]) == [] && PostedIds([poll, other]) == poll.news + PostedIds([other]);
    forall day ensures PostedOn([poll, other], day) == if UtcDay(poll.at) == day then |poll.news| else 0 {
      assert PostedOn([other], day) == 0;
    }
  }

  /** Two polls and what follows each. */
  lemma TwoPollsPost(a: Event, b: Event, c: Event, d: Event)
    requires a.Poll? && !b.Poll? && c.Poll? && !d.Poll?
    ensures PostedIds([a, b, c, d]) == a.news + c.news
    ensures forall day :: PostedOn([a, b, c, d], day)
                          == (if UtcDay(a.at) == day then |a.news| else 0) + (if UtcDay(c.at) == day then |c.news| else 0)
  {
    PollPosts(a, b);
    PollPosts(c, d);
    PostedConcat([a, b], [c, d]);
    assert [a, b] + [c, d] == [a, b, c, d];
  }

  lemma TwoPollsForward(a: Event, b: Event, c: Event, d: Event, now: int)
    requires a.Poll? && b.Die? && c.Poll? && (d.Die? || (d.StartDrain? && c.at <= d.at && Ordinary(d.at)))
    requires now <= a.at <= c.at && Ordinary(a.at) && Ordinary(c.at)
    ensures Forward(now, [a, b, c, d]) && Gentle([a, b, c, d]) && DrainsFollowPolls([a, b, c, d])
  {
    hide Ordinary;
    var s := [a, b, c, d];
    assert s[1..] == [b, c, d] && s[1..][1..] == [c, d] && s[1..][1..][1..] == [d] && s[1..][1..][1..][1..] == [];
    assert Forward(if d.Die? then c.at else d.at, []);
    assert Forward(c.at, [d]);
    assert Forward(a.at, [c, d]);
    assert Forward(a.at, [b, c, d]);
  }

  lemma LateDays(day: nat)
    requires day <= CRITICAL_DAY
    ensures UtcDay(Late(day)) == day && Ordinary(Late(day)) && Ordinary(CRITICAL) && UtcDay(CRITICAL) == CRITICAL_DAY
    ensures day < CRITICAL_DAY ==> Late(day) < CRITICAL
  {
  }

  lemma PastIsCareful(p: nat)
    requires p <= MAX_RECORDS
    ensures var a := Past(p);
            && Forward(1, a) && Gentle(a) && DrainsFollowPolls(a) && ReadBetween(a, 1, Late(1)) && PostedIds(a) == Range(0, p)
            && NoDrainOn(a, CRITICAL_DAY)
            && forall day :: PostedOn(a, day) == if day == 0 then AtMost(p) else if day == 1 then p - AtMost(p) else 0
  {
    hide Range, Ordinary, PostedIds, PostedOn, Forward, Gentle, DrainsFollowPolls;
    LateDays(0);
    LateDays(1);
    RangeIs(0, AtMost(p));
    RangeIs(AtMost(p), p - AtMost(p));
    RangeConcat(0, AtMost(p), p - AtMost(p));
    var a, b := Poll(Range(0, AtMost(p)), Late(0)), Poll(Range(AtMost(p), p - AtMost(p)), Late(1));
    TwoPollsPost(a, Die, b, Die);
    TwoPollsForward(a, Die, b, Die, 1);
  }

  lemma FillingIsCareful(p: nat)
    requires p <= MAX_RECORDS
    ensures var a, q := Filling(p), MAX_RECORDS - p;
            && Forward(Late(1), a) && Gentle(a) && DrainsFollowPolls(a) && ReadBetween(a, Late(1), CRITICAL) && PostedIds(a) == Range(p, q)
            && forall day :: PostedOn(a, day) == if day == 2 then AtMost(q) else if day == 3 then q - AtMost(q) else 0
  {
    hide Range, Ordinary, PostedIds, PostedOn, Forward, Gentle, DrainsFollowPolls;
    LateDays(2);
    LateDays(3);
    var q := MAX_RECORDS - p;
    RangeIs(p, AtMost(q));
    RangeIs(p + AtMost(q), q - AtMost(q));
    RangeConcat(p, AtMost(q), q - AtMost(q));
    var a, b := Poll(Range(p, AtMost(q)), Late(2)), Poll(Range(p + AtMost(q), q - AtMost(q)), Late(3));
    TwoPollsPost(a, Die, b, StartDrain(CRITICAL));
    TwoPollsForward(a, Die, b, StartDrain(CRITICAL), Late(1));
  }

  /** 2,001 candidates, each once, at most 1,000 a day. */
  lemma WholeRunPosts(p: nat, k: nat)
    requires p <= MAX_RECORDS
    ensures var b, run := Filling(p) + Overdrawing(k), Past(p) + (Filling(p) + Overdrawing(k));
            && |PostedIds(b)| == MAX_RECORDS + 1 - p && |PostedIds(run)| == MAX_RECORDS + 1 && NoDup(PostedIds(run))
            && forall day :: PostedOn(run, day) <= MAX_TRIGGERS_A_DAY
  {
    hide Past, Filling, Overdrawing, Range, PostedIds, PostedOn, Forward, Gentle, DrainsFollowPolls, ReadBetween, NoDrainOn;
    var a, b, c := Past(p), Filling(p), Overdrawing(k);
    PastIsCareful(p);
    FillingIsCareful(p);
    OverdrawingIsCareful(k);
    RangeIs(p, MAX_RECORDS - p);
    RangeIs(0, MAX_RECORDS);
    RangeConcat(0, p, MAX_RECORDS - p);
    PostedConcat(b, c);
    PostedConcat(a, b + c);
    assert PostedIds(a + (b + c)) == Range(0, MAX_RECORDS) + [MAX_RECORDS];
  }

  lemma WholeRunIsForward(p: nat, k: nat)
    requires p <= MAX_RECORDS
    ensures var run := Past(p) + (Filling(p) + Overdrawing(k)); Forward(1, run) && Gentle(run) && DrainsFollowPolls(run)
  {
    hide Past, Filling, Overdrawing, PostedIds, PostedOn, Forward, Gentle, DrainsFollowPolls, ReadBetween, NoDrainOn, Ordinary;
    var a, b, c := Past(p), Filling(p), Overdrawing(k);
    PastIsCareful(p);
    FillingIsCareful(p);
    OverdrawingIsCareful(k);
    LateDays(1);
    CarefulConcat(b, c);
    CarefulConcat(a, b + c);
    SteadyForward(CRITICAL, c);
    ForwardConcat(Late(1), b, CRITICAL, c);
    ForwardConcat(1, a, Late(1), b + c);
  }

  lemma WholeRunIsReceivable(p: nat, k: nat)
    requires p <= MAX_RECORDS
    ensures Receivable(Past(p) + (Filling(p) + Overdrawing(k)))
  {
    hide Past, Filling, Overdrawing, PostedIds, PostedOn, Forward, Gentle, DrainsFollowPolls, AlwaysReadable, NeverSpoils, NoDup;
    var run := Past(p) + (Filling(p) + Overdrawing(k));
    WholeRunPosts(p, k);
    WholeRunIsForward(p, k);
    GentleNeverSpoils(Empty, run);
    OutboxStaysReadableExactlyWhen(run);
  }

  /**
    The run that exceeds the cap, for any split of its 2,001 candidates: what has been polled before the day in
    question, if anything, and `n` candidates after that, of which at least the last comes on the day.
   */
  lemma ForgottenAttemptsBreakTheCap(n: nat) returns (past: seq<Event>, run: seq<Event>)
    requires 1 <= n <= MAX_RECORDS + 1
    ensures Receivable(past + run) && NoDrainOn(past, CRITICAL_DAY) && Front(Run(Empty, past).records) + n <= MAX_RECORDS + 1
    ensures |PostedIds(run)| == n && |PostedIds(past + run)| == MAX_RECORDS + 1
    ensures CallsOn(Run(Empty, past + run).calls, CRITICAL_DAY) == DAILY_CAP + 1
  {
    var p := MAX_RECORDS + 1 - n;
    PastPiles(p);
    PastIsCareful(p);
    hide Past, Filling, Overdrawing, Run, Trying, Receivable, PostedIds, CallsOn;
    past := Past(p);
    var x := Run(Empty, past);
    FrontWithin(x.records);
    FillingStarts(x, p);
    var x1 := Run(x, Filling(p));
    var k := OverdrawingCalls(x1, x1.phase.rest);
    run := Filling(p) + Overdrawing(k);
    RunConcat(Empty, past, run);
    RunConcat(x, Filling(p), Overdrawing(k));
    WholeRunIsReceivable(p, k);
    WholeRunPosts(p, k);
  }

  // ---------------------------------------------------------------- when the cap holds

  /**
    For all bounds m and n: whatever happened before a day, if that left at most m records up to the last live
    one, and at most n candidates come after that, the day never has more than four calls if and only if no
    candidate comes or m + n is at most 2,000.
   */
  lemma CapOfADayHoldsExactly(m: nat, n: nat)
    ensures (forall past, run, day |
               Receivable(past + run) && NoDrainOn(past, day) && Front(Run(Empty, past).records) <= m && |PostedIds(run)| <= n ::
                 CallsOn(Run(Empty, past + run).calls, day) <= DAILY_CAP)
            <==> n == 0 || m + n <= MAX_RECORDS
  {
    hide Run, Receivable, CallsOn, NoDrainOn, Front, PostedIds;
    if n == 0 || m + n <= MAX_RECORDS {
      forall past, run, day |
        Receivable(past + run) && NoDrainOn(past, day) && Front(Run(Empty, past).records) <= m && |PostedIds(run)| <= n
        ensures CallsOn(Run(Empty, past + run).calls, day) <= DAILY_CAP
      {
        SizeBound(Empty, past);
        FrontWithin(Run(Empty, past).records);
        DailyCapHoldsWithRoom(past, run, day);
      }
    } else {
      var past, run := ForgottenAttemptsBreakTheCap(if n <= MAX_RECORDS then n else MAX_RECORDS + 1);
      assert CallsOn(Run(Empty, past + run).calls, CRITICAL_DAY) > DAILY_CAP;
    }
  }

  /** From the empty outbox: all runs that poll at most n candidates keep the daily cap if and only if n <= 2,000. */
  lemma DailyCapHoldsExactlyUpTo(n: nat)
    ensures (forall run, day | Receivable(run) && |PostedIds(run)| <= n :: CallsOn(Run(Empty, run).calls, day) <= DAILY_CAP)
            <==> n <= MAX_RECORDS
  {
    hide Run, Receivable, CallsOn, Front, PostedIds;
    if n <= MAX_RECORDS {
      forall run, day | Receivable(run) && |PostedIds(run)| <= n ensures CallsOn(Run(Empty, run).calls, day) <= DAILY_CAP {
        assert [] + run == run;
        RunNone(Empty);
        FrontWithin(Run(Empty, []).records);
        DailyCapHoldsWithRoom([], run, day);
      }
    } else {
      var past, run := ForgottenAttemptsBreakTheCap(MAX_RECORDS + 1);
      assert CallsOn(Run(Empty, past + run).calls, CRITICAL_DAY) > DAILY_CAP;
    }
  }

  // ---------------------------------------------------------------- acceptances

  /** The acceptances are of this instance and earlier ones, and this one's of `id` has left a record. */
  ghost predicate AcceptedIsFound(x: World, id: Id) {
    (forall a :: a in x.accepts ==> a.instance <= x.instance) && (AcceptedNow(x, id) ==> Find(x.records, id).Some?)
  }

  /** With room, an accepted candidate keeps its record. */
  lemma StepKeepsFound(x: World, e: Event, id: Id)
    requires Base(x) && |x.records| + Posts(e) <= MAX_RECORDS && AcceptedIsFound(x, id)
    ensures AcceptedIsFound(Step(x, e), id)
  {
    hide Find, Replace, Recovered, Retain, Admit, Dropped, Sort, Attempts, UniqueRecords;
    match e
    case Poll(news, at) =>
      AdmitFacts(x.records, news, at);
      AdmitPrepends(x.records, news, at);
      RetentionForgetsExactlyTheDropped(Admit(x.records, news, at), 0);
      RetainFinds(Admit(x.records, news, at));
      FindFacts([], id);
    case StartDrain(at) => RecoveredFinds(x.records, at, id);
    case CallAdapter =>
    case Die =>
    case _ =>
      StepRewrites(x, e);
      if Touched(x, e).Some? {
        PutRecord(x.records, Rewritten(x, e, Touched(x, e).value));
      }
  }

  lemma {:induction false} RecoveredFinds(records: seq<Record>, at: int, id: Id)
    ensures Find(Recovered(records, at), id).Some? <==> Find(records, id).Some?
  {
    if records != [] {
      RecoveredFinds(records[1..], at, id);
    }
  }

  lemma {:induction false} NeverRepolled(x: World, run: seq<Event>, id: Id)
    requires Base(x) && |x.records| + |PostedIds(run)| <= MAX_RECORDS && AcceptedIsFound(x, id)
    ensures KeepingRun(x, run, id)
    decreases |run|
  {
    hide Base, Step, Find;
    if run != [] {
      StepBase(x, run[0]);
      StepSize(x, run[0]);
      StepKeepsFound(x, run[0], id);
      NeverRepolled(Step(x, run[0]), run[1..], id);
    }
  }

  /** Whoever has been accepted or is on record is not polled any more. */
  ghost predicate NotAgain(x: World, run: seq<Event>, id: Id) {
    && NoDup(PostedIds(run)) && (forall a :: a in x.accepts ==> a.instance <= x.instance)
    && (AcceptedNow(x, id) || Find(x.records, id).Some? ==> id !in PostedIds(run))
  }

  lemma NoDupParts(a: seq<Id>, b: seq<Id>)
    requires NoDup(a + b)
    ensures NoDup(b) && forall id :: id in a ==> id !in b
  {
    forall i, j | 0 <= i < j < |b| ensures b[i] != b[j] {
      assert (a + b)[|a| + i] == b[i] && (a + b)[|a| + j] == b[j];
    }
    forall id | id in a ensures id !in b {
      var i :| 0 <= i < |a| && a[i] == id;
      forall j | 0 <= j < |b| ensures b[j] != id {
        assert (a + b)[i] == a[i] && (a + b)[|a| + j] == b[j];
      }
    }
  }

  lemma FirstPosts(run: seq<Event>)
    requires run != [] && NoDup(PostedIds(run))
    ensures NoDup(PostedIds(run[1..]))
    ensures forall id :: id in PostedIds(run) <==> (run[0].Poll? && id in run[0].news) || id in PostedIds(run[1..])
    ensures forall id :: run[0].Poll? && id in run[0].news ==> id !in PostedIds(run[1..])
  {
    hide NoDup;
    NoDupParts(if run[0].Poll? then run[0].news else [], PostedIds(run[1..]));
  }

  lemma StepNotAgain(x: World, run: seq<Event>, id: Id)
    requires Base(x) && run != [] && NotAgain(x, run, id)
    ensures NotAgain(Step(x, run[0]), run[1..], id)
  {
    hide Find, Replace, Recovered, Retain, Admit, Dropped, Sort, Attempts, UniqueRecords, PostedIds, NoDup;
    var e, rest := run[0], run[1..];
    FirstPosts(run);
    match e
    case Poll(news, at) =>
      AdmitFacts(x.records, news, at);
      RetainFinds(Admit(x.records, news, at));
    case StartDrain(at) => RecoveredFinds(x.records, at, id);
    case CallAdapter =>
    case Die =>
    case _ =>
      StepRewrites(x, e);
      if Touched(x, e).Some? {
        PutRecord(x.records, Rewritten(x, e, Touched(x, e).value));
      }
  }

  lemma {:induction false} NeverPolledAgain(x: World, run: seq<Event>, id: Id)
    requires Base(x) && NotAgain(x, run, id)
    ensures KeepingRun(x, run, id)
    decreases |run|
  {
    hide Base, Step, Find;
    if run != [] {
      StepBase(x, run[0]);
      StepNotAgain(x, run, id);
      NeverPolledAgain(Step(x, run[0]), run[1..], id);
    }
  }

  /** Within one scout instance no candidate is accepted twice, if all polls together bring at most 2,000 or each only once. */
  lemma AcceptedOnceWithRoom(run: seq<Event>, i: nat, j: nat)
    requires |PostedIds(run)| <= MAX_RECORDS || NoDup(PostedIds(run))
    requires i < j < |Run(Empty, run).accepts|
    ensures Run(Empty, run).accepts[i] != Run(Empty, run).accepts[j]
  {
    var a := Run(Empty, run).accepts[i];
    if a == Run(Empty, run).accepts[j] {
      hide Run, PostedIds;
      if NoDup(PostedIds(run)) {
        NeverPolledAgain(Empty, run, a.candidate);
      } else {
        NeverRepolled(Empty, run, a.candidate);
      }
      NoCandidateAcceptedTwice(run, a.candidate, i, j);
    }
  }
}
