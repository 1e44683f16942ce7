/**
  Everything the trigger dry run writes is accepted by its own strict reader.
 */
module TriggerWriter {
  import opened Common
  import opened Sorting
  import opened TriggerModel
  import opened TriggerReader

  // ---------------------------------------------------------------- sorting keeps keys unique

  ghost predicate UniqueBy<T, K>(s: seq<T>, key: T -> K) {
    forall i, j :: 0 <= i < j < |s| ==> key(s[i]) != key(s[j])
  }

  lemma SortUniqueBy<T, K>(s: seq<T>, le: (T, T) -> bool, key: T -> K)
    requires UniqueBy(s, key)
    ensures UniqueBy(Sort(s, le), key)
  {
    var r := Sort(s, le);
    assert NoDup(s);
    SortNoDup(s, le);
    SortElems(s, le);
    forall i, j | 0 <= i < j < |r| ensures key(r[i]) != key(r[j]) {
      assert r[i] in r && r[j] in r && r[i] != r[j];
      assert r[i] in Sort(s, le) && r[j] in Sort(s, le);
      assert r[i] in s && r[j] in s;
      var k :| 0 <= k < |s| && s[k] == r[i];
      var l :| 0 <= l < |s| && s[l] == r[j];
      assert k < l || l < k;
    }
  }

  lemma TakeFacts<T>(s: seq<T>, n: nat)
    ensures |Take(s, n)| <= n && |Take(s, n)| <= |s|
    ensures forall i :: 0 <= i < |Take(s, n)| ==> Take(s, n)[i] == s[i] && s[i] in s
  {
  }

  function IdOf(c: Candidate): Id { c.id }
  function DayKey(d: DayState): int { d.day }
  function TargetOf(c: Cooldown): Route { c.key }

  lemma Preorders()
    ensures TotalPreorder(NewestFirst()) && TotalPreorder(LatestDayFirst()) && TotalPreorder(LatestTriggerFirst())
  {
  }

  // ---------------------------------------------------------------- the three tables

  lemma SettledCandidates(all: seq<Candidate>, p: Policy, maxStored: nat)
    requires forall i :: 0 <= i < |all| ==> ValidCandidate(all[i]) && all[i].policy == p
    requires UniqueIds(all) && maxStored <= MAX_CANDIDATES
    ensures ValidCandidates(Take(Sort(all, NewestFirst()), maxStored), p)
  {
    hide ValidCandidate, Sort, Take;
    var r := Sort(all, NewestFirst());
    var t := Take(r, maxStored);
    Preorders();
    SortSorts(all, NewestFirst());
    SortElems(all, NewestFirst());
    SortUniqueBy(all, NewestFirst(), IdOf);
    TakeFacts(r, maxStored);
    forall i | 0 <= i < |t| ensures ValidCandidate(t[i]) && t[i].policy == p && t[i].id == t[i].decisionId {
      assert t[i] in Sort(all, NewestFirst());
      assert t[i] in all;
      IdsFollow(t[i]);
    }
    forall i, j | 0 <= i < j < |t| ensures t[i].id != t[j].id {
      assert IdOf(r[i]) != IdOf(r[j]);
    }
    SortedAreOrdered(r, t);
  }

  lemma IdsFollow(c: Candidate)
    requires ValidCandidate(c)
    ensures c.id == c.decisionId
  {
  }

  lemma SortedAreOrdered(r: seq<Candidate>, t: seq<Candidate>)
    requires Sorted(r, NewestFirst()) && |t| <= |r| && forall i :: 0 <= i < |t| ==> t[i] == r[i]
    ensures OrderedCandidates(t)
  {
    forall i | 0 < i < |t| ensures NewestFirst()(t[i - 1], t[i]) {
      assert r[i - 1] == t[i - 1] && r[i] == t[i];
    }
  }

  lemma {:induction false} SetDayKeeps(days: seq<DayState>, day: int, a: Aggregate)
    requires UniqueBy(days, DayKey)
    ensures UniqueBy(SetDay(days, day, a), DayKey)
    ensures forall x :: x in SetDay(days, day, a) <==> x == DayState(day, a) || (x in days && x.day != day)
  {
    if days != [] {
      assert forall i :: 0 <= i < |days[1..]| ==> days[1..][i] == days[i + 1];
      assert UniqueBy(days[1..], DayKey);
      assert forall x :: x in days <==> x == days[0] || x in days[1..];
      assert forall x :: x in days[1..] ==> DayKey(x) != DayKey(days[0]);
      if days[0].day != day {
        SetDayKeeps(days[1..], day, a);
        var r := SetDay(days[1..], day, a);
        forall i | 0 <= i < |r| ensures DayKey(r[i]) != DayKey(days[0]) {
          assert r[i] in r;
        }
      }
    }
  }

  lemma SettledDays(days: seq<DayState>, day: int, a: Aggregate)
    requires ValidDays(days) && ValidDayName(day) && ValidAggregate(a)
    ensures ValidDays(Take(Sort(SetDay(days, day, a), LatestDayFirst()), MAX_DAYS))
  {
    hide ValidAggregate;
    var all := SetDay(days, day, a);
    var r := Sort(all, LatestDayFirst());
    var t := Take(r, MAX_DAYS);
    assert UniqueBy(days, DayKey);
    SetDayKeeps(days, day, a);
    Preorders();
    SortSorts(all, LatestDayFirst());
    SortElems(all, LatestDayFirst());
    SortUniqueBy(all, LatestDayFirst(), DayKey);
    TakeFacts(r, MAX_DAYS);
    hide Sort, Take, SetDay;
    forall i | 0 <= i < |t| ensures ValidDayName(t[i].day) && ValidAggregate(t[i].aggregate) {
      assert t[i] in r && t[i] in all;
    }
    forall i, j | 0 <= i < j < |t| ensures t[i].day != t[j].day {
      assert DayKey(r[i]) != DayKey(r[j]);
    }
    forall i | 0 < i < |t| ensures LatestDayFirst()(t[i - 1], t[i]) {
      assert r[i - 1] == t[i - 1] && r[i] == t[i];
    }
  }

  lemma {:induction false} LiveAre(cs: seq<Cooldown>, p: Policy, now: int)
    requires UniqueKeys(cs)
    ensures UniqueKeys(Live(cs, p, now))
    ensures forall x :: x in Live(cs, p, now) <==> x in cs && now < SafeAdd(x.last, p.cooldown)
  {
    if cs != [] {
      assert UniqueKeys(cs[1..]);
      assert forall x :: x in cs <==> x == cs[0] || x in cs[1..];
      assert forall x :: x in cs[1..] ==> x.key != cs[0].key;
      LiveAre(cs[1..], p, now);
      var r := Live(cs[1..], p, now);
      forall i | 0 <= i < |r| ensures r[i].key != cs[0].key {
        assert r[i] in r;
      }
    }
  }

  lemma SettledCooldowns(cs: seq<Cooldown>, p: Policy, now: int)
    requires UniqueKeys(cs) && InRange(cs)
    ensures ValidCooldowns(Take(Sort(Live(cs, p, now), LatestTriggerFirst()), MAX_COOLDOWNS))
  {
    var all := Live(cs, p, now);
    var r := Sort(all, LatestTriggerFirst());
    var t := Take(r, MAX_COOLDOWNS);
    LiveAre(cs, p, now);
    assert UniqueBy(all, TargetOf);
    Preorders();
    SortSorts(all, LatestTriggerFirst());
    SortElems(all, LatestTriggerFirst());
    SortUniqueBy(all, LatestTriggerFirst(), TargetOf);
    TakeFacts(r, MAX_COOLDOWNS);
    hide Sort, Take, Live;
    forall i | 0 <= i < |t| ensures Within(t[i].last, 1, MAX_SAFE) {
      assert t[i] in r && t[i] in all && t[i] in cs;
    }
    forall i, j | 0 <= i < j < |t| ensures t[i].key != t[j].key {
      assert TargetOf(r[i]) != TargetOf(r[j]);
    }
    forall i | 0 < i < |t| ensures LatestTriggerFirst()(t[i - 1], t[i]) {
      assert r[i - 1] == t[i - 1] && r[i] == t[i];
    }
  }

  // ---------------------------------------------------------------- the writer against the reader

  /** What a written state satisfies: the reader accepts it, and it holds candidates only once some were counted. */
  ghost predicate Written(s: DryRun) {
    ValidDryRun(s) && (s.totals.evaluated == 0 ==> s.candidates == [])
  }

  /** No counter is about to run past the largest safe integer. */
  ghost predicate HasRoom(s: DryRun, n: nat) {
    s.totals.evaluated + n <= MAX_SAFE && forall i :: 0 <= i < |s.days| ==> s.days[i].aggregate.evaluated + n <= MAX_SAFE
  }

  lemma {:induction false} DayAggregateFound(days: seq<DayState>, day: int)
    ensures var a := DayAggregate(days, day);
            a.Some? ==> exists i :: 0 <= i < |days| && days[i] == DayState(day, a.value)
  {
    if days != [] && days[0].day != day {
      DayAggregateFound(days[1..], day);
      if DayAggregate(days, day).Some? {
        var i :| 0 <= i < |days[1..]| && days[1..][i] == DayState(day, DayAggregate(days, day).value);
        assert days[i + 1] == DayState(day, DayAggregate(days, day).value);
      }
    } else if days != [] {
      assert days[0] == DayState(day, days[0].aggregate);
    }
  }

  lemma BeginSound(s: DryRun, p: Policy, evaluatedAt: int, n: nat)
    requires Written(s) && HasRoom(s, n) && n <= MAX_SAFE && (s.totals.evaluated > 0 ==> s.policy == p)
    ensures var w := Begin(s, evaluatedAt);
            Sound(w, s.candidates, p) && w.totals.evaluated + n <= MAX_SAFE && w.today.evaluated + n <= MAX_SAFE
    ensures forall i :: 0 <= i < |s.candidates| ==> s.candidates[i].policy == p
  {
    hide ValidCandidate, ValidAggregate, ValidPolicy;
    DayAggregateFound(s.days, UtcDay(evaluatedAt));
    EmptyAggregateIsValid();
    CountsAreNatural(s.totals);
    var w := Begin(s, evaluatedAt);
    BeginKnows(s.candidates);
    assert NewOnes([], p);
  }

  lemma BeginKnows(candidates: seq<Candidate>)
    requires UniqueIds(candidates)
    ensures Knows([], candidates, IdsOf(candidates))
  {
    assert [] + candidates == candidates;
    assert forall i :: 0 <= i < |candidates| ==> candidates[i].id in IdsOf(candidates);
  }

  lemma EmptyAggregateIsValid()
    ensures ValidAggregate(EmptyAggregate) && EmptyAggregate.evaluated == 0
  {
  }

  lemma {:induction false} ConsiderAllCounts(w: Work, ds: seq<Decision>, p: Policy, evaluatedAt: int)
    requires ConsiderAll(w, ds, p, evaluatedAt).Some?
    ensures var w' := ConsiderAll(w, ds, p, evaluatedAt).value;
            w.totals.evaluated <= w'.totals.evaluated
            && (w.totals.evaluated >= 0 && w'.totals.evaluated == 0 ==> w'.created == w.created)
    decreases |ds|
  {
    if ds != [] {
      ConsiderAllCounts(Consider(w, ds[0], p, evaluatedAt).value, ds[1..], p, evaluatedAt);
    }
  }

  /**
    The strict reader accepts every state the writer produces from a written one, for decisions that were
    evaluated with distinct reason codes, while no counter overflows and days have four-digit years.
   */
  lemma WrittenStatesAreRead(s: DryRun, ds: seq<Decision>, p: Policy, evaluatedAt: int, maxStored: nat)
    requires Written(s) && ValidPolicy(p) && maxStored <= MAX_CANDIDATES && HasRoom(s, |ds|) && |ds| <= MAX_SAFE
    requires ValidDayName(UtcDay(evaluatedAt)) && forall i :: 0 <= i < |ds| ==> Distinct(ds[i].reasons)
    requires Record(s, ds, p, evaluatedAt, maxStored).Some?
    ensures Written(Record(s, ds, p, evaluatedAt, maxStored).value.0)
  {
    hide ValidCandidate, ValidAggregate, Consider, Distinct;
    var w0 := Begin(s, evaluatedAt);
    BeginSound(s, p, evaluatedAt, |ds|);
    ConsiderAllSound(w0, ds, p, evaluatedAt, s.candidates);
    ConsiderAllCounts(w0, ds, p, evaluatedAt);
    var w := ConsiderAll(w0, ds, p, evaluatedAt).value;
    var all := w.created + s.candidates;
    AllAreValid(w, s, p);
    assert s.totals.evaluated >= 0 by { CountsAreNatural(s.totals); }
    hide Sound, ConsiderAll, Begin;
    assert w0.created == [] && w0.totals == s.totals by { BeginsEmpty(s, evaluatedAt); }
    SettledCandidates(all, p, maxStored);
    SettledDays(s.days, UtcDay(evaluatedAt), w.today);
    SettledCooldowns(w.cooldowns, p, evaluatedAt);
    if w.totals.evaluated == 0 {
      assert all == [];
      assert Take(Sort(all, NewestFirst()), maxStored) == [];
    }
  }

  lemma CountsAreNatural(a: Aggregate)
    requires ValidAggregate(a)
    ensures a.evaluated >= 0
  {
  }

  lemma BeginsEmpty(s: DryRun, evaluatedAt: int)
    ensures Begin(s, evaluatedAt).created == [] && Begin(s, evaluatedAt).totals == s.totals
  {
  }

  lemma AllAreValid(w: Work, s: DryRun, p: Policy)
    requires Sound(w, s.candidates, p) && ValidDryRun(s) && forall i :: 0 <= i < |s.candidates| ==> s.candidates[i].policy == p
    ensures var all := w.created + s.candidates;
            UniqueIds(all) && forall i :: 0 <= i < |all| ==> ValidCandidate(all[i]) && all[i].policy == p
    ensures ValidAggregate(w.totals) && ValidAggregate(w.today) && UniqueKeys(w.cooldowns) && InRange(w.cooldowns)
  {
    hide ValidCandidate, ValidAggregate;
    assert NewOnes(w.created, p) && Knows(w.created, s.candidates, w.known);
  }

  /** The empty state is written. */
  lemma EmptyIsWritten(p: Policy)
    requires ValidPolicy(p)
    ensures Written(EmptyDryRun(p))
  {
    hide ValidAggregate, ValidPolicy;
    EmptyAggregateIsValid();
  }

  /**
    Why `Written` asks more than the reader does: a state that counts nothing but holds candidates of
    another policy is accepted by the reader, and recording nothing at all makes it unreadable.
   */
  lemma UncountedCandidatesMixPolicies(s: DryRun, p: Policy, evaluatedAt: int)
    requires ValidDryRun(s) && s.totals.evaluated == 0 && s.candidates != [] && s.policy != p
    ensures Record(s, [], p, evaluatedAt, MAX_CANDIDATES).Some?
    ensures !ValidDryRun(Record(s, [], p, evaluatedAt, MAX_CANDIDATES).value.0)
  {
    hide ValidCandidate, ValidAggregate, ValidDays, ValidCooldowns, Sort;
    var r := Record(s, [], p, evaluatedAt, MAX_CANDIDATES).value.0;
    assert [] + s.candidates == s.candidates;
    SortPermutes(s.candidates, NewestFirst());
    SortElems(s.candidates, NewestFirst());
    var c := s.candidates[0];
    assert c in s.candidates && c in Sort(s.candidates, NewestFirst());
    assert c in r.candidates && c.policy == s.policy;
  }
}
