/**
  The strict reader of the trigger dry run, after the validateTrigger* functions of
  shared/market-event-scout.ts, and the proof that it accepts everything the writer produces.
 */
module TriggerReader {
  import opened Common
  import opened TriggerModel

  // ---------------------------------------------------------------- the reader

  predicate RouteMatchesAssociation(route: Option<Route>, association: Association) {
    match route
    case Some(TickerBrief(_)) => association == Structured || association == Explicit
    case Some(_) => association == MarketWide
    case None => true
  }

  predicate ValidCandidate(c: Candidate) {
    && c.id == CandidateId(c.decisionId)
    && Within(c.observedAt, 1, MAX_SAFE) && (c.publishedAt.Some? ==> Within(c.publishedAt.value, 1, MAX_SAFE))
    && Within(c.evaluatedAt, c.observedAt, MAX_SAFE) && Within(c.priority, 0, 100)
    && |c.reasons| <= 10 && Distinct(c.reasons)
    && ValidPolicy(c.policy) && Within(c.expiresAt, 1, MAX_SAFE)
    && |c.gates| <= 6 && Distinct(c.gates)
    && c.targetKey == c.route && RouteMatchesAssociation(c.route, c.association)
    && c.expiresAt == SafeAdd(PublishedOrObserved(c.publishedAt, c.observedAt), c.policy.ttl)
    && (NotAdmitted in c.gates <==> c.disposition != Admit)
    && (UnsupportedRoute in c.gates <==> c.route.None?)
    && (BelowPriority in c.gates <==> c.priority < c.policy.minPriority)
    && (Expired in c.gates <==> c.evaluatedAt >= c.expiresAt)
    && (var stateless := c.disposition != Admit || c.route.None? || c.priority < c.policy.minPriority || c.evaluatedAt >= c.expiresAt;
        && !(stateless && (TargetCooldown in c.gates || DailyCap in c.gates))
        && (if c.wouldTrigger then c.gates == []
            else c.gates != [] && (stateless || TargetCooldown in c.gates || DailyCap in c.gates)))
  }

  predicate Counter(x: int) {
    Within(x, 0, MAX_SAFE)
  }

  predicate ValidAggregate(a: Aggregate) {
    && Counter(a.evaluated) && Counter(a.mapped) && Counter(a.wouldTrigger) && Counter(a.gated) && Counter(a.missingPublishedAt)
    && Counter(a.tickerBrief) && Counter(a.macroBrief) && Counter(a.storyBrief) && Counter(a.unsupported)
    && Counter(a.structured) && Counter(a.explicit) && Counter(a.marketWide) && Counter(a.unresolved)
    && a.mapped == a.tickerBrief + a.macroBrief + a.storyBrief
    && a.evaluated == a.mapped + a.unsupported
    && a.evaluated == a.wouldTrigger + a.gated
    && a.missingPublishedAt <= a.evaluated
    && a.evaluated == a.structured + a.explicit + a.marketWide + a.unresolved
    && (forall g :: Counter(a.gates.Of(g)) && a.gates.Of(g) <= a.gated)
  }

  predicate OrderedCandidates(cs: seq<Candidate>) {
    forall i :: 0 < i < |cs| ==>
      var a, b := cs[i - 1], cs[i];
      && !(a.evaluatedAt < b.evaluatedAt)
      && !(a.evaluatedAt == b.evaluatedAt && a.priority < b.priority)
      && !(a.evaluatedAt == b.evaluatedAt && a.priority == b.priority && a.id > b.id)
  }

  predicate ValidDays(days: seq<DayState>) {
    && |days| <= MAX_DAYS
    && (forall i :: 0 <= i < |days| ==> ValidDayName(days[i].day) && ValidAggregate(days[i].aggregate))
    && (forall i, j :: 0 <= i < j < |days| ==> days[i].day != days[j].day)
    && (forall i :: 0 < i < |days| ==> !(days[i].day > days[i - 1].day))
  }

  predicate ValidCooldowns(cs: seq<Cooldown>) {
    && |cs| <= MAX_COOLDOWNS
    && (forall i :: 0 <= i < |cs| ==> Within(cs[i].last, 1, MAX_SAFE))
    && (forall i :: 0 < i < |cs| ==> !(cs[i].last > cs[i - 1].last))
    && (forall i, j :: 0 <= i < j < |cs| ==> cs[i].key != cs[j].key)
  }

  predicate ValidCandidates(cs: seq<Candidate>, p: Policy) {
    && |cs| <= MAX_CANDIDATES
    && (forall i :: 0 <= i < |cs| ==> ValidCandidate(cs[i]) && cs[i].policy == p)
    && (forall i, j :: 0 <= i < j < |cs| ==> cs[i].id != cs[j].id && cs[i].decisionId != cs[j].decisionId)
    && OrderedCandidates(cs)
  }

  predicate ValidDryRun(s: DryRun) {
    && ValidPolicy(s.policy) && ValidCandidates(s.candidates, s.policy) && ValidAggregate(s.totals)
    && ValidDays(s.days) && ValidCooldowns(s.cooldowns)
  }

  // ---------------------------------------------------------------- decisions have routes

  /** Every decision the evaluator makes passes the reader's checks, and every admitted one has a route. */
  lemma EvaluatedDecisionsAreValid(source: Source, item: Item, observedAt: int, tracked: set<Symbol>)
    requires Within(observedAt, 1, MAX_SAFE) && (item.publishedAt.Some? ==> Within(item.publishedAt.value, 1, MAX_SAFE))
    requires Distinct(item.structured) && Distinct(item.extracted)
    ensures var d := EvaluateEvent(source, item, observedAt, tracked);
            && ValidDecision(d) && Distinct(d.reasons)
            && (d.disposition == Admit ==> ProposeRoute(d).Some?)
            && RouteMatchesAssociation(ProposeRoute(d), d.association)
  {
  }

  // ---------------------------------------------------------------- candidates

  function Flag(b: bool, g: Gate): seq<Gate> {
    if b then [g] else []
  }

  lemma AppendFlag(s: seq<Gate>, b: bool, g: Gate)
    requires Distinct(s) && g !in s
    ensures Distinct(s + Flag(b, g)) && |s + Flag(b, g)| <= |s| + 1
    ensures forall x :: x in s + Flag(b, g) <==> x in s || (b && x == g)
  {
  }

  lemma FourFlags(a: bool, b: bool, c: bool, d: bool)
    ensures var s := Flag(a, NotAdmitted) + Flag(b, UnsupportedRoute) + Flag(c, BelowPriority) + Flag(d, Expired);
            && Distinct(s) && |s| <= 4 && (s == [] <==> !a && !b && !c && !d)
            && (NotAdmitted in s <==> a) && (UnsupportedRoute in s <==> b) && (BelowPriority in s <==> c) && (Expired in s <==> d)
            && TargetCooldown !in s && DailyCap !in s
  {
    var s1 := Flag(a, NotAdmitted);
    var s2 := s1 + Flag(b, UnsupportedRoute);
    var s3 := s2 + Flag(c, BelowPriority);
    assert forall x :: x in s1 <==> a && x == NotAdmitted;
    hide Flag, Distinct;
    assert Distinct(s1) && |s1| <= 1 by { OneFlag(a, NotAdmitted); }
    AppendFlag(s1, b, UnsupportedRoute);
    AppendFlag(s2, c, BelowPriority);
    AppendFlag(s3, d, Expired);
    var s := s3 + Flag(d, Expired);
    if s != [] {
      assert s[0] in s;
    }
  }

  lemma OneFlag(b: bool, g: Gate)
    ensures Distinct(Flag(b, g)) && |Flag(b, g)| <= 1
  {
  }

  lemma TwoFlags(a: bool, b: bool)
    ensures var s := Flag(a, TargetCooldown) + Flag(b, DailyCap);
            && Distinct(s) && |s| <= 2 && (TargetCooldown in s <==> a) && (DailyCap in s <==> b)
            && forall g :: g in s ==> g == TargetCooldown || g == DailyCap
  {
  }

  lemma GatesAre(d: Decision, p: Policy, evaluatedAt: int, last: Option<int>, today: int)
    ensures var gates := Gates(d, p, evaluatedAt, last, today);
            var expired := evaluatedAt >= SafeAdd(PublishedOrObserved(d.publishedAt, d.observedAt), p.ttl);
            var stateless := d.disposition != Admit || ProposeRoute(d).None? || d.priority < p.minPriority || expired;
            && Distinct(gates) && |gates| <= 6
            && (NotAdmitted in gates <==> d.disposition != Admit)
            && (UnsupportedRoute in gates <==> ProposeRoute(d).None?)
            && (BelowPriority in gates <==> d.priority < p.minPriority)
            && (Expired in gates <==> expired)
            && (TargetCooldown in gates <==> !stateless && last.Some? && evaluatedAt < SafeAdd(last.value, p.cooldown))
            && (DailyCap in gates <==> !stateless && today >= p.dailyCap)
  {
    var expired := evaluatedAt >= SafeAdd(PublishedOrObserved(d.publishedAt, d.observedAt), p.ttl);
    var cooling := last.Some? && evaluatedAt < SafeAdd(last.value, p.cooldown);
    FourFlags(d.disposition != Admit, ProposeRoute(d).None?, d.priority < p.minPriority, expired);
    TwoFlags(cooling, today >= p.dailyCap);
    assert StatelessGates(d, p, evaluatedAt) ==
           Flag(d.disposition != Admit, NotAdmitted) + Flag(ProposeRoute(d).None?, UnsupportedRoute)
           + Flag(d.priority < p.minPriority, BelowPriority) + Flag(expired, Expired);
    hide SafeAdd, ProposeRoute, StatelessGates, Distinct;
    assert Gates(d, p, evaluatedAt, last, today) ==
           if StatelessGates(d, p, evaluatedAt) != [] then StatelessGates(d, p, evaluatedAt)
           else Flag(cooling, TargetCooldown) + Flag(today >= p.dailyCap, DailyCap);
    hide Flag;
  }

  lemma RouteFits(d: Decision)
    requires ValidSemantics(d)
    ensures RouteMatchesAssociation(ProposeRoute(d), d.association)
  {
  }

  /** The reader accepts an evaluated candidate exactly when the decision's reason codes are distinct. */
  lemma CandidateAcceptedExactlyWithDistinctReasons(d: Decision, p: Policy, evaluatedAt: int, last: Option<int>, today: int)
    requires EvaluateCandidate(d, p, evaluatedAt, last, today).Some?
    ensures ValidCandidate(EvaluateCandidate(d, p, evaluatedAt, last, today).value) <==> Distinct(d.reasons)
  {
    GatesAre(d, p, evaluatedAt, last, today);
    RouteFits(d);
    hide Gates, ProposeRoute, ValidSemantics;
    var c := EvaluateCandidate(d, p, evaluatedAt, last, today).value;
    if c.gates != [] {
      assert c.gates[0] in c.gates;
      FirstGateIsAGate(c.gates[0]);
    }
  }

  lemma FirstGateIsAGate(g: Gate)
    ensures g in {NotAdmitted, UnsupportedRoute, BelowPriority, Expired, TargetCooldown, DailyCap}
  {
  }

  // ---------------------------------------------------------------- counters

  lemma {:induction false} OccurrencesBound(gates: seq<Gate>, g: Gate)
    requires Distinct(gates)
    ensures 0 <= Occurrences(gates, g) <= 1
    ensures g !in gates ==> Occurrences(gates, g) == 0
  {
    if gates != [] {
      assert Distinct(gates[1..]);
      assert gates[0] !in gates[1..];
      OccurrencesBound(gates[1..], g);
    }
  }

  lemma IncrementValid(a: Aggregate, c: Candidate)
    requires ValidAggregate(a) && ValidCandidate(c) && a.evaluated < MAX_SAFE
    ensures ValidAggregate(Increment(a, c)) && Increment(a, c).evaluated == a.evaluated + 1
  {
    var b := Increment(a, c);
    forall g ensures Counter(b.gates.Of(g)) && b.gates.Of(g) <= b.gated {
      OccurrencesBound(c.gates, g);
      assert b.gates.Of(g) == a.gates.Of(g) + Occurrences(c.gates, g);
      assert c.gates == [] ==> Occurrences(c.gates, g) == 0;
    }
  }

  // ---------------------------------------------------------------- the recording loop

  ghost predicate UniqueKeys(cs: seq<Cooldown>) {
    forall i, j :: 0 <= i < j < |cs| ==> cs[i].key != cs[j].key
  }

  ghost predicate InRange(cs: seq<Cooldown>) {
    forall i :: 0 <= i < |cs| ==> Within(cs[i].last, 1, MAX_SAFE)
  }

  /** What the loop keeps: valid new candidates under new ids, valid counters, one cooldown per target. */
  ghost predicate Sound(w: Work, base: seq<Candidate>, p: Policy) {
    && ValidAggregate(w.totals) && ValidAggregate(w.today) && UniqueKeys(w.cooldowns) && InRange(w.cooldowns)
    && NewOnes(w.created, p) && Knows(w.created, base, w.known)
  }

  ghost predicate UniqueIds(cs: seq<Candidate>) {
    forall i, j :: 0 <= i < j < |cs| ==> cs[i].id != cs[j].id
  }

  lemma {:induction false} SetTriggerKeeps(cs: seq<Cooldown>, key: Route, at: int)
    requires UniqueKeys(cs) && InRange(cs) && Within(at, 1, MAX_SAFE)
    ensures UniqueKeys(SetTrigger(cs, key, at)) && InRange(SetTrigger(cs, key, at))
    ensures forall x :: x in SetTrigger(cs, key, at) <==> x == Cooldown(key, at) || (x in cs && x.key != key)
  {
    if cs != [] {
      assert UniqueKeys(cs[1..]) && InRange(cs[1..]);
      assert forall x :: x in cs <==> x == cs[0] || x in cs[1..];
      assert forall x :: x in cs[1..] ==> x.key != cs[0].key;
      if cs[0].key == key {
        assert forall x :: x in SetTrigger(cs, key, at) <==> x == Cooldown(key, at) || x in cs[1..];
      } else {
        SetTriggerKeeps(cs[1..], key, at);
        var r := SetTrigger(cs[1..], key, at);
        forall i | 0 <= i < |r| ensures r[i].key != cs[0].key && Within(r[i].last, 1, MAX_SAFE) {
          assert r[i] in r;
        }
      }
    }
  }

  /** Looking a key up finds its one entry, if it has one. */
  lemma {:induction false} LastTriggerFinds(cs: seq<Cooldown>, key: Route)
    requires UniqueKeys(cs)
    ensures LastTrigger(cs, key).Some? ==> Cooldown(key, LastTrigger(cs, key).value) in cs
    ensures forall x :: x in cs && x.key == key ==> LastTrigger(cs, key) == Some(x.last)
  {
    if cs != [] {
      assert UniqueKeys(cs[1..]);
      assert forall x :: x in cs <==> x == cs[0] || x in cs[1..];
      assert forall x :: x in cs[1..] ==> x.key != cs[0].key;
      LastTriggerFinds(cs[1..], key);
    }
  }

  lemma EvaluatedFields(d: Decision, p: Policy, evaluatedAt: int, last: Option<int>, today: int)
    requires EvaluateCandidate(d, p, evaluatedAt, last, today).Some? && Distinct(d.reasons)
    ensures var c := EvaluateCandidate(d, p, evaluatedAt, last, today).value;
            ValidCandidate(c) && c.policy == p && c.id == CandidateId(d.id) && Within(evaluatedAt, 1, MAX_SAFE)
  {
    CandidateAcceptedExactlyWithDistinctReasons(d, p, evaluatedAt, last, today);
    hide ValidCandidate;
  }

  ghost predicate NewOnes(created: seq<Candidate>, p: Policy) {
    forall i :: 0 <= i < |created| ==> ValidCandidate(created[i]) && created[i].policy == p
  }

  ghost predicate Knows(created: seq<Candidate>, base: seq<Candidate>, known: set<Id>) {
    UniqueIds(created + base) && forall i :: 0 <= i < |created + base| ==> (created + base)[i].id in known
  }

  lemma ConsiderSound(w: Work, d: Decision, p: Policy, evaluatedAt: int, base: seq<Candidate>)
    requires Sound(w, base, p) && Distinct(d.reasons) && w.totals.evaluated < MAX_SAFE && w.today.evaluated < MAX_SAFE
    requires Consider(w, d, p, evaluatedAt).Some?
    ensures var w' := Consider(w, d, p, evaluatedAt).value;
            && Sound(w', base, p)
            && w'.totals.evaluated <= w.totals.evaluated + 1 && w'.today.evaluated <= w.today.evaluated + 1
  {
    hide EvaluateCandidate, ValidCandidate, ValidAggregate, Increment, UniqueKeys, InRange, NewOnes, Knows, Distinct, ProposeRoute;
    var w' := Consider(w, d, p, evaluatedAt).value;
    if CandidateId(d.id) !in w.known {
      var key := ProposeRoute(d);
      var last := if key.Some? then LastTrigger(w.cooldowns, key.value) else None;
      var c := EvaluateCandidate(d, p, evaluatedAt, last, w.today.wouldTrigger).value;
      EvaluatedFields(d, p, evaluatedAt, last, w.today.wouldTrigger);
      IncrementValid(w.totals, c);
      IncrementValid(w.today, c);
      if c.wouldTrigger && c.targetKey.Some? {
        SetTriggerKeeps(w.cooldowns, c.targetKey.value, evaluatedAt);
      }
      AppendUnique(w.created, c, base, w.known);
      AppendNew(w.created, c, p);
    }
  }

  lemma AppendNew(created: seq<Candidate>, c: Candidate, p: Policy)
    requires NewOnes(created, p) && ValidCandidate(c) && c.policy == p
    ensures NewOnes(created + [c], p)
  {
    hide ValidCandidate;
  }

  lemma AppendUnique(created: seq<Candidate>, c: Candidate, base: seq<Candidate>, known: set<Id>)
    requires Knows(created, base, known) && c.id !in known
    ensures Knows(created + [c], base, known + {c.id})
  {
    var had, now, n := created + base, created + [c] + base, |created|;
    assert forall i :: 0 <= i < n ==> now[i] == had[i];
    assert forall i :: n < i < |now| ==> now[i] == had[i - 1];
  }

  lemma {:induction false} ConsiderAllSound(w: Work, ds: seq<Decision>, p: Policy, evaluatedAt: int, base: seq<Candidate>)
    requires Sound(w, base, p) && (forall i :: 0 <= i < |ds| ==> Distinct(ds[i].reasons))
    requires w.totals.evaluated + |ds| <= MAX_SAFE && w.today.evaluated + |ds| <= MAX_SAFE
    requires ConsiderAll(w, ds, p, evaluatedAt).Some?
    ensures Sound(ConsiderAll(w, ds, p, evaluatedAt).value, base, p)
    decreases |ds|
  {
    hide Sound, Consider;
    if ds != [] {
      ConsiderSound(w, ds[0], p, evaluatedAt, base);
      ConsiderAllSound(Consider(w, ds[0], p, evaluatedAt).value, ds[1..], p, evaluatedAt, base);
    }
  }
}
