/**
  recordTriggerCandidates as it runs: the stored dry-run state is updated in place, decision by
  decision, and proved equal to the function `Record` of TriggerModel.
 */
module TriggerRecorder {
  import opened Common
  import opened TriggerModel

  lemma {:induction false} OccurrencesAppend(gates: seq<Gate>, x: Gate, g: Gate)
    ensures Occurrences(gates + [x], g) == Occurrences(gates, g) + One(x == g)
  {
    if gates == [] {
      assert gates + [x] == [x];
    } else {
      assert (gates + [x])[1..] == gates[1..] + [x];
      OccurrencesAppend(gates[1..], x, g);
    }
  }

  /** One more candidate in a set of counters, gate by gate. */
  method IncrementAggregate(a: Aggregate, c: Candidate) returns (b: Aggregate)
    ensures b == Increment(a, c)
  {
    b := a.(evaluated := a.evaluated + 1);
    if c.route.Some? { b := b.(mapped := b.mapped + 1); }
    if c.wouldTrigger { b := b.(wouldTrigger := b.wouldTrigger + 1); } else { b := b.(gated := b.gated + 1); }
    if c.publishedAt.None? { b := b.(missingPublishedAt := b.missingPublishedAt + 1); }
    match c.route {
      case Some(TickerBrief(_)) => b := b.(tickerBrief := b.tickerBrief + 1);
      case Some(MacroBrief) => b := b.(macroBrief := b.macroBrief + 1);
      case Some(StoryBrief) => b := b.(storyBrief := b.storyBrief + 1);
      case None => b := b.(unsupported := b.unsupported + 1);
    }
    match c.association {
      case Structured => b := b.(structured := b.structured + 1);
      case Explicit => b := b.(explicit := b.explicit + 1);
      case MarketWide => b := b.(marketWide := b.marketWide + 1);
      case Unresolved => b := b.(unresolved := b.unresolved + 1);
    }
    var counts := CountReasons(a.gates, c.gates);
    b := b.(gates := counts);
  }

  method CountReasons(before: GateCounts, gates: seq<Gate>) returns (counts: GateCounts)
    ensures counts == CountGates(before, gates)
  {
    counts := before;
    for i := 0 to |gates|
      invariant counts == CountGates(before, gates[..i])
    {
      assert gates[..i + 1] == gates[..i] + [gates[i]];
      forall g ensures Occurrences(gates[..i + 1], g) == Occurrences(gates[..i], g) + One(gates[i] == g) {
        OccurrencesAppend(gates[..i], gates[i], g);
      }
      match gates[i] {
        case NotAdmitted => counts := counts.(notAdmitted := counts.notAdmitted + 1);
        case UnsupportedRoute => counts := counts.(unsupportedRoute := counts.unsupportedRoute + 1);
        case BelowPriority => counts := counts.(belowPriority := counts.belowPriority + 1);
        case Expired => counts := counts.(expired := counts.expired + 1);
        case TargetCooldown => counts := counts.(targetCooldown := counts.targetCooldown + 1);
        case DailyCap => counts := counts.(dailyCap := counts.dailyCap + 1);
      }
    }
    assert gates[..|gates|] == gates;
  }

  class TriggerDryRunState {
    var policy: Policy
    var candidates: seq<Candidate>
    var totals: Aggregate
    var days: seq<DayState>
    var cooldowns: seq<Cooldown>

    ghost function View(): DryRun
      reads this
    {
      DryRun(policy, candidates, totals, days, cooldowns)
    }

    constructor (p: Policy)
      ensures View() == EmptyDryRun(p)
    {
      policy, candidates, totals, days, cooldowns := p, [], EmptyAggregate, [], [];
    }

    /** None: the source throws, and the poll is abandoned without writing this state. */
    method RecordTriggerCandidates(ds: seq<Decision>, p: Policy, evaluatedAt: int, maxStored: nat)
      returns (created: Option<seq<Candidate>>)
      modifies this
      ensures created.Some? <==> Record(old(View()), ds, p, evaluatedAt, maxStored).Some?
      ensures created.Some? ==> (View(), created.value) == Record(old(View()), ds, p, evaluatedAt, maxStored).value
    {
      if totals.evaluated > 0 && policy != p {
        return None;
      }
      hide EvaluateCandidate, Increment, Settle, Begin;
      policy := p;
      ghost var was := old(View());
      ghost var w := Begin(was, evaluatedAt);
      ghost var whole := ConsiderAll(w, ds, p, evaluatedAt);
      var known, today, table, made := Starting(evaluatedAt);
      assert ds[0..] == ds;
      for i := 0 to |ds|
        invariant w == Work(totals, today, table, known, made)
        invariant ConsiderAll(w, ds[i..], p, evaluatedAt) == whole
        invariant candidates == was.candidates && days == was.days && cooldowns == was.cooldowns && policy == p
      {
        assert ds[i..][0] == ds[i] && ds[i..][1..] == ds[i + 1..];
        if CandidateId(ds[i].id) in known {
          continue;
        }
        var key := ProposeRoute(ds[i]);
        var last := if key.Some? then LastTrigger(table, key.value) else None;
        var c := EvaluateCandidate(ds[i], p, evaluatedAt, last, today.wouldTrigger);
        if c.None? {
          return None;
        }
        known := known + {c.value.id};
        made := made + [c.value];
        totals := IncrementAggregate(totals, c.value);
        today := IncrementAggregate(today, c.value);
        if c.value.wouldTrigger && c.value.targetKey.Some? {
          table := SetTrigger(table, c.value.targetKey.value, evaluatedAt);
        }
        w := Work(totals, today, table, known, made);
      }
      assert whole == Some(w);
      var settled := Settle(DryRun(policy, candidates, totals, days, cooldowns),
                            Work(totals, today, table, known, made), p, evaluatedAt, maxStored);
      SettleIgnoresCounts(was, View(), w, p, evaluatedAt, maxStored);
      candidates, days, cooldowns := settled.candidates, settled.days, settled.cooldowns;
      SettleSets(was, w, p, evaluatedAt, maxStored);
      return Some(made);
    }

    /** What the loop starts from: retained ids, today's counters, the cooldown table, no new candidates. */
    method Starting(evaluatedAt: int) returns (known: set<Id>, today: Aggregate, table: seq<Cooldown>, made: seq<Candidate>)
      ensures Work(totals, today, table, known, made) == Begin(View(), evaluatedAt)
    {
      known := IdsOf(candidates);
      var found := DayAggregate(days, UtcDay(evaluatedAt));
      today := if found.Some? then found.value else EmptyAggregate;
      table, made := cooldowns, [];
    }
  }

  lemma SettleIgnoresCounts(was: DryRun, s: DryRun, w: Work, p: Policy, evaluatedAt: int, maxStored: nat)
    requires s.candidates == was.candidates && s.days == was.days
    ensures Settle(s, w, p, evaluatedAt, maxStored) == Settle(was, w, p, evaluatedAt, maxStored)
  {
  }

  lemma SettleSets(was: DryRun, w: Work, p: Policy, evaluatedAt: int, maxStored: nat)
    ensures Settle(was, w, p, evaluatedAt, maxStored).policy == p && Settle(was, w, p, evaluatedAt, maxStored).totals == w.totals
  {
  }
}
