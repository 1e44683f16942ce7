/**
  The trigger dry run of the event scout, after shared/market-event-scout.ts: how a feed event becomes
  a decision, how a decision becomes a gated trigger candidate, and how candidates are recorded with
  counters, cooldowns and daily caps.

  Symbols are normalized symbols; decision and candidate ids stand for themselves (the hash between them
  is taken to be injective); titles, links and labels are left out.
 */
module TriggerModel {
  import opened Common
  import opened Sorting

  type Symbol = nat

  const EVENT_MAX_AGE_MS := 259_200_000
  const EVENT_MAX_FUTURE_SKEW_MS := 900_000
  const MAX_SYMBOLS := 20
  const MAX_DAYS := 31
  const MAX_COOLDOWNS := 2_000
  const MAX_CANDIDATES := 2_000

  datatype Family = HaltFeed | CorporateActionFeed | FilingFeed | MacroFeed | OtherFeed
  datatype EventClass = Halt | CorporateAction | Filing | Macro | Regulatory | Other
  datatype Association = Structured | Explicit | MarketWide | Unresolved
  datatype Disposition = Admit | Watch | Suppress
  datatype Lane = MacroLane | StoryLane
  datatype Target = Ticker(symbol: Symbol) | Market(lane: Lane)

  /** A route doubles as the key of its target. */
  datatype Route = TickerBrief(symbol: Symbol) | MacroBrief | StoryBrief

  datatype Reason =
    | UnsupportedClass | StalePublication | FuturePublication | HighImpactMacro | StructuredHalt | Ambiguous
    | SingleSecurity | OutsideUniverse | NeedsMateriality | NeedsMapping | InsufficientAssociation

  datatype Source = Source(family: Family, lane: Option<Lane>)

  /** `matches`: the text matches the family's pattern. `structured` and `extracted` are the symbols found, without repeats. */
  datatype Item = Item(id: Id, publishedAt: Option<int>, matches: bool, structured: seq<Symbol>, extracted: seq<Symbol>)

  datatype Decision = Decision(
    id: Id,
    observedAt: int,
    publishedAt: Option<int>,
    eventClass: EventClass,
    association: Association,
    symbols: seq<Symbol>,
    target: Option<Target>,
    disposition: Disposition,
    priority: int,
    reasons: seq<Reason>)

  // ---------------------------------------------------------------- decisions

  function Classify(family: Family, matches: bool): EventClass {
    match family
    case HaltFeed => Halt
    case CorporateActionFeed => CorporateAction
    case FilingFeed => if matches then Filing else Other
    case MacroFeed => if matches then Macro else Other
    case OtherFeed => if matches then Regulatory else Other
  }

  datatype Judgement = Judgement(disposition: Disposition, priority: int, reason: Reason)

  function Judge(c: EventClass, macroLane: bool, structured: seq<Symbol>, symbols: seq<Symbol>, age: Option<int>, tracked: set<Symbol>): Judgement {
    if c == Other then Judgement(Suppress, 0, UnsupportedClass)
    else if age.Some? && age.value > EVENT_MAX_AGE_MS then Judgement(Suppress, 0, StalePublication)
    else if age.Some? && -age.value > EVENT_MAX_FUTURE_SKEW_MS then Judgement(Suppress, 0, FuturePublication)
    else if c == Macro && macroLane then Judgement(Admit, 90, HighImpactMacro)
    else if c == Halt && |structured| == 1 then Judgement(Admit, 100, StructuredHalt)
    else if c == Halt && |structured| > 1 then Judgement(Watch, 70, Ambiguous)
    else if (c == CorporateAction || c == Regulatory) && |symbols| == 1 then
      if tracked == {} || symbols[0] in tracked
      then Judgement(Admit, if c == CorporateAction then 85 else 80, SingleSecurity)
      else Judgement(Watch, 55, OutsideUniverse)
    else if c == Filing then
      if |symbols| == 1 then Judgement(Watch, 65, NeedsMateriality) else Judgement(Watch, 45, NeedsMapping)
    else Judgement(Watch, 50, if |symbols| > 1 then Ambiguous else InsufficientAssociation)
  }

  function Clip(symbols: seq<Symbol>): seq<Symbol> {
    if |symbols| <= MAX_SYMBOLS then symbols else symbols[..MAX_SYMBOLS]
  }

  function EvaluateEvent(source: Source, item: Item, observedAt: int, tracked: set<Symbol>): Decision {
    var c := Classify(source.family, item.matches);
    var macroLane := source.lane == Some(MacroLane);
    var structured := Clip(item.structured);
    var symbols := if c == Macro && macroLane then [] else if structured != [] then structured else Clip(item.extracted);
    var association :=
      if c == Macro && macroLane then MarketWide
      else if structured != [] then Structured
      else if symbols != [] then Explicit
      else if source.lane.Some? then MarketWide
      else Unresolved;
    var age := if item.publishedAt.Some? then Some(observedAt - item.publishedAt.value) else None;
    var j := Judge(c, macroLane, structured, symbols, age, tracked);
    var target :=
      if c == Macro && macroLane then Some(Market(MacroLane))
      else if |symbols| == 1 then Some(Ticker(symbols[0]))
      else if association == MarketWide && source.lane.Some? then Some(Market(source.lane.value))
      else None;
    Decision(item.id, observedAt, item.publishedAt, c, association, symbols, target, j.disposition, j.priority, [j.reason])
  }

  function ProposeRoute(d: Decision): Option<Route> {
    match d.target
    case Some(Ticker(symbol)) => Some(TickerBrief(symbol))
    case Some(Market(MacroLane)) => Some(MacroBrief)
    case Some(Market(StoryLane)) => Some(StoryBrief)
    case None => None
  }

  // ---------------------------------------------------------------- candidates

  datatype Policy = Policy(minPriority: int, ttl: int, cooldown: int, dailyCap: int)

  datatype Gate = NotAdmitted | UnsupportedRoute | BelowPriority | Expired | TargetCooldown | DailyCap

  datatype Candidate = Candidate(
    id: Id,
    decisionId: Id,
    observedAt: int,
    publishedAt: Option<int>,
    evaluatedAt: int,
    eventClass: EventClass,
    association: Association,
    disposition: Disposition,
    priority: int,
    reasons: seq<Reason>,
    route: Option<Route>,
    targetKey: Option<Route>,
    expiresAt: int,
    wouldTrigger: bool,
    gates: seq<Gate>,
    policy: Policy)

  function SafeAdd(at: int, duration: int): int {
    if at + duration < MAX_SAFE then at + duration else MAX_SAFE
  }

  function CandidateId(decision: Id): Id {
    decision
  }

  predicate ValidPolicy(p: Policy) {
    && Within(p.minPriority, 0, 100) && Within(p.ttl, 60_000, 259_200_000)
    && Within(p.cooldown, 60_000, 2_592_000_000) && Within(p.dailyCap, 1, 1_000)
  }

  predicate Distinct<T(==)>(s: seq<T>) {
    forall i, j :: 0 <= i < j < |s| ==> s[i] != s[j]
  }

  predicate ValidSemantics(d: Decision) {
    && (d.target.Some? && d.target.value.Ticker? ==>
          d.symbols == [d.target.value.symbol] && (d.association == Structured || d.association == Explicit))
    && (d.target.Some? && d.target.value.Market? ==> d.symbols == [] && d.association == MarketWide)
    && (d.disposition == Admit ==>
          d.target.Some? && if d.eventClass == Macro then d.target.value == Market(MacroLane)
                            else d.target.value.Ticker? && |d.symbols| == 1)
  }

  predicate ValidDecision(d: Decision) {
    && Within(d.observedAt, 1, MAX_SAFE) && (d.publishedAt.Some? ==> Within(d.publishedAt.value, 1, MAX_SAFE))
    && |d.symbols| <= MAX_SYMBOLS && Distinct(d.symbols)
    && Within(d.priority, 0, 100) && |d.reasons| <= 10
    && ValidSemantics(d)
  }

  function PublishedOrObserved(published: Option<int>, observed: int): int {
    if published.Some? then published.value else observed
  }

  /** The gates that depend on the decision and the policy alone. */
  function StatelessGates(d: Decision, p: Policy, evaluatedAt: int): seq<Gate> {
    (if d.disposition != Admit then [NotAdmitted] else [])
    + (if ProposeRoute(d).None? then [UnsupportedRoute] else [])
    + (if d.priority < p.minPriority then [BelowPriority] else [])
    + (if evaluatedAt >= SafeAdd(PublishedOrObserved(d.publishedAt, d.observedAt), p.ttl) then [Expired] else [])
  }

  /** Only a candidate without stateless gates is held against its target's cooldown and the day's volume. */
  function Gates(d: Decision, p: Policy, evaluatedAt: int, last: Option<int>, today: int): seq<Gate> {
    var stateless := StatelessGates(d, p, evaluatedAt);
    if stateless != [] then stateless
    else (if last.Some? && evaluatedAt < SafeAdd(last.value, p.cooldown) then [TargetCooldown] else [])
         + (if today >= p.dailyCap then [DailyCap] else [])
  }

  /** None when the inputs are invalid and the source throws. */
  function EvaluateCandidate(d: Decision, p: Policy, evaluatedAt: int, last: Option<int>, today: int): Option<Candidate> {
    if !ValidDecision(d) || !ValidPolicy(p) || !Within(evaluatedAt, d.observedAt, MAX_SAFE)
       || (last.Some? && !Within(last.value, 1, MAX_SAFE)) || !Within(today, 0, MAX_SAFE)
    then None
    else
      var gates := Gates(d, p, evaluatedAt, last, today);
      Some(Candidate(CandidateId(d.id), d.id, d.observedAt, d.publishedAt, evaluatedAt, d.eventClass, d.association,
                     d.disposition, d.priority, d.reasons, ProposeRoute(d), ProposeRoute(d),
                     SafeAdd(PublishedOrObserved(d.publishedAt, d.observedAt), p.ttl), gates == [], gates, p))
  }

  // ---------------------------------------------------------------- counters

  datatype GateCounts = GateCounts(
    notAdmitted: int, unsupportedRoute: int, belowPriority: int, expired: int, targetCooldown: int, dailyCap: int)
  {
    function Of(g: Gate): int {
      match g
      case NotAdmitted => notAdmitted
      case UnsupportedRoute => unsupportedRoute
      case BelowPriority => belowPriority
      case Expired => expired
      case TargetCooldown => targetCooldown
      case DailyCap => dailyCap
    }
  }

  datatype Aggregate = Aggregate(
    evaluated: int, mapped: int, wouldTrigger: int, gated: int, missingPublishedAt: int,
    tickerBrief: int, macroBrief: int, storyBrief: int, unsupported: int,
    structured: int, explicit: int, marketWide: int, unresolved: int,
    gates: GateCounts)

  function One(b: bool): int {
    if b then 1 else 0
  }

  function Occurrences(gates: seq<Gate>, g: Gate): int {
    if gates == [] then 0 else One(gates[0] == g) + Occurrences(gates[1..], g)
  }

  function CountGates(before: GateCounts, gates: seq<Gate>): GateCounts {
    GateCounts(
      before.notAdmitted + Occurrences(gates, NotAdmitted),
      before.unsupportedRoute + Occurrences(gates, UnsupportedRoute),
      before.belowPriority + Occurrences(gates, BelowPriority),
      before.expired + Occurrences(gates, Expired),
      before.targetCooldown + Occurrences(gates, TargetCooldown),
      before.dailyCap + Occurrences(gates, DailyCap))
  }

  const EmptyAggregate := Aggregate(0, 0, 0, 0, 0, 0, 0, 0, 0, 0, 0, 0, 0, GateCounts(0, 0, 0, 0, 0, 0))

  function Increment(a: Aggregate, c: Candidate): Aggregate {
    Aggregate(
      a.evaluated + 1,
      a.mapped + One(c.route.Some?),
      a.wouldTrigger + One(c.wouldTrigger),
      a.gated + One(!c.wouldTrigger),
      a.missingPublishedAt + One(c.publishedAt.None?),
      a.tickerBrief + One(c.route.Some? && c.route.value.TickerBrief?),
      a.macroBrief + One(c.route == Some(MacroBrief)),
      a.storyBrief + One(c.route == Some(StoryBrief)),
      a.unsupported + One(c.route.None?),
      a.structured + One(c.association == Structured),
      a.explicit + One(c.association == Explicit),
      a.marketWide + One(c.association == MarketWide),
      a.unresolved + One(c.association == Unresolved),
      CountGates(a.gates, c.gates))
  }

  // ---------------------------------------------------------------- recording

  datatype DayState = DayState(day: int, aggregate: Aggregate)
  datatype Cooldown = Cooldown(key: Route, last: int)

  datatype DryRun = DryRun(
    policy: Policy,
    candidates: seq<Candidate>,
    totals: Aggregate,
    days: seq<DayState>,
    cooldowns: seq<Cooldown>)

  function EmptyDryRun(p: Policy): DryRun {
    DryRun(p, [], EmptyAggregate, [], [])
  }

  function LastTrigger(cooldowns: seq<Cooldown>, key: Route): Option<int> {
    if cooldowns == [] then None
    else if cooldowns[0].key == key then Some(cooldowns[0].last)
    else LastTrigger(cooldowns[1..], key)
  }

  /** Update a key in place, or append it. */
  function SetTrigger(cooldowns: seq<Cooldown>, key: Route, at: int): seq<Cooldown> {
    if cooldowns == [] then [Cooldown(key, at)]
    else if cooldowns[0].key == key then [Cooldown(key, at)] + cooldowns[1..]
    else [cooldowns[0]] + SetTrigger(cooldowns[1..], key, at)
  }

  datatype Work = Work(totals: Aggregate, today: Aggregate, cooldowns: seq<Cooldown>, known: set<Id>, created: seq<Candidate>)

  function Consider(w: Work, d: Decision, p: Policy, evaluatedAt: int): Option<Work> {
    if CandidateId(d.id) in w.known then Some(w)
    else
      var key := ProposeRoute(d);
      var last := if key.Some? then LastTrigger(w.cooldowns, key.value) else None;
      match EvaluateCandidate(d, p, evaluatedAt, last, w.today.wouldTrigger)
      case None => None
      case Some(c) =>
        Some(Work(Increment(w.totals, c), Increment(w.today, c),
                  if c.wouldTrigger && c.targetKey.Some? then SetTrigger(w.cooldowns, c.targetKey.value, evaluatedAt) else w.cooldowns,
                  w.known + {c.id}, w.created + [c]))
  }

  function ConsiderAll(w: Work, ds: seq<Decision>, p: Policy, evaluatedAt: int): Option<Work>
    decreases |ds|
  {
    if ds == [] then Some(w)
    else match Consider(w, ds[0], p, evaluatedAt)
         case Some(w1) => ConsiderAll(w1, ds[1..], p, evaluatedAt)
         case None => None
  }

  function DayAggregate(days: seq<DayState>, day: int): Option<Aggregate> {
    if days == [] then None
    else if days[0].day == day then Some(days[0].aggregate)
    else DayAggregate(days[1..], day)
  }

  /** Put the day's counters back where they were found, or at the end. */
  function SetDay(days: seq<DayState>, day: int, a: Aggregate): seq<DayState> {
    if days == [] then [DayState(day, a)]
    else if days[0].day == day then [DayState(day, a)] + days[1..]
    else [days[0]] + SetDay(days[1..], day, a)
  }

  function IdsOf(candidates: seq<Candidate>): set<Id> {
    set i | 0 <= i < |candidates| :: candidates[i].id
  }

  function NewestFirst(): (Candidate, Candidate) -> bool {
    (a: Candidate, b: Candidate) =>
      a.evaluatedAt > b.evaluatedAt
      || (a.evaluatedAt == b.evaluatedAt && (a.priority > b.priority || (a.priority == b.priority && a.id <= b.id)))
  }

  function LatestDayFirst(): (DayState, DayState) -> bool {
    (a: DayState, b: DayState) => a.day >= b.day
  }

  /** The alphabetical order of target keys. */
  function KeyRank(r: Route): nat {
    match r case MacroBrief => 0 case StoryBrief => 1 case TickerBrief(symbol) => symbol + 2
  }

  function LatestTriggerFirst(): (Cooldown, Cooldown) -> bool {
    (a: Cooldown, b: Cooldown) => a.last > b.last || (a.last == b.last && KeyRank(a.key) <= KeyRank(b.key))
  }

  function Take<T>(s: seq<T>, n: nat): seq<T> {
    if |s| <= n then s else s[..n]
  }

  /** Cooldowns that still hold at `now`. */
  function Live(cooldowns: seq<Cooldown>, p: Policy, now: int): seq<Cooldown> {
    if cooldowns == [] then []
    else (if now < SafeAdd(cooldowns[0].last, p.cooldown) then [cooldowns[0]] else []) + Live(cooldowns[1..], p, now)
  }

  function Begin(s: DryRun, evaluatedAt: int): Work {
    var today := match DayAggregate(s.days, UtcDay(evaluatedAt)) case Some(a) => a case None => EmptyAggregate;
    Work(s.totals, today, s.cooldowns, IdsOf(s.candidates), [])
  }

  function Settle(s: DryRun, w: Work, p: Policy, evaluatedAt: int, maxStored: nat): DryRun {
    DryRun(
      p,
      Take(Sort(w.created + s.candidates, NewestFirst()), maxStored),
      w.totals,
      Take(Sort(SetDay(s.days, UtcDay(evaluatedAt), w.today), LatestDayFirst()), MAX_DAYS),
      Take(Sort(Live(w.cooldowns, p, evaluatedAt), LatestTriggerFirst()), MAX_COOLDOWNS))
  }

  /** The new state and the candidates created; None when the source throws. */
  function Record(s: DryRun, ds: seq<Decision>, p: Policy, evaluatedAt: int, maxStored: nat): Option<(DryRun, seq<Candidate>)> {
    if s.totals.evaluated > 0 && s.policy != p then None
    else
      match ConsiderAll(Begin(s, evaluatedAt), ds, p, evaluatedAt)
      case None => None
      case Some(w) => Some((Settle(s, w, p, evaluatedAt, maxStored), w.created))
  }
}
