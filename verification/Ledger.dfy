/**
  The provider budget ledger, after consume, parseState and writeState of server/provider-budget.ts. Dollar
  amounts are real numbers, so that rounding to six decimals is the only rounding there is; each call is
  one transaction. The principals are kept in a plain object, in which the names that every object
  inherits are found although nobody has put them there.
 */
module Ledger {
  import opened Common
  import opened Sums

  datatype Lane = Research | Import

  datatype Usage = Usage(research: nat, imports: nat)

  datatype Ledger = Ledger(day: int, usd: real, research: nat, imports: nat, principals: map<Id, Usage>)

  datatype Config = Config(researchQuota: nat, importQuota: nat, budget: real)
  {
    /** The resolver rejects everything else. */
    ghost predicate Valid() {
      researchQuota > 0 && importQuota > 0 && budget > 0.0
    }
  }

  /**
    What matters of the principals' names: whether the parser's pattern accepts a name, whether every
    object inherits a member of that name (`constructor`, `toString` and ten more pass the pattern), and how
    many bytes the name takes in the file.
   */
  datatype Names = Names(readable: Id -> bool, inherited: Id -> bool, width: Id -> nat)

  const MAX_PRINCIPALS := 100_000
  const MAX_STATE_BYTES := 8 * 1024 * 1024
  const HALF_MICRO := 0.0000005

  /** Rounding to six decimals, halves upwards. */
  function Round6(x: real): real {
    (x * 1_000_000.0 + 0.5).Floor as real / 1_000_000.0
  }

  function EmptyLedger(day: int): Ledger {
    Ledger(day, 0.0, 0, 0, map[])
  }

  // ---------------------------------------------------------------- the size of the file

  function Digits(n: nat): nat {
    if n < 10 then 1 else 1 + Digits(n / 10)
  }

  /** The characters from the decimal point on of a fraction of `n` units in the last of `places` decimals. */
  function FractionWidth(n: nat, places: nat): nat {
    if n == 0 then 0
    else if places > 0 && n % 10 == 0 then FractionWidth(n / 10, places - 1)
    else 1 + places
  }

  function UsdWidth(usd: real): nat {
    var micros := ((if usd < 0.0 then -usd else usd) * 1_000_000.0).Floor;
    (if usd < 0.0 then 1 else 0) + Digits(micros / 1_000_000) + FractionWidth(micros % 1_000_000, 6)
  }

  /** One principal's lines in the indented file: 70 bytes beside the name and the two counts. */
  function EntryBytes(name: nat, u: Usage): nat {
    name + 70 + Digits(u.research) + Digits(u.imports)
  }

  ghost function Entries(principals: map<Id, Usage>, names: Names): map<Id, nat> {
    map p | p in principals :: EntryBytes(names.width(p), principals[p])
  }

  /** Everything but the principals; an object without members is written on one line. */
  function HeadBytes(s: Ledger): nat {
    (if s.principals == map[] then 152 else 154) + UsdWidth(s.usd) + Digits(s.research) + Digits(s.imports)
  }

  ghost function FileBytes(s: Ledger, names: Names): nat {
    HeadBytes(s) + Sum(Entries(s.principals, names))
  }

  // ---------------------------------------------------------------- reading, deciding and charging

  ghost predicate Readable(s: Ledger, names: Names) {
    && s.usd >= 0.0 && |s.principals| <= MAX_PRINCIPALS
    && forall p :: p in s.principals ==> names.readable(p)
  }

  /** What is found for `day`: a ledger of an earlier or later day counts as empty; None when the parser throws. */
  ghost function Load(file: Option<Ledger>, day: int, names: Names): Option<Ledger> {
    if file.None? then Some(EmptyLedger(day))
    else if FileBytes(file.value, names) > MAX_STATE_BYTES then None
    else if file.value.day != day then Some(EmptyLedger(day))
    else if Readable(file.value, names) then file
    else None
  }

  datatype Decision = Allowed | PrincipalQuota | GlobalBudget

  function UsageOf(s: Ledger, p: Id): Usage {
    if p in s.principals then s.principals[p] else Usage(0, 0)
  }

  function Used(u: Usage, lane: Lane): nat {
    if lane == Research then u.research else u.imports
  }

  function Quota(c: Config, lane: Lane): nat {
    if lane == Research then c.researchQuota else c.importQuota
  }

  /** Otherwise the lookup finds an inherited member, whose counts are no numbers: no quota is below them. */
  predicate Tracked(s: Ledger, p: Id, names: Names) {
    p in s.principals || !names.inherited(p)
  }

  /** The estimate is None when it is not a finite number. */
  function Decide(s: Ledger, c: Config, p: Id, lane: Lane, estimate: Option<real>, names: Names): Decision {
    if Tracked(s, p, names) && Used(UsageOf(s, p), lane) >= Quota(c, lane) then PrincipalQuota
    else if estimate.None? || estimate.value <= 0.0 || s.usd + estimate.value > c.budget then GlobalBudget
    else Allowed
  }

  function More(u: Usage, lane: Lane): Usage {
    if lane == Research then u.(research := u.research + 1) else u.(imports := u.imports + 1)
  }

  /** An inherited member leaves no entry in the file. */
  function Charged(s: Ledger, p: Id, lane: Lane, estimate: real, names: Names): Ledger {
    var usd := Round6(s.usd + estimate);
    var principals := if Tracked(s, p, names) then s.principals[p := More(UsageOf(s, p), lane)] else s.principals;
    match lane
    case Research => s.(usd := usd, research := s.research + 1, principals := principals)
    case Import => s.(usd := usd, imports := s.imports + 1, principals := principals)
  }

  datatype Call = Call(principal: Id, lane: Lane, estimate: Option<real>, at: int)

  /** The file after one call, and its decision; None when the call throws. */
  ghost function Consume(file: Option<Ledger>, c: Config, call: Call, names: Names): (Option<Ledger>, Option<Decision>) {
    match Load(file, UtcDay(call.at), names)
    case None => (file, None)
    case Some(s) =>
      var d := Decide(s, c, call.principal, call.lane, call.estimate, names);
      if d == Allowed then (Some(Charged(s, call.principal, call.lane, call.estimate.value, names)), Some(d)) else (file, Some(d))
  }

  // ---------------------------------------------------------------- rounding

  lemma RoundingIsClose(x: real)
    ensures Round6(x) >= x - HALF_MICRO && Round6(x) <= x + HALF_MICRO
  {
    var y := x * 1_000_000.0 + 0.5;
    assert y - 1.0 < y.Floor as real <= y;
  }

  lemma RoundingKeepsSign(x: real)
    requires x >= 0.0
    ensures Round6(x) >= 0.0
  {
  }

  // ---------------------------------------------------------------- what a day has admitted

  /** An admitted call. */
  datatype Charge = Charge(principal: Id, lane: Lane, estimate: real)

  function Total(a: seq<Charge>): real {
    if a == [] then 0.0 else Total(a[..|a| - 1]) + a[|a| - 1].estimate
  }

  function AdmittedIn(a: seq<Charge>, lane: Lane): nat {
    if a == [] then 0 else AdmittedIn(a[..|a| - 1], lane) + (if a[|a| - 1].lane == lane then 1 else 0)
  }

  function AdmittedTo(a: seq<Charge>, p: Id, lane: Lane): nat {
    if a == [] then 0
    else AdmittedTo(a[..|a| - 1], p, lane) + (if a[|a| - 1].lane == lane && a[|a| - 1].principal == p then 1 else 0)
  }

  /** Admitted to principals with inherited names. */
  function Strays(a: seq<Charge>, lane: Lane, names: Names): nat {
    if a == [] then 0
    else Strays(a[..|a| - 1], lane, names) + (if a[|a| - 1].lane == lane && names.inherited(a[|a| - 1].principal) then 1 else 0)
  }

  lemma OneMore(a: seq<Charge>, x: Charge, names: Names)
    ensures Total(a + [x]) == Total(a) + x.estimate
    ensures forall lane :: AdmittedIn(a + [x], lane) == AdmittedIn(a, lane) + (if x.lane == lane then 1 else 0)
    ensures forall p, lane :: AdmittedTo(a + [x], p, lane) == AdmittedTo(a, p, lane) + (if x.lane == lane && x.principal == p then 1 else 0)
    ensures forall lane ::
              Strays(a + [x], lane, names) == Strays(a, lane, names) + (if x.lane == lane && names.inherited(x.principal) then 1 else 0)
  {
    assert (a + [x])[..|a|] == a;
  }

  lemma {:induction false} StraysAre(a: seq<Charge>, names: Names)
    ensures (Strays(a, Research, names) == 0 && Strays(a, Import, names) == 0) <==>
              forall i :: 0 <= i < |a| ==> !names.inherited(a[i].principal)
  {
    if a != [] {
      var b := a[..|a| - 1];
      StraysAre(b, names);
      assert forall i :: 0 <= i < |a| ==> a[i] == if i < |b| then b[i] else a[|a| - 1];
      if forall i :: 0 <= i < |a| ==> !names.inherited(a[i].principal) {
        assert forall i :: 0 <= i < |b| ==> b[i] == a[i];
      }
    }
  }

  // ---------------------------------------------------------------- the books

  ghost function ResearchBy(principals: map<Id, Usage>): map<Id, nat> {
    map p | p in principals :: principals[p].research
  }

  ghost function ImportsBy(principals: map<Id, Usage>): map<Id, nat> {
    map p | p in principals :: principals[p].imports
  }

  /** Each principal's counts are what has been admitted to it, and within the quotas. */
  ghost predicate UsageBooks(s: Ledger, c: Config, a: seq<Charge>, names: Names) {
    forall p ::
      if names.inherited(p) then p !in s.principals
      else UsageOf(s, p) == Usage(AdmittedTo(a, p, Research), AdmittedTo(a, p, Import))
           && UsageOf(s, p).research <= c.researchQuota && UsageOf(s, p).imports <= c.importQuota
  }

  ghost predicate CountBooks(s: Ledger, a: seq<Charge>, names: Names) {
    && s.research == AdmittedIn(a, Research) && s.imports == AdmittedIn(a, Import) && |a| == s.research + s.imports
    && s.research == Sum(ResearchBy(s.principals)) + Strays(a, Research, names)
    && s.imports == Sum(ImportsBy(s.principals)) + Strays(a, Import, names)
  }

  ghost predicate UsdBooks(usd: real, total: real, count: nat, budget: real) {
    && usd >= 0.0 && total >= 0.0
    && total - count as real * HALF_MICRO <= usd <= total + count as real * HALF_MICRO
    && (count == 0 ==> usd == 0.0 && total == 0.0)
    && (count > 0 ==> total <= budget + (count - 1) as real * HALF_MICRO)
  }

  ghost predicate Books(s: Ledger, c: Config, a: seq<Charge>, names: Names) {
    UsageBooks(s, c, a, names) && CountBooks(s, a, names) && UsdBooks(s.usd, Total(a), |a|, c.budget)
  }

  lemma EmptyBooks(c: Config, day: int, names: Names)
    ensures Books(EmptyLedger(day), c, [], names)
  {
    assert ResearchBy(map[]) == map[] && ImportsBy(map[]) == map[];
    SumZeros(map[]);
  }

  lemma SumPut(m: map<Id, nat>, k: Id)
    ensures Sum(m[k := (if k in m then m[k] else 0) + 1]) == Sum(m) + 1
  {
    if k in m {
      SumIncrement(m, k);
    } else {
      SumAdd(m, k, 1);
    }
  }

  lemma SumSame(m: map<Id, nat>, k: Id)
    ensures Sum(m[k := if k in m then m[k] else 0]) == Sum(m)
  {
    if k in m {
      assert m[k := m[k]] == m;
    } else {
      SumAdd(m, k, 0);
    }
  }

  lemma ByPut(m: map<Id, Usage>, p: Id, u: Usage)
    ensures ResearchBy(m[p := u]) == ResearchBy(m)[p := u.research]
    ensures ImportsBy(m[p := u]) == ImportsBy(m)[p := u.imports]
  {
  }

  /** The counters after an admitted call of a tracked principal: that lane's sum grows by one, the other's stays. */
  lemma ChargedSums(s: Ledger, p: Id, lane: Lane)
    ensures var ps := s.principals[p := More(UsageOf(s, p), lane)];
            && Sum(ResearchBy(ps)) == Sum(ResearchBy(s.principals)) + (if lane == Research then 1 else 0)
            && Sum(ImportsBy(ps)) == Sum(ImportsBy(s.principals)) + (if lane == Import then 1 else 0)
  {
    hide Sum;
    var u, r, i := UsageOf(s, p), ResearchBy(s.principals), ImportsBy(s.principals);
    assert u.research == (if p in r then r[p] else 0) && u.imports == (if p in i then i[p] else 0);
    ByPut(s.principals, p, More(u, lane));
    hide ResearchBy, ImportsBy;
    SumPut(r, p);
    SumPut(i, p);
    SumSame(r, p);
    SumSame(i, p);
  }

  /** The real total after one more estimate, from the recorded one. */
  lemma TotalBound(usd: real, total: real, count: nat, estimate: real, budget: real)
    requires UsdBooks(usd, total, count, budget) && estimate > 0.0 && usd + estimate <= budget
    ensures UsdBooks(Round6(usd + estimate), total + estimate, count + 1, budget)
  {
    RoundingIsClose(usd + estimate);
    RoundingKeepsSign(usd + estimate);
    hide Round6;
    assert (count + 1) as real * HALF_MICRO == count as real * HALF_MICRO + HALF_MICRO;
  }

  lemma ChargedBooks(s: Ledger, c: Config, a: seq<Charge>, x: Charge, names: Names)
    requires Books(s, c, a, names) && Decide(s, c, x.principal, x.lane, Some(x.estimate), names) == Allowed
    ensures Books(Charged(s, x.principal, x.lane, x.estimate, names), c, a + [x], names)
  {
    hide Round6, Sum, Total, AdmittedIn, AdmittedTo, Strays, UsdBooks, ResearchBy, ImportsBy;
    ChargedSums(s, x.principal, x.lane);
    TotalBound(s.usd, Total(a), |a|, x.estimate, c.budget);
    OneMore(a, x, names);
    var s' := Charged(s, x.principal, x.lane, x.estimate, names);
    assert UsageBooks(s', c, a + [x], names) by {
      forall p | p != x.principal ensures UsageOf(s', p) == UsageOf(s, p) && (p in s'.principals <==> p in s.principals) {
      }
    }
  }

  // ---------------------------------------------------------------- every run of one day

  function AdmittedOn(day: int, a: seq<Charge>, call: Call, d: Option<Decision>): seq<Charge> {
    if UtcDay(call.at) == day && d == Some(Allowed) && call.estimate.Some?
    then a + [Charge(call.principal, call.lane, call.estimate.value)]
    else a
  }

  /** The file and what `day` has admitted after a sequence of calls, which may concern other days too. */
  ghost function RunDay(file: Option<Ledger>, c: Config, calls: seq<Call>, day: int, a: seq<Charge>, names: Names):
      (Option<Ledger>, seq<Charge>)
    decreases |calls|
  {
    if calls == [] then (file, a)
    else
      var (file1, d) := Consume(file, c, calls[0], names);
      RunDay(file1, c, calls[1..], day, AdmittedOn(day, a, calls[0], d), names)
  }

  /** The file is this day's and its books are right, or nothing has been admitted on this day yet. */
  ghost predicate DayBooks(file: Option<Ledger>, c: Config, day: int, a: seq<Charge>, names: Names) {
    if file.Some? && file.value.day == day then Books(file.value, c, a, names)
    else a == []
  }

  lemma ConsumeBooks(file: Option<Ledger>, c: Config, call: Call, day: int, a: seq<Charge>, names: Names)
    requires DayBooks(file, c, day, a, names) && UtcDay(call.at) == day
    ensures var (file1, d) := Consume(file, c, call, names); DayBooks(file1, c, day, AdmittedOn(day, a, call, d), names)
  {
    hide Books, Charged, Round6, FileBytes;
    EmptyBooks(c, day, names);
    var s := Load(file, day, names);
    if s.Some? {
      var d := Decide(s.value, c, call.principal, call.lane, call.estimate, names);
      if d == Allowed {
        ChargedBooks(s.value, c, a, Charge(call.principal, call.lane, call.estimate.value), names);
        ChargedDay(s.value, call.principal, call.lane, call.estimate.value, names);
      }
    }
  }

  lemma ChargedDay(s: Ledger, p: Id, lane: Lane, estimate: real, names: Names)
    ensures Charged(s, p, lane, estimate, names).day == s.day
  {
  }

  ghost predicate SameDay(calls: seq<Call>, day: int) {
    forall i :: 0 <= i < |calls| ==> UtcDay(calls[i].at) == day
  }

  lemma {:induction false} RunBooks(file: Option<Ledger>, c: Config, calls: seq<Call>, day: int, a: seq<Charge>, names: Names)
    requires DayBooks(file, c, day, a, names) && SameDay(calls, day)
    ensures var (file', a') := RunDay(file, c, calls, day, a, names); DayBooks(file', c, day, a', names)
    decreases |calls|
  {
    hide DayBooks, Consume;
    if calls != [] {
      ConsumeBooks(file, c, calls[0], day, a, names);
      var (file1, d) := Consume(file, c, calls[0], names);
      RunBooks(file1, c, calls[1..], day, AdmittedOn(day, a, calls[0], d), names);
    }
  }

  /** On each day, from whatever an earlier day has left behind, after any sequence of that day's calls. */
  ghost predicate StartsDay(file: Option<Ledger>, calls: seq<Call>, day: int) {
    SameDay(calls, day) && (file.Some? ==> file.value.day != day)
  }

  /**
    Every principal whose name no object inherits is admitted within its quota in each lane, and the n
    admitted estimates really total at most the budget plus n - 1 halves of a millionth dollar, although
    each step is rounded.
   */
  lemma QuotasAndBudgetHold(file: Option<Ledger>, c: Config, calls: seq<Call>, day: int, names: Names)
    requires StartsDay(file, calls, day)
    ensures var a := RunDay(file, c, calls, day, [], names).1;
            && (forall p, lane :: !names.inherited(p) ==> AdmittedTo(a, p, lane) <= Quota(c, lane))
            && (a != [] ==> Total(a) <= c.budget + (|a| - 1) as real * HALF_MICRO)
  {
    RunBooks(file, c, calls, day, [], names);
    hide RunDay;
    var (file', a) := RunDay(file, c, calls, day, [], names);
    if a != [] {
      forall p, lane | !names.inherited(p) ensures AdmittedTo(a, p, lane) <= Quota(c, lane) {
        assert lane == Research || lane == Import;
        assert UsageOf(file'.value, p) == Usage(AdmittedTo(a, p, Research), AdmittedTo(a, p, Import));
      }
    }
  }

  /**
    The global counts in the file are what the day has admitted. They are the sums over the principals in
    the file if and only if no call under an inherited name is among it.
   */
  lemma CountsAreSumsExactly(file: Option<Ledger>, c: Config, calls: seq<Call>, day: int, names: Names)
    requires StartsDay(file, calls, day)
    ensures var (file', a) := RunDay(file, c, calls, day, [], names);
            file'.Some? && file'.value.day == day ==>
              var s := file'.value;
              && s.research == AdmittedIn(a, Research) && s.imports == AdmittedIn(a, Import)
              && (s.research == Sum(ResearchBy(s.principals)) && s.imports == Sum(ImportsBy(s.principals)) <==>
                    forall i :: 0 <= i < |a| ==> !names.inherited(a[i].principal))
  {
    RunBooks(file, c, calls, day, [], names);
    StraysAre(RunDay(file, c, calls, day, [], names).1, names);
    hide RunDay, Strays, Sum;
  }

  // ---------------------------------------------------------------- a name without a quota

  /** So small that it rounds to nothing. */
  function Trifle(c: Config): real {
    if c.budget < 0.0000004 then c.budget else 0.0000004
  }

  function Repeat(call: Call, n: nat): seq<Call> {
    if n == 0 then [] else [call] + Repeat(call, n - 1)
  }

  /** What `n` calls in one lane leave behind when none of them is tracked. */
  function Untracked(day: int, lane: Lane, n: nat): Ledger {
    if lane == Research then Ledger(day, 0.0, n, 0, map[]) else Ledger(day, 0.0, 0, n, map[])
  }

  function Pow10(k: nat): nat {
    if k == 0 then 1 else 10 * Pow10(k - 1)
  }

  lemma {:induction false} DigitsWithin(n: nat, k: nat)
    requires n < Pow10(k) && k > 0
    ensures Digits(n) <= k
  {
    if n >= 10 {
      DigitsWithin(n / 10, k - 1);
    }
  }

  lemma SafeDigits(n: nat)
    requires n <= MAX_SAFE
    ensures Digits(n) <= 16
  {
    assert Pow10(8) == 100_000_000 by { assert Pow10(4) == 10_000; }
    assert Pow10(16) == 10_000_000_000_000_000 by { assert Pow10(12) == 1_000_000_000_000; }
    DigitsWithin(n, 16);
  }

  lemma UntrackedIsFound(day: int, lane: Lane, n: nat, names: Names)
    requires n <= MAX_SAFE
    ensures Load(Some(Untracked(day, lane, n)), day, names) == Some(Untracked(day, lane, n))
  {
    SafeDigits(n);
    assert UsdWidth(0.0) == 1 by { assert 0.0 * 1_000_000.0 == 0.0; }
    assert Entries(map[], names) == map[];
    SumZeros(map[]);
  }

  lemma TrifleRoundsAway(c: Config)
    requires c.Valid()
    ensures 0.0 < Trifle(c) <= c.budget && Round6(Trifle(c)) == 0.0
  {
    assert (Trifle(c) * 1_000_000.0 + 0.5).Floor == 0;
  }

  lemma UntrackedStep(c: Config, day: int, p: Id, lane: Lane, at: int, n: nat, names: Names)
    requires c.Valid() && names.inherited(p) && UtcDay(at) == day && n <= MAX_SAFE
    ensures Consume(Some(Untracked(day, lane, n)), c, Call(p, lane, Some(Trifle(c)), at), names)
            == (Some(Untracked(day, lane, n + 1)), Some(Allowed))
  {
    UntrackedIsFound(day, lane, n, names);
    TrifleRoundsAway(c);
    hide Load, Round6, Trifle;
  }

  lemma {:induction false} UntrackedRun(c: Config, day: int, p: Id, lane: Lane, at: int, n: nat, m: nat, a: seq<Charge>, names: Names)
    requires c.Valid() && names.inherited(p) && UtcDay(at) == day && n + m <= MAX_SAFE && AdmittedTo(a, p, lane) == n
    ensures var (file', a') := RunDay(Some(Untracked(day, lane, n)), c, Repeat(Call(p, lane, Some(Trifle(c)), at), m), day, a, names);
            file' == Some(Untracked(day, lane, n + m)) && AdmittedTo(a', p, lane) == n + m
    decreases m
  {
    hide Consume, Trifle, AdmittedTo, Untracked, Repeat;
    if m == 0 {
      assert Repeat(Call(p, lane, Some(Trifle(c)), at), 0) == [] by { RepeatIs(Call(p, lane, Some(Trifle(c)), at), 0); }
    } else {
      var call, x := Call(p, lane, Some(Trifle(c)), at), Charge(p, lane, Trifle(c));
      UntrackedStep(c, day, p, lane, at, n, names);
      OneMore(a, x, names);
      assert AdmittedOn(day, a, call, Some(Allowed)) == a + [x];
      RepeatTail(call, m);
      UntrackedRun(c, day, p, lane, at, n + 1, m - 1, a + [x], names);
    }
  }

  lemma RepeatTail(call: Call, m: nat)
    requires m > 0
    ensures Repeat(call, m) != [] && Repeat(call, m)[0] == call && Repeat(call, m)[1..] == Repeat(call, m - 1)
  {
  }

  /** Under an inherited name any number of calls is admitted on one day, whatever the quota. */
  lemma InheritedNameHasNoQuota(c: Config, p: Id, lane: Lane, at: int, n: nat, names: Names)
    requires c.Valid() && names.inherited(p) && n <= MAX_SAFE
    ensures var calls := Repeat(Call(p, lane, Some(Trifle(c)), at), n);
            SameDay(calls, UtcDay(at)) && AdmittedTo(RunDay(None, c, calls, UtcDay(at), [], names).1, p, lane) == n
  {
    var call, day := Call(p, lane, Some(Trifle(c)), at), UtcDay(at);
    RepeatIs(call, n);
    UntrackedRun(c, day, p, lane, at, 0, n, [], names);
    UntrackedIsFound(day, lane, 0, names);
    if n > 0 {
      assert Consume(None, c, call, names) == Consume(Some(Untracked(day, lane, 0)), c, call, names) by {
        UntrackedStep(c, day, p, lane, at, 0, names);
        hide Round6, Trifle, FileBytes;
      }
      hide Consume, Trifle;
    }
  }

  lemma {:induction false} RepeatIs(call: Call, n: nat)
    ensures |Repeat(call, n)| == n && forall i :: 0 <= i < n ==> Repeat(call, n)[i] == call
  {
    if n > 0 {
      RepeatIs(call, n - 1);
    }
  }

  /** A principal is held to a quota on every day if and only if no object inherits its name. */
  lemma QuotaBindsExactly(c: Config, p: Id, lane: Lane, names: Names)
    requires c.Valid() && Quota(c, lane) < MAX_SAFE
    ensures (forall file, calls, day | StartsDay(file, calls, day) ::
               AdmittedTo(RunDay(file, c, calls, day, [], names).1, p, lane) <= Quota(c, lane))
            <==> !names.inherited(p)
  {
    hide RunDay;
    if names.inherited(p) {
      var n := Quota(c, lane) + 1;
      InheritedNameHasNoQuota(c, p, lane, 0, n, names);
      var calls := Repeat(Call(p, lane, Some(Trifle(c)), 0), n);
      hide Trifle, Repeat;
      assert StartsDay(None, calls, UtcDay(0));
      assert AdmittedTo(RunDay(None, c, calls, UtcDay(0), [], names).1, p, lane) > Quota(c, lane);
    } else {
      forall file, calls, day | StartsDay(file, calls, day)
        ensures AdmittedTo(RunDay(file, c, calls, day, [], names).1, p, lane) <= Quota(c, lane)
      {
        QuotasAndBudgetHold(file, c, calls, day, names);
      }
    }
  }

  /**
    Why the calls of a day have to follow one another: once a call of another day has been admitted, the
    day starts from nothing again.
   */
  lemma AnotherDayForgets(file: Option<Ledger>, c: Config, call: Call, day: int, names: Names)
    requires UtcDay(call.at) != day && Consume(file, c, call, names).1 == Some(Allowed)
    ensures var file1 := Consume(file, c, call, names).0;
            file1.Some? && Load(file1, day, names) == if FileBytes(file1.value, names) <= MAX_STATE_BYTES then Some(EmptyLedger(day)) else None
  {
    hide Round6, FileBytes;
  }

  // ---------------------------------------------------------------- what the parser refuses to read back

  /** By how many bytes an admitted call makes the file grow. */
  function Growth(s: Ledger, p: Id, lane: Lane, estimate: real, names: Names): int {
    var n, k := if lane == Research then s.research else s.imports, Used(UsageOf(s, p), lane);
    UsdWidth(Round6(s.usd + estimate)) - UsdWidth(s.usd) + Digits(n + 1) - Digits(n)
    + (if p in s.principals then Digits(k + 1) - Digits(k)
       else if names.inherited(p) then 0
       else names.width(p) + 72 + (if s.principals == map[] then 2 else 0))
  }

  lemma SumSet(m: map<Id, nat>, k: Id, v: nat)
    ensures Sum(m[k := v]) == Sum(m) - (if k in m then m[k] else 0) + v
  {
    SumSplit(m[k := v], k);
    if k in m {
      SumSplit(m, k);
    }
    assert m[k := v] - {k} == m - {k};
    assert k !in m ==> m - {k} == m;
  }

  lemma EntriesPut(m: map<Id, Usage>, p: Id, u: Usage, names: Names)
    ensures Entries(m[p := u], names) == Entries(m, names)[p := EntryBytes(names.width(p), u)]
  {
  }

  lemma OneDigit()
    ensures Digits(0) == 1 && Digits(1) == 1
  {
  }

  lemma FileGrows(s: Ledger, p: Id, lane: Lane, estimate: real, names: Names)
    ensures FileBytes(Charged(s, p, lane, estimate, names), names) == FileBytes(s, names) + Growth(s, p, lane, estimate, names)
  {
    hide Round6, Sum, UsdWidth, Digits;
    OneDigit();
    if Tracked(s, p, names) {
      var u := More(UsageOf(s, p), lane);
      EntriesPut(s.principals, p, u, names);
      SumSet(Entries(s.principals, names), p, EntryBytes(names.width(p), u));
      assert s.principals[p := u] != map[] by { assert p in s.principals[p := u]; }
    }
  }

  /** What the parser accepts of the entries, once the size has passed. */
  lemma ChargedIsReadable(s: Ledger, p: Id, lane: Lane, estimate: real, names: Names)
    requires Readable(s, names) && estimate > 0.0
    ensures Readable(Charged(s, p, lane, estimate, names), names) <==>
              p in s.principals || names.inherited(p) || (names.readable(p) && |s.principals| < MAX_PRINCIPALS)
  {
    RoundingKeepsSign(s.usd + estimate);
    var s' := Charged(s, p, lane, estimate, names);
    PutSize(s.principals, p, More(UsageOf(s, p), lane));
    hide Round6;
    if Tracked(s, p, names) {
      assert forall q :: q in s'.principals <==> q == p || q in s.principals;
    }
  }

  lemma FoundIsReadable(file: Option<Ledger>, day: int, names: Names)
    ensures Load(file, day, names).Some? ==> Readable(Load(file, day, names).value, names) && Load(file, day, names).value.day == day
  {
    hide FileBytes;
  }

  /**
    A ledger found by a call and written by it is found again, as written, exactly when the file has not
    outgrown 8 MiB and either needed no new entry or got one the parser accepts.
   */
  lemma WrittenLedgerIsReadExactlyWhen(file: Option<Ledger>, c: Config, call: Call, names: Names)
    requires Consume(file, c, call, names).1 == Some(Allowed)
    ensures var day, p := UtcDay(call.at), call.principal;
            var s := Load(file, day, names).value;
            var written := Consume(file, c, call, names).0;
            Load(written, day, names) == written <==>
              && FileBytes(s, names) + Growth(s, p, call.lane, call.estimate.value, names) <= MAX_STATE_BYTES
              && (p in s.principals || names.inherited(p) || (names.readable(p) && |s.principals| < MAX_PRINCIPALS))
  {
    var day, p, lane, e := UtcDay(call.at), call.principal, call.lane, call.estimate.value;
    var s := Load(file, day, names).value;
    FoundIsReadable(file, day, names);
    hide Readable, FileBytes, Growth, Charged;
    FileGrows(s, p, lane, e, names);
    ChargedDay(s, p, lane, e, names);
    ChargedIsReadable(s, p, lane, e, names);
  }

  /** A file larger than 8 MiB makes every call of every day throw, and so stays as it is. */
  lemma {:induction false} OversizedIsRefusedForEver(s: Ledger, c: Config, calls: seq<Call>, day: int, a: seq<Charge>, names: Names)
    requires FileBytes(s, names) > MAX_STATE_BYTES
    ensures RunDay(Some(s), c, calls, day, a, names) == (Some(s), a)
    ensures forall call :: Consume(Some(s), c, call, names) == (Some(s), None)
    decreases |calls|
  {
    hide FileBytes;
    if calls != [] {
      OversizedIsRefusedForEver(s, c, calls[1..], day, a, names);
    }
  }

  lemma {:induction false} SumAtLeast(m: map<Id, nat>, bound: nat)
    requires forall k :: k in m ==> m[k] >= bound
    ensures Sum(m) >= |m| * bound
    decreases |m|
  {
    if m.Keys != {} {
      var k :| k in m.Keys;
      SumSplit(m, k);
      assert (m - {k}).Keys == m.Keys - {k};
      SumAtLeast(m - {k}, bound);
      assert |m| * bound == (|m| - 1) * bound + bound;
    }
  }

  /** With names of twelve bytes or more the file outgrows its limit before the principals do. */
  lemma SizeStrikesFirst(s: Ledger, names: Names)
    requires FileBytes(s, names) <= MAX_STATE_BYTES && forall p :: p in s.principals ==> names.width(p) >= 12
    ensures |s.principals| < MAX_PRINCIPALS
  {
    var m := Entries(s.principals, names);
    assert m.Keys == s.principals.Keys && |m| == |m.Keys| && |s.principals| == |s.principals.Keys|;
    hide UsdWidth, Sum;
    SumAtLeast(m, 84);
  }

  // ---------------------------------------------------------------- a ledger that outgrows its file

  /** How many names of 43 bytes fill the file: `public:` and a UUID is one. */
  const FULL := 72_944

  ghost predicate LongNames(names: Names) {
    forall p: Id :: p < FULL ==> names.readable(p) && !names.inherited(p) && names.width(p) == 43
  }

  ghost function OneEach(n: nat): (m: map<Id, Usage>)
    ensures forall p :: p in m ==> p < n
  {
    if n == 0 then map[] else OneEach(n - 1)[n - 1 := Usage(1, 0)]
  }

  /** One research request of each of `n` principals. */
  ghost function Crowded(day: int, n: nat): Ledger {
    Ledger(day, 0.0, n, 0, OneEach(n))
  }

  lemma NoEntries(names: Names)
    ensures Sum(Entries(map[], names)) == 0
  {
    assert Entries(map[], names) == map[];
    SumZeros(map[]);
  }

  lemma NewEntry(m: map<Id, Usage>, p: Id, names: Names)
    requires p !in m && names.width(p) == 43
    ensures Sum(Entries(m[p := Usage(1, 0)], names)) == Sum(Entries(m, names)) + 115 && |m[p := Usage(1, 0)]| == |m| + 1
  {
    EntriesPut(m, p, Usage(1, 0), names);
    PutSize(m, p, Usage(1, 0));
    SumSet(Entries(m, names), p, 115);
    hide Sum;
  }

  lemma {:induction false} CrowdedEntries(n: nat, names: Names)
    requires LongNames(names) && n <= FULL
    ensures Sum(Entries(OneEach(n), names)) == 115 * n && |OneEach(n)| == n
  {
    hide Sum, Entries;
    if n == 0 {
      NoEntries(names);
    } else {
      CrowdedEntries(n - 1, names);
      NewEntry(OneEach(n - 1), n - 1, names);
    }
  }

  lemma CrowdedBytes(day: int, n: nat, names: Names)
    requires LongNames(names) && n <= FULL
    ensures FileBytes(Crowded(day, n), names) <= MAX_STATE_BYTES <==> n < FULL
  {
    CrowdedEntries(n, names);
    assert UsdWidth(0.0) == 1 by { assert 0.0 * 1_000_000.0 == 0.0; }
    hide Sum, Entries;
    assert Pow10(5) == 100_000;
    DigitsWithin(n, 5);
  }

  lemma CrowdedIsFound(day: int, n: nat, names: Names)
    requires LongNames(names) && n < FULL
    ensures Load(Some(Crowded(day, n)), day, names) == Some(Crowded(day, n)) && n !in OneEach(n)
  {
    CrowdedBytes(day, n, names);
    CrowdedEntries(n, names);
    hide FileBytes, Sum;
  }

  lemma NewcomerCharged(c: Config, day: int, n: nat, names: Names)
    requires c.Valid() && LongNames(names) && n < FULL
    ensures Decide(Crowded(day, n), c, n, Research, Some(Trifle(c)), names) == Allowed
    ensures Charged(Crowded(day, n), n, Research, Trifle(c), names) == Crowded(day, n + 1)
  {
    TrifleRoundsAway(c);
    hide Trifle, Round6;
  }

  lemma NewcomerStep(c: Config, n: nat, at: int, names: Names)
    requires c.Valid() && LongNames(names) && n < FULL
    ensures var day := UtcDay(at);
            Consume(Some(Crowded(day, n)), c, Call(n, Research, Some(Trifle(c)), at), names) == (Some(Crowded(day, n + 1)), Some(Allowed))
  {
    CrowdedIsFound(UtcDay(at), n, names);
    NewcomerCharged(c, UtcDay(at), n, names);
    hide Load, Decide, Charged, Crowded, Trifle;
  }

  function Newcomers(c: Config, first: nat, n: nat, at: int): seq<Call>
    decreases n
  {
    if n == 0 then [] else [Call(first, Research, Some(Trifle(c)), at)] + Newcomers(c, first + 1, n - 1, at)
  }

  lemma {:induction false} NewcomersRun(c: Config, first: nat, n: nat, at: int, a: seq<Charge>, names: Names)
    requires c.Valid() && LongNames(names) && first + n <= FULL
    ensures RunDay(Some(Crowded(UtcDay(at), first)), c, Newcomers(c, first, n, at), UtcDay(at), a, names).0
            == Some(Crowded(UtcDay(at), first + n))
    decreases n
  {
    hide Consume, Trifle, Crowded, LongNames;
    if n > 0 {
      NewcomerStep(c, first, at, names);
      assert Newcomers(c, first, n, at)[1..] == Newcomers(c, first + 1, n - 1, at);
      NewcomersRun(c, first + 1, n - 1, at, a + [Charge(first, Research, Trifle(c))], names);
    }
  }

  /**
    One request each of 72,944 principals with names like `public:<uuid>`, far fewer than 100,000, and every
    later call of every day throws.
   */
  lemma LedgerOutgrowsItsFile(c: Config, at: int, later: seq<Call>, day: int, names: Names)
    requires c.Valid() && LongNames(names)
    ensures var (file, _) := RunDay(None, c, Newcomers(c, 0, FULL, at), UtcDay(at), [], names);
            && file.Some? && |file.value.principals| == FULL && Readable(file.value, names)
            && RunDay(file, c, later, day, [], names) == (file, [])
            && forall call :: Consume(file, c, call, names).1.None?
  {
    var today, first := UtcDay(at), Call(0, Research, Some(Trifle(c)), at);
    assert Consume(None, c, first, names) == Consume(Some(Crowded(today, 0)), c, first, names) by {
      CrowdedBytes(today, 0, names);
      assert OneEach(0) == map[];
      hide Round6, Trifle, FileBytes;
    }
    CrowdedEntries(FULL, names);
    CrowdedBytes(today, FULL, names);
    NewcomersRun(c, 0, FULL, at, [], names);
    hide Consume, FileBytes, Trifle, Sum;
    OversizedIsRefusedForEver(Crowded(today, FULL), c, later, day, [], names);
  }

  // ---------------------------------------------------------------- the ledger as it runs

  ghost function Part(m: map<Id, Usage>, seen: set<Id>): map<Id, Usage> {
    map p | p in m && p in seen :: m[p]
  }

  lemma WholeAndNone(m: map<Id, Usage>)
    ensures Part(m, {}) == map[] && Part(m, m.Keys) == m
  {
  }

  lemma OneEntryMore(m: map<Id, Usage>, seen: set<Id>, p: Id, names: Names)
    requires p in m && p !in seen
    ensures Sum(Entries(Part(m, seen + {p}), names)) == Sum(Entries(Part(m, seen), names)) + EntryBytes(names.width(p), m[p])
  {
    hide Sum, EntryBytes;
    var before := Part(m, seen);
    assert Part(m, seen + {p}) == before[p := m[p]];
    EntriesPut(before, p, m[p], names);
    SumSet(Entries(before, names), p, EntryBytes(names.width(p), m[p]));
  }

  /** The file behind the transaction lock; one call is one transaction. */
  class ProviderBudget {
    const config: Config
    const names: Names
    var file: Option<Ledger>

    constructor (config: Config, names: Names, file: Option<Ledger>)
      requires config.Valid()
      ensures this.config == config && this.names == names && this.file == file
    {
      this.config, this.names, this.file := config, names, file;
    }

    method ByteLength(s: Ledger) returns (bytes: nat)
      ensures bytes == FileBytes(s, names)
    {
      hide Sum, EntryBytes, Entries, Part, HeadBytes;
      bytes := HeadBytes(s);
      var all := s.principals.Keys;
      var rest := all;
      assert all - rest == {};
      WholeAndNone(s.principals);
      NoEntries(names);
      while rest != {}
        invariant rest <= all
        invariant bytes == HeadBytes(s) + Sum(Entries(Part(s.principals, all - rest), names))
        decreases |rest|
      {
        var p :| p in rest;
        OneEntryMore(s.principals, all - rest, p, names);
        assert all - (rest - {p}) == (all - rest) + {p};
        bytes := bytes + EntryBytes(names.width(p), s.principals[p]);
        rest := rest - {p};
      }
      assert all - rest == all;
    }

    method ParsePrincipals(s: Ledger) returns (ok: bool)
      ensures ok == Readable(s, names)
    {
      if s.usd < 0.0 {
        return false;
      }
      var all, count: nat := s.principals.Keys, 0;
      var rest := all;
      assert |all| == |s.principals|;
      while rest != {}
        invariant rest <= all && count + |rest| == |all| && count <= MAX_PRINCIPALS
        invariant forall p :: p in all && p !in rest ==> names.readable(p)
        decreases |rest|
      {
        var p :| p in rest;
        if !names.readable(p) {
          return false;
        }
        if count >= MAX_PRINCIPALS {
          return false;
        }
        rest := rest - {p};
        count := count + 1;
      }
      return true;
    }

    method ParseState(day: int) returns (state: Option<Ledger>)
      ensures state == Load(file, day, names)
    {
      if file.None? {
        return Some(EmptyLedger(day));
      }
      var bytes := ByteLength(file.value);
      if bytes > MAX_STATE_BYTES {
        return None;
      }
      if file.value.day != day {
        return Some(EmptyLedger(day));
      }
      var ok := ParsePrincipals(file.value);
      return if ok then file else None;
    }

    method ConsumeCall(call: Call) returns (decision: Option<Decision>)
      modifies this`file
      ensures (file, decision) == Consume(old(file), config, call, names)
    {
      hide Round6, Load;
      var p := call.principal;
      var state := ParseState(UtcDay(call.at));
      if state.None? {
        return None;
      }
      var s := state.value;
      var tracked := p in s.principals || !names.inherited(p);
      var u := if p in s.principals then s.principals[p] else Usage(0, 0);
      var limit := if call.lane == Research then config.researchQuota else config.importQuota;
      var used := if call.lane == Research then u.research else u.imports;
      if tracked && used >= limit {
        return Some(PrincipalQuota);
      }
      if call.estimate.None? || call.estimate.value <= 0.0 || s.usd + call.estimate.value > config.budget {
        return Some(GlobalBudget);
      }
      if call.lane == Research {
        u := u.(research := u.research + 1);
        s := s.(research := s.research + 1);
      } else {
        u := u.(imports := u.imports + 1);
        s := s.(imports := s.imports + 1);
      }
      s := s.(usd := Round6(s.usd + call.estimate.value));
      if tracked {
        s := s.(principals := s.principals[p := u]);
      }
      file := Some(s);
      return Some(Allowed);
    }
  }
}
