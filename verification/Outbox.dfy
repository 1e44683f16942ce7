/**
  The event scout's durable outbox, after drainDispatches, settleDispatch and runOnce of
  shared/market-event-scout.ts. An attempt is written to the outbox before the model adapter is called,
  and the process may die at any point between two writes.

  Memory and file agree after every write, so one record list stands for both. A step ends with its write;
  a death before that write is a death before the step. Of a stored text only the length counts.
 */
module Outbox {
  import opened Common
  import opened Sorting

  const PER_RUN_CAP := 1
  const DAILY_CAP := 4
  const MAX_ATTEMPTS := 100
  const MAX_RECORDS := 2_000
  const MAX_ERROR := 500
  /** Lengths of the two texts the drain itself stores. */
  const RETRY_LIMIT_TEXT := 36
  const NOT_RETAINED_TEXT := 39

  datatype Status = Pending | Reserved | Enqueued | Settled | Failed

  datatype Record = Record(
    candidate: Id,
    status: Status,
    attempt: nat,
    days: seq<int>,
    createdAt: int,
    updatedAt: int,
    error: Option<nat>,   // the length of the text
    job: bool)
  {
    predicate Live() { status == Pending || status == Reserved || status == Enqueued }
  }

  /** A drain in progress: the day it counts against, attempts counted, jobs accepted, candidates still to visit. */
  datatype Drain =
    | Idle
    | Draining(today: int, attempts: int, accepted: nat, rest: seq<Id>)
    | Calling(today: int, attempts: int, accepted: nat, rest: seq<Id>, id: Id)
    | Awaiting(today: int, attempts: int, accepted: nat, rest: seq<Id>, id: Id)

  datatype Call = Call(candidate: Id, day: int)
  datatype Acceptance = Acceptance(candidate: Id, instance: nat)

  /** `calls` and `accepts` are what the adapter has seen. */
  datatype World = World(
    records: seq<Record>,
    instance: nat,
    recovered: bool,
    phase: Drain,
    calls: seq<Call>,
    accepts: seq<Acceptance>)

  datatype Result = Accepted | Retryable | Rejected

  datatype Event =
    | Poll(news: seq<Id>, at: int)         // new would-trigger candidates, in the order they were created
    | StartDrain(at: int)
    | Visit(retained: bool, at: int)        // whether the next candidate is still stored as a trigger
    | CallAdapter
    | Answered(result: Result, text: nat, at: int)   // the length of the error text, once trimmed
    | Settle(id: Id, complete: bool, text: nat, at: int)
    | Die

  // ---------------------------------------------------------------- record lists

  function Occurrences(days: seq<int>, day: int): nat {
    if days == [] then 0 else (if days[0] == day then 1 else 0) + Occurrences(days[1..], day)
  }

  /** The attempts the outbox has on record for a day. */
  function Attempts(records: seq<Record>, day: int): nat {
    if records == [] then 0 else Occurrences(records[0].days, day) + Attempts(records[1..], day)
  }

  function Find(records: seq<Record>, id: Id): Option<Record> {
    if records == [] then None
    else if records[0].candidate == id then Some(records[0])
    else Find(records[1..], id)
  }

  function Replace(records: seq<Record>, r: Record): seq<Record> {
    if records == [] then []
    else if records[0].candidate == r.candidate then [r] + records[1..]
    else [records[0]] + Replace(records[1..], r)
  }

  function LiveOnes(records: seq<Record>): seq<Record> {
    if records == [] then [] else (if records[0].Live() then [records[0]] else []) + LiveOnes(records[1..])
  }

  function Terminal(records: seq<Record>): seq<Record> {
    if records == [] then [] else (if records[0].Live() then [] else [records[0]]) + Terminal(records[1..])
  }

  /** Live records first; finished ones fill what room is left. */
  function Retain(records: seq<Record>): seq<Record> {
    var live, done := LiveOnes(records), Terminal(records);
    if |live| >= MAX_RECORDS then live[..MAX_RECORDS]
    else live + (if |done| <= MAX_RECORDS - |live| then done else done[..MAX_RECORDS - |live|])
  }

  /** The records a retention drops. */
  function Dropped(records: seq<Record>): seq<Record> {
    var live, done := LiveOnes(records), Terminal(records);
    if |live| >= MAX_RECORDS then live[MAX_RECORDS..] + done
    else if |done| <= MAX_RECORDS - |live| then [] else done[MAX_RECORDS - |live|..]
  }

  function NewRecord(id: Id, at: int): Record {
    Record(id, Pending, 0, [], at, at, None, false)
  }

  function Admit(records: seq<Record>, news: seq<Id>, at: int): seq<Record>
    decreases |news|
  {
    if news == [] then records
    else if Find(records, news[0]).Some? || |LiveOnes(records)| >= MAX_RECORDS then Admit(records, news[1..], at)
    else Admit([NewRecord(news[0], at)] + records, news[1..], at)
  }

  function Restarted(r: Record, at: int): Record {
    if r.status == Reserved || r.status == Enqueued then r.(status := Pending, job := false, error := None, updatedAt := at) else r
  }

  /** A fresh instance takes up what an interrupted one had in flight. */
  function Recovered(records: seq<Record>, at: int): seq<Record> {
    if records == [] then [] else [Restarted(records[0], at)] + Recovered(records[1..], at)
  }

  function OldestFirst(): (Record, Record) -> bool {
    (a: Record, b: Record) => a.createdAt <= b.createdAt
  }

  function Candidates(records: seq<Record>): seq<Id> {
    if records == [] then [] else [records[0].candidate] + Candidates(records[1..])
  }

  // ---------------------------------------------------------------- steps

  function Failing(r: Record, text: nat, at: int): Record {
    r.(status := Failed, error := Some(text), updatedAt := at)
  }

  function Reserving(r: Record, today: int, at: int): Record {
    r.(status := Reserved, attempt := r.attempt + 1, days := r.days + [today], error := None, job := false, updatedAt := at)
  }

  function Bounded(text: nat): nat {
    if text <= MAX_ERROR then text else MAX_ERROR
  }

  function Answering(r: Record, result: Result, text: nat, at: int): Record {
    match result
    case Accepted => r.(status := Enqueued, error := None, job := true, updatedAt := at)
    case Retryable => r.(status := Pending, error := Some(Bounded(text)), updatedAt := at)
    case Rejected => r.(status := Failed, error := Some(Bounded(text)), updatedAt := at)
  }

  function Settling(r: Record, complete: bool, text: nat, at: int): Record {
    r.(status := if complete then Settled else Failed, error := if complete then None else Some(Bounded(text)), updatedAt := at)
  }

  /** The drain comes to its next record. */
  function VisitNext(x: World, today: int, attempts: int, accepted: nat, rest: seq<Id>, retained: bool, at: int): World
    requires rest != []
  {
    var onward := Draining(today, attempts, accepted, rest[1..]);
    match Find(x.records, rest[0])
    case None => x.(phase := onward)
    case Some(r) =>
      if r.status != Pending then x.(phase := onward)
      else if accepted >= PER_RUN_CAP || attempts >= DAILY_CAP then x.(phase := Idle)
      else if r.attempt >= MAX_ATTEMPTS then x.(records := Replace(x.records, Failing(r, RETRY_LIMIT_TEXT, at)), phase := onward)
      else if !retained then x.(records := Replace(x.records, Failing(r, NOT_RETAINED_TEXT, at)), phase := onward)
      else
        x.(records := Replace(x.records, Reserving(r, today, at)),
           phase := Calling(today, attempts + 1, accepted, rest[1..], rest[0]))
  }

  function Conclude(x: World, result: Result, text: nat, at: int): World
    requires x.phase.Awaiting?
  {
    var q := x.phase;
    match Find(x.records, q.id)
    case None => x.(phase := Draining(q.today, q.attempts, q.accepted, q.rest))
    case Some(r) =>
      x.(records := Replace(x.records, Answering(r, result, text, at)),
         accepts := if result == Accepted then x.accepts + [Acceptance(q.id, x.instance)] else x.accepts,
         phase := Draining(q.today, q.attempts, if result == Accepted then q.accepted + 1 else q.accepted, q.rest))
  }

  function Step(x: World, e: Event): World {
    match e
    case Poll(news, at) => if x.phase != Idle then x else x.(records := Retain(Admit(x.records, news, at)))
    case StartDrain(at) =>
      if x.phase != Idle then x
      else
        var records := if x.recovered then x.records else Recovered(x.records, at);
        x.(records := records, recovered := true,
           phase := Draining(UtcDay(at), Attempts(records, UtcDay(at)), 0, Candidates(Sort(records, OldestFirst()))))
    case Visit(retained, at) =>
      (match x.phase
       case Draining(today, attempts, accepted, rest) =>
         if rest == [] then x.(phase := Idle) else VisitNext(x, today, attempts, accepted, rest, retained, at)
       case _ => x)
    case CallAdapter =>
      (match x.phase
       case Calling(today, attempts, accepted, rest, id) =>
         x.(calls := x.calls + [Call(id, today)], phase := Awaiting(today, attempts, accepted, rest, id))
       case _ => x)
    case Answered(result, text, at) => if x.phase.Awaiting? then Conclude(x, result, text, at) else x
    case Settle(id, complete, text, at) =>
      (if x.phase != Idle then x
       else match Find(x.records, id)
            case Some(r) =>
              if r.status == Settled || r.status == Failed then x
              else x.(records := Replace(x.records, Settling(r, complete, text, at)))
            case None => x)
    case Die => x.(instance := x.instance + 1, recovered := false, phase := Idle)
  }

  function Run(x: World, run: seq<Event>): World
    decreases |run|
  {
    if run == [] then x else Run(Step(x, run[0]), run[1..])
  }

  const Empty := World([], 0, false, Idle, [], [])

  /** How many attempts of a day the outbox forgets in this step: those of the records that a retention drops. */
  function Forgets(x: World, e: Event, day: int): nat {
    if e.Poll? && x.phase.Idle? then Attempts(Dropped(Admit(x.records, e.news, e.at)), day) else 0
  }

  function Forgotten(x: World, run: seq<Event>, day: int): nat
    decreases |run|
  {
    if run == [] then 0 else Forgets(x, run[0], day) + Forgotten(Step(x, run[0]), run[1..], day)
  }

  /** This step does not poll a candidate again that this instance has had accepted and whose record has been dropped. */
  ghost predicate Keeps(x: World, e: Event, id: Id) {
    e.Poll? && x.phase.Idle? && AcceptedNow(x, id) && Find(x.records, id).None? ==> id !in e.news
  }

  ghost predicate KeepingRun(x: World, run: seq<Event>, id: Id)
    decreases |run|
  {
    run == [] || (Keeps(x, run[0], id) && KeepingRun(Step(x, run[0]), run[1..], id))
  }

  // ---------------------------------------------------------------- facts about record lists

  ghost predicate UniqueRecords(records: seq<Record>) {
    forall i, j :: 0 <= i < j < |records| ==> records[i].candidate != records[j].candidate
  }

  lemma {:induction false} FindFacts(records: seq<Record>, id: Id)
    ensures Find(records, id).Some? ==> Find(records, id).value.candidate == id && Find(records, id).value in records
    ensures Find(records, id).None? <==> forall r :: r in records ==> r.candidate != id
  {
    if records != [] {
      FindFacts(records[1..], id);
      assert forall r :: r in records <==> r == records[0] || r in records[1..];
    }
  }

  lemma {:induction false} ReplaceFacts(records: seq<Record>, r: Record)
    requires UniqueRecords(records)
    ensures UniqueRecords(Replace(records, r)) && |Replace(records, r)| == |records|
    ensures forall i :: 0 <= i < |records| ==> Replace(records, r)[i].candidate == records[i].candidate
    ensures forall id :: Find(Replace(records, r), id) == (if id == r.candidate && Find(records, id).Some? then Some(r) else Find(records, id))
  {
    if records != [] {
      assert UniqueRecords(records[1..]);
      ReplaceFacts(records[1..], r);
      var t := Replace(records, r);
      assert forall i :: 0 < i < |records| ==> t[i] == (if records[0].candidate == r.candidate then records[i] else Replace(records[1..], r)[i - 1]);
      assert forall i :: 0 < i < |records| ==> records[i] == records[1..][i - 1];
    }
  }

  lemma {:induction false} OccurrencesAppend(days: seq<int>, d: int, day: int)
    ensures Occurrences(days + [d], day) == Occurrences(days, day) + (if d == day then 1 else 0)
  {
    if days == [] {
      assert days + [d] == [d];
    } else {
      assert (days + [d])[1..] == days[1..] + [d];
      OccurrencesAppend(days[1..], d, day);
    }
  }

  lemma {:induction false} ReplaceAttempts(records: seq<Record>, r: Record, day: int)
    requires Find(records, r.candidate).Some?
    ensures Attempts(Replace(records, r), day) + Occurrences(Find(records, r.candidate).value.days, day)
              == Attempts(records, day) + Occurrences(r.days, day)
  {
    if records[0].candidate != r.candidate {
      ReplaceAttempts(records[1..], r, day);
    }
  }

  lemma {:induction false} RecoveredFacts(records: seq<Record>, at: int)
    ensures forall day :: Attempts(Recovered(records, at), day) == Attempts(records, day)
    ensures |Recovered(records, at)| == |records|
    ensures forall i :: 0 <= i < |records| ==> Recovered(records, at)[i] == Restarted(records[i], at)
  {
    if records != [] {
      RecoveredFacts(records[1..], at);
    }
  }

  lemma {:induction false} SplitAttempts(records: seq<Record>, day: int)
    ensures Attempts(LiveOnes(records), day) + Attempts(Terminal(records), day) == Attempts(records, day)
    ensures |LiveOnes(records)| + |Terminal(records)| == |records|
  {
    if records != [] {
      SplitAttempts(records[1..], day);
      AttemptsConcat(if records[0].Live() then [records[0]] else [], LiveOnes(records[1..]), day);
      AttemptsConcat(if records[0].Live() then [] else [records[0]], Terminal(records[1..]), day);
    }
  }

  lemma {:induction false} AttemptsConcat(a: seq<Record>, b: seq<Record>, day: int)
    ensures Attempts(a + b, day) == Attempts(a, day) + Attempts(b, day)
  {
    if a == [] {
      assert a + b == b;
    } else {
      assert (a + b)[1..] == a[1..] + b;
      AttemptsConcat(a[1..], b, day);
    }
  }

  lemma {:induction false} SplitElems(records: seq<Record>)
    ensures forall r :: r in LiveOnes(records) <==> r in records && r.Live()
    ensures forall r :: r in Terminal(records) <==> r in records && !r.Live()
  {
    if records != [] {
      SplitElems(records[1..]);
      assert forall r :: r in records <==> r == records[0] || r in records[1..];
    }
  }

  lemma TellApart(records: seq<Record>, x: Record, y: Record)
    requires UniqueRecords(records) && x in records && y in records && x != y
    ensures x.candidate != y.candidate
  {
    var i :| 0 <= i < |records| && records[i] == x;
    var j :| 0 <= j < |records| && records[j] == y;
    assert i < j || j < i;
  }

  lemma ConsUnique(r: Record, rest: seq<Record>)
    requires UniqueRecords(rest) && forall x :: x in rest ==> x.candidate != r.candidate
    ensures UniqueRecords([r] + rest)
  {
    assert forall i :: 0 < i <= |rest| ==> ([r] + rest)[i] == rest[i - 1] && rest[i - 1] in rest;
  }

  lemma ConcatUnique(a: seq<Record>, b: seq<Record>)
    requires UniqueRecords(a) && UniqueRecords(b)
    requires forall x, y :: x in a && y in b ==> x.candidate != y.candidate
    ensures UniqueRecords(a + b)
  {
    forall i, j | 0 <= i < j < |a + b| ensures (a + b)[i].candidate != (a + b)[j].candidate {
      if i < |a| <= j {
        assert a[i] in a && b[j - |a|] in b;
      }
    }
  }

  lemma {:induction false} PartsUnique(records: seq<Record>)
    requires UniqueRecords(records)
    ensures UniqueRecords(LiveOnes(records)) && UniqueRecords(Terminal(records))
  {
    if records != [] {
      assert UniqueRecords(records[1..]);
      forall x | x in records[1..] ensures x.candidate != records[0].candidate {
      }
      PartsUnique(records[1..]);
      SplitElems(records[1..]);
      hide UniqueRecords;
      if records[0].Live() {
        ConsUnique(records[0], LiveOnes(records[1..]));
        assert Terminal(records) == Terminal(records[1..]);
      } else {
        ConsUnique(records[0], Terminal(records[1..]));
        assert LiveOnes(records) == LiveOnes(records[1..]);
      }
    }
  }

  lemma SplitUnique(records: seq<Record>)
    requires UniqueRecords(records)
    ensures UniqueRecords(LiveOnes(records) + Terminal(records))
  {
    PartsUnique(records);
    SplitElems(records);
    hide UniqueRecords;
    forall x, y | x in LiveOnes(records) && y in Terminal(records) ensures x.candidate != y.candidate {
      TellApart(records, x, y);
    }
    ConcatUnique(LiveOnes(records), Terminal(records));
  }

  // ---------------------------------------------------------------- retention

  /**
    A retention keeps the attempts on record for a day exactly when no dropped record carries one. It
    drops nothing when the outbox is within its bound, and no live record while those fit.
   */
  lemma RetentionForgetsExactlyTheDropped(records: seq<Record>, day: int)
    ensures Attempts(Retain(records), day) + Attempts(Dropped(records), day) == Attempts(records, day)
    ensures Attempts(Retain(records), day) == Attempts(records, day) <==> Attempts(Dropped(records), day) == 0
    ensures |Retain(records)| <= MAX_RECORDS && (|records| <= MAX_RECORDS ==> Dropped(records) == [])
    ensures |LiveOnes(records)| <= MAX_RECORDS ==> forall r :: r in Dropped(records) ==> !r.Live()
  {
    var live, done := LiveOnes(records), Terminal(records);
    SplitAttempts(records, day);
    TerminalIsDone(records);
    if |live| >= MAX_RECORDS {
      assert live == live[..MAX_RECORDS] + live[MAX_RECORDS..];
      AttemptsConcat(live[..MAX_RECORDS], live[MAX_RECORDS..], day);
      AttemptsConcat(live[MAX_RECORDS..], done, day);
    } else {
      var room := MAX_RECORDS - |live|;
      if |done| <= room {
        AttemptsConcat(live, done, day);
      } else {
        assert done == done[..room] + done[room..];
        AttemptsConcat(done[..room], done[room..], day);
        AttemptsConcat(live, done[..room], day);
      }
    }
  }

  lemma {:induction false} TerminalIsDone(records: seq<Record>)
    ensures forall r :: r in Terminal(records) ==> !r.Live()
  {
    if records != [] {
      TerminalIsDone(records[1..]);
    }
  }

  // ---------------------------------------------------------------- the invariant

  function CallsOn(calls: seq<Call>, day: int): nat {
    if calls == [] then 0 else (if calls[|calls| - 1].day == day then 1 else 0) + CallsOn(calls[..|calls| - 1], day)
  }

  /** The attempt that is on record but whose call has not happened yet. */
  function Due(x: World, day: int): nat {
    if x.phase.Calling? && x.phase.today == day then 1 else 0
  }

  /** Calls of a day are on record as attempts, but for those forgotten; the count of the drain under way is right. */
  ghost predicate Counted(x: World, day: int, forgotten: nat) {
    && CallsOn(x.calls, day) + Due(x, day) <= Attempts(x.records, day) + forgotten
    && Attempts(x.records, day) <= DAILY_CAP
    && (!x.phase.Idle? && x.phase.today == day ==> x.phase.attempts == Attempts(x.records, day))
  }

  ghost predicate AcceptedNow(x: World, id: Id) {
    Acceptance(id, x.instance) in x.accepts
  }

  /** If this instance has had the candidate accepted, its record is past being pending, for good, or gone. */
  ghost predicate AcceptedOnce(x: World, id: Id) {
    && (forall i, j :: 0 <= i < j < |x.accepts| && x.accepts[i] == x.accepts[j] ==> x.accepts[i].candidate != id)
    && (forall a :: a in x.accepts ==> a.instance <= x.instance)
    && (!x.recovered ==> !AcceptedNow(x, id))
    && (AcceptedNow(x, id) ==>
          Find(x.records, id).None? || Find(x.records, id).value.status in {Enqueued, Settled, Failed})
  }

  /** What holds whatever is forgotten. */
  ghost predicate Base(x: World) {
    && UniqueRecords(x.records) && (!x.recovered ==> x.phase.Idle?)
    && (x.phase.Calling? || x.phase.Awaiting? ==>
          Find(x.records, x.phase.id).Some? && Find(x.records, x.phase.id).value.status == Reserved)
  }

  // ---------------------------------------------------------------- every step keeps it

  lemma {:induction false} AdmitFacts(records: seq<Record>, news: seq<Id>, at: int)
    requires UniqueRecords(records)
    ensures UniqueRecords(Admit(records, news, at))
    ensures forall day :: Attempts(Admit(records, news, at), day) == Attempts(records, day)
    ensures forall id :: Find(records, id).Some? ==> Find(Admit(records, news, at), id) == Find(records, id)
    ensures forall id :: Find(records, id).None? && id !in news ==> Find(Admit(records, news, at), id).None?
    decreases |news|
  {
    if news != [] {
      if Find(records, news[0]).Some? || |LiveOnes(records)| >= MAX_RECORDS {
        AdmitFacts(records, news[1..], at);
      } else {
        FindFacts(records, news[0]);
        var more := [NewRecord(news[0], at)] + records;
        assert more[1..] == records;
        assert forall i :: 0 < i < |more| ==> more[i] == records[i - 1] && more[i] in records;
        AdmitFacts(more, news[1..], at);
      }
    }
  }

  lemma {:induction false} FindUnique(records: seq<Record>, r: Record)
    requires UniqueRecords(records) && r in records
    ensures Find(records, r.candidate) == Some(r)
  {
    if records[0] != r {
      assert r in records[1..];
      assert UniqueRecords(records[1..]);
      FindUnique(records[1..], r);
      var i :| 0 <= i < |records[1..]| && records[1..][i] == r;
      assert records[i + 1] == r;
    }
  }

  lemma PrefixUnique(records: seq<Record>, n: nat)
    requires UniqueRecords(records) && n <= |records|
    ensures UniqueRecords(records[..n])
  {
  }

  /** The retained records are the first of the live ones and then of the finished ones. */
  lemma RetainIsPrefix(records: seq<Record>)
    ensures var both := LiveOnes(records) + Terminal(records);
            |Retain(records)| <= |both| && Retain(records) == both[..|Retain(records)|] && Dropped(records) == both[|Retain(records)|..]
  {
    var live, done := LiveOnes(records), Terminal(records);
    var both, r := live + done, Retain(records);
    if |live| >= MAX_RECORDS {
      assert both[..MAX_RECORDS] == live[..MAX_RECORDS] && both[MAX_RECORDS..] == live[MAX_RECORDS..] + done;
    } else if |done| <= MAX_RECORDS - |live| {
      assert both[..|both|] == both && both[|both|..] == [];
    } else {
      var room := MAX_RECORDS - |live|;
      assert both[..MAX_RECORDS] == live + done[..room] && both[MAX_RECORDS..] == done[room..];
    }
  }

  /** A retained record is found as it was; only a dropped one is not. */
  lemma RetainFinds(records: seq<Record>)
    requires UniqueRecords(records)
    ensures UniqueRecords(Retain(records))
    ensures forall r :: r in Retain(records) ==> r in records
    ensures forall id :: Find(Dropped(records), id).None? ==> Find(Retain(records), id) == Find(records, id)
    ensures forall id :: Find(Retain(records), id).Some? ==> Find(Retain(records), id) == Find(records, id)
  {
    hide UniqueRecords, Retain, Dropped, Find, Attempts;
    var both, n := LiveOnes(records) + Terminal(records), |Retain(records)|;
    RetainIsPrefix(records);
    SplitUnique(records);
    SplitElems(records);
    PrefixUnique(both, n);
    assert both == both[..n] + both[n..];
    assert forall r :: r in both <==> r in both[..n] || r in both[n..];
    forall id | Find(Dropped(records), id).None? ensures Find(Retain(records), id) == Find(records, id) {
      FoundAmongKept(records, Retain(records), Dropped(records), id);
    }
    forall id | Find(Retain(records), id).Some? ensures Find(Retain(records), id) == Find(records, id) {
      FindFacts(Retain(records), id);
      FindUnique(records, Find(Retain(records), id).value);
    }
  }

  lemma FoundAmongKept(all: seq<Record>, kept: seq<Record>, dropped: seq<Record>, id: Id)
    requires UniqueRecords(kept) && (forall r :: r in all <==> r in kept || r in dropped) && Find(dropped, id).None?
    ensures Find(kept, id) == Find(all, id)
  {
    FindFacts(all, id);
    FindFacts(dropped, id);
    FindFacts(kept, id);
    if Find(all, id).Some? {
      FindUnique(kept, Find(all, id).value);
    }
  }

  lemma RecoveredUnique(records: seq<Record>, at: int)
    requires UniqueRecords(records)
    ensures UniqueRecords(Recovered(records, at))
  {
    RecoveredFacts(records, at);
  }

  /** The record a step rewrites, as it is found. */
  function Touched(x: World, e: Event): Option<Record> {
    match e
    case Visit(_, _) =>
      (match x.phase
       case Draining(today, attempts, accepted, rest) =>
         if rest == [] || Find(x.records, rest[0]).None? || Find(x.records, rest[0]).value.status != Pending
            || accepted >= PER_RUN_CAP || attempts >= DAILY_CAP then None
         else Find(x.records, rest[0])
       case _ => None)
    case Answered(_, _, _) => if x.phase.Awaiting? then Find(x.records, x.phase.id) else None
    case Settle(id, _, _, _) =>
      if !x.phase.Idle? || Find(x.records, id).None? || !Find(x.records, id).value.Live() then None else Find(x.records, id)
    case _ => None
  }

  /** What the step makes of a record it touches. */
  function Rewritten(x: World, e: Event, r: Record): Record {
    match e
    case Visit(retained, at) =>
      if r.attempt >= MAX_ATTEMPTS then Failing(r, RETRY_LIMIT_TEXT, at)
      else if !retained then Failing(r, NOT_RETAINED_TEXT, at)
      else if x.phase.Draining? then Reserving(r, x.phase.today, at)
      else r
    case Answered(result, text, at) => Answering(r, result, text, at)
    case Settle(_, complete, text, at) => Settling(r, complete, text, at)
    case _ => r
  }

  /** A step that touches a record changes the outbox nowhere else, and one that does not changes it nowhere. */
  lemma StepRewrites(x: World, e: Event)
    requires !e.Poll? && !e.StartDrain?
    ensures Step(x, e).records == match Touched(x, e) case None => x.records case Some(r) => Replace(x.records, Rewritten(x, e, r))
    ensures match Touched(x, e) case None => true case Some(r) => Find(x.records, r.candidate) == Some(r) && Rewritten(x, e, r).candidate == r.candidate
    ensures e.Visit? && Touched(x, e).Some? ==> Touched(x, e).value.candidate == x.phase.rest[0]
  {
    hide Replace;
    match e
    case Visit(_, _) =>
      if x.phase.Draining? && x.phase.rest != [] {
        FindFacts(x.records, x.phase.rest[0]);
      }
      hide Find;
    case Answered(_, _, _) =>
      if x.phase.Awaiting? {
        FindFacts(x.records, x.phase.id);
      }
      hide Find;
    case Settle(id, _, _, _) =>
      FindFacts(x.records, id);
      hide Find;
    case _ =>
  }

  lemma PutRecord(records: seq<Record>, r: Record)
    requires UniqueRecords(records) && Find(records, r.candidate).Some?
    ensures UniqueRecords(Replace(records, r)) && |Replace(records, r)| == |records|
    ensures forall id :: Find(Replace(records, r), id) == (if id == r.candidate then Some(r) else Find(records, id))
  {
    ReplaceFacts(records, r);
  }

  lemma StepBase(x: World, e: Event)
    requires Base(x)
    ensures Base(Step(x, e))
  {
    hide Find, Replace, UniqueRecords, Recovered, Retain, Admit, Sort, Attempts;
    match e
    case Poll(news, at) =>
      if x.phase.Idle? {
        AdmitFacts(x.records, news, at);
        RetainFinds(Admit(x.records, news, at));
      }
    case StartDrain(at) => RecoveredUnique(x.records, at);
    case Die =>
    case CallAdapter =>
    case _ =>
      StepRewrites(x, e);
      if Touched(x, e).Some? {
        PutRecord(x.records, Rewritten(x, e, Touched(x, e).value));
      }
  }

  /** A rewritten record carries one more attempt, of today, if it is reserved, and else the attempts it had. */
  lemma RewrittenAttempts(x: World, e: Event, day: int)
    requires Base(x) && Touched(x, e).Some?
    ensures Attempts(Step(x, e).records, day) == Attempts(x.records, day)
              + (if Step(x, e).phase.Calling? && Step(x, e).phase.today == day then 1 else 0)
    ensures Step(x, e).phase.Calling? <==> Rewritten(x, e, Touched(x, e).value).days != Touched(x, e).value.days
  {
    hide Replace, Find, Attempts, Occurrences;
    StepRewrites(x, e);
    var r := Touched(x, e).value;
    ReplaceAttempts(x.records, Rewritten(x, e, r), day);
    if e.Visit? {
      OccurrencesAppend(r.days, x.phase.today, day);
      assert |r.days + [x.phase.today]| == |r.days| + 1;
    }
  }

  lemma StepCounted(x: World, e: Event, day: int, forgotten: nat)
    requires Base(x) && Counted(x, day, forgotten)
    ensures Counted(Step(x, e), day, forgotten + Forgets(x, e, day))
  {
    hide Find, Replace, Recovered, Retain, Admit, Dropped, Sort, Attempts, UniqueRecords, CallsOn;
    match e
    case Poll(news, at) =>
      AdmitFacts(x.records, news, at) by { assert UniqueRecords(x.records); }
      RetentionForgetsExactlyTheDropped(Admit(x.records, news, at), day);
    case StartDrain(at) => RecoveredFacts(x.records, at);
    case Die =>
    case CallAdapter => CallCounted(x, day);
    case _ =>
      StepRewrites(x, e);
      if Touched(x, e).Some? {
        RewrittenAttempts(x, e, day);
      }
  }

  lemma CallCounted(x: World, day: int)
    ensures CallsOn(Step(x, CallAdapter).calls, day) + Due(Step(x, CallAdapter), day) == CallsOn(x.calls, day) + Due(x, day)
  {
    assert (x.calls + [Call(0, 0)])[..|x.calls|] == x.calls;
    if x.phase.Calling? {
      assert Step(x, CallAdapter).calls[..|x.calls|] == x.calls;
    }
  }

  /** The first acceptance of a candidate by this instance. */
  lemma NewAcceptance(x: World, text: nat, at: int, id: Id)
    requires Base(x) && AcceptedOnce(x, id) && x.phase.Awaiting?
    ensures AcceptedOnce(Step(x, Answered(Accepted, text, at)), id)
  {
    hide Replace, Find, UniqueRecords;
    var e := Answered(Accepted, text, at);
    StepRewrites(x, e);
    FindFacts(x.records, x.phase.id);
    var r := Touched(x, e).value;
    PutRecord(x.records, Rewritten(x, e, r));
    var x' := Step(x, e);
    assert AcceptedNow(x', id) <==> AcceptedNow(x, id) || x.phase.id == id;
  }

  lemma StepAccepted(x: World, e: Event, id: Id)
    requires Base(x) && AcceptedOnce(x, id) && Keeps(x, e, id)
    ensures AcceptedOnce(Step(x, e), id)
  {
    hide Find, Replace, Recovered, Retain, Admit, Dropped, Sort, Attempts, UniqueRecords;
    match e
    case Poll(news, at) =>
      AdmitFacts(x.records, news, at);
      RetainFinds(Admit(x.records, news, at));
    case StartDrain(at) =>
    case Die =>
    case CallAdapter =>
    case Answered(result, text, at) =>
      if x.phase.Awaiting? && result == Accepted {
        NewAcceptance(x, text, at, id);
      } else {
        RewriteAccepted(x, e, id);
      }
    case _ => RewriteAccepted(x, e, id);
  }

  lemma RewriteAccepted(x: World, e: Event, id: Id)
    requires Base(x) && AcceptedOnce(x, id) && Step(x, e).accepts == x.accepts
    requires !e.Poll? && !e.StartDrain? && !e.Die? && !e.CallAdapter?
    ensures AcceptedOnce(Step(x, e), id)
  {
    hide Find, Replace, UniqueRecords;
    StepRewrites(x, e);
    if Touched(x, e).Some? {
      FindFacts(x.records, Touched(x, e).value.candidate);
      PutRecord(x.records, Rewritten(x, e, Touched(x, e).value));
      if AcceptedNow(x, id) {
        TouchedIsOpen(x, e, id);
      }
    }
  }

  /** An accepted candidate's record is touched only to settle it. */
  lemma TouchedIsOpen(x: World, e: Event, id: Id)
    requires Base(x) && AcceptedOnce(x, id) && AcceptedNow(x, id) && Touched(x, e).Some?
    ensures Touched(x, e).value.candidate == id ==> e.Settle?
    ensures Step(x, e).instance == x.instance && (e.Visit? || e.Settle? ==> Step(x, e).accepts == x.accepts)
  {
    hide Replace, UniqueRecords;
    StepRewrites(x, e);
    if x.phase.Awaiting? {
      FindFacts(x.records, x.phase.id);
    }
    hide Find;
  }

  lemma {:induction false} RunCounted(x: World, run: seq<Event>, day: int, forgotten: nat)
    requires Base(x) && Counted(x, day, forgotten)
    ensures Base(Run(x, run)) && Counted(Run(x, run), day, forgotten + Forgotten(x, run, day))
    decreases |run|
  {
    hide Base, Counted, Step, Forgets;
    if run != [] {
      StepBase(x, run[0]);
      StepCounted(x, run[0], day, forgotten);
      RunCounted(Step(x, run[0]), run[1..], day, forgotten + Forgets(x, run[0], day));
    }
  }

  lemma {:induction false} RunAccepted(x: World, run: seq<Event>, id: Id)
    requires Base(x) && AcceptedOnce(x, id) && KeepingRun(x, run, id)
    ensures AcceptedOnce(Run(x, run), id)
    decreases |run|
  {
    hide Base, AcceptedOnce, Step, Keeps;
    if run != [] {
      StepBase(x, run[0]);
      StepAccepted(x, run[0], id);
      RunAccepted(Step(x, run[0]), run[1..], id);
    }
  }

  /**
    Across deaths and restarts at any point, the adapter calls counted against one UTC day are all on record
    as attempts of that day, but for attempts that retentions have dropped; and never more attempts are on
    record than the daily cap.
   */
  lemma CallsAreOnRecord(run: seq<Event>, day: int)
    ensures var x := Run(Empty, run);
            CallsOn(x.calls, day) <= Attempts(x.records, day) + Forgotten(Empty, run, day) && Attempts(x.records, day) <= DAILY_CAP
  {
    RunCounted(Empty, run, day, 0);
    hide Run;
  }

  /** So the daily cap holds for every day of which no retention has dropped an attempt. */
  lemma DailyCapSurvivesDeaths(run: seq<Event>, day: int)
    requires Forgotten(Empty, run, day) == 0
    ensures CallsOn(Run(Empty, run).calls, day) <= DAILY_CAP
  {
    CallsAreOnRecord(run, day);
  }

  /** Within one scout instance no candidate is accepted twice, unless its record is dropped and it is polled again. */
  lemma NoCandidateAcceptedTwice(run: seq<Event>, id: Id, i: nat, j: nat)
    requires KeepingRun(Empty, run, id)
    requires var x := Run(Empty, run); i < j < |x.accepts| && x.accepts[i].candidate == id == x.accepts[j].candidate
    ensures var x := Run(Empty, run); x.accepts[i].instance != x.accepts[j].instance
  {
    RunAccepted(Empty, run, id);
    hide Run;
  }

  // ---------------------------------------------------------------- short runs

  lemma {:induction false} RunConcat(x: World, a: seq<Event>, b: seq<Event>)
    ensures Run(x, a + b) == Run(Run(x, a), b)
    decreases |a|
  {
    hide Step;
    if a == [] {
      assert a + b == b;
    } else {
      assert (a + b)[1..] == a[1..] + b;
      RunConcat(Step(x, a[0]), a[1..], b);
    }
  }

  lemma RunCons(x: World, e: Event, rest: seq<Event>)
    ensures Run(x, [e] + rest) == Run(Step(x, e), rest)
  {
    assert ([e] + rest)[1..] == rest;
  }

  lemma RunNone(x: World)
    ensures Run(x, []) == x
  {
  }

  lemma StartOne(x: World, r: Record)
    requires x.records == [r] && x.phase.Idle? && r.status == Pending
    ensures Step(x, StartDrain(1)) == x.(recovered := true, phase := Draining(0, Occurrences(r.days, 0), 0, [r.candidate]))
  {
    assert [r][1..] == [];
    assert Recovered([r], 1) == [r];
    assert Sort([r], OldestFirst()) == [r];
    assert Attempts([r], 0) == Occurrences(r.days, 0);
    assert Candidates([r]) == [r.candidate];
    assert UtcDay(1) == 0;
  }

  predicate Untried(r: Record) {
    r.status == Pending && r.attempt == 0 && r.days == []
  }

  lemma FirstPoll()
    ensures Run(Empty, [Poll([7], 1)]) == Empty.(records := [NewRecord(7, 1)])
  {
    var r := NewRecord(7, 1);
    assert [r][1..] == [] && [7][1..] == [];
    assert LiveOnes([r]) == [r] && Terminal([r]) == [];
    assert Retain([r]) == [r];
    assert [Poll([7], 1)][1..] == [];
  }

  // ---------------------------------------------------------------- the strict reader of the outbox

  /** What the reader demands of one record. */
  ghost predicate Readable(r: Record) {
    && r.attempt <= MAX_ATTEMPTS && Within(r.createdAt, 1, MAX_SAFE) && Within(r.updatedAt, r.createdAt, MAX_SAFE)
    && (r.error.Some? ==> Within(r.error.value, 1, MAX_ERROR))
    && |r.days| == r.attempt && (forall i :: 0 <= i < |r.days| ==> ValidDayName(r.days[i]))
    && (r.status == Pending || r.status == Reserved ==> !r.job) && (r.status == Enqueued ==> r.job)
    && (r.status != Pending ==> r.days != []) && (r.status == Failed ==> r.error.Some?)
  }

  ghost predicate AllReadable(records: seq<Record>) {
    forall i :: 0 <= i < |records| ==> Readable(records[i])
  }

  /** What it demands of the outbox as a whole. */
  ghost predicate FileReadable(records: seq<Record>) {
    |records| <= MAX_RECORDS && UniqueRecords(records) && AllReadable(records)
  }

  /** A poll admits a candidate exactly when one is new and there is room. */
  ghost predicate Admits(records: seq<Record>, news: seq<Id>) {
    |LiveOnes(records)| < MAX_RECORDS && exists i :: 0 <= i < |news| && Find(records, news[i]).None?
  }

  function InFlight(r: Record): bool {
    r.status == Reserved || r.status == Enqueued
  }

  /** This step ends a record that was never attempted. */
  ghost predicate EndsUntried(x: World, e: Event) {
    Touched(x, e).Some? && Touched(x, e).value.attempt == 0 && ((e.Visit? && !e.retained) || e.Settle?)
  }

  /** This step stores an error of which nothing is left once it is trimmed. */
  ghost predicate BlankError(x: World, e: Event) {
    Touched(x, e).Some? && ((e.Answered? && e.result != Accepted && e.text == 0) || (e.Settle? && !e.complete && e.text == 0))
  }

  /** This step stamps a record with a time before its creation, or out of range. */
  ghost predicate Untimely(x: World, e: Event) {
    match e
    case Poll(news, at) => x.phase.Idle? && Admits(x.records, news) && !Within(at, 1, MAX_SAFE)
    case StartDrain(at) =>
      x.phase.Idle? && !x.recovered
      && exists i :: 0 <= i < |x.records| && InFlight(x.records[i]) && !Within(at, x.records[i].createdAt, MAX_SAFE)
    case Visit(_, at) => Touched(x, e).Some? && !Within(at, Touched(x, e).value.createdAt, MAX_SAFE)
    case Answered(_, _, at) => Touched(x, e).Some? && !Within(at, Touched(x, e).value.createdAt, MAX_SAFE)
    case Settle(_, _, _, at) => Touched(x, e).Some? && !Within(at, Touched(x, e).value.createdAt, MAX_SAFE)
    case _ => false
  }

  /** This step counts an attempt for a day whose name the reader does not know. */
  ghost predicate UnnamedDay(x: World, e: Event) {
    e.Visit? && e.retained && Touched(x, e).Some? && Touched(x, e).value.attempt < MAX_ATTEMPTS
    && x.phase.Draining? && !ValidDayName(x.phase.today)
  }

  ghost predicate Spoils(x: World, e: Event) {
    EndsUntried(x, e) || BlankError(x, e) || Untimely(x, e) || UnnamedDay(x, e)
  }

  lemma {:induction false} ReplaceReadable(records: seq<Record>, r: Record)
    requires AllReadable(records) && Find(records, r.candidate).Some?
    ensures AllReadable(Replace(records, r)) <==> Readable(r)
  {
    hide Readable;
    if records[0].candidate == r.candidate {
      assert ([r] + records[1..])[0] == r;
    } else {
      assert AllReadable(records[1..]);
      ReplaceReadable(records[1..], r);
      var t := [records[0]] + Replace(records[1..], r);
      assert forall i :: 0 < i < |t| ==> t[i] == Replace(records[1..], r)[i - 1];
      assert forall i :: 0 <= i < |t| - 1 ==> t[i + 1] == Replace(records[1..], r)[i];
    }
  }

  lemma FoundReadable(records: seq<Record>, id: Id)
    requires AllReadable(records) && Find(records, id).Some?
    ensures Readable(Find(records, id).value)
  {
    FindFacts(records, id);
    hide Readable;
    var i :| 0 <= i < |records| && records[i] == Find(records, id).value;
  }

  /** The rewritten record is readable exactly when the step does not spoil it. */
  lemma RewrittenReadable(x: World, e: Event)
    requires Base(x) && Touched(x, e).Some? && Readable(Touched(x, e).value)
    ensures Readable(Rewritten(x, e, Touched(x, e).value)) <==> !Spoils(x, e)
  {
    var r := Touched(x, e).value;
    StepRewrites(x, e);
    hide Find, UniqueRecords, Replace, Step;
    match e
    case Visit(retained, at) =>
      var days := r.days + [x.phase.today];
      assert days[|r.days|] == x.phase.today;
    case _ =>
  }

  lemma {:induction false} AdmitStamps(records: seq<Record>, news: seq<Id>, at: int)
    requires UniqueRecords(records)
    ensures !Admits(records, news) ==> Admit(records, news, at) == records
    ensures Admits(records, news) ==> exists r :: r in Admit(records, news, at) && r.Live() && r.createdAt == at
    ensures forall r :: r in Admit(records, news, at) ==> r in records || exists id :: r == NewRecord(id, at)
    ensures forall r :: r in records ==> r in Admit(records, news, at)
    ensures |LiveOnes(records)| <= MAX_RECORDS ==> |LiveOnes(Admit(records, news, at))| <= MAX_RECORDS
    decreases |news|
  {
    hide UniqueRecords;
    if news != [] {
      if Find(records, news[0]).Some? || |LiveOnes(records)| >= MAX_RECORDS {
        AdmitStamps(records, news[1..], at);
        assert Admits(records, news) <==> Admits(records, news[1..]) by { AdmitsTail(records, news); }
      } else {
        var r := NewRecord(news[0], at);
        var more := [r] + records;
        assert more[1..] == records && r in more;
        FindFacts(records, news[0]);
        ConsUnique(r, records);
        AdmitStamps(more, news[1..], at);
        assert LiveOnes(more) == [r] + LiveOnes(records);
        assert r in Admit(more, news[1..], at) && r.Live();
      }
    }
  }

  lemma AdmitsTail(records: seq<Record>, news: seq<Id>)
    requires news != [] && (Find(records, news[0]).Some? || |LiveOnes(records)| >= MAX_RECORDS)
    ensures Admits(records, news) <==> Admits(records, news[1..])
  {
    if Admits(records, news[1..]) {
      var i :| 0 <= i < |news[1..]| && Find(records, news[1..][i]).None?;
      assert Find(records, news[i + 1]).None?;
    }
    if Admits(records, news) {
      var i :| 0 <= i < |news| && Find(records, news[i]).None?;
      assert news[1..][i - 1] == news[i];
    }
  }

  /** Retention loses no live record while those fit. */
  lemma RetainKeepsLive(records: seq<Record>, r: Record)
    requires |LiveOnes(records)| <= MAX_RECORDS && r in records && r.Live()
    ensures r in Retain(records)
  {
    SplitElems(records);
    var live := LiveOnes(records);
    assert live[..|live|] == live;
  }

  lemma PollReadable(x: World, news: seq<Id>, at: int)
    requires Base(x) && FileReadable(x.records) && x.phase.Idle?
    ensures FileReadable(Retain(Admit(x.records, news, at))) <==> !Untimely(x, Poll(news, at))
  {
    var all := Admit(x.records, news, at);
    AdmitFacts(x.records, news, at);
    RetainFinds(all);
    AdmitStamps(x.records, news, at);
    SplitAttempts(x.records, 0);
    RetentionForgetsExactlyTheDropped(all, 0);
    hide Admit, Retain, UniqueRecords, Admits, Find, LiveOnes, Attempts, Dropped;
    if Untimely(x, Poll(news, at)) {
      var r :| r in all && r.Live() && r.createdAt == at;
      RetainKeepsLive(all, r);
      var i :| 0 <= i < |Retain(all)| && Retain(all)[i] == r;
      assert !Readable(Retain(all)[i]);
    } else {
      forall i | 0 <= i < |Retain(all)| ensures Readable(Retain(all)[i]) {
        var r := Retain(all)[i];
        assert r in Retain(all) && r in all;
        if r in x.records {
          var k :| 0 <= k < |x.records| && x.records[k] == r;
          assert Readable(x.records[k]);
        }
      }
    }
  }

  lemma RecoveredReadable(x: World, at: int)
    requires Base(x) && FileReadable(x.records) && x.phase.Idle? && !x.recovered
    ensures FileReadable(Recovered(x.records, at)) <==> !Untimely(x, StartDrain(at))
  {
    RecoveredFacts(x.records, at);
    RecoveredUnique(x.records, at);
    hide UniqueRecords, Recovered;
    forall i | 0 <= i < |x.records|
      ensures Readable(Recovered(x.records, at)[i]) <==> !(InFlight(x.records[i]) && !Within(at, x.records[i].createdAt, MAX_SAFE))
    {
      assert Readable(x.records[i]);
    }
    hide Readable, Within;
    if exists i :: 0 <= i < |x.records| && InFlight(x.records[i]) && !Within(at, x.records[i].createdAt, MAX_SAFE) {
      var i :| 0 <= i < |x.records| && InFlight(x.records[i]) && !Within(at, x.records[i].createdAt, MAX_SAFE);
      assert !Readable(Recovered(x.records, at)[i]);
    }
  }

  /**
    The scout's own reader accepts the outbox after a step exactly when the step neither ends a record that
    was never attempted, nor stores a blank error, nor stamps a record with a time before its creation or
    out of range, nor counts an attempt for a day without a name.
   */
  lemma WrittenOutboxIsReadExactlyWhen(x: World, e: Event)
    requires Base(x) && FileReadable(x.records)
    ensures FileReadable(Step(x, e).records) <==> !Spoils(x, e)
  {
    hide Base, Retain, Admit, Recovered, Admits, Readable, AllReadable, Find, Replace, UniqueRecords;
    match e
    case Poll(news, at) => if x.phase.Idle? { PollReadable(x, news, at); }
    case StartDrain(at) => if x.phase.Idle? && !x.recovered { RecoveredReadable(x, at); }
    case CallAdapter =>
    case Die =>
    case _ =>
      StepRewrites(x, e);
      if Touched(x, e).Some? {
        var r := Touched(x, e).value;
        FoundReadable(x.records, r.candidate);
        RewrittenReadable(x, e);
        PutUnique(x, Rewritten(x, e, r));
        ReplaceReadable(x.records, Rewritten(x, e, r));
      }
  }

  lemma PutUnique(x: World, r: Record)
    requires Base(x) && Find(x.records, r.candidate).Some?
    ensures UniqueRecords(Replace(x.records, r)) && |Replace(x.records, r)| == |x.records|
  {
    PutRecord(x.records, r);
  }

  // ---------------------------------------------------------------- over runs

  /** All clock readings are ordinary, and none is before an earlier one. */
  ghost predicate Forward(now: int, run: seq<Event>)
    decreases |run|
  {
    run == [] || (match Reading(run[0]) case None => Forward(now, run[1..])
                                       case Some(at) => now <= at && Ordinary(at) && Forward(at, run[1..]))
  }

  ghost predicate Ordinary(at: int) {
    1 <= at && ValidDayName(UtcDay(at))
  }

  function Reading(e: Event): Option<int> {
    match e
    case Poll(_, at) => Some(at)
    case StartDrain(at) => Some(at)
    case Visit(_, at) => Some(at)
    case Answered(_, _, at) => Some(at)
    case Settle(_, _, _, at) => Some(at)
    case _ => None
  }

  ghost predicate NotLater(x: World, now: int) {
    && (forall r :: r in x.records ==> r.createdAt <= now)
    && (!x.phase.Idle? ==> ValidDayName(x.phase.today))
  }

  lemma {:induction false} ReplaceElems(records: seq<Record>, r: Record)
    ensures forall q :: q in Replace(records, r) ==> q == r || q in records
  {
    if records != [] && records[0].candidate != r.candidate {
      ReplaceElems(records[1..], r);
    }
  }

  lemma StepNotLater(x: World, e: Event, now: int)
    requires Base(x) && NotLater(x, now) && (Reading(e).Some? ==> now <= Reading(e).value && Ordinary(Reading(e).value))
    ensures NotLater(Step(x, e), if Reading(e).Some? then Reading(e).value else now)
  {
    hide Find, Replace, Recovered, Retain, Admit, Sort, Attempts, UniqueRecords;
    match e
    case Poll(news, at) =>
      AdmitFacts(x.records, news, at);
      RetainFinds(Admit(x.records, news, at));
      AdmitStamps(x.records, news, at);
    case StartDrain(at) =>
      RecoveredFacts(x.records, at);
      forall r | r in Recovered(x.records, at) ensures r.createdAt <= at {
        var i :| 0 <= i < |x.records| && Recovered(x.records, at)[i] == r;
        assert x.records[i] in x.records;
      }
    case Die =>
    case CallAdapter =>
    case _ =>
      StepRewrites(x, e);
      if Touched(x, e).Some? {
        var r := Touched(x, e).value;
        FindFacts(x.records, r.candidate);
        ReplaceElems(x.records, Rewritten(x, e, r));
      }
  }

  /** Under an ordinary clock only an untried end or a blank error can spoil the outbox. */
  lemma ForwardClockIsTimely(x: World, e: Event, now: int)
    requires Base(x) && NotLater(x, now) && (Reading(e).Some? ==> now <= Reading(e).value && Ordinary(Reading(e).value))
    ensures !Untimely(x, e) && !UnnamedDay(x, e)
  {
    if Touched(x, e).Some? {
      StepRewrites(x, e);
      FindFacts(x.records, Touched(x, e).value.candidate);
    }
    hide Find, UniqueRecords;
    assert forall i :: 0 <= i < |x.records| ==> x.records[i] in x.records;
  }

  /** Every state along the run is one the reader accepts. */
  ghost predicate AlwaysReadable(x: World, run: seq<Event>)
    decreases |run|
  {
    FileReadable(x.records) && (run != [] ==> AlwaysReadable(Step(x, run[0]), run[1..]))
  }

  ghost predicate NeverSpoils(x: World, run: seq<Event>)
    decreases |run|
  {
    run == [] || (!EndsUntried(x, run[0]) && !BlankError(x, run[0]) && NeverSpoils(Step(x, run[0]), run[1..]))
  }

  lemma {:induction false} RunReadable(x: World, run: seq<Event>, now: int)
    requires Base(x) && FileReadable(x.records) && NotLater(x, now) && Forward(now, run)
    ensures AlwaysReadable(x, run) <==> NeverSpoils(x, run)
    decreases |run|
  {
    hide Base, FileReadable, NotLater, Step, EndsUntried, BlankError, Untimely, UnnamedDay, Ordinary;
    if run != [] {
      var e, x1 := run[0], Step(x, run[0]);
      WrittenOutboxIsReadExactlyWhen(x, e);
      ForwardClockIsTimely(x, e, now);
      StepBase(x, e);
      StepNotLater(x, e, now);
      if FileReadable(x1.records) {
        RunReadable(x1, run[1..], if Reading(e).Some? then Reading(e).value else now);
      } else {
        assert !AlwaysReadable(x1, run[1..]);
      }
    }
  }

  /**
    Under a clock that never runs backwards, the reader accepts all that a run writes exactly when no step
    of it ends a record that was never attempted, or stores a blank error.
   */
  lemma OutboxStaysReadableExactlyWhen(run: seq<Event>)
    requires Forward(1, run)
    ensures AlwaysReadable(Empty, run) <==> NeverSpoils(Empty, run)
  {
    RunReadable(Empty, run, 1);
  }

  lemma RunThree(x: World, a: Event, b: Event, c: Event)
    ensures Run(x, [a, b, c]) == Step(Step(Step(x, a), b), c)
  {
    hide Step, Run;
    assert [a, b, c] == [a] + ([b] + ([c] + []));
    RunCons(x, a, [b] + ([c] + []));
    RunCons(Step(x, a), b, [c] + []);
    RunCons(Step(Step(x, a), b), c, []);
    RunNone(Step(Step(Step(x, a), b), c));
  }

  lemma FailOne(x: World, r: Record)
    requires x.records == [r] && Untried(r) && x.phase == Draining(0, 0, 0, [r.candidate])
    ensures Step(x, Visit(false, 1)).records == [Failing(r, NOT_RETAINED_TEXT, 1)]
  {
    assert [r][1..] == [] && [r.candidate][1..] == [];
  }

  /** A candidate that is no longer retained when its turn first comes spoils the outbox: the shortest such run. */
  lemma StrandedRecordBreaksTheReader()
    ensures var records := Run(Empty, [Poll([7], 1), StartDrain(1), Visit(false, 1)]).records;
            records == [Failing(NewRecord(7, 1), NOT_RETAINED_TEXT, 1)] && !FileReadable(records)
  {
    var r := NewRecord(7, 1);
    FirstPoll();
    RunCons(Empty, Poll([7], 1), []);
    RunNone(Step(Empty, Poll([7], 1)));
    assert [Poll([7], 1)] + [] == [Poll([7], 1)];
    var x0 := Empty.(records := [r]);
    StartOne(x0, r);
    FailOne(Step(x0, StartDrain(1)), r);
    hide Step, Run;
    RunThree(Empty, Poll([7], 1), StartDrain(1), Visit(false, 1));
    var records := [Failing(r, NOT_RETAINED_TEXT, 1)];
    assert !Readable(records[0]);
  }

  // ---------------------------------------------------------------- the drain as it runs

  /** The adapter's answer, and the clock when it is there. */
  datatype Answer = Answer(result: Result, text: nat, at: int)

  /** The rest of an undisturbed drain: `retained` candidates are still stored, `answers` is the adapter. */
  function DrainRest(x: World, retained: set<Id>, visited: Id -> int, answers: Id -> Answer): World
    requires x.phase.Draining?
    decreases |x.phase.rest|
  {
    if x.phase.rest == [] then x.(phase := Idle)
    else
      var id, remaining := x.phase.rest[0], x.phase.rest[1..];
      var x1 := Step(x, Visit(id in retained, visited(id)));
      if x1.phase.Draining? && x1.phase.rest == remaining then DrainRest(x1, retained, visited, answers)
      else if x1.phase.Calling? && x1.phase.rest == remaining then
        DrainRest(Step(Step(x1, CallAdapter), Answered(answers(id).result, answers(id).text, answers(id).at)), retained, visited, answers)
      else x1
  }

  class ScoutOutbox {
    var records: seq<Record>
    var recovered: bool
    ghost var instance: nat
    ghost var calls: seq<Call>
    ghost var accepts: seq<Acceptance>

    ghost function View(phase: Drain): World
      reads this
    {
      World(records, instance, recovered, phase, calls, accepts)
    }

    constructor ()
      ensures View(Idle) == Empty
    {
      records, recovered, instance, calls, accepts := [], false, 0, [], [];
    }

    method Recover(at: int)
      modifies this`records, this`recovered
      ensures recovered && records == if old(recovered) then old(records) else Recovered(old(records), at)
    {
      if recovered {
        return;
      }
      var done: seq<Record> := [];
      assert records[0..] == records;
      for i := 0 to |records|
        invariant records == old(records)
        invariant done + Recovered(records[i..], at) == Recovered(records, at)
      {
        var r := records[i];
        assert records[i..][0] == r && records[i..][1..] == records[i + 1..];
        if r.status == Reserved || r.status == Enqueued {
          r := r.(status := Pending, job := false, error := None, updatedAt := at);
        }
        assert done + ([r] + Recovered(records[i + 1..], at)) == (done + [r]) + Recovered(records[i + 1..], at);
        done := done + [r];
      }
      records := done;
      recovered := true;
    }

    /** The adapter call between the two writes of one attempt. */
    method Attempt(id: Id, ghost phase: Drain, answers: Id -> Answer) returns (result: Result, found: bool)
      requires phase.Calling? && phase.id == id
      modifies this`records, this`calls, this`accepts
      ensures var a := answers(id); var was := Conclude(Step(old(View(phase)), CallAdapter), a.result, a.text, a.at);
              View(was.phase) == was
      ensures result == answers(id).result && found == Find(old(records), id).Some?
    {
      calls := calls + [Call(id, phase.today)];
      var answer := answers(id);
      result := answer.result;
      var error := if answer.text <= MAX_ERROR then answer.text else MAX_ERROR;
      var r := Find(records, id);
      found := r.Some?;
      if found {
        var r' := r.value.(updatedAt := answer.at);
        match result {
          case Accepted =>
            r' := r'.(status := Enqueued, job := true, error := None);
            accepts := accepts + [Acceptance(id, instance)];
          case Retryable => r' := r'.(status := Pending, error := Some(error));
          case Rejected => r' := r'.(status := Failed, error := Some(error));
        }
        records := Replace(records, r');
      }
    }

    /** One record of the drain: skip it, stop, fail it, or attempt it. */
    method VisitRecord(id: Id, ghost rest: seq<Id>, today: int, attempts: int, accepted: nat, retained: set<Id>, visited: Id -> int, answers: Id -> Answer)
      returns (stop: bool, attempts': int, accepted': nat)
      modifies this`records, this`calls, this`accepts
      ensures var was := DrainRest(old(View(Draining(today, attempts, accepted, [id] + rest))), retained, visited, answers);
              if stop then View(Idle) == was
              else DrainRest(View(Draining(today, attempts', accepted', rest)), retained, visited, answers) == was
    {
      hide Find, Replace;
      ghost var x := View(Draining(today, attempts, accepted, [id] + rest));
      assert x.phase.rest[0] == id && x.phase.rest[1..] == rest;
      stop, attempts', accepted' := false, attempts, accepted;
      var found := Find(records, id);
      if found.None? || found.value.status != Pending {
        return;
      }
      if accepted >= PER_RUN_CAP || attempts >= DAILY_CAP {
        stop := true;
        return;
      }
      var r := found.value;
      if r.attempt >= MAX_ATTEMPTS {
        records := Replace(records, r.(status := Failed, error := Some(RETRY_LIMIT_TEXT), updatedAt := visited(id)));
        return;
      }
      if id !in retained {
        records := Replace(records, r.(status := Failed, error := Some(NOT_RETAINED_TEXT), updatedAt := visited(id)));
        return;
      }
      records := Replace(records, r.(status := Reserved, attempt := r.attempt + 1, days := r.days + [today],
                                     updatedAt := visited(id), error := None, job := false));
      attempts' := attempts + 1;
      ghost var calling := Calling(today, attempts', accepted, rest, id);
      ghost var x1 := View(calling);
      assert x1 == Step(x, Visit(id in retained, visited(id)));
      ghost var concluded := Conclude(Step(x1, CallAdapter), answers(id).result, answers(id).text, answers(id).at);
      var result, found' := Attempt(id, calling, answers);
      if result == Accepted && found' {
        accepted' := accepted + 1;
      }
      assert concluded.phase == Draining(today, attempts', accepted', rest);
    }

    method DrainDispatches(at: int, retained: set<Id>, visited: Id -> int, answers: Id -> Answer)
      modifies this
      ensures View(Idle) == DrainRest(Step(old(View(Idle)), StartDrain(at)), retained, visited, answers)
    {
      hide Sort, Attempts, Find, Replace;
      ghost var start := Step(View(Idle), StartDrain(at));
      Recover(at);
      var today, order := UtcDay(at), Candidates(Sort(records, OldestFirst()));
      var attempts: int, accepted: nat := Attempts(records, today), 0;
      assert order[0..] == order;
      assert View(Draining(today, attempts, 0, order)) == start;
      for i := 0 to |order|
        invariant DrainRest(View(Draining(today, attempts, accepted, order[i..])), retained, visited, answers)
               == DrainRest(start, retained, visited, answers)
      {
        assert order[i..] == [order[i]] + order[i + 1..];
        var stop: bool;
        stop, attempts, accepted := VisitRecord(order[i], order[i + 1..], today, attempts, accepted, retained, visited, answers);
        if stop {
          return;
        }
      }
    }
  }
}
