/**
  The leased journal, after server/global-cache-store.ts and server/global-cache-runner.ts. Any number
  of runners interleave: acquire the lease, read the journal's stamp, copy the journal, poll the feeds
  against the copy, commit the copy over the live journal, release. Each transaction of the store, and
  each file read or copy of a runner, is one atomic step; leases expire and are taken over in between.
 */
module Journal {
  import opened Common

  datatype Lease = Lease(owner: Id, token: Id, expiresAt: int)

  /**
    A journal file: its `updatedAt` stamp, None when the file carries no usable one, and the polls whose
    results it contains, in order.
   */
  datatype File = File(stamp: Option<int>, polls: seq<nat>)

  datatype Entry = Entry(generatedAt: int, candidate: Id, token: Id)

  datatype Store = Store(lease: Option<Lease>, live: Option<File>, entries: map<Id, Entry>)

  function StampOf(f: Option<File>): Option<int> {
    if f.None? then None else f.value.stamp
  }

  function PollsOf(f: Option<File>): seq<nat> {
    if f.None? then [] else f.value.polls
  }

  // ---------------------------------------------------------------- the store

  /** Another owner's live lease blocks; anything else is replaced under the new token. */
  function AcquireLease(s: Store, owner: Id, token: Id, ttl: int, now: int): (Store, bool) {
    if s.lease.Some? && s.lease.value.expiresAt > now && s.lease.value.owner != owner then (s, false)
    else (s.(lease := Some(Lease(owner, token, now + ttl))), true)
  }

  predicate Owns(s: Store, owner: Id, token: Id) {
    s.lease.Some? && s.lease.value.owner == owner && s.lease.value.token == token
  }

  function RenewLease(s: Store, owner: Id, token: Id, ttl: int, now: int): (Store, bool) {
    if Owns(s, owner, token) then (s.(lease := Some(Lease(owner, token, now + ttl))), true) else (s, false)
  }

  function ReleaseLease(s: Store, owner: Id, token: Id): (Store, bool) {
    if Owns(s, owner, token) then (s.(lease := None), true) else (s, false)
  }

  predicate CheckLeader(s: Store, token: Id, now: int) {
    s.lease.Some? && s.lease.value.token == token && s.lease.value.expiresAt > now
  }

  datatype PutAnswer = Stored | Deduplicated | StaleLeader | StaleEntry

  function PutEntry(s: Store, token: Id, key: Id, generatedAt: int, candidate: Id, now: int): (Store, PutAnswer) {
    if !CheckLeader(s, token, now) then (s, StaleLeader)
    else if key in s.entries && s.entries[key].generatedAt > generatedAt then (s, StaleEntry)
    else if key in s.entries && s.entries[key].generatedAt == generatedAt && s.entries[key].candidate == candidate then (s, Deduplicated)
    else (s.(entries := s.entries[key := Entry(generatedAt, candidate, token)]), Stored)
  }

  datatype CommitAnswer = Committed | NothingToCommit | LostLease | Superseded

  /** `temp` is the runner's private copy, None when it has none. */
  function CommitJournal(s: Store, token: Id, temp: Option<File>, base: Option<int>, now: int): (Store, CommitAnswer) {
    if temp.None? then (s, if CheckLeader(s, token, now) then NothingToCommit else LostLease)
    else if !CheckLeader(s, token, now) then (s, LostLease)
    else if StampOf(s.live) != base then (s, Superseded)
    else (s.(live := temp), Committed)
  }

  // ---------------------------------------------------------------- runners

  /** Where a runner is in its cycle, with what it has seen. `read` is the live journal at the base read. */
  datatype Runner =
    | Idle
    | Leased(owner: Id, token: Id)
    | BaseRead(owner: Id, token: Id, base: Option<int>, read: Option<File>)
    | Copied(owner: Id, token: Id, base: Option<int>, read: Option<File>, copy: Option<File>)
    | Polled(owner: Id, token: Id, base: Option<int>, read: Option<File>, copy: Option<File>, temp: Option<File>)
    | Finished(owner: Id, token: Id)

  /** A successful commit: what it replaced, what its copy had been taken from, what it installed. */
  datatype Commit = Commit(replaced: Option<File>, from: Option<File>, installed: File)

  /** `files` are all journals ever written: the one found at the start and every updated private copy. */
  datatype World = World(
    store: Store,
    runners: map<Id, Runner>,
    commits: seq<Commit>,
    tokens: set<Id>,
    files: set<File>,
    polls: nat)

  datatype PollResult = NoFile | Unchanged | Updated(stamp: int)

  datatype Event =
    | Acquire(runner: Id, owner: Id, token: Id, now: int)
    | Heartbeat(runner: Id, now: int)
    | ReadBase(runner: Id)
    | CopyLive(runner: Id)
    | Poll(runner: Id, result: PollResult)
    | TryCommit(runner: Id, now: int)
    | Abort(runner: Id)
    | Release(runner: Id)
    | Crash(runner: Id)
    | Publish(token: Id, key: Id, generatedAt: int, candidate: Id, now: int)

  function RunnerOf(x: World, r: Id): Runner {
    if r in x.runners then x.runners[r] else Idle
  }

  function Put(x: World, r: Id, to: Runner): World {
    x.(runners := x.runners[r := to])
  }

  /** The private journal after a poll: only an update adds the poll to its history. */
  function AfterPoll(copy: Option<File>, result: PollResult, poll: nat): Option<File> {
    match result
    case NoFile => None
    case Unchanged => copy
    case Updated(stamp) => Some(File(Some(stamp), PollsOf(copy) + [poll]))
  }

  function FilesIn(f: Option<File>): set<File> {
    if f.Some? then {f.value} else {}
  }

  function Step(x: World, e: Event, ttl: int): World {
    match e
    case Acquire(r, owner, token, now) =>
      (if RunnerOf(x, r) != Idle then x
       else
         var (s, ok) := AcquireLease(x.store, owner, token, ttl, now);
         if ok then Put(x.(store := s, tokens := x.tokens + {token}), r, Leased(owner, token)) else x)
    case Heartbeat(r, now) =>
      (match RunnerOf(x, r)
       case Idle => x
       case q => x.(store := RenewLease(x.store, q.owner, q.token, ttl, now).0))
    case ReadBase(r) =>
      (match RunnerOf(x, r)
       case Leased(owner, token) => Put(x, r, BaseRead(owner, token, StampOf(x.store.live), x.store.live))
       case _ => x)
    case CopyLive(r) =>
      (match RunnerOf(x, r)
       case BaseRead(owner, token, base, read) =>
         Put(x, r, Copied(owner, token, base, read, if read.Some? then x.store.live else None))
       case _ => x)
    case Poll(r, result) =>
      (match RunnerOf(x, r)
       case Copied(owner, token, base, read, copy) =>
         var temp := AfterPoll(copy, result, x.polls);
         Put(x.(polls := x.polls + 1, files := x.files + FilesIn(temp)), r, Polled(owner, token, base, read, copy, temp))
       case _ => x)
    case TryCommit(r, now) =>
      (match RunnerOf(x, r)
       case Polled(owner, token, base, read, copy, temp) =>
         var (s, answer) := CommitJournal(x.store, token, temp, base, now);
         if answer.Committed? && temp.Some? then
           Put(x.(store := s, commits := x.commits + [Commit(x.store.live, copy, temp.value)]), r, Finished(owner, token))
         else Put(x, r, Finished(owner, token))
       case _ => x)
    case Abort(r) =>
      (match RunnerOf(x, r)
       case Idle => x
       case q => Put(x, r, Finished(q.owner, q.token)))
    case Release(r) =>
      (match RunnerOf(x, r)
       case Finished(owner, token) => Put(x.(store := ReleaseLease(x.store, owner, token).0), r, Idle)
       case _ => x)
    case Crash(r) => Put(x, r, Idle)
    case Publish(token, key, generatedAt, candidate, now) =>
      x.(store := PutEntry(x.store, token, key, generatedAt, candidate, now).0)
  }

  function Run(x: World, run: seq<Event>, ttl: int): World
    decreases |run|
  {
    if run == [] then x else Run(Step(x, run[0], ttl), run[1..], ttl)
  }

  /** No poll has happened yet; the live journal, if any, is whatever an earlier installation left. */
  ghost predicate Initial(x: World) {
    && x.runners == map[] && x.commits == [] && x.polls == 0 && PollsOf(x.store.live) == []
    && x.store.lease.None? && x.tokens == {}
    && x.files == FilesIn(x.store.live)
  }

  // ---------------------------------------------------------------- chains of commits

  /** The commits form one chain from `first` to `live`, and each replaced exactly what its copy was taken from. */
  ghost predicate Chain(commits: seq<Commit>, first: Option<File>, live: Option<File>) {
    && (forall i :: 0 <= i < |commits| ==> commits[i].replaced == commits[i].from)
    && (commits != [] ==> commits[0].replaced == first)
    && (forall i, j :: 0 <= i < |commits| && 0 <= j < |commits| && j == i + 1 ==> commits[j].replaced == Some(commits[i].installed))
    && live == (if commits == [] then first else Some(commits[|commits| - 1].installed))
    && (forall i :: 0 <= i < |commits| ==> PollsOf(commits[i].replaced) <= commits[i].installed.polls)
  }

  lemma ChainGrows(commits: seq<Commit>, first: Option<File>, live: Option<File>, c: Commit)
    requires Chain(commits, first, live) && c.replaced == live && c.from == live && PollsOf(live) <= c.installed.polls
    ensures Chain(commits + [c], first, Some(c.installed))
  {
  }

  /** Along a chain no poll that was ever part of the live journal is lost. */
  lemma {:induction false} ChainKeepsPolls(commits: seq<Commit>, first: Option<File>, live: Option<File>, i: nat)
    requires Chain(commits, first, live) && i < |commits|
    ensures commits[i].installed.polls <= PollsOf(live)
    decreases |commits| - i
  {
    if i + 1 < |commits| {
      ChainKeepsPolls(commits, first, live, i + 1);
      assert commits[i + 1].replaced == Some(commits[i].installed);
    }
  }

  // ---------------------------------------------------------------- first defence: fresh tokens

  ghost predicate FreshToken(x: World, e: Event) {
    e.Acquire? ==> e.token !in x.tokens
  }

  ghost predicate HoldsToken(q: Runner, token: Id) {
    !q.Idle? && q.token == token
  }

  /** What a runner has seen is still so, if its token is still the one in the lease. */
  ghost predicate UpToDate(q: Runner, live: Option<File>) {
    match q
    case BaseRead(_, _, base, read) => read == live && base == StampOf(live)
    case Copied(_, _, base, read, copy) => copy == live && base == StampOf(live)
    case Polled(_, _, base, read, copy, temp) =>
      copy == live && base == StampOf(live) && (temp.Some? ==> PollsOf(copy) <= temp.value.polls)
    case _ => true
  }

  ghost predicate Fencing(x: World, first: Option<File>) {
    && (forall r :: r in x.runners && !x.runners[r].Idle? ==> x.runners[r].token in x.tokens)
    && (forall r, q :: r in x.runners && q in x.runners && r != q && !x.runners[r].Idle? && !x.runners[q].Idle? ==>
          x.runners[r].token != x.runners[q].token)
    && (x.store.lease.Some? ==> x.store.lease.value.token in x.tokens)
    && (forall r :: r in x.runners && x.store.lease.Some? && HoldsToken(x.runners[r], x.store.lease.value.token) ==>
          UpToDate(x.runners[r], x.store.live))
    && Chain(x.commits, first, x.store.live)
  }

  lemma InitialFencing(x: World)
    requires Initial(x)
    ensures Fencing(x, x.store.live)
  {
  }

  lemma StepFencing(x: World, e: Event, ttl: int, first: Option<File>)
    requires Fencing(x, first) && FreshToken(x, e)
    ensures Fencing(Step(x, e, ttl), first)
  {
    hide Chain;
    if e.TryCommit? {
      CommitFencing(x, e.runner, e.now, ttl, first);
    }
  }

  lemma CommitFencing(x: World, r: Id, now: int, ttl: int, first: Option<File>)
    requires Fencing(x, first)
    ensures Fencing(Step(x, TryCommit(r, now), ttl), first)
  {
    match RunnerOf(x, r)
    case Polled(owner, token, base, read, copy, temp) =>
      if temp.Some? && CommitJournal(x.store, token, temp, base, now).1.Committed? {
        assert UpToDate(x.runners[r], x.store.live);
        ChainGrows(x.commits, first, x.store.live, Commit(x.store.live, copy, temp.value));
      }
      hide Chain;
    case _ =>
  }

  ghost predicate FreshTokens(x: World, run: seq<Event>, ttl: int)
    decreases |run|
  {
    run == [] || (FreshToken(x, run[0]) && FreshTokens(Step(x, run[0], ttl), run[1..], ttl))
  }

  lemma {:induction false} RunFencing(x: World, run: seq<Event>, ttl: int, first: Option<File>)
    requires Fencing(x, first) && FreshTokens(x, run, ttl)
    ensures Fencing(Run(x, run, ttl), first)
    decreases |run|
  {
    hide Fencing, Step;
    if run != [] {
      StepFencing(x, run[0], ttl, first);
      RunFencing(Step(x, run[0], ttl), run[1..], ttl, first);
    }
  }

  /**
    With fresh lease tokens, whatever the clocks do and however the runners interleave: the commits form
    one chain, each replaces exactly the journal its private copy was taken from, and the live journal
    contains every poll that was ever committed.
   */
  lemma CommitsFormOneChain(x: World, run: seq<Event>, ttl: int, i: nat)
    requires Initial(x) && FreshTokens(x, run, ttl) && i < |Run(x, run, ttl).commits|
    ensures var y := Run(x, run, ttl);
            && y.commits[i].replaced == y.commits[i].from
            && y.commits[i].replaced == (if i == 0 then x.store.live else Some(y.commits[i - 1].installed))
            && y.commits[i].installed.polls <= PollsOf(y.store.live)
  {
    InitialFencing(x);
    RunFencing(x, run, ttl, x.store.live);
    hide Run;
    var y := Run(x, run, ttl);
    assert Chain(y.commits, x.store.live, y.store.live);
    ChainKeepsPolls(y.commits, x.store.live, y.store.live, i);
  }

  // ---------------------------------------------------------------- a replaced token is dead

  ghost predicate Replaced(x: World, token: Id) {
    token in x.tokens && (x.store.lease.Some? ==> x.store.lease.value.token != token)
  }

  /** Whether this event commits or publishes under `token`. */
  ghost predicate ActsUnder(x: World, e: Event, token: Id) {
    match e
    case TryCommit(r, now) =>
      (match RunnerOf(x, r)
       case Polled(_, t, base, _, _, temp) => t == token && CommitJournal(x.store, t, temp, base, now).1 in {Committed, NothingToCommit}
       case _ => false)
    case Publish(t, key, generatedAt, candidate, now) =>
      t == token && PutEntry(x.store, t, key, generatedAt, candidate, now).1 in {Stored, Deduplicated}
    case _ => false
  }

  lemma ReplacedStays(x: World, e: Event, ttl: int, token: Id)
    requires Replaced(x, token) && FreshToken(x, e)
    ensures Replaced(Step(x, e, ttl), token) && !ActsUnder(x, e, token)
  {
  }

  /** Once a token is no longer in the lease, nothing is committed or published under it in any continuation. */
  lemma {:induction false} ReplacedTokenIsDead(x: World, run: seq<Event>, ttl: int, token: Id, last: Event)
    requires Replaced(x, token) && FreshTokens(x, run, ttl)
    ensures Replaced(Run(x, run, ttl), token) && !ActsUnder(Run(x, run, ttl), last, token)
    decreases |run|
  {
    hide Step;
    if run != [] {
      ReplacedStays(x, run[0], ttl, token);
      ReplacedTokenIsDead(Step(x, run[0], ttl), run[1..], ttl, token, last);
    }
  }

  // ---------------------------------------------------------------- published entries only move forward

  lemma StepEntries(x: World, e: Event, ttl: int, key: Id)
    requires key in x.store.entries
    ensures var y := Step(x, e, ttl);
            key in y.store.entries && x.store.entries[key].generatedAt <= y.store.entries[key].generatedAt
  {
  }

  /** No run ever replaces a published entry by one that was generated earlier. */
  lemma {:induction false} EntriesNeverGoBack(x: World, run: seq<Event>, ttl: int, key: Id)
    requires key in x.store.entries
    ensures var y := Run(x, run, ttl);
            key in y.store.entries && x.store.entries[key].generatedAt <= y.store.entries[key].generatedAt
    decreases |run|
  {
    hide Step;
    if run != [] {
      StepEntries(x, run[0], ttl, key);
      EntriesNeverGoBack(Step(x, run[0], ttl), run[1..], ttl, key);
    }
  }

  // ---------------------------------------------------------------- second defence: distinct stamps

  ghost predicate FreshStamp(x: World, e: Event) {
    e.Poll? && e.result.Updated? ==> forall f :: f in x.files ==> f.stamp != Some(e.result.stamp)
  }

  /** Among all journals ever written, the stamp tells which one it is, and so does the list of polls. */
  ghost predicate Distinguished(files: set<File>, polls: nat) {
    && (forall f, g :: f in files && g in files && (f.stamp == g.stamp || f.polls == g.polls) ==> f == g)
    && (forall f, p :: f in files && p in f.polls ==> p < polls)
  }

  /** What a runner has seen lies on the way to the live journal. */
  ghost predicate OnTheWay(q: Runner, live: Option<File>, files: set<File>, first: Option<File>) {
    match q
    case BaseRead(_, _, base, read) => base == StampOf(read) && Precedes(read, live, files, first)
    case Copied(_, _, base, read, copy) =>
      base == StampOf(read) && Precedes(read, copy, files, first) && Precedes(copy, live, files, first) && (read.None? ==> copy.None?)
    case Polled(_, _, base, read, copy, temp) =>
      base == StampOf(read) && Precedes(read, copy, files, first) && Precedes(copy, live, files, first) && (read.None? ==> copy.None?)
      && (temp.Some? ==> temp.value in files && PollsOf(copy) <= temp.value.polls)
    case _ => true
  }

  ghost predicate Precedes(early: Option<File>, late: Option<File>, files: set<File>, first: Option<File>) {
    && PollsOf(early) <= PollsOf(late)
    && (early.Some? ==> early.value in files && late.Some?)
    && (late.Some? ==> late.value in files)
    && (early.None? ==> first.None?)
  }

  ghost predicate Stamping(x: World, first: Option<File>) {
    && Distinguished(x.files, x.polls)
    && (first.None? ==> forall f :: f in x.files ==> f.stamp.Some?)
    && Precedes(first, x.store.live, x.files, first)
    && (forall r :: r in x.runners ==> OnTheWay(x.runners[r], x.store.live, x.files, first))
    && Chain(x.commits, first, x.store.live)
  }

  lemma InitialStamping(x: World)
    requires Initial(x)
    ensures Stamping(x, x.store.live)
  {
  }

  /** A commit whose stamp check succeeds finds exactly the journal its copy was taken from. */
  lemma StampIdentifiesBase(q: Runner, live: Option<File>, files: set<File>, polls: nat, first: Option<File>)
    requires Distinguished(files, polls) && (first.None? ==> forall f :: f in files ==> f.stamp.Some?)
    requires q.Polled? && OnTheWay(q, live, files, first) && StampOf(live) == q.base && q.temp.Some?
    ensures q.copy == live
  {
    if q.read.Some? {
      assert live.value == q.read.value;
      assert q.copy.value.polls == live.value.polls;
    }
  }

  /** After a commit, everything a runner has seen still lies on the way to the new live journal. */
  lemma StillOnTheWay(q: Runner, live: Option<File>, live': Option<File>, files: set<File>, first: Option<File>)
    requires OnTheWay(q, live, files, first) && Precedes(live, live', files, first)
    ensures OnTheWay(q, live', files, first)
  {
  }

  lemma CommitStamping(x: World, r: Id, now: int, ttl: int, first: Option<File>)
    requires Stamping(x, first)
    ensures Stamping(Step(x, TryCommit(r, now), ttl), first)
  {
    match RunnerOf(x, r)
    case Polled(owner, token, base, read, copy, temp) =>
      if temp.Some? && CommitJournal(x.store, token, temp, base, now).1.Committed? {
        var q, live := x.runners[r], x.store.live;
        StampIdentifiesBase(q, live, x.files, x.polls, first);
        ChainGrows(x.commits, first, live, Commit(live, copy, temp.value));
        hide Chain, Distinguished;
        assert Precedes(live, temp, x.files, first);
        forall k | k in x.runners ensures OnTheWay(x.runners[k], temp, x.files, first) {
          StillOnTheWay(x.runners[k], live, temp, x.files, first);
        }
      }
    case _ =>
  }

  lemma NewFile(files: set<File>, polls: nat, copy: Option<File>, f: File)
    requires Distinguished(files, polls) && f.polls == PollsOf(copy) + [polls] && (copy.Some? ==> copy.value in files)
    requires forall g :: g in files ==> g.stamp != f.stamp
    ensures Distinguished(files + {f}, polls + 1)
  {
    assert f.polls[|PollsOf(copy)|] == polls;
    assert polls in f.polls;
    assert forall g :: g in files ==> g.polls != f.polls;
    forall p | p in f.polls ensures p < polls + 1 {
      assert p in PollsOf(copy) || p == polls;
    }
  }

  lemma OlderFiles(files: set<File>, polls: nat)
    requires Distinguished(files, polls)
    ensures Distinguished(files, polls + 1)
  {
  }

  lemma MoreFiles(q: Runner, live: Option<File>, files: set<File>, files': set<File>, first: Option<File>)
    requires OnTheWay(q, live, files, first) && files <= files'
    ensures OnTheWay(q, live, files', first)
  {
  }

  lemma PollStamping(x: World, r: Id, result: PollResult, ttl: int, first: Option<File>)
    requires Stamping(x, first) && FreshStamp(x, Poll(r, result))
    ensures Stamping(Step(x, Poll(r, result), ttl), first)
  {
    hide Chain, Distinguished;
    match RunnerOf(x, r)
    case Copied(owner, token, base, read, copy) =>
      var temp := AfterPoll(copy, result, x.polls);
      var files' := x.files + FilesIn(temp);
      OlderFiles(x.files, x.polls);
      if result.Updated? {
        NewFile(x.files, x.polls, copy, temp.value);
      } else {
        assert files' == x.files;
      }
      var q := Polled(owner, token, base, read, copy, temp);
      assert OnTheWay(q, x.store.live, files', first);
      hide OnTheWay;
      forall k | k in x.runners ensures OnTheWay(x.runners[k], x.store.live, files', first) {
        MoreFiles(x.runners[k], x.store.live, x.files, files', first);
      }
    case _ =>
  }

  lemma StepStamping(x: World, e: Event, ttl: int, first: Option<File>)
    requires Stamping(x, first) && FreshStamp(x, e)
    ensures Stamping(Step(x, e, ttl), first)
  {
    if e.TryCommit? {
      CommitStamping(x, e.runner, e.now, ttl, first);
    } else if e.Poll? {
      PollStamping(x, e.runner, e.result, ttl, first);
    } else {
      hide Chain, Distinguished;
    }
  }

  ghost predicate FreshStamps(x: World, run: seq<Event>, ttl: int)
    decreases |run|
  {
    run == [] || (FreshStamp(x, run[0]) && FreshStamps(Step(x, run[0], ttl), run[1..], ttl))
  }

  lemma {:induction false} RunStamping(x: World, run: seq<Event>, ttl: int, first: Option<File>)
    requires Stamping(x, first) && FreshStamps(x, run, ttl)
    ensures Stamping(Run(x, run, ttl), first)
    decreases |run|
  {
    hide Stamping, Step;
    if run != [] {
      StepStamping(x, run[0], ttl, first);
      RunStamping(Step(x, run[0], ttl), run[1..], ttl, first);
    }
  }

  /** The same chain, without any assumption on tokens, when no two journals ever carry the same stamp. */
  lemma CommitsFormOneChainByStamps(x: World, run: seq<Event>, ttl: int, i: nat)
    requires Initial(x) && FreshStamps(x, run, ttl) && i < |Run(x, run, ttl).commits|
    ensures var y := Run(x, run, ttl);
            && y.commits[i].replaced == y.commits[i].from
            && y.commits[i].replaced == (if i == 0 then x.store.live else Some(y.commits[i - 1].installed))
            && y.commits[i].installed.polls <= PollsOf(y.store.live)
  {
    InitialStamping(x);
    RunStamping(x, run, ttl, x.store.live);
    hide Run;
    var y := Run(x, run, ttl);
    assert Chain(y.commits, x.store.live, y.store.live);
    ChainKeepsPolls(y.commits, x.store.live, y.store.live, i);
  }

  // ---------------------------------------------------------------- without both defences

  /** A world with one journal stamped 1 and nothing going on. */
  function Quiet(): World {
    World(Store(None, Some(File(Some(1), [])), map[]), map[], [], {}, {File(Some(1), [])}, 0)
  }

  function Prepares(): seq<Event> {
    [Acquire(1, 1, 7, 0), ReadBase(1), CopyLive(1), Poll(1, Updated(5))]
  }

  function TakesOver(): seq<Event> {
    [Acquire(2, 2, 7, 100), ReadBase(2), CopyLive(2), Poll(2, Updated(1))]
  }

  function Commits(): seq<Event> {
    [TryCommit(2, 101), TryCommit(1, 102)]
  }

  /** Runner 1 is overtaken by runner 2, which reuses both the lease token 7 and the stamp 1. */
  function Collision(): seq<Event> {
    Prepares() + TakesOver() + Commits()
  }

  /** If a token and a stamp are both reused, a committed poll can be lost: poll 1 is committed and then gone. */
  lemma ReusedTokenAndStampLoseAPoll()
    ensures var y := Run(Quiet(), Collision(), 50);
            && Initial(Quiet()) && |y.commits| == 2 && 1 in y.commits[0].installed.polls && 1 !in PollsOf(y.store.live)
            && y.commits[1].replaced != y.commits[1].from
  {
    RunSplit(Quiet(), Prepares() + TakesOver(), Commits(), 50);
    RunSplit(Quiet(), Prepares(), TakesOver(), 50);
    FirstHalf();
    TakeOver();
    BothCommit();
  }

  lemma {:induction false} RunSplit(x: World, a: seq<Event>, b: seq<Event>, ttl: int)
    ensures Run(x, a + b, ttl) == Run(Run(x, a, ttl), b, ttl)
    decreases |a|
  {
    if a == [] {
      assert a + b == b;
    } else {
      assert (a + b)[1..] == a[1..] + b;
      RunSplit(Step(x, a[0], ttl), a[1..], b, ttl);
    }
  }

  /** Runner 1 has polled and is about to commit. */
  function Overtaken(): World {
    var f := File(Some(1), []);
    var g := File(Some(5), [0]);
    World(Store(Some(Lease(1, 7, 50)), Some(f), map[]),
          map[1 := Polled(1, 7, Some(1), Some(f), Some(f), Some(g))], [], {7}, {f, g}, 1)
  }

  lemma FirstHalf()
    ensures Run(Quiet(), Prepares(), 50) == Overtaken()
  {
    var f := File(Some(1), []);
    var run := Prepares();
    var x1 := Step(Quiet(), run[0], 50);
    var x2 := Step(x1, run[1], 50);
    var x3 := Step(x2, run[2], 50);
    var x4 := Step(x3, run[3], 50);
    assert x1.runners == map[1 := Leased(1, 7)];
    assert x2.runners == map[1 := BaseRead(1, 7, Some(1), Some(f))];
    assert x3.runners == map[1 := Copied(1, 7, Some(1), Some(f), Some(f))];
    assert PollsOf(Some(f)) + [0] == [0];
    assert x4.runners == Overtaken().runners && x4.files == Overtaken().files && x4.store == Overtaken().store;
    assert x4 == Overtaken();
    assert run[1..][1..] == run[2..] && run[2..][1..] == run[3..] && run[3..][1..] == [];
  }

  /** Runner 2 has taken over, polled, and is about to commit. */
  function TakenOver(): World {
    var f, g, h := File(Some(1), []), File(Some(5), [0]), File(Some(1), [1]);
    World(Store(Some(Lease(2, 7, 150)), Some(f), map[]),
          map[1 := Polled(1, 7, Some(1), Some(f), Some(f), Some(g)), 2 := Polled(2, 7, Some(1), Some(f), Some(f), Some(h))],
          [], {7}, {f, g, h}, 2)
  }

  lemma TakeOver()
    ensures Run(Overtaken(), TakesOver(), 50) == TakenOver()
  {
    var f, g, h := File(Some(1), []), File(Some(5), [0]), File(Some(1), [1]);
    var run := TakesOver();
    var q := Polled(1, 7, Some(1), Some(f), Some(f), Some(g));
    var x1 := Step(Overtaken(), run[0], 50);
    assert x1.runners == map[1 := q, 2 := Leased(2, 7)];
    var x2 := Step(x1, run[1], 50);
    assert x2.runners == map[1 := q, 2 := BaseRead(2, 7, Some(1), Some(f))];
    var x3 := Step(x2, run[2], 50);
    assert x3.runners == map[1 := q, 2 := Copied(2, 7, Some(1), Some(f), Some(f))];
    var x4 := Step(x3, run[3], 50);
    assert PollsOf(Some(f)) + [1] == [1];
    assert x4.runners == TakenOver().runners && x4.files == TakenOver().files && x4.store == TakenOver().store;
    assert run[1..][1..] == run[2..] && run[2..][1..] == run[3..] && run[3..][1..] == [];
  }

  lemma BothCommit()
    ensures var y := Run(TakenOver(), Commits(), 50);
            && |y.commits| == 2 && 1 in y.commits[0].installed.polls && 1 !in PollsOf(y.store.live)
            && y.commits[1].replaced != y.commits[1].from
  {
    var f, g, h := File(Some(1), []), File(Some(5), [0]), File(Some(1), [1]);
    var run := Commits();
    var x5 := Step(TakenOver(), run[0], 50);
    assert x5.store.live == Some(h) && x5.commits == [Commit(Some(f), Some(f), h)];
    var x6 := Step(x5, run[1], 50);
    assert x6.store.live == Some(g) && x6.commits == [Commit(Some(f), Some(f), h), Commit(Some(h), Some(f), g)];
    assert run[1..][1..] == [];
  }

  // ---------------------------------------------------------------- the store as it runs

  /** The SQLite row and table and the journal file; each method is one immediate transaction. */
  class GlobalCacheStore {
    const ttl: int
    var lease: Option<Lease>
    var live: Option<File>
    var entries: map<Id, Entry>

    ghost function View(): Store
      reads this
    {
      Store(lease, live, entries)
    }

    /** The lease time has to lie between five seconds and ten minutes. */
    constructor (ttl: int, live: Option<File>)
      requires 5_000 <= ttl <= 600_000
      ensures this.ttl == ttl && View() == Store(None, live, map[])
    {
      this.ttl := ttl;
      this.lease, this.live, this.entries := None, live, map[];
    }

    method Acquire(owner: Id, token: Id, now: int) returns (acquired: bool)
      modifies this`lease
      ensures (View(), acquired) == AcquireLease(old(View()), owner, token, ttl, now)
    {
      if lease.Some? && lease.value.expiresAt > now && lease.value.owner != owner {
        return false;
      }
      lease := Some(Lease(owner, token, now + ttl));
      return true;
    }

    method Renew(owner: Id, token: Id, now: int) returns (renewed: bool)
      modifies this`lease
      ensures (View(), renewed) == RenewLease(old(View()), owner, token, ttl, now)
    {
      if lease.None? || lease.value.owner != owner || lease.value.token != token {
        return false;
      }
      lease := Some(lease.value.(expiresAt := now + ttl));
      return true;
    }

    method Release(owner: Id, token: Id) returns (released: bool)
      modifies this`lease
      ensures (View(), released) == ReleaseLease(old(View()), owner, token)
    {
      if lease.None? || lease.value.owner != owner || lease.value.token != token {
        return false;
      }
      lease := None;
      return true;
    }

    method Put(token: Id, key: Id, generatedAt: int, candidate: Id, now: int) returns (answer: PutAnswer)
      modifies this`entries
      ensures (View(), answer) == PutEntry(old(View()), token, key, generatedAt, candidate, now)
    {
      if lease.None? || lease.value.token != token || lease.value.expiresAt <= now {
        return StaleLeader;
      }
      if key in entries {
        if entries[key].generatedAt > generatedAt {
          return StaleEntry;
        }
        if entries[key].generatedAt == generatedAt && entries[key].candidate == candidate {
          return Deduplicated;
        }
      }
      entries := entries[key := Entry(generatedAt, candidate, token)];
      return Stored;
    }

    method CommitOver(token: Id, temp: Option<File>, base: Option<int>, now: int) returns (answer: CommitAnswer)
      modifies this`live
      ensures (View(), answer) == CommitJournal(old(View()), token, temp, base, now)
    {
      var leader := lease.Some? && lease.value.token == token && lease.value.expiresAt > now;
      if temp.None? {
        return if leader then NothingToCommit else LostLease;
      }
      if !leader {
        return LostLease;
      }
      if StampOf(live) != base {
        return Superseded;
      }
      live := temp;
      return Committed;
    }
  }
}
