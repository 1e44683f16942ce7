/**
  The two rate limiters of server/public-live-gateway.ts: a token bucket, over the reals, and a fixed
  window per key with a bounded, pruned table.
 */
module Limiters {
  import opened Common

  // ---------------------------------------------------------------- token bucket

  datatype Bucket = Bucket(tokens: real, updatedAt: int)

  function Least(a: real, b: real): real {
    if a < b then a else b
  }

  function Elapsed(from: int, to: int): int {
    if to > from then to - from else 0
  }

  function Refilled(b: Bucket, rate: real, burst: real, now: int): Bucket {
    Bucket(Least(burst, b.tokens + Elapsed(b.updatedAt, now) as real / 1000.0 * rate), now)
  }

  function TakeToken(b: Bucket, rate: real, burst: real, now: int): (Bucket, bool) {
    var r := Refilled(b, rate, burst, now);
    if r.tokens < 1.0 then (r, false) else (r.(tokens := r.tokens - 1.0), true)
  }

  /** How many of the takes at `times` within [t1, t2] are granted. */
  function Granted(b: Bucket, rate: real, burst: real, times: seq<int>, t1: int, t2: int): nat
    decreases |times|
  {
    if times == [] then 0
    else
      var (b1, ok) := TakeToken(b, rate, burst, times[0]);
      (if ok && t1 <= times[0] <= t2 then 1 else 0) + Granted(b1, rate, burst, times[1..], t1, t2)
  }

  ghost predicate Forward(from: int, times: seq<int>) {
    (forall i :: 0 <= i < |times| ==> from <= times[i]) && forall i, j :: 0 <= i < j < |times| ==> times[i] <= times[j]
  }

  /** What `ms` milliseconds refill. */
  function Refill(rate: real, ms: int): real {
    ms as real / 1000.0 * rate
  }

  lemma RefillAdds(rate: real, a: int, b: int)
    requires rate >= 0.0 && b >= 0
    ensures Refill(rate, a + b) == Refill(rate, a) + Refill(rate, b) && Refill(rate, b) >= 0.0
  {
  }

  /** Past the interval nothing counts any more. */
  lemma {:induction false} NoneAfter(b: Bucket, rate: real, burst: real, times: seq<int>, t1: int, t2: int)
    requires Forward(t2 + 1, times)
    ensures Granted(b, rate, burst, times, t1, t2) == 0
    decreases |times|
  {
    if times != [] {
      NoneAfter(TakeToken(b, rate, burst, times[0]).0, rate, burst, times[1..], t1, t2);
    }
  }

  /** One take costs at most what was held and what has refilled since. */
  lemma TakePays(b: Bucket, rate: real, burst: real, now: int)
    requires rate >= 0.0 && burst >= 0.0 && b.tokens >= 0.0 && now >= b.updatedAt
    ensures var (b1, ok) := TakeToken(b, rate, burst, now);
            && 0.0 <= b1.tokens <= burst && b1.updatedAt == now
            && b1.tokens + (if ok then 1.0 else 0.0) <= b.tokens + Refill(rate, now - b.updatedAt)
            && b1.tokens + (if ok then 1.0 else 0.0) <= burst
  {
    RefillAdds(rate, 0, now - b.updatedAt);
  }

  /** Inside the interval, grants are paid for by the tokens held and by what time will still refill. */
  lemma {:induction false} GrantsArePaid(b: Bucket, rate: real, burst: real, times: seq<int>, t1: int, t2: int)
    requires rate >= 0.0 && burst >= 0.0 && b.tokens >= 0.0 && Forward(b.updatedAt, times) && t1 <= b.updatedAt <= t2
    ensures Granted(b, rate, burst, times, t1, t2) as real <= b.tokens + Refill(rate, t2 - b.updatedAt)
    decreases |times|
  {
    RefillAdds(rate, 0, t2 - b.updatedAt);
    hide TakeToken, Refill;
    if times != [] {
      var t := times[0];
      var (b1, ok) := TakeToken(b, rate, burst, t);
      assert Forward(t, times[1..]);
      TakePays(b, rate, burst, t);
      if t <= t2 {
        RefillAdds(rate, t2 - t, t - b.updatedAt);
        GrantsArePaid(b1, rate, burst, times[1..], t1, t2);
      } else {
        assert Forward(t2 + 1, times[1..]);
        NoneAfter(b1, rate, burst, times[1..], t1, t2);
      }
    }
  }

  /**
    With a clock that does not run backwards, for every sequence of calls and every interval [t1, t2]: at
    most burst + rate * (t2 - t1) / 1000 takes are granted within it.
   */
  lemma {:induction false} BucketBound(b: Bucket, rate: real, burst: real, times: seq<int>, t1: int, t2: int)
    requires rate >= 0.0 && burst >= 0.0 && 0.0 <= b.tokens <= burst && Forward(b.updatedAt, times) && t1 <= t2
    ensures Granted(b, rate, burst, times, t1, t2) as real <= burst + Refill(rate, t2 - t1)
    decreases |times|
  {
    RefillAdds(rate, 0, t2 - t1);
    hide TakeToken, Refill;
    if times != [] {
      var t := times[0];
      var (b1, ok) := TakeToken(b, rate, burst, t);
      assert Forward(t, times[1..]);
      TakePays(b, rate, burst, t);
      if t < t1 {
        BucketBound(b1, rate, burst, times[1..], t1, t2);
      } else if t <= t2 {
        GrantsArePaid(b1, rate, burst, times[1..], t1, t2);
        RefillAdds(rate, t2 - t, t - t1);
      } else {
        assert Forward(t2 + 1, times[1..]);
        NoneAfter(b1, rate, burst, times[1..], t1, t2);
      }
    }
  }

  class TokenBucketRateLimiter {
    const ratePerSecond: real
    const burst: real
    var tokens: real
    var updatedAt: int

    ghost function View(): Bucket
      reads this
    {
      Bucket(tokens, updatedAt)
    }

    constructor (ratePerSecond: real, burst: real, now: int)
      ensures this.ratePerSecond == ratePerSecond && this.burst == burst && View() == Bucket(burst, now)
    {
      this.ratePerSecond, this.burst, this.tokens, this.updatedAt := ratePerSecond, burst, burst, now;
    }

    method Take(now: int) returns (ok: bool)
      modifies this
      ensures (View(), ok) == TakeToken(old(View()), ratePerSecond, burst, now)
    {
      var elapsedSeconds := (if now > updatedAt then now - updatedAt else 0) as real / 1000.0;
      var filled := tokens + elapsedSeconds * ratePerSecond;
      tokens := if burst < filled then burst else filled;
      updatedAt := now;
      if tokens < 1.0 {
        return false;
      }
      tokens := tokens - 1.0;
      return true;
    }
  }

  // ---------------------------------------------------------------- fixed windows

  datatype Window = Window(count: int, expiresAt: int)

  datatype Config = Config(limit: int, windowMs: int, maxEntries: int)

  datatype Table = Table(entries: map<Id, Window>, nextPruneAt: int)

  function Pruned(s: Table, c: Config, now: int): Table {
    if now >= s.nextPruneAt || |s.entries| >= c.maxEntries then
      Table(map k | k in s.entries && now < s.entries[k].expiresAt :: s.entries[k],
            now + if c.windowMs < 60_000 then c.windowMs else 60_000)
    else s
  }

  function TakeSlot(s: Table, c: Config, key: Id, now: int): (Table, bool) {
    var p := Pruned(s, c, now);
    if key !in p.entries || now >= p.entries[key].expiresAt then
      if key !in p.entries && |p.entries| >= c.maxEntries then (p, false)
      else (p.(entries := p.entries[key := Window(1, now + c.windowMs)]), true)
    else if p.entries[key].count >= c.limit then (p, false)
    else (p.(entries := p.entries[key := p.entries[key].(count := p.entries[key].count + 1)]), true)
  }

  datatype Take = Take(key: Id, at: int)

  function Final(s: Table, c: Config, takes: seq<Take>): Table
    decreases |takes|
  {
    if takes == [] then s else Final(TakeSlot(s, c, takes[0].key, takes[0].at).0, c, takes[1..])
  }

  /** How many takes of `key` within [t1, t2] are granted. */
  function GrantsTo(s: Table, c: Config, takes: seq<Take>, key: Id, t1: int, t2: int): nat
    decreases |takes|
  {
    if takes == [] then 0
    else
      var (s1, ok) := TakeSlot(s, c, takes[0].key, takes[0].at);
      (if ok && takes[0].key == key && t1 <= takes[0].at <= t2 then 1 else 0) + GrantsTo(s1, c, takes[1..], key, t1, t2)
  }

  ghost predicate InTime(from: int, takes: seq<Take>) {
    (forall i :: 0 <= i < |takes| ==> from <= takes[i].at) && forall i, j :: 0 <= i < j < |takes| ==> takes[i].at <= takes[j].at
  }

  /** A window grants its first take even if the limit is zero. */
  function Most(c: Config): int {
    if c.limit < 1 then 1 else c.limit
  }

  /** The key's last window is `w`: it is in the table, or it has been pruned and is over. */
  ghost predicate LastWindow(s: Table, key: Id, w: Window, now: int) {
    if key in s.entries then s.entries[key] == w else w.expiresAt <= now
  }

  ghost predicate Sound(s: Table, c: Config) {
    forall k :: k in s.entries ==> 1 <= s.entries[k].count <= Most(c)
  }

  lemma TakeKeepsWindow(s: Table, c: Config, t: Take, key: Id, w: Window, now: int)
    requires LastWindow(s, key, w, now) && now <= t.at && t.key != key
    ensures LastWindow(TakeSlot(s, c, t.key, t.at).0, key, w, t.at)
  {
  }

  lemma TakeSound(s: Table, c: Config, t: Take)
    requires Sound(s, c)
    ensures Sound(TakeSlot(s, c, t.key, t.at).0, c)
  {
  }

  /** What a window that reaches into the interval can still grant: its own rest, and one more window. */
  function Left(c: Config, w: Window, t2: int): int {
    Most(c) - w.count + if w.expiresAt <= t2 then Most(c) else 0
  }

  lemma {:induction false} NoGrantsAfter(s: Table, c: Config, takes: seq<Take>, key: Id, t1: int, t2: int)
    requires InTime(t2 + 1, takes)
    ensures GrantsTo(s, c, takes, key, t1, t2) == 0
    decreases |takes|
  {
    hide TakeSlot;
    if takes != [] {
      NoGrantsAfter(TakeSlot(s, c, takes[0].key, takes[0].at).0, c, takes[1..], key, t1, t2);
    }
  }

  lemma {:induction false} RestOfInterval(s: Table, c: Config, takes: seq<Take>, key: Id, w: Window, t1: int, t2: int, now: int)
    requires Sound(s, c) && c.windowMs > 0 && t2 - t1 <= c.windowMs && InTime(now, takes) && t1 <= now
    requires LastWindow(s, key, w, now) && 1 <= w.count <= Most(c) && t1 < w.expiresAt
    ensures GrantsTo(s, c, takes, key, t1, t2) <= Left(c, w, t2)
    decreases |takes|
  {
    if takes != [] {
      var t := takes[0];
      var (s1, ok) := TakeSlot(s, c, t.key, t.at);
      TakeSound(s, c, t);
      assert InTime(t.at, takes[1..]);
      if t.key != key {
        TakeKeepsWindow(s, c, t, key, w, now);
        RestOfInterval(s1, c, takes[1..], key, w, t1, t2, t.at);
      } else if t.at > t2 {
        assert InTime(t2 + 1, takes[1..]);
        NoGrantsAfter(s1, c, takes[1..], key, t1, t2);
      } else {
        OwnTake(s, c, key, t.at, w, now);
        var w1 := if !ok then w else s1.entries[key];
        RestOfInterval(s1, c, takes[1..], key, w1, t1, t2, t.at);
      }
    }
  }

  /** What a take does to its own key's last window. */
  lemma OwnTake(s: Table, c: Config, key: Id, at: int, w: Window, now: int)
    requires Sound(s, c) && LastWindow(s, key, w, now) && now <= at && c.windowMs > 0
    ensures var (s1, ok) := TakeSlot(s, c, key, at);
            && (!ok ==> LastWindow(s1, key, w, at))
            && (ok ==> key in s1.entries)
            && (ok ==> s1.entries[key] == if at < w.expiresAt then w.(count := w.count + 1) else Window(1, at + c.windowMs))
  {
  }

  lemma {:induction false} WindowBoundFrom(s: Table, c: Config, takes: seq<Take>, key: Id, t1: int, t2: int, now: int)
    requires Sound(s, c) && c.windowMs > 0 && t2 - t1 <= c.windowMs && InTime(now, takes)
    ensures GrantsTo(s, c, takes, key, t1, t2) <= 2 * Most(c)
    decreases |takes|
  {
    if takes != [] {
      var t := takes[0];
      var (s1, ok) := TakeSlot(s, c, t.key, t.at);
      TakeSound(s, c, t);
      assert InTime(t.at, takes[1..]);
      if ok && t.key == key && t1 <= t.at <= t2 {
        var w := s1.entries[key];
        assert t.at < w.expiresAt;
        RestOfInterval(s1, c, takes[1..], key, w, t1, t2, t.at);
      } else {
        WindowBoundFrom(s1, c, takes[1..], key, t1, t2, t.at);
      }
    }
  }

  /**
    With a clock that does not run backwards, any interval of one window length holds at most twice the
    limit of grants per key; a limit below one still grants one take per window, hence two.
   */
  lemma WindowBound(c: Config, takes: seq<Take>, key: Id, t1: int, now: int)
    requires c.windowMs > 0 && InTime(now, takes)
    ensures GrantsTo(Table(map[], 0), c, takes, key, t1, t1 + c.windowMs) <= 2 * Most(c)
  {
    WindowBoundFrom(Table(map[], 0), c, takes, key, t1, t1 + c.windowMs, now);
  }

  lemma SubmapSize(m: map<Id, Window>, n: map<Id, Window>)
    requires forall k :: k in n ==> k in m
    ensures |n| <= |m|
  {
    SubsetSize(n.Keys, m.Keys);
    assert |n.Keys| == |n| && |m.Keys| == |m|;
  }

  lemma TakeBounded(s: Table, c: Config, t: Take)
    requires |s.entries| <= c.maxEntries
    ensures |TakeSlot(s, c, t.key, t.at).0.entries| <= c.maxEntries
  {
    var p := Pruned(s, c, t.at);
    SubmapSize(s.entries, p.entries);
    PutSize(p.entries, t.key, Window(1, t.at + c.windowMs));
    if t.key in p.entries {
      PutSize(p.entries, t.key, p.entries[t.key].(count := p.entries[t.key].count + 1));
    }
  }

  /** The table never outgrows its bound, whatever the clock does. */
  lemma {:induction false} TableStaysBounded(s: Table, c: Config, takes: seq<Take>)
    requires |s.entries| <= c.maxEntries
    ensures |Final(s, c, takes).entries| <= c.maxEntries
    decreases |takes|
  {
    if takes != [] {
      TakeBounded(s, c, takes[0]);
      TableStaysBounded(TakeSlot(s, c, takes[0].key, takes[0].at).0, c, takes[1..]);
    }
  }

  // ---------------------------------------------------------------- pruning is invisible

  /** A limiter with an unbounded table that never prunes. */
  function TakePlain(all: map<Id, Window>, c: Config, key: Id, now: int): (map<Id, Window>, bool) {
    if key !in all || now >= all[key].expiresAt then (all[key := Window(1, now + c.windowMs)], true)
    else if all[key].count >= c.limit then (all, false)
    else (all[key := all[key].(count := all[key].count + 1)], true)
  }

  /** The pruned table lacks only windows that are over. */
  ghost predicate Shadows(s: Table, all: map<Id, Window>, now: int) {
    && (forall k :: k in s.entries ==> k in all && all[k] == s.entries[k])
    && (forall k :: k in all && k !in s.entries ==> all[k].expiresAt <= now)
  }

  /** The take is turned away because the table is full, not because of its key. */
  ghost predicate RefusedForRoom(s: Table, c: Config, key: Id, now: int) {
    var p := Pruned(s, c, now);
    key !in p.entries && |p.entries| >= c.maxEntries
  }

  lemma TakeRefines(s: Table, all: map<Id, Window>, c: Config, t: Take, now: int)
    requires Shadows(s, all, now) && now <= t.at && !RefusedForRoom(s, c, t.key, t.at)
    ensures TakeSlot(s, c, t.key, t.at).1 == TakePlain(all, c, t.key, t.at).1
    ensures Shadows(TakeSlot(s, c, t.key, t.at).0, TakePlain(all, c, t.key, t.at).0, t.at)
  {
  }

  function Answers(s: Table, c: Config, takes: seq<Take>): seq<bool>
    decreases |takes|
  {
    if takes == [] then []
    else var (s1, ok) := TakeSlot(s, c, takes[0].key, takes[0].at); [ok] + Answers(s1, c, takes[1..])
  }

  function PlainAnswers(all: map<Id, Window>, c: Config, takes: seq<Take>): seq<bool>
    decreases |takes|
  {
    if takes == [] then []
    else var (all1, ok) := TakePlain(all, c, takes[0].key, takes[0].at); [ok] + PlainAnswers(all1, c, takes[1..])
  }

  ghost predicate RoomForAll(s: Table, c: Config, takes: seq<Take>)
    decreases |takes|
  {
    takes == [] || (!RefusedForRoom(s, c, takes[0].key, takes[0].at)
                    && RoomForAll(TakeSlot(s, c, takes[0].key, takes[0].at).0, c, takes[1..]))
  }

  /** While no take is turned away for room, every answer is that of the limiter that never prunes. */
  lemma {:induction false} PruningIsInvisible(s: Table, all: map<Id, Window>, c: Config, takes: seq<Take>, now: int)
    requires Shadows(s, all, now) && InTime(now, takes) && RoomForAll(s, c, takes)
    ensures Answers(s, c, takes) == PlainAnswers(all, c, takes)
    decreases |takes|
  {
    hide Shadows, TakeSlot, TakePlain, RefusedForRoom;
    if takes != [] {
      var t := takes[0];
      TakeRefines(s, all, c, t, now);
      assert InTime(t.at, takes[1..]);
      PruningIsInvisible(TakeSlot(s, c, t.key, t.at).0, TakePlain(all, c, t.key, t.at).0, c, takes[1..], t.at);
    }
  }

  class FixedWindowRateLimiter {
    const config: Config
    var entries: map<Id, Window>
    var nextPruneAt: int

    ghost function View(): Table
      reads this
    {
      Table(entries, nextPruneAt)
    }

    constructor (config: Config)
      ensures this.config == config && View() == Table(map[], 0)
    {
      this.config := config;
      entries, nextPruneAt := map[], 0;
    }

    method Prune(now: int)
      modifies this
      ensures View() == Pruned(old(View()), config, now)
    {
      if now >= nextPruneAt || |entries| >= config.maxEntries {
        var rest := entries.Keys;
        while rest != {}
          invariant rest <= entries.Keys <= old(entries).Keys
          invariant forall k :: k in old(entries) && k !in rest ==> (k in entries <==> now < old(entries)[k].expiresAt)
          invariant forall k :: k in entries ==> entries[k] == old(entries)[k]
          invariant nextPruneAt == old(nextPruneAt)
          decreases |rest|
        {
          var k :| k in rest;
          if now >= entries[k].expiresAt {
            entries := entries - {k};
          }
          rest := rest - {k};
        }
        nextPruneAt := now + if config.windowMs < 60_000 then config.windowMs else 60_000;
      }
    }

    method Take(key: Id, now: int) returns (ok: bool)
      modifies this
      ensures (View(), ok) == TakeSlot(old(View()), config, key, now)
    {
      Prune(now);
      if key !in entries || now >= entries[key].expiresAt {
        if key !in entries && |entries| >= config.maxEntries {
          return false;
        }
        entries := entries[key := Window(1, now + config.windowMs)];
        return true;
      }
      if entries[key].count >= config.limit {
        return false;
      }
      entries := entries[key := entries[key].(count := entries[key].count + 1)];
      return true;
    }
  }
}
