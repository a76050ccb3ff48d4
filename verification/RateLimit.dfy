/** Sliding-window limiters: the in-memory queues (common/rate-limit.go), the Redis lists
    (middleware/rate-limit.go), and the full-history rule both must follow. */
module RateLimit {
  import opened Wrappers

  // ------------------------------------------------------------------ the full-history rule

  /** How many accepted times lie less than `duration` before `now`. */
  function InWindow(accepted: seq<int>, now: int, duration: int): (n: nat)
    ensures n <= |accepted|
  {
    if accepted == [] then 0
    else InWindow(accepted[..|accepted| - 1], now, duration)
         + if now - accepted[|accepted| - 1] < duration then 1 else 0
  }

  predicate Allowed(accepted: seq<int>, max: nat, duration: int, now: int) {
    InWindow(accepted, now, duration) < max
  }

  function Record(accepted: seq<int>, ok: bool, now: int): seq<int> {
    if ok then accepted + [now] else accepted
  }

  ghost predicate Sorted(times: seq<int>) {
    forall i, j :: 0 <= i <= j < |times| ==> times[i] <= times[j]
  }

  /** Accepted so far, in order, none after `clock`. */
  ghost predicate History(accepted: seq<int>, clock: int) {
    Sorted(accepted) && forall i :: 0 <= i < |accepted| ==> accepted[i] <= clock
  }

  /** Everything before position k left the window: what counts is the rest. */
  lemma {:induction false} WindowIsSuffix(accepted: seq<int>, now: int, duration: int, k: nat)
    requires k <= |accepted|
    requires forall i :: 0 <= i < k ==> now - accepted[i] >= duration
    ensures InWindow(accepted, now, duration) <= |accepted| - k
    ensures (forall i :: k <= i < |accepted| ==> now - accepted[i] < duration)
      ==> InWindow(accepted, now, duration) == |accepted| - k
  {
    var n := |accepted| - 1;
    if k <= n { WindowIsSuffix(accepted[..n], now, duration, k); } else if k > 0 {
      WindowIsSuffix(accepted[..n], now, duration, n);
    }
  }

  lemma {:induction false} WindowAtLeast(accepted: seq<int>, now: int, duration: int, k: nat)
    requires k <= |accepted|
    requires forall i :: k <= i < |accepted| ==> now - accepted[i] < duration
    ensures InWindow(accepted, now, duration) >= |accepted| - k
  {
    if k < |accepted| { WindowAtLeast(accepted[..|accepted| - 1], now, duration, k); }
  }

  /** With a full queue of the last `max` acceptances, the oldest one decides. */
  lemma OldestDecides(accepted: seq<int>, max: nat, duration: int, now: int)
    requires 1 <= max <= |accepted| && Sorted(accepted)
    ensures Allowed(accepted, max, duration, now) <==> now - accepted[|accepted| - max] >= duration
  {
    var k := |accepted| - max;
    if now - accepted[k] >= duration {
      WindowIsSuffix(accepted, now, duration, k + 1);
    } else {
      WindowAtLeast(accepted, now, duration, k);
    }
  }

  /** The rule without counting: fewer than max acceptances so far, or the max-th latest of
      them is at least the duration ago. */
  lemma AllowedMeans(accepted: seq<int>, max: nat, duration: int, now: int)
    requires max >= 1 && Sorted(accepted)
    ensures Allowed(accepted, max, duration, now) <==>
      |accepted| < max || now - accepted[|accepted| - max] >= duration
  {
    if |accepted| >= max { OldestDecides(accepted, max, duration, now); }
  }

  /** A limiter remembers the last `kept` acceptances; all older ones left the window
      unless the memory is full. */
  ghost predicate Covers(kept: nat, accepted: seq<int>, max: nat, duration: int, clock: int) {
    && kept <= max && kept <= |accepted|
    && (kept < max ==> forall i :: 0 <= i < |accepted| - kept ==> clock - accepted[i] >= duration)
  }

  /** What a limiter that covers the history must answer. */
  lemma CoveredDecision(kept: nat, accepted: seq<int>, max: nat, duration: int, clock: int, now: int)
    requires max >= 1 && clock <= now && History(accepted, clock) && Covers(kept, accepted, max, duration, clock)
    ensures Allowed(accepted, max, duration, now) <==>
      kept < max || now - accepted[|accepted| - kept] >= duration
  {
    if kept < max {
      WindowIsSuffix(accepted, now, duration, |accepted| - kept);
    } else {
      OldestDecides(accepted, max, duration, now);
    }
  }

  lemma CoverLasts(kept: nat, accepted: seq<int>, max: nat, duration: int, clock: int, now: int)
    requires clock <= now && History(accepted, clock) && Covers(kept, accepted, max, duration, clock)
    ensures History(accepted, now) && Covers(kept, accepted, max, duration, now)
    ensures History(accepted + [now], now)
    ensures Covers(if kept < max then kept + 1 else max, accepted + [now], max, duration, now)
  {
  }

  // ------------------------------------------------------------------ the in-memory queue

  /** InMemoryRateLimiter.Request on one key: oldest time first. */
  function MemoryRequest(queue: Option<seq<int>>, max: nat, duration: int, now: int): (Option<seq<int>>, bool) {
    match queue
    case None => (Some([now]), true)
    case Some(times) =>
      if |times| < max then (Some(times + [now]), true)
      else if |times| > 0 && now - times[0] >= duration then (Some(times[1..] + [now]), true)
      else (queue, false)
  }

  /** clearExpiredItems on one key. */
  function MemoryEvict(queue: Option<seq<int>>, expiration: int, now: int): Option<seq<int>> {
    if queue.Some? && (queue.value == [] || now - queue.value[|queue.value| - 1] > expiration) then None else queue
  }

  ghost predicate Tail(times: seq<int>, accepted: seq<int>) {
    && |times| <= |accepted|
    && forall i :: 0 <= i < |times| ==> times[i] == accepted[|accepted| - |times| + i]
  }

  /** The queue is the tail of the history; what it forgot is out of the window. */
  ghost predicate MemoryTracks(queue: Option<seq<int>>, accepted: seq<int>, max: nat, duration: int, clock: int) {
    && History(accepted, clock)
    && match queue
       case None => Covers(0, accepted, max, duration, clock)
       case Some(times) => times != [] && Tail(times, accepted) && Covers(|times|, accepted, max, duration, clock)
  }

  lemma {:induction false} MemoryRequestTracks(queue: Option<seq<int>>, accepted: seq<int>, max: nat, duration: int,
                                               clock: int, now: int)
    requires max >= 1 && clock <= now && MemoryTracks(queue, accepted, max, duration, clock)
    ensures var (queue', ok) := MemoryRequest(queue, max, duration, now);
      && ok == Allowed(accepted, max, duration, now)
      && MemoryTracks(queue', Record(accepted, ok, now), max, duration, now)
  {
    var kept := if queue.Some? then |queue.value| else 0;
    CoveredDecision(kept, accepted, max, duration, clock, now);
    CoverLasts(kept, accepted, max, duration, clock, now);
    var (queue', ok) := MemoryRequest(queue, max, duration, now);
    if ok {
      assert Tail(queue'.value, accepted + [now]);
    }
  }

  lemma TimePasses(queue: Option<seq<int>>, accepted: seq<int>, max: nat, duration: int, clock: int, now: int)
    requires clock <= now && MemoryTracks(queue, accepted, max, duration, clock)
    ensures MemoryTracks(queue, accepted, max, duration, now)
  {
    CoverLasts(if queue.Some? then |queue.value| else 0, accepted, max, duration, clock, now);
  }

  /** Eviction forgets nothing that still counts, when keys live long enough. */
  lemma MemoryEvictTracks(queue: Option<seq<int>>, accepted: seq<int>, max: nat, duration: int, expiration: int,
                          clock: int, now: int)
    requires clock <= now && expiration + 1 >= duration && MemoryTracks(queue, accepted, max, duration, clock)
    ensures MemoryTracks(MemoryEvict(queue, expiration, now), accepted, max, duration, now)
  {
  }

  // ------------------------------------------------------------------ the Redis list

  /** Newest time first; the key is gone from `expiresAt` on. */
  datatype RedisKey = RedisKey(items: seq<int>, expiresAt: int)

  /** redisRateLimiter on one key, its commands served at one instant. Times are in
      milliseconds, duration and expiration in seconds; the age of the oldest entry is
      truncated to whole seconds before it is compared. */
  function RedisRequest(key: Option<RedisKey>, max: nat, duration: int, expiration: int, now: int)
    : (Option<RedisKey>, bool)
  {
    var items := Live(key, now);
    var expiresAt := now + 1000 * expiration;
    if |items| < max then (Some(RedisKey([now] + items, expiresAt)), true)
    else if |items| > 0 && (now - items[|items| - 1]) / 1000 < duration then (Some(RedisKey(items, expiresAt)), false)
    else
      var pushed := [now] + items;
      (Some(RedisKey(if |pushed| > max then pushed[..max] else pushed, expiresAt)), true)
  }

  ghost predicate ReverseTail(items: seq<int>, accepted: seq<int>) {
    && |items| <= |accepted|
    && forall i :: 0 <= i < |items| ==> items[i] == accepted[|accepted| - 1 - i]
  }

  ghost predicate RedisTracks(key: Option<RedisKey>, accepted: seq<int>, max: nat, duration: int, expiration: int,
                              clock: int)
  {
    && History(accepted, clock)
    && match key
       case None => Covers(0, accepted, max, 1000 * duration, clock)
       case Some(k) =>
         && ReverseTail(k.items, accepted) && Covers(|k.items|, accepted, max, 1000 * duration, clock)
         && forall i :: 0 <= i < |accepted| ==> accepted[i] + 1000 * expiration <= k.expiresAt
  }

  /** The entries a command sees at `now`; an expired key is an empty list. */
  function Live(key: Option<RedisKey>, now: int): seq<int> {
    if key.Some? && now < key.value.expiresAt then key.value.items else []
  }

  lemma LiveCovers(key: Option<RedisKey>, accepted: seq<int>, max: nat, duration: int, expiration: int,
                   clock: int, now: int)
    requires max >= 1 && clock <= now && duration <= expiration
    requires RedisTracks(key, accepted, max, duration, expiration, clock)
    ensures ReverseTail(Live(key, now), accepted) && Covers(|Live(key, now)|, accepted, max, 1000 * duration, now)
    ensures History(accepted, now)
  {
  }

  /** Truncating an age to whole seconds before comparing is comparing milliseconds. */
  lemma WholeSeconds(age: nat, duration: int)
    ensures age / 1000 < duration <==> age < 1000 * duration
  {
  }

  lemma RedisDecides(key: Option<RedisKey>, accepted: seq<int>, max: nat, duration: int, expiration: int,
                     clock: int, now: int)
    requires max >= 1 && clock <= now && duration <= expiration
    requires RedisTracks(key, accepted, max, duration, expiration, clock)
    ensures RedisRequest(key, max, duration, expiration, now).1 == Allowed(accepted, max, 1000 * duration, now)
  {
    LiveCovers(key, accepted, max, duration, expiration, clock, now);
    var items := Live(key, now);
    CoveredDecision(|items|, accepted, max, 1000 * duration, now, now);
    if |items| > 0 { WholeSeconds(now - items[|items| - 1], duration); }
  }

  lemma {:induction false} RedisRequestTracks(key: Option<RedisKey>, accepted: seq<int>, max: nat, duration: int,
                                              expiration: int, clock: int, now: int)
    requires max >= 1 && clock <= now && duration <= expiration
    requires RedisTracks(key, accepted, max, duration, expiration, clock)
    ensures var (key', ok) := RedisRequest(key, max, duration, expiration, now);
      && ok == Allowed(accepted, max, 1000 * duration, now)
      && RedisTracks(key', Record(accepted, ok, now), max, duration, expiration, now)
  {
    RedisDecides(key, accepted, max, duration, expiration, clock, now);
    LiveCovers(key, accepted, max, duration, expiration, clock, now);
    CoverLasts(|Live(key, now)|, accepted, max, 1000 * duration, now, now);
    var (key', ok) := RedisRequest(key, max, duration, expiration, now);
    if ok {
      assert ReverseTail(key'.value.items, accepted + [now]);
    }
  }

  // ------------------------------------------------------------------ whole traces

  datatype Event = Request(now: int) | Sweep(now: int)

  ghost predicate ClockMonotone(es: seq<Event>) {
    forall i, j :: 0 <= i <= j < |es| ==> es[i].now <= es[j].now
  }

  /** The accepted times of a trace under each rule, and each limiter's final state. */
  function ByHistory(es: seq<Event>, max: nat, duration: int): seq<int> {
    if es == [] then []
    else
      var before, e := ByHistory(es[..|es| - 1], max, duration), es[|es| - 1];
      if e.Request? then Record(before, Allowed(before, max, duration, e.now), e.now) else before
  }

  function ByMemory(es: seq<Event>, max: nat, duration: int, expiration: int): (Option<seq<int>>, seq<int>) {
    if es == [] then (None, [])
    else
      var (queue, accepted) := ByMemory(es[..|es| - 1], max, duration, expiration);
      var e := es[|es| - 1];
      if e.Request? then
        var (queue', ok) := MemoryRequest(queue, max, duration, e.now);
        (queue', Record(accepted, ok, e.now))
      else (MemoryEvict(queue, expiration, e.now), accepted)
  }

  function ByRedis(es: seq<Event>, max: nat, duration: int, expiration: int): (Option<RedisKey>, seq<int>) {
    if es == [] then (None, [])
    else
      var (key, accepted) := ByRedis(es[..|es| - 1], max, duration, expiration);
      var e := es[|es| - 1];
      if e.Request? then
        var (key', ok) := RedisRequest(key, max, duration, expiration, e.now);
        (key', Record(accepted, ok, e.now))
      else (key, accepted)
  }

  function Clock(es: seq<Event>): int { if es == [] then 0 else es[|es| - 1].now }

  lemma {:induction false} MemoryFollowsHistory(es: seq<Event>, max: nat, duration: int, expiration: int)
    requires max >= 1 && expiration + 1 >= duration && ClockMonotone(es)
    ensures var (queue, accepted) := ByMemory(es, max, duration, expiration);
      && accepted == ByHistory(es, max, duration)
      && MemoryTracks(queue, accepted, max, duration, Clock(es))
  {
    if es != [] {
      var init, e := es[..|es| - 1], es[|es| - 1];
      MemoryFollowsHistory(init, max, duration, expiration);
      var (queue, accepted) := ByMemory(init, max, duration, expiration);
      var clock := if init == [] then e.now else Clock(init);
      if e.Request? {
        MemoryRequestTracks(queue, accepted, max, duration, clock, e.now);
      } else {
        MemoryEvictTracks(queue, accepted, max, duration, expiration, clock, e.now);
      }
    }
  }

  lemma {:induction false} RedisFollowsHistory(es: seq<Event>, max: nat, duration: int, expiration: int)
    requires max >= 1 && duration <= expiration && ClockMonotone(es)
    ensures var (key, accepted) := ByRedis(es, max, duration, expiration);
      && accepted == ByHistory(es, max, 1000 * duration)
      && RedisTracks(key, accepted, max, duration, expiration, Clock(es))
  {
    if es != [] {
      var init, e := es[..|es| - 1], es[|es| - 1];
      RedisFollowsHistory(init, max, duration, expiration);
      var (key, accepted) := ByRedis(init, max, duration, expiration);
      var clock := if init == [] then e.now else Clock(init);
      if e.Request? {
        RedisRequestTracks(key, accepted, max, duration, expiration, clock, e.now);
      }
    }
  }

  /** No more than `max` acceptances fit in any window. */
  lemma {:induction false} AcceptancesAreSpaced(es: seq<Event>, max: nat, duration: int, i: nat)
    requires max >= 1 && ClockMonotone(es) && i + max < |ByHistory(es, max, duration)|
    ensures var a := ByHistory(es, max, duration); a[i + max] - a[i] >= duration
  {
    var init, e := es[..|es| - 1], es[|es| - 1];
    var before := ByHistory(init, max, duration);
    if i + max < |before| {
      AcceptancesAreSpaced(init, max, duration, i);
    } else {
      MemoryFollowsHistory(init, max, duration, if duration > 0 then duration else 0);
      OldestDecides(before, max, duration, e.now);
    }
  }

  /** When keys are dropped a full second too early, a sweep lets an extra request in. */
  lemma EarlyEvictionShows(duration: int, expiration: int) returns (es: seq<Event>)
    requires 0 <= expiration && expiration + 1 < duration
    ensures ClockMonotone(es)
    ensures ByMemory(es, 1, duration, expiration).1 != ByHistory(es, 1, duration)
  {
    var late := expiration + 1;
    es := [Request(0), Sweep(late), Request(late)];
    var one, two := [Request(0)], [Request(0), Sweep(late)];
    assert one[..0] == [] && two[..1] == one && es[..2] == two;
    assert Record([], true, 0) == [0];
    assert ByMemory(one[..0], 1, duration, expiration) == (None, []);
    assert ByMemory(one, 1, duration, expiration) == (Some([0]), [0]);
    assert ByMemory(two, 1, duration, expiration) == (MemoryEvict(Some([0]), expiration, late), [0]);
    assert ByMemory(es, 1, duration, expiration).1 == [0] + [late];
    assert ByHistory(one, 1, duration) == [0];
    assert ByHistory(two, 1, duration) == [0];
    assert InWindow([0], late, duration) == 1;
    assert ByHistory(es, 1, duration) == [0];
  }

  /** Eviction is invisible on every trace if and only if keys outlive the window less
      one second. */
  lemma EvictionInvisibleIff(duration: int, expiration: int)
    requires 0 <= expiration
    ensures (forall es: seq<Event>, max: nat :: max >= 1 && ClockMonotone(es) ==>
               ByMemory(es, max, duration, expiration).1 == ByHistory(es, max, duration))
            <==> expiration + 1 >= duration
  {
    if expiration + 1 >= duration {
      forall es: seq<Event>, max: nat | max >= 1 && ClockMonotone(es)
        ensures ByMemory(es, max, duration, expiration).1 == ByHistory(es, max, duration)
      {
        MemoryFollowsHistory(es, max, duration, expiration);
      }
    } else {
      var es := EarlyEvictionShows(duration, expiration);
    }
  }

  // ------------------------------------------------------------------ one trace, two clocks

  /** The answers to the requests of a trace, in order. */
  function MemoryAnswers(es: seq<Event>, max: nat, duration: int, expiration: int): seq<bool> {
    if es == [] then []
    else
      var init, e := es[..|es| - 1], es[|es| - 1];
      MemoryAnswers(init, max, duration, expiration)
      + if e.Request? then [MemoryRequest(ByMemory(init, max, duration, expiration).0, max, duration, e.now).1] else []
  }

  function RedisAnswers(es: seq<Event>, max: nat, duration: int, expiration: int): seq<bool> {
    if es == [] then []
    else
      var init, e := es[..|es| - 1], es[|es| - 1];
      RedisAnswers(init, max, duration, expiration)
      + if e.Request?
        then [RedisRequest(ByRedis(init, max, duration, expiration).0, max, duration, expiration, e.now).1]
        else []
  }

  function HistoryAnswers(es: seq<Event>, max: nat, duration: int): seq<bool> {
    if es == [] then []
    else
      var init, e := es[..|es| - 1], es[|es| - 1];
      HistoryAnswers(init, max, duration)
      + if e.Request? then [Allowed(ByHistory(init, max, duration), max, duration, e.now)] else []
  }

  lemma {:induction false} MemoryAnswersHistory(es: seq<Event>, max: nat, duration: int, expiration: int)
    requires max >= 1 && expiration + 1 >= duration && ClockMonotone(es)
    ensures MemoryAnswers(es, max, duration, expiration) == HistoryAnswers(es, max, duration)
  {
    if es != [] {
      var init, e := es[..|es| - 1], es[|es| - 1];
      MemoryAnswersHistory(init, max, duration, expiration);
      if e.Request? {
        MemoryFollowsHistory(init, max, duration, expiration);
        var (queue, accepted) := ByMemory(init, max, duration, expiration);
        MemoryRequestTracks(queue, accepted, max, duration, if init == [] then e.now else Clock(init), e.now);
      }
    }
  }

  lemma {:induction false} RedisAnswersHistory(es: seq<Event>, max: nat, duration: int, expiration: int)
    requires max >= 1 && duration <= expiration && ClockMonotone(es)
    ensures RedisAnswers(es, max, duration, expiration) == HistoryAnswers(es, max, 1000 * duration)
  {
    if es != [] {
      var init, e := es[..|es| - 1], es[|es| - 1];
      RedisAnswersHistory(init, max, duration, expiration);
      if e.Request? {
        RedisFollowsHistory(init, max, duration, expiration);
        var (key, accepted) := ByRedis(init, max, duration, expiration);
        RedisRequestTracks(key, accepted, max, duration, expiration, if init == [] then e.now else Clock(init), e.now);
      }
    }
  }

  /** The queue stores Unix seconds, the list milliseconds: what the in-memory form sees of
      a trace in milliseconds. */
  function InSeconds(es: seq<Event>): (r: seq<Event>)
    ensures |r| == |es|
  {
    seq(|es|, i requires 0 <= i < |es| =>
      if es[i].Request? then Request(es[i].now / 1000) else Sweep(es[i].now / 1000))
  }

  function Seconds(times: seq<int>): (r: seq<int>)
    ensures |r| == |times|
  {
    seq(|times|, i requires 0 <= i < |times| => times[i] / 1000)
  }

  /** The N-th last acceptance is `duration` seconds old by the second hand, but less than
      that by the millisecond. */
  predicate InGap(accepted: seq<int>, max: nat, duration: int, now: int)
    requires max >= 1
  {
    && |accepted| >= max
    && var oldest := accepted[|accepted| - max];
       now / 1000 - oldest / 1000 == duration && now % 1000 < oldest % 1000
  }

  /** Some request of the trace falls into the gap, given what has been accepted so far. */
  predicate MeetsGap(es: seq<Event>, max: nat, duration: int)
    requires max >= 1
  {
    es != []
    && var init, e := es[..|es| - 1], es[|es| - 1];
       || MeetsGap(init, max, duration)
       || (e.Request? && InGap(ByHistory(init, max, 1000 * duration), max, duration, e.now))
  }

  lemma ClockGap(oldest: int, now: int, duration: int)
    ensures now - oldest >= 1000 * duration ==> now / 1000 - oldest / 1000 >= duration
    ensures now / 1000 - oldest / 1000 >= duration && now - oldest < 1000 * duration <==>
      now / 1000 - oldest / 1000 == duration && now % 1000 < oldest % 1000
  {
    assert now - oldest == 1000 * (now / 1000 - oldest / 1000) + (now % 1000 - oldest % 1000);
  }

  /** With one history behind them, the two clocks disagree on a request exactly in the
      gap, and then the one in whole seconds allows it. */
  lemma DecisionsDifferIff(accepted: seq<int>, max: nat, duration: int, now: int)
    requires max >= 1 && Sorted(accepted)
    ensures Allowed(accepted, max, 1000 * duration, now) ==> Allowed(Seconds(accepted), max, duration, now / 1000)
    ensures Allowed(Seconds(accepted), max, duration, now / 1000) && !Allowed(accepted, max, 1000 * duration, now)
      <==> InGap(accepted, max, duration, now)
  {
    if |accepted| >= max {
      OldestDecides(accepted, max, 1000 * duration, now);
      OldestDecides(Seconds(accepted), max, duration, now / 1000);
      ClockGap(accepted[|accepted| - max], now, duration);
    }
  }

  lemma InSecondsInit(es: seq<Event>)
    requires es != []
    ensures InSeconds(es)[..|es| - 1] == InSeconds(es[..|es| - 1])
  {
  }

  lemma SortedHistory(es: seq<Event>, max: nat, duration: int)
    requires max >= 1 && ClockMonotone(es)
    ensures Sorted(ByHistory(es, max, duration))
  {
    MemoryFollowsHistory(es, max, duration, duration);
  }

  /** Same answers so far mean the same history, read on two clocks. */
  lemma {:induction false} HistoriesAgreeIff(es: seq<Event>, max: nat, duration: int)
    requires max >= 1 && ClockMonotone(es)
    ensures HistoryAnswers(InSeconds(es), max, duration) == HistoryAnswers(es, max, 1000 * duration)
      <==> !MeetsGap(es, max, duration)
    ensures !MeetsGap(es, max, duration) ==>
      ByHistory(InSeconds(es), max, duration) == Seconds(ByHistory(es, max, 1000 * duration))
  {
    if es != [] {
      var init, e := es[..|es| - 1], es[|es| - 1];
      HistoriesAgreeIff(init, max, duration);
      SameSoFar(es, max, duration);
      SortedHistory(init, max, 1000 * duration);
      if e.Request? && !MeetsGap(init, max, duration) {
        DecisionsDifferIff(ByHistory(init, max, 1000 * duration), max, duration, e.now);
      }
      InSecondsInit(es);
    }
  }

  /** Answers agree when they agreed before and the last one does. */
  lemma SameSoFar(es: seq<Event>, max: nat, duration: int)
    requires es != []
    ensures var init, e := es[..|es| - 1], es[|es| - 1];
      HistoryAnswers(InSeconds(es), max, duration) == HistoryAnswers(es, max, 1000 * duration) <==>
        && HistoryAnswers(InSeconds(init), max, duration) == HistoryAnswers(init, max, 1000 * duration)
        && (e.Request? ==>
              Allowed(ByHistory(InSeconds(init), max, duration), max, duration, e.now / 1000)
              == Allowed(ByHistory(init, max, 1000 * duration), max, 1000 * duration, e.now))
  {
    var init, e := es[..|es| - 1], es[|es| - 1];
    InSecondsInit(es);
    SameLength(init, max, duration);
    var coarse, fine := HistoryAnswers(InSeconds(init), max, duration), HistoryAnswers(init, max, 1000 * duration);
    assert HistoryAnswers(InSeconds(es), max, duration)[..|coarse|] == coarse;
    assert HistoryAnswers(es, max, 1000 * duration)[..|fine|] == fine;
    if e.Request? {
      assert HistoryAnswers(InSeconds(es), max, duration)[|coarse|]
        == Allowed(ByHistory(InSeconds(init), max, duration), max, duration, e.now / 1000);
      assert HistoryAnswers(es, max, 1000 * duration)[|fine|]
        == Allowed(ByHistory(init, max, 1000 * duration), max, 1000 * duration, e.now);
    }
  }

  lemma {:induction false} SameLength(es: seq<Event>, max: nat, duration: int)
    ensures |HistoryAnswers(InSeconds(es), max, duration)| == |HistoryAnswers(es, max, 1000 * duration)|
  {
    if es != [] {
      InSecondsInit(es);
      SameLength(es[..|es| - 1], max, duration);
    }
  }

  lemma SecondsMonotone(es: seq<Event>)
    requires ClockMonotone(es)
    ensures ClockMonotone(InSeconds(es))
  {
  }

  /** Served one at a time on one millisecond clock, the two limiters answer every request
      alike if and only if no request falls into the gap, wherever the sweeps fall. */
  lemma LimitersAgreeIff(es: seq<Event>, max: nat, duration: int, expiration: int)
    requires max >= 1 && duration <= expiration && ClockMonotone(es)
    ensures MemoryAnswers(InSeconds(es), max, duration, expiration)
         == RedisAnswers(es, max, duration, expiration)
      <==> !MeetsGap(es, max, duration)
  {
    SecondsMonotone(es);
    MemoryAnswersHistory(InSeconds(es), max, duration, expiration);
    RedisAnswersHistory(es, max, duration, expiration);
    HistoriesAgreeIff(es, max, duration);
  }

  /** In particular they agree on whole seconds, and whenever all times share their
      sub-second part. */
  lemma LimitersAgree(es: seq<Event>, max: nat, duration: int, expiration: int, part: int)
    requires max >= 1 && duration <= expiration && ClockMonotone(es)
    requires forall i :: 0 <= i < |es| ==> es[i].now % 1000 == part
    ensures MemoryAnswers(InSeconds(es), max, duration, expiration)
         == RedisAnswers(es, max, duration, expiration)
  {
    NoGap(es, max, duration, part);
    LimitersAgreeIff(es, max, duration, expiration);
  }

  lemma {:induction false} NoGap(es: seq<Event>, max: nat, duration: int, part: int)
    requires max >= 1 && forall i :: 0 <= i < |es| ==> es[i].now % 1000 == part
    ensures !MeetsGap(es, max, duration)
    ensures forall i :: 0 <= i < |ByHistory(es, max, 1000 * duration)| ==>
      ByHistory(es, max, 1000 * duration)[i] % 1000 == part
  {
    if es != [] { NoGap(es[..|es| - 1], max, duration, part); }
  }

  /** One request per ten seconds, asked for at 0.9, 10.0 and 10.95 s: first only the
      in-memory form lets a request in, then only the Redis form. */
  lemma GapTrace() returns (es: seq<Event>)
    ensures ClockMonotone(es) && MeetsGap(es, 1, 10)
    ensures MemoryAnswers(InSeconds(es), 1, 10, 1200) == [true, true, false]
    ensures RedisAnswers(es, 1, 10, 1200) == [true, false, true]
  {
    es := [Request(900), Request(10000), Request(10950)];
    RedisSide(es, [Request(900)], [Request(900), Request(10000)]);
    assert InSeconds(es) == [Request(0), Request(10), Request(10)];
    MemorySide(InSeconds(es), [Request(0)], [Request(0), Request(10)]);
    LimitersAgreeIff(es, 1, 10, 1200);
  }

  lemma MemorySide(es: seq<Event>, one: seq<Event>, two: seq<Event>)
    requires one == [Request(0)] && two == one + [Request(10)] && es == two + [Request(10)]
    ensures MemoryAnswers(es, 1, 10, 1200) == [true, true, false]
  {
    assert one[..0] == [] && two[..1] == one && es[..2] == two;
    assert Record([], true, 0) == [0] && [0][1..] + [10] == [10];
    assert ByMemory(one, 1, 10, 1200) == (Some([0]), [0]);
    assert ByMemory(two, 1, 10, 1200).0 == Some([10]);
    assert MemoryAnswers(one, 1, 10, 1200) == [true];
    assert MemoryAnswers(two, 1, 10, 1200) == [true, true];
  }

  lemma RedisSide(es: seq<Event>, one: seq<Event>, two: seq<Event>)
    requires one == [Request(900)] && two == one + [Request(10000)] && es == two + [Request(10950)]
    ensures RedisAnswers(es, 1, 10, 1200) == [true, false, true]
  {
    assert one[..0] == [] && two[..1] == one && es[..2] == two;
    assert Record([], true, 900) == [900] && [900] + [] == [900];
    assert ByRedis(one[..0], 1, 10, 1200) == (None, []);
    assert ByRedis(one, 1, 10, 1200) == (Some(RedisKey([900], 1200900)), [900]);
    assert ByRedis(two, 1, 10, 1200) == (Some(RedisKey([900], 1210000)), [900]);
    assert RedisAnswers(one, 1, 10, 1200) == [true];
    assert RedisAnswers(two, 1, 10, 1200) == [true, false];
  }

  // ----- the configured limits, in seconds

  /** For every configured window (three minutes, one minute, twenty minutes) keys that live
      twenty minutes live long enough: both forms follow the history. */
  lemma ConfiguredLimitsFollow(es: seq<Event>, max: nat, window: nat)
    requires max >= 1 && ClockMonotone(es) && window in {180, 60, 1200}
    ensures ByMemory(es, max, window, 1200).1 == ByHistory(es, max, window)
    ensures ByRedis(es, max, window, 1200).1 == ByHistory(es, max, 1000 * window)
  {
    MemoryFollowsHistory(es, max, window, 1200);
    RedisFollowsHistory(es, max, window, 1200);
  }

  // ------------------------------------------------------------------ the code

  /** An answer that follows the history, and a queue that goes on tracking it. */
  ghost predicate Tracked(result: (Option<seq<int>>, bool), accepted: seq<int>, max: nat, duration: int, now: int) {
    && result.1 == Allowed(accepted, max, duration, now)
    && MemoryTracks(result.0, Record(accepted, result.1, now), max, duration, now)
  }

  /** One limit per key: the key starts with the limiter's mark. */
  datatype Limit = Limit(max: nat, duration: int)

  class InMemoryRateLimiter {
    var store: map<string, seq<int>>
    const expiration: int
    ghost const limits: string -> Limit
    /** Every acceptance ever, per key, and the last clock reading. */
    ghost var accepted: map<string, seq<int>>
    ghost var clock: int

    function Queue(key: string): Option<seq<int>>
      reads this
    {
      if key in store then Some(store[key]) else None
    }

    ghost function Accepted(key: string): seq<int>
      reads this
    {
      if key in accepted then accepted[key] else []
    }

    ghost predicate Valid()
      reads this
    {
      forall key :: MemoryTracks(Queue(key), Accepted(key), limits(key).max, limits(key).duration, clock)
    }

    constructor (expiration: int, ghost limits: string -> Limit, ghost now: int)
      ensures Valid() && this.expiration == expiration && this.limits == limits && clock == now
      ensures forall key :: Accepted(key) == []
    {
      this.expiration := expiration;
      this.limits := limits;
      this.store := map[];
      this.accepted := map[];
      this.clock := now;
    }

    /** Accepts exactly when the full history of the key allows it. */
    method Request(key: string, max: nat, duration: int, now: int) returns (ok: bool)
      requires Valid() && limits(key) == Limit(max, duration) && max >= 1 && clock <= now
      modifies this
      ensures Valid() && clock == now
      ensures ok == Allowed(old(Accepted(key)), max, duration, now)
      ensures var a := old(Accepted(key)); ok <==> |a| < max || now - a[|a| - max] >= duration
      ensures Accepted(key) == if ok then old(Accepted(key)) + [now] else old(Accepted(key))
      ensures forall other :: other != key ==>
        Accepted(other) == old(Accepted(other)) && Queue(other) == old(Queue(other))
    {
      ghost var result := MemoryRequest(Queue(key), max, duration, now);
      ghost var was := Accepted(key);
      assert Tracked(result, was, max, duration, now) by {
        MemoryRequestTracks(Queue(key), was, max, duration, clock, now);
      }
      AllowedMeans(was, max, duration, now);
      AllLater(now);
      ok := true;
      if key in store {
        var queue := store[key];
        if |queue| < max {
          store := store[key := queue + [now]];
        } else if now - queue[0] >= duration {
          store := store[key := queue[1..] + [now]];
        } else {
          ok := false;
        }
      } else {
        store := store[key := [now]];
      }
      assert Queue(key) == result.0 && ok == result.1;
      accepted := accepted[key := Record(was, ok, now)];
      clock := now;
      forall other
        ensures MemoryTracks(Queue(other), Accepted(other), limits(other).max, limits(other).duration, clock)
      {
        if other != key {
          assert Queue(other) == old(Queue(other)) && Accepted(other) == old(Accepted(other));
        }
      }
    }

    lemma AllLater(now: int)
      requires Valid() && clock <= now
      ensures forall key :: MemoryTracks(Queue(key), Accepted(key), limits(key).max, limits(key).duration, now)
    {
      forall key ensures MemoryTracks(Queue(key), Accepted(key), limits(key).max, limits(key).duration, now) {
        TimePasses(Queue(key), Accepted(key), limits(key).max, limits(key).duration, clock, now);
      }
    }

    lemma AllSwept(now: int)
      requires Valid() && clock <= now && forall key :: limits(key).duration <= expiration + 1
      ensures forall key ::
        MemoryTracks(MemoryEvict(Queue(key), expiration, now), Accepted(key),
                     limits(key).max, limits(key).duration, now)
    {
      forall key
        ensures MemoryTracks(MemoryEvict(Queue(key), expiration, now), Accepted(key),
                             limits(key).max, limits(key).duration, now)
      {
        MemoryEvictTracks(Queue(key), Accepted(key), limits(key).max, limits(key).duration, expiration, clock, now);
      }
    }

    /** One pass of the cleaner: keys idle for longer than the expiration are dropped. */
    method DropExpired(now: int)
      modifies this`store
      ensures forall key :: Queue(key) == MemoryEvict(old(Queue(key)), expiration, now)
    {
      var left := store.Keys;
      while left != {}
        invariant left <= old(store).Keys
        invariant forall key :: key in left ==> Queue(key) == old(Queue(key))
        invariant forall key :: key !in left ==> Queue(key) == MemoryEvict(old(Queue(key)), expiration, now)
        decreases |left|
      {
        var key :| key in left;
        assert Queue(key) == old(Queue(key)) && key in store;
        var queue := store[key];
        ghost var before := store;
        if |queue| == 0 || now - queue[|queue| - 1] > expiration {
          store := store - {key};
        }
        assert forall other :: other != key ==>
          (other in store <==> other in before) && (other in store ==> store[other] == before[other]);
        left := left - {key};
      }
    }

    method ClearExpiredItems(now: int)
      requires Valid() && clock <= now && forall key :: limits(key).duration <= expiration + 1
      modifies this`store, this`clock
      ensures Valid() && clock == now
      ensures forall key :: Queue(key) == MemoryEvict(old(Queue(key)), expiration, now)
    {
      AllSwept(now);
      DropExpired(now);
      clock := now;
      forall key ensures MemoryTracks(Queue(key), Accepted(key), limits(key).max, limits(key).duration, clock) {
        assert Queue(key) == MemoryEvict(old(Queue(key)), expiration, now);
      }
    }
  }
}
