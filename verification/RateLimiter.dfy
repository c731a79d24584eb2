/**
 The in-memory sliding-window limiter: one queue of instants per key, pruned from the front.

 The reference is the full history of allowed calls. Times are reals, as read from a monotonic clock.
 */
module RateLimiter {
  type Key = string

  datatype Outcome = Result(allowed: bool, retryAfter: int) | IndexError

  /** The queues, the instants of all calls ever allowed per key, and the clock. */
  datatype State = State(events: map<Key, seq<real>>, history: map<Key, seq<real>>, clock: real)

  datatype Call = Call(key: Key, limit: int, window: int, now: real)

  // ---------------------------------------------------------------- one call

  function At(m: map<Key, seq<real>>, key: Key): seq<real> {
    if key in m then m[key] else []
  }

  /** Pop from the left while the oldest instant is not after the cutoff. */
  function Pruned(events: seq<real>, cutoff: real): seq<real> {
    if events != [] && events[0] <= cutoff then Pruned(events[1..], cutoff) else events
  }

  function Live(s: State, call: Call): seq<real> {
    Pruned(At(s.events, call.key), call.now - call.window as real)
  }

  function Max(a: int, b: int): int {
    if a < b then b else a
  }

  function Answer(s: State, call: Call): Outcome {
    var live := Live(s, call);
    if |live| < call.limit then Result(true, 0)
    else if live == [] then IndexError
    else Result(false, Max(1, (live[0] + call.window as real - call.now).Floor))
  }

  predicate Allows(s: State, call: Call) {
    |Live(s, call)| < call.limit
  }

  function Next(s: State, call: Call): State {
    var live := Live(s, call);
    if Allows(s, call) then
      State(s.events[call.key := live + [call.now]],
            s.history[call.key := At(s.history, call.key) + [call.now]],
            call.now)
    else
      State(s.events[call.key := live], s.history, call.now)
  }

  const EMPTY := State(map[], map[], 0.0)

  ghost predicate IsRun(states: seq<State>, calls: seq<Call>) {
    && |states| == |calls| + 1
    && states[0] == EMPTY
    && (forall i :: 0 <= i < |calls| ==> states[i].clock <= calls[i].now && states[i + 1] == Next(states[i], calls[i]))
  }

  lemma RunStep(states: seq<State>, calls: seq<Call>, i: nat)
    requires IsRun(states, calls) && i < |calls|
    ensures |states| == |calls| + 1 && states[i].clock <= calls[i].now && states[i + 1] == Next(states[i], calls[i])
  {
  }

  /** All calls on the key ask for the same window. */
  ghost predicate OneWindow(calls: seq<Call>, n: nat, key: Key, window: int)
    requires n <= |calls|
  {
    forall i :: 0 <= i < n && calls[i].key == key ==> calls[i].window == window
  }

  /** No call on the key asks for more than this limit. */
  ghost predicate LimitedTo(calls: seq<Call>, n: nat, key: Key, limit: int)
    requires n <= |calls|
  {
    forall i :: 0 <= i < n && calls[i].key == key ==> calls[i].limit <= limit
  }

  // ---------------------------------------------------------------- the queue is the live end of the history

  lemma {:induction false} PrunedIsSuffix(events: seq<real>, cutoff: real)
    ensures var live := Pruned(events, cutoff);
      var p := |events| - |live|;
      && p >= 0 && live == events[p..]
      && (forall i :: 0 <= i < p ==> events[i] <= cutoff)
      && (live != [] ==> live[0] > cutoff)
  {
    if events != [] && events[0] <= cutoff {
      PrunedIsSuffix(events[1..], cutoff);
      var p := |events[1..]| - |Pruned(events[1..], cutoff)|;
      forall i | 0 <= i < p + 1
        ensures events[i] <= cutoff
      {
        if i > 0 { assert events[1..][i - 1] == events[i]; }
      }
    }
  }

  predicate Nondecreasing(h: seq<real>) {
    forall i, j :: 0 <= i < j < |h| ==> h[i] <= h[j]
  }

  /** Among any limit + 1 consecutive allowed calls the last comes at least a window after the first. */
  ghost predicate Spaced(h: seq<real>, limit: int, window: int) {
    forall i, j :: 0 <= i < j < |h| && j == i + limit ==> h[j] - h[i] >= window as real
  }

  /** The queue is the end of the history, and what was pruned has left the window. */
  predicate IsLiveEnd(h: seq<real>, e: seq<real>, clock: real, window: int) {
    && Nondecreasing(h)
    && (forall i :: 0 <= i < |h| ==> h[i] <= clock)
    && |e| <= |h| && e == h[|h| - |e|..]
    && (forall i :: 0 <= i < |h| - |e| ==> h[i] <= clock - window as real)
  }

  ghost predicate Limited(h: seq<real>, e: seq<real>, limit: int, window: int) {
    |e| <= limit && Spaced(h, limit, window)
  }

  lemma PruningKeepsQueue(h: seq<real>, e: seq<real>, clock: real, window: int, now: real)
    requires IsLiveEnd(h, e, clock, window) && clock <= now
    ensures |Pruned(e, now - window as real)| <= |e|
    ensures IsLiveEnd(h, Pruned(e, now - window as real), now, window)
    ensures forall i :: |h| - |Pruned(e, now - window as real)| <= i < |h| ==> h[i] > now - window as real
  {
    PrunedIsSuffix(e, now - window as real);
    var live := Pruned(e, now - window as real);
    forall i | 0 <= i < |h| - |live|
      ensures h[i] <= now - window as real
    {
      if i >= |h| - |e| { assert h[i] == e[i - (|h| - |e|)]; }
    }
  }

  lemma AllowingKeepsQueue(h: seq<real>, live: seq<real>, now: real, window: int)
    requires IsLiveEnd(h, live, now, window)
    ensures IsLiveEnd(h + [now], live + [now], now, window)
  {
    assert live + [now] == (h + [now])[|h| - |live|..];
  }

  lemma AllowingKeepsLimit(h: seq<real>, live: seq<real>, now: real, limit: int, window: int)
    requires limit >= 1 && IsLiveEnd(h, live, now, window) && Limited(h, live, limit, window) && |live| < limit
    ensures Limited(h + [now], live + [now], limit, window)
  {
    var h' := h + [now];
    forall i, j | 0 <= i < j < |h'| && j == i + limit
      ensures h'[j] - h'[i] >= window as real
    {
      if j < |h| { assert h[j] - h[i] >= window as real; }
    }
  }

  lemma WaitingKeepsQueue(h: seq<real>, e: seq<real>, clock: real, window: int, now: real)
    requires IsLiveEnd(h, e, clock, window) && clock <= now
    ensures IsLiveEnd(h, e, now, window)
  {
  }

  lemma KeyStep(s: State, call: Call, key: Key, window: int)
    requires s.clock <= call.now && (call.key == key ==> call.window == window)
    requires IsLiveEnd(At(s.history, key), At(s.events, key), s.clock, window)
    ensures IsLiveEnd(At(Next(s, call).history, key), At(Next(s, call).events, key), Next(s, call).clock, window)
  {
    hide IsLiveEnd;
    WaitingKeepsQueue(At(s.history, key), At(s.events, key), s.clock, window, call.now);
    if call.key == key {
      PruningKeepsQueue(At(s.history, key), At(s.events, key), s.clock, window, call.now);
      if Allows(s, call) {
        AllowingKeepsQueue(At(s.history, key), Live(s, call), call.now, window);
      }
    }
  }

  lemma LimitStep(s: State, call: Call, key: Key, limit: int, window: int)
    requires limit >= 1 && s.clock <= call.now && (call.key == key ==> call.limit <= limit && call.window == window)
    requires IsLiveEnd(At(s.history, key), At(s.events, key), s.clock, window)
    requires Limited(At(s.history, key), At(s.events, key), limit, window)
    ensures Limited(At(Next(s, call).history, key), At(Next(s, call).events, key), limit, window)
  {
    hide IsLiveEnd, Spaced;
    if call.key == key {
      PruningKeepsQueue(At(s.history, key), At(s.events, key), s.clock, window, call.now);
      if Allows(s, call) {
        AllowingKeepsLimit(At(s.history, key), Live(s, call), call.now, limit, window);
      }
    }
  }

  lemma NothingYet(states: seq<State>, calls: seq<Call>, key: Key, limit: int, window: int)
    requires IsRun(states, calls) && limit >= 0
    ensures |states| == |calls| + 1
    ensures IsLiveEnd(At(states[0].history, key), At(states[0].events, key), states[0].clock, window)
    ensures Limited(At(states[0].history, key), At(states[0].events, key), limit, window)
  {
  }

  lemma {:induction false} RunKeepsQueue(states: seq<State>, calls: seq<Call>, n: nat, key: Key, window: int)
    requires IsRun(states, calls) && n <= |calls| && OneWindow(calls, n, key, window)
    ensures IsLiveEnd(At(states[n].history, key), At(states[n].events, key), states[n].clock, window)
  {
    hide Next, IsLiveEnd;
    if n == 0 {
      NothingYet(states, calls, key, 0, window);
    } else {
      RunStep(states, calls, n - 1);
      RunKeepsQueue(states, calls, n - 1, key, window);
      KeyStep(states[n - 1], calls[n - 1], key, window);
    }
  }

  lemma {:induction false} RunKeepsLimit(
      states: seq<State>, calls: seq<Call>, n: nat, key: Key, limit: int, window: int)
    requires IsRun(states, calls) && n <= |calls| && limit >= 1
    requires OneWindow(calls, n, key, window) && LimitedTo(calls, n, key, limit)
    ensures Limited(At(states[n].history, key), At(states[n].events, key), limit, window)
  {
    hide Next, IsLiveEnd, Limited;
    if n == 0 {
      NothingYet(states, calls, key, limit, window);
    } else {
      RunStep(states, calls, n - 1);
      RunKeepsQueue(states, calls, n - 1, key, window);
      RunKeepsLimit(states, calls, n - 1, key, limit, window);
      LimitStep(states[n - 1], calls[n - 1], key, limit, window);
    }
  }

  // ---------------------------------------------------------------- allowed exactly when the history has room

  /** Number of instants of h in the half-open interval (low, high]. */
  function InWindow(h: seq<real>, low: real, high: real): nat {
    if h == [] then 0
    else InWindow(h[..|h| - 1], low, high) + (if low < h[|h| - 1] <= high then 1 else 0)
  }

  lemma {:induction false} SuffixInWindow(h: seq<real>, p: nat, low: real, high: real)
    requires p <= |h|
    requires forall i :: 0 <= i < p ==> h[i] <= low
    requires forall i :: p <= i < |h| ==> low < h[i] <= high
    ensures InWindow(h, low, high) == |h| - p
  {
    if h == [] {
    } else {
      SuffixInWindow(h[..|h| - 1], if p < |h| then p else p - 1, low, high);
    }
  }

  /**
   The pruned queue decides as the whole history would, whatever limits came before: the call is allowed
   exactly if fewer than `limit` allowed calls lie in (now - window, now].
   */
  lemma AllowedExactlyWhenHistoryHasRoom(states: seq<State>, calls: seq<Call>, n: nat)
    requires IsRun(states, calls) && n < |calls| && OneWindow(calls, n, calls[n].key, calls[n].window)
    ensures
      var call := calls[n];
      && (Answer(states[n], call) == Result(true, 0)
          <==> InWindow(At(states[n].history, call.key), call.now - call.window as real, call.now) < call.limit)
      && (call.limit >= 1 ==> Answer(states[n], call).Result?)
  {
    RunKeepsQueue(states, calls, n, calls[n].key, calls[n].window);
    RunStep(states, calls, n);
    LiveIsInWindow(states[n], calls[n]);
  }

  lemma LiveIsInWindow(s: State, call: Call)
    requires s.clock <= call.now
    requires IsLiveEnd(At(s.history, call.key), At(s.events, call.key), s.clock, call.window)
    ensures |Live(s, call)| == InWindow(At(s.history, call.key), call.now - call.window as real, call.now)
  {
    var h := At(s.history, call.key);
    PruningKeepsQueue(h, At(s.events, call.key), s.clock, call.window, call.now);
    SuffixInWindow(h, |h| - |Live(s, call)|, call.now - call.window as real, call.now);
  }

  lemma {:induction false} FewInWindow(h: seq<real>, low: real, high: real, limit: nat, window: int)
    requires Nondecreasing(h) && limit >= 1 && Spaced(h, limit, window) && high - low <= window as real
    ensures InWindow(h, low, high) <= limit
    decreases |h|
  {
    if |h| > limit {
      var last := |h| - 1;
      if low < h[last] <= high {
        assert h[last] - h[last - limit] >= window as real;
        OnlyTheEnd(h, last - limit, low, high);
      } else {
        FewInWindow(h[..last], low, high, limit, window);
      }
    } else {
      AtMostLength(h, low, high);
    }
  }

  lemma {:induction false} AtMostLength(h: seq<real>, low: real, high: real)
    ensures InWindow(h, low, high) <= |h|
  {
    if h == [] {
    } else {
      AtMostLength(h[..|h| - 1], low, high);
    }
  }

  lemma {:induction false} OnlyTheEnd(h: seq<real>, p: nat, low: real, high: real)
    requires Nondecreasing(h) && p < |h| && h[p] <= low
    ensures InWindow(h, low, high) <= |h| - 1 - p
  {
    if p < |h| - 1 {
      OnlyTheEnd(h[..|h| - 1], p, low, high);
    } else {
      NoneInWindow(h, low, high);
    }
  }

  lemma {:induction false} NoneInWindow(h: seq<real>, low: real, high: real)
    requires forall i :: 0 <= i < |h| ==> h[i] <= low
    ensures InWindow(h, low, high) == 0
  {
    if h == [] {
    } else {
      NoneInWindow(h[..|h| - 1], low, high);
    }
  }

  /**
   No interval (low, high] of at most a window's length ever holds more than `limit` allowed calls of a key,
   where `limit` is the highest limit asked for.
   */
  lemma NoWindowHoldsMoreThanTheLimit(
      states: seq<State>, calls: seq<Call>, n: nat, key: Key, limit: int, window: int, low: real, high: real)
    requires IsRun(states, calls) && n <= |calls| && limit >= 1
    requires OneWindow(calls, n, key, window) && LimitedTo(calls, n, key, limit)
    requires high - low <= window as real
    ensures InWindow(At(states[n].history, key), low, high) <= limit
  {
    RunKeepsQueue(states, calls, n, key, window);
    RunKeepsLimit(states, calls, n, key, limit, window);
    FewInWindow(At(states[n].history, key), low, high, limit, window);
  }

  /** Stated call by call: between an allowed call and the limit-th allowed call after it lies a whole window. */
  lemma AllowedCallsAreSpaced(
      states: seq<State>, calls: seq<Call>, n: nat, key: Key, limit: int, window: int, i: nat)
    requires IsRun(states, calls) && n <= |calls| && limit >= 1
    requires OneWindow(calls, n, key, window) && LimitedTo(calls, n, key, limit)
    requires i + limit < |At(states[n].history, key)|
    ensures At(states[n].history, key)[i + limit] >= At(states[n].history, key)[i] + window as real
  {
    RunKeepsLimit(states, calls, n, key, limit, window);
    assert Spaced(At(states[n].history, key), limit, window);
  }

  // ---------------------------------------------------------------- after a denial

  /** The instant from which the key has room again: the limit-th last allowed call leaves the window. */
  function FreeFrom(h: seq<real>, limit: int, window: int): real
    requires 1 <= limit <= |h|
  {
    h[|h| - limit] + window as real
  }

  lemma DeniedMeansFull(s: State, call: Call)
    requires call.limit >= 1 && s.clock <= call.now && !Allows(s, call)
    requires IsLiveEnd(At(s.history, call.key), At(s.events, call.key), s.clock, call.window)
    ensures
      var h := At(s.history, call.key);
      && call.limit <= |Live(s, call)| <= |h|
      && FreeFrom(h, call.limit, call.window) > call.now
      && (|At(s.events, call.key)| <= call.limit ==> Live(s, call)[0] == h[|h| - call.limit])
  {
    PruningKeepsQueue(At(s.history, call.key), At(s.events, call.key), s.clock, call.window, call.now);
  }

  lemma RoomExactlyFrom(s: State, call: Call)
    requires call.limit >= 1 && s.clock <= call.now
    requires IsLiveEnd(At(s.history, call.key), At(s.events, call.key), s.clock, call.window)
    requires call.limit <= |At(s.history, call.key)|
    ensures Allows(s, call) <==> call.now >= FreeFrom(At(s.history, call.key), call.limit, call.window)
  {
    var h := At(s.history, call.key);
    PruningKeepsQueue(h, At(s.events, call.key), s.clock, call.window, call.now);
    hide Nondecreasing;
    var k := |h| - call.limit;
    if |Live(s, call)| < call.limit {
      assert h[k] <= call.now - call.window as real;
    } else {
      assert h[k] > call.now - call.window as real;
    }
  }

  lemma {:induction false} HistoryStands(states: seq<State>, calls: seq<Call>, i: nat, j: nat, key: Key)
    requires IsRun(states, calls) && i <= j <= |calls|
    requires forall m :: i <= m < j && calls[m].key == key ==> !Allows(states[m], calls[m])
    ensures At(states[j].history, key) == At(states[i].history, key)
  {
    if i == j {
    } else {
      HistoryStands(states, calls, i, j - 1, key);
      RunStep(states, calls, j - 1);
      assert calls[j - 1].key == key ==> !Allows(states[j - 1], calls[j - 1]);
    }
  }

  /**
   After a denial a later call on the key is allowed exactly from the instant the limit-th last allowed call
   leaves the window, however many denied calls and calls on other keys come between. If no call on the key
   had a higher limit, that is the oldest live one, and the reported `retry_after` is less than a second away
   from the wait.
   */
  lemma DenialNamesTheWait(states: seq<State>, calls: seq<Call>, i: nat, j: nat)
    requires IsRun(states, calls) && i < j < |calls| && calls[i].limit >= 1
    requires calls[j].key == calls[i].key && calls[j].limit == calls[i].limit && calls[j].window == calls[i].window
    requires OneWindow(calls, j, calls[i].key, calls[i].window)
    requires !Allows(states[i], calls[i])
    requires forall m :: i < m < j && calls[m].key == calls[i].key ==> !Allows(states[m], calls[m])
    ensures
      var h := At(states[i].history, calls[i].key);
      && calls[i].limit <= |h|
      && var free := FreeFrom(h, calls[i].limit, calls[i].window);
      && free > calls[i].now
      && (Allows(states[j], calls[j]) <==> calls[j].now >= free)
      && var wait := free - calls[i].now;
      && Answer(states[i], calls[i]).Result?
      && (LimitedTo(calls, i, calls[i].key, calls[i].limit)
          ==> -1.0 < Answer(states[i], calls[i]).retryAfter as real - wait < 1.0)
  {
    var key := calls[i].key;
    RunKeepsQueue(states, calls, i, key, calls[i].window);
    if LimitedTo(calls, i, key, calls[i].limit) {
      RunKeepsLimit(states, calls, i, key, calls[i].limit, calls[i].window);
    }
    RunStep(states, calls, i);
    DeniedMeansFull(states[i], calls[i]);
    HistoryStands(states, calls, i, j, key);
    RunKeepsQueue(states, calls, j, key, calls[i].window);
    RunStep(states, calls, j);
    RoomExactlyFrom(states[j], calls[j]);
  }

  /**
   `retry_after` is rounded down, so a client that waits exactly that long is let in only if the wait was at
   most a second or a whole number of seconds.
   */
  lemma RetryAfterSuffices(states: seq<State>, calls: seq<Call>, i: nat, j: nat)
    requires IsRun(states, calls) && i < j < |calls| && calls[i].limit >= 1
    requires calls[j].key == calls[i].key && calls[j].limit == calls[i].limit && calls[j].window == calls[i].window
    requires OneWindow(calls, j, calls[i].key, calls[i].window) && LimitedTo(calls, i, calls[i].key, calls[i].limit)
    requires !Allows(states[i], calls[i])
    requires forall m :: i < m < j && calls[m].key == calls[i].key ==> !Allows(states[m], calls[m])
    requires Answer(states[i], calls[i]).Result?
    requires calls[j].now == calls[i].now + Answer(states[i], calls[i]).retryAfter as real
    ensures var h := At(states[i].history, calls[i].key);
      && calls[i].limit <= |h|
      && var wait := FreeFrom(h, calls[i].limit, calls[i].window) - calls[i].now;
      && (Allows(states[j], calls[j]) <==> wait <= 1.0 || wait == wait.Floor as real)
  {
    DenialNamesTheWait(states, calls, i, j);
    RunKeepsQueue(states, calls, i, calls[i].key, calls[i].window);
    RunKeepsLimit(states, calls, i, calls[i].key, calls[i].limit, calls[i].window);
    RunStep(states, calls, i);
    DeniedMeansFull(states[i], calls[i]);
  }

  /** With one call a window of three seconds, a client that is told to wait one second is denied again. */
  lemma RetryCanComeTooEarly() returns (states: seq<State>, calls: seq<Call>)
    ensures IsRun(states, calls) && |calls| == 3
    ensures Answer(states[1], calls[1]) == Result(false, 1) && calls[2].now == calls[1].now + 1.0
    ensures !Allows(states[2], calls[2])
  {
    calls := [Call("k", 1, 3, 0.0), Call("k", 1, 3, 1.5), Call("k", 1, 3, 2.5)];
    var s1 := Next(EMPTY, calls[0]);
    assert At(s1.events, "k") == [0.0];
    assert (0.0 + 3.0 - 1.5).Floor == 1;
    var s2 := Next(s1, calls[1]);
    assert At(s2.events, "k") == [0.0];
    states := [EMPTY, s1, s2, Next(s2, calls[2])];
  }

  lemma {:induction false} NothingUnderNoLimit(states: seq<State>, calls: seq<Call>, n: nat, key: Key)
    requires IsRun(states, calls) && n <= |calls| && LimitedTo(calls, n, key, 0)
    ensures At(states[n].events, key) == []
  {
    if n == 0 {
    } else {
      NothingUnderNoLimit(states, calls, n - 1, key);
    }
  }

  /**
   A call whose limit is the highest asked for on its key so far reads the oldest instant from an empty queue
   exactly if that limit is not positive.
   */
  lemma CrashesExactlyWithoutPositiveLimit(states: seq<State>, calls: seq<Call>, n: nat)
    requires IsRun(states, calls) && n < |calls| && LimitedTo(calls, n, calls[n].key, calls[n].limit)
    ensures Answer(states[n], calls[n]).IndexError? <==> calls[n].limit <= 0
  {
    if calls[n].limit <= 0 {
      NothingUnderNoLimit(states, calls, n, calls[n].key);
    }
  }

  /** Keys do not influence each other. */
  lemma OtherKeysAreUntouched(s: State, call: Call, key: Key)
    requires key != call.key
    ensures At(Next(s, call).events, key) == At(s.events, key)
    ensures At(Next(s, call).history, key) == At(s.history, key)
  {
  }

  // ---------------------------------------------------------------- the mutable limiter

  class InMemoryLimiter {
    var events: map<Key, seq<real>>
    ghost var now: State
    ghost var states: seq<State>
    ghost var calls: seq<Call>

    ghost predicate Valid()
      reads this
    {
      IsRun(states, calls) && states[|calls|] == now && now.events == events
    }

    constructor ()
      ensures Valid() && calls == []
    {
      events, now := map[], EMPTY;
      states, calls := [EMPTY], [];
    }

    method CheckLimit(key: Key, limit: int, window: int, instant: real) returns (outcome: Outcome)
      requires Valid() && now.clock <= instant
      modifies this
      ensures Valid() && now == Next(old(now), Call(key, limit, window, instant))
      ensures calls == old(calls) + [Call(key, limit, window, instant)] && states == old(states) + [now]
      ensures outcome == Answer(old(now), Call(key, limit, window, instant))
    {
      ghost var call := Call(key, limit, window, instant);
      var queue := if key in events then events[key] else [];
      while queue != [] && queue[0] <= instant - window as real
        invariant Pruned(queue, instant - window as real) == Live(now, call)
        decreases |queue|
      {
        queue := queue[1..];
      }
      if |queue| >= limit {
        if queue == [] {
          outcome := IndexError;
        } else {
          var wait := (queue[0] + window as real - instant).Floor;
          outcome := Result(false, if wait < 1 then 1 else wait);
        }
      } else {
        queue := queue + [instant];
        outcome := Result(true, 0);
      }
      events := events[key := queue];
      Record(call);
    }

    ghost method Record(call: Call)
      requires IsRun(states, calls) && states[|calls|] == now && now.clock <= call.now
      requires Next(now, call).events == events
      modifies this`now, this`states, this`calls
      ensures Valid() && now == Next(old(now), call)
      ensures calls == old(calls) + [call] && states == old(states) + [now]
    {
      hide Next;
      now := Next(now, call);
      states, calls := states + [now], calls + [call];
    }
  }
}
