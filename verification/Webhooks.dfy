/**
 The webhook inbox: claiming under a lease, completing, failing with backoff, redriving a dead letter,
 and the two halves of `commit_webhook_effects`.

 `Next` is the specification of one service call on the whole table. `Inbox` is the mutable table; each
 of its methods appends the call it made to the run it carries, so every theorem about runs speaks about
 every inbox.
 */
module Webhooks {
  import opened Common

  type EventId = nat
  type Token = nat

  const LEASE: Time := 60 * SECOND

  datatype Status = Received | Quarantined | Processing | Processed | Failed | DeadLetter

  datatype Event = Event(
    status: Status,
    attempts: nat,
    leaseToken: Option<Token>,
    leaseExpires: Option<Time>,
    nextAttempt: Time,
    errorCode: Option<string>,
    processedAt: Option<Time>)

  /**
   The table, plus what the environment knows: the clock, the tokens drawn so far, the effect transactions
   that have passed their first test, and how many effects of an event were committed.
   */
  datatype State = State(
    events: map<EventId, Event>,
    applied: map<EventId, nat>,
    open: multiset<(EventId, Token)>,
    used: set<Token>,
    clock: Time)

  datatype Step =
    | Ingest(id: EventId, routed: bool, at: Time)
    | Claim(id: EventId, token: Token, at: Time)
    | Complete(id: EventId, token: Token, at: Time)
    | Fail(id: EventId, token: Token, code: string, at: Time)
    | Redrive(id: EventId, at: Time)
    | BeginCommit(id: EventId, token: Token, at: Time)
      /** `keep`: the caller commits its transaction even when the closing fence answers False. */
    | EndCommit(id: EventId, token: Token, keep: bool, at: Time)

  // ---------------------------------------------------------------- one call

  predicate Claimable(e: Event, now: Time) {
    && (e.status == Received || e.status == Failed
        || (e.status == Processing && e.leaseExpires.Some? && e.leaseExpires.value <= now))
    && e.nextAttempt <= now
  }

  /** The test of `complete`, `fail` and both ends of an effect: the row is leased under this very token. */
  predicate Holds(s: State, id: EventId, token: Token) {
    id in s.events && s.events[id].status == Processing && s.events[id].leaseToken == Some(token)
  }

  predicate Succeeds(s: State, step: Step) {
    match step
    case Ingest(id, _, _) => id !in s.events
    case Claim(id, _, at) => id in s.events && Claimable(s.events[id], at)
    case Complete(id, token, _) => Holds(s, id, token)
    case Fail(id, token, _, _) => Holds(s, id, token)
    case Redrive(id, _) => id in s.events && s.events[id].status == DeadLetter
    case BeginCommit(id, token, _) => Holds(s, id, token)
    case EndCommit(id, token, _, _) => Holds(s, id, token)
  }

  function Completed(e: Event, at: Time): Event {
    e.(status := Processed, processedAt := Some(at), leaseExpires := None)
  }

  function Failing(e: Event, code: string, at: Time): Event
    requires e.attempts >= 1
  {
    var e' := e.(errorCode := Some(code), leaseExpires := None);
    if e.attempts >= |BACKOFF_SECONDS| then
      e'.(status := DeadLetter)
    else
      e'.(status := Failed, nextAttempt := at + BACKOFF_SECONDS[e.attempts - 1] * SECOND)
  }

  /** The row after a call that succeeds. */
  function Row(s: State, step: Step): Event
    requires WellFormed(s) && Succeeds(s, step)
  {
    match step
    case Ingest(_, routed, at) =>
      Event(if routed then Received else Quarantined, 0, None, None, at, None, None)
    case Claim(id, token, at) =>
      s.events[id].(status := Processing, attempts := s.events[id].attempts + 1,
                    leaseToken := Some(token), leaseExpires := Some(at + LEASE))
    case Complete(id, _, at) => Completed(s.events[id], at)
    case Fail(id, _, code, at) => Failing(s.events[id], code, at)
    case Redrive(id, at) =>
      s.events[id].(status := Received, attempts := 0, errorCode := None, nextAttempt := at)
    case BeginCommit(id, _, _) => s.events[id]
    case EndCommit(id, _, _, at) => Completed(s.events[id], at)
  }

  /** What one call makes of the store: nothing but the clock moves when the call answers False or None. */
  function Next(s: State, step: Step): State
    requires WellFormed(s)
  {
    var ok := Succeeds(s, step);
    var visible := step.EndCommit? && (ok || step.keep);
    State(
      if ok then s.events[step.id := Row(s, step)] else s.events,
      if visible then s.applied[step.id := Count(s.applied, step.id) + 1] else s.applied,
      if step.BeginCommit? && ok then s.open + multiset{(step.id, step.token)}
      else if step.EndCommit? then s.open - multiset{(step.id, step.token)}
      else s.open,
      if step.Claim? && ok then s.used + {step.token} else s.used,
      step.at)
  }

  /** What the environment guarantees: clocks do not run backwards, drawn tokens are new, ends have a begin. */
  predicate Admissible(s: State, step: Step) {
    && s.clock <= step.at
    && (step.Claim? ==> step.token !in s.used)
    && (step.EndCommit? ==> (step.id, step.token) in s.open)
  }

  // ---------------------------------------------------------------- the invariant

  /** Status bounds on `attempts`: they keep the backoff index inside the first four slots. */
  predicate EventOk(e: Event, used: set<Token>) {
    && (e.status == Processing ==> e.attempts >= 1 && e.leaseToken.Some? && e.leaseExpires.Some?)
    && (e.status == Failed ==> 1 <= e.attempts <= 4)
    && (e.status == DeadLetter ==> e.attempts >= 5)
    && (e.leaseToken.Some? ==> e.leaseToken.value in used)
  }

  predicate WellFormed(s: State) {
    forall id | id in s.events :: EventOk(s.events[id], s.used)
  }

  const EMPTY := State(map[], map[], multiset{}, {}, 0)

  lemma NextKeepsInvariant(s: State, step: Step)
    requires WellFormed(s) && Admissible(s, step)
    ensures WellFormed(Next(s, step))
  {
    var s' := Next(s, step);
    forall id | id in s'.events
      ensures EventOk(s'.events[id], s'.used)
    {
      if id in s.events { assert EventOk(s.events[id], s.used); }
    }
  }

  // ---------------------------------------------------------------- runs

  /** A run of the inbox from the empty table: `states[i]` is the store before the call `steps[i]`. */
  ghost predicate IsRun(states: seq<State>, steps: seq<Step>) {
    && |states| == |steps| + 1
    && states[0] == EMPTY
    && (forall i :: 0 <= i < |steps| ==>
          && WellFormed(states[i])
          && Admissible(states[i], steps[i])
          && states[i + 1] == Next(states[i], steps[i]))
  }

  lemma {:induction false} RunKeepsInvariant(states: seq<State>, steps: seq<Step>, i: nat)
    requires IsRun(states, steps) && i < |states|
    ensures WellFormed(states[i])
  {
    hide Next;
    if i == 0 {
    } else {
      RunKeepsInvariant(states, steps, i - 1);
      NextKeepsInvariant(states[i - 1], steps[i - 1]);
    }
  }

  lemma Extend(states: seq<State>, steps: seq<Step>, step: Step, s: State)
      returns (states': seq<State>, steps': seq<Step>)
    requires IsRun(states, steps)
    requires var last := states[|steps|]; WellFormed(last) && Admissible(last, step) && s == Next(last, step)
    ensures states' == states + [s] && steps' == steps + [step] && IsRun(states', steps')
  {
    hide Next, Admissible, WellFormed;
    states', steps' := states + [s], steps + [step];
  }

  /** Status bounds in every reachable state; the backoff slot read by a fail is one of the first four. */
  lemma AttemptsMatchStatus(states: seq<State>, steps: seq<Step>, i: nat, id: EventId)
    requires IsRun(states, steps) && i < |states| && id in states[i].events
    ensures var e := states[i].events[id];
      && (e.status == Processing ==> e.attempts >= 1)
      && (e.status == Failed ==> 1 <= e.attempts <= 4)
      && (e.status == DeadLetter ==> e.attempts >= |BACKOFF_SECONDS|)
      && (i < |steps| && IsFail(states[i], steps[i], id) && states[i + 1].events[id].status == Failed
          ==> 0 <= e.attempts - 1 < |BACKOFF_SECONDS| - 1)
  {
    RunKeepsInvariant(states, steps, i);
    assert EventOk(states[i].events[id], states[i].used);
  }

  lemma MonotoneStep(s: State, step: Step)
    requires WellFormed(s) && Admissible(s, step)
    ensures s.clock <= Next(s, step).clock == step.at
    ensures s.used <= Next(s, step).used && s.events.Keys <= Next(s, step).events.Keys
  {
  }

  lemma {:induction false} ClockIsMonotone(states: seq<State>, steps: seq<Step>, i: nat, j: nat)
    requires IsRun(states, steps) && i <= j < |states|
    ensures states[i].clock <= states[j].clock
    ensures states[i].used <= states[j].used
    ensures states[i].events.Keys <= states[j].events.Keys
  {
    hide Next;
    if i == j {
    } else {
      ClockIsMonotone(states, steps, i, j - 1);
      MonotoneStep(states[j - 1], steps[j - 1]);
    }
  }

  // ---------------------------------------------------------------- mutual exclusion and fencing

  /** A call that ends the lease `token` holds on `id`. */
  predicate Finishes(s: State, step: Step, id: EventId, token: Token) {
    && (step.Complete? || step.Fail? || step.EndCommit?)
    && step.id == id && step.token == token && Succeeds(s, step)
  }

  lemma LeaseStep(s: State, step: Step, id: EventId, token: Token)
    requires WellFormed(s) && Admissible(s, step) && Holds(s, id, token)
    requires !Finishes(s, step, id, token) && step.at < s.events[id].leaseExpires.value
    ensures id in Next(s, step).events && Next(s, step).events[id] == s.events[id]
  {
  }

  lemma {:induction false} LeaseIsUndisturbed(
      states: seq<State>, steps: seq<Step>, i: nat, k: nat, id: EventId, token: Token, deadline: Time)
    requires IsRun(states, steps) && i <= k < |states|
    requires Holds(states[i], id, token) && states[i].events[id].leaseExpires == Some(deadline)
    requires forall m :: i <= m < k ==> !Finishes(states[m], steps[m], id, token) && steps[m].at < deadline
    ensures id in states[k].events && states[k].events[id] == states[i].events[id]
  {
    hide Next;
    if i == k {
    } else {
      LeaseIsUndisturbed(states, steps, i, k - 1, id, token, deadline);
      assert !Finishes(states[k - 1], steps[k - 1], id, token) && steps[k - 1].at < deadline;
      LeaseStep(states[k - 1], steps[k - 1], id, token);
    }
  }

  /** Between two successful claims of one event either the first lease ran out or its holder finished. */
  lemma NoSecondClaimUnderALiveLease(states: seq<State>, steps: seq<Step>, i: nat, j: nat)
    requires IsRun(states, steps) && i < j < |steps|
    requires steps[i].Claim? && Succeeds(states[i], steps[i])
    requires steps[j].Claim? && Succeeds(states[j], steps[j]) && steps[i].id == steps[j].id
    requires steps[j].at < steps[i].at + LEASE
    ensures exists k :: i < k < j && Finishes(states[k], steps[k], steps[i].id, steps[i].token)
  {
    if forall k :: i < k < j ==> !Finishes(states[k], steps[k], steps[i].id, steps[i].token) {
      assert states[i + 1] == Next(states[i], steps[i]);
      forall m | i + 1 <= m < j
        ensures steps[m].at < steps[i].at + LEASE
      {
        assert states[m + 1] == Next(states[m], steps[m]);
        ClockIsMonotone(states, steps, m + 1, j);
        assert Admissible(states[j], steps[j]);
      }
      LeaseIsUndisturbed(states, steps, i + 1, j, steps[i].id, steps[i].token, steps[i].at + LEASE);
      assert false;
    }
  }

  /** What a successful call leaves of the row, field by field. */
  lemma CallLeaves(s: State, step: Step)
    requires WellFormed(s) && Succeeds(s, step)
    ensures step.id in Next(s, step).events
    ensures forall id | id != step.id :: id in s.events <==> id in Next(s, step).events
    ensures forall id | id != step.id && id in s.events :: Next(s, step).events[id] == s.events[id]
    ensures
      var b := Next(s, step).events[step.id];
      match step
      case Ingest(id, routed, at) =>
        && id !in s.events && b.attempts == 0 && b.nextAttempt == at
        && (b.status == if routed then Received else Quarantined)
        && b.leaseToken == None && b.leaseExpires == None && b.errorCode == None && b.processedAt == None
      case Claim(id, token, at) =>
        && b.status == Processing && b.leaseToken == Some(token) && b.leaseExpires == Some(at + 60_000_000)
        && b.attempts == s.events[id].attempts + 1
        && b.nextAttempt == s.events[id].nextAttempt && b.errorCode == s.events[id].errorCode
      case Fail(id, _, code, at) =>
        var n := s.events[id].attempts;
        && b.errorCode == Some(code) && b.leaseExpires == None && b.attempts == n
        && (n == 1 ==> b.status == Failed && b.nextAttempt == at + 5_000_000)
        && (n == 2 ==> b.status == Failed && b.nextAttempt == at + 30_000_000)
        && (n == 3 ==> b.status == Failed && b.nextAttempt == at + 120_000_000)
        && (n == 4 ==> b.status == Failed && b.nextAttempt == at + 600_000_000)
        && (n >= 5 ==> b.status == DeadLetter && b.nextAttempt == s.events[id].nextAttempt)
        && n >= 1
      case Redrive(id, at) =>
        b.status == Received && b.attempts == 0 && b.errorCode == None && b.nextAttempt == at
      case BeginCommit(id, _, _) => b == s.events[id]
      case _ =>
        && step.id in s.events
        && b == s.events[step.id].(status := Processed, processedAt := Some(step.at), leaseExpires := None)
  {
    if step.Fail? { assert EventOk(s.events[step.id], s.used); }
  }

  /** When a claim succeeds, by the status of the row. */
  lemma ClaimByStatus(s: State, id: EventId, token: Token, at: Time)
    requires WellFormed(s) && id in s.events
    ensures
      var e := s.events[id];
      var ok := Succeeds(s, Claim(id, token, at));
      match e.status
      case Received => ok <==> at >= e.nextAttempt
      case Failed => ok <==> at >= e.nextAttempt
      case Processing => ok <==> at >= e.nextAttempt && e.leaseExpires.Some? && at >= e.leaseExpires.value
      case _ => !ok
  {
  }

  lemma HeldStep(s: State, step: Step, id: EventId, token: Token)
    requires WellFormed(s) && Admissible(s, step) && token in s.used && Holds(Next(s, step), id, token)
    ensures Holds(s, id, token) && Next(s, step).events[id] == s.events[id]
  {
  }

  /** As long as a token holds its event, the row is as the claim left it. */
  lemma {:induction false} HeldRowIs(
      states: seq<State>, steps: seq<Step>, i: nat, k: nat, id: EventId, token: Token)
    requires IsRun(states, steps) && i < k < |states| && Holds(states[k], id, token)
    requires steps[i] == Claim(id, token, steps[i].at) && Succeeds(states[i], steps[i])
    ensures id in states[i + 1].events && states[k].events[id] == states[i + 1].events[id]
  {
    hide Next;
    if k == i + 1 {
    } else {
      assert states[i + 1] == Next(states[i], steps[i]);
      DrawnToken(states[i], steps[i]);
      ClockIsMonotone(states, steps, i + 1, k - 1);
      HeldStep(states[k - 1], steps[k - 1], id, token);
      HeldRowIs(states, steps, i, k - 1, id, token);
    }
  }

  lemma DrawnToken(s: State, step: Step)
    requires WellFormed(s) && step.Claim? && Succeeds(s, step)
    ensures step.token in Next(s, step).used
  {
  }

  /** While the claim of step i holds its event, the next claim succeeds exactly from sixty seconds after it on. */
  lemma LeaseLastsSixtySeconds(states: seq<State>, steps: seq<Step>, i: nat, k: nat, token: Token)
    requires IsRun(states, steps) && i < k < |steps|
    requires steps[i].Claim? && Succeeds(states[i], steps[i]) && Holds(states[k], steps[i].id, steps[i].token)
    requires steps[k] == Claim(steps[i].id, token, steps[k].at)
    ensures Succeeds(states[k], steps[k]) <==> steps[k].at >= steps[i].at + 60_000_000
  {
    HeldRowIs(states, steps, i, k, steps[i].id, steps[i].token);
    CallLeaves(states[i], steps[i]);
    assert states[i + 1] == Next(states[i], steps[i]);
    ClaimByStatus(states[k], steps[i].id, token, steps[k].at);
  }

  lemma QuarantineStep(s: State, step: Step, id: EventId)
    requires WellFormed(s) && id in s.events && s.events[id].status == Quarantined
    ensures id in Next(s, step).events && Next(s, step).events[id] == s.events[id]
  {
  }

  /** A quarantined event is out of reach: no call changes it any more. */
  lemma {:induction false} QuarantineIsFinal(states: seq<State>, steps: seq<Step>, i: nat, k: nat, id: EventId)
    requires IsRun(states, steps) && i <= k < |states|
    requires id in states[i].events && states[i].events[id].status == Quarantined
    ensures id in states[k].events && states[k].events[id] == states[i].events[id]
  {
    hide Next;
    if i == k {
    } else {
      QuarantineIsFinal(states, steps, i, k - 1, id);
      QuarantineStep(states[k - 1], steps[k - 1], id);
    }
  }

  lemma LostStep(s: State, step: Step, id: EventId, token: Token)
    requires WellFormed(s) && Admissible(s, step)
    requires id in s.events && token in s.used && !Holds(s, id, token)
    ensures !Holds(Next(s, step), id, token)
  {
  }

  lemma {:induction false} LostTokenStaysLost(
      states: seq<State>, steps: seq<Step>, i: nat, k: nat, id: EventId, token: Token)
    requires IsRun(states, steps) && i <= k < |states|
    requires token in states[i].used && !Holds(states[i], id, token)
    requires id in states[i].events
    ensures token in states[k].used && !Holds(states[k], id, token)
  {
    hide Next;
    if i == k {
    } else {
      LostTokenStaysLost(states, steps, i, k - 1, id, token);
      ClockIsMonotone(states, steps, i, k - 1);
      MonotoneStep(states[k - 1], steps[k - 1]);
      LostStep(states[k - 1], steps[k - 1], id, token);
    }
  }

  /**
   Fencing by token: once an event was claimed again, or the lease was finished, the old token never again
   completes, fails or commits anything on that event, and the attempt does not change the table.
   */
  lemma StaleTokenIsFenced(states: seq<State>, steps: seq<Step>, i: nat, j: nat, k: nat)
    requires IsRun(states, steps) && i < j < k < |steps|
    requires steps[i].Claim? && Succeeds(states[i], steps[i])
    requires
      || (steps[j].Claim? && steps[j].id == steps[i].id && Succeeds(states[j], steps[j]))
      || Finishes(states[j], steps[j], steps[i].id, steps[i].token)
    requires (steps[k].Complete? || steps[k].Fail? || steps[k].EndCommit? || steps[k].BeginCommit?)
    requires steps[k].id == steps[i].id && steps[k].token == steps[i].token
    ensures !Succeeds(states[k], steps[k])
    ensures states[k + 1].events == states[k].events
  {
    var id, token := steps[i].id, steps[i].token;
    assert states[i + 1] == Next(states[i], steps[i]);
    ClockIsMonotone(states, steps, i + 1, j);
    assert Admissible(states[j], steps[j]);
    assert states[j + 1] == Next(states[j], steps[j]);
    LostTokenStaysLost(states, steps, j + 1, k, id, token);
    assert states[k + 1] == Next(states[k], steps[k]);
  }

  lemma ProcessedStep(s: State, step: Step, id: EventId)
    requires WellFormed(s) && id in s.events && s.events[id].status == Processed
    ensures id in Next(s, step).events && Next(s, step).events[id] == s.events[id]
  {
  }

  /** `processed` is absorbing: no later call touches any field of the row. */
  lemma {:induction false} ProcessedIsAbsorbing(states: seq<State>, steps: seq<Step>, i: nat, k: nat, id: EventId)
    requires IsRun(states, steps) && i <= k < |states|
    requires id in states[i].events && states[i].events[id].status == Processed
    ensures id in states[k].events && states[k].events[id] == states[i].events[id]
  {
    hide Next;
    if i == k {
    } else {
      ProcessedIsAbsorbing(states, steps, i, k - 1, id);
      ProcessedStep(states[k - 1], steps[k - 1], id);
    }
  }

  // ---------------------------------------------------------------- effects

  /** A transaction on `id` that is committed with a closing fence answering True, and with one answering False. */
  predicate Passes(s: State, step: Step, id: EventId) {
    step.EndCommit? && step.id == id && Succeeds(s, step)
  }

  predicate Leaks(s: State, step: Step, id: EventId) {
    step.EndCommit? && step.id == id && !Succeeds(s, step) && step.keep
  }

  /** How many effect transactions on `id` passed the closing fence among the first n calls. */
  ghost function Passed(states: seq<State>, steps: seq<Step>, n: nat, id: EventId): nat
    requires n <= |steps| && |states| == |steps| + 1
  {
    if n == 0 then 0
    else Passed(states, steps, n - 1, id) + (if Passes(states[n - 1], steps[n - 1], id) then 1 else 0)
  }

  /** How many were committed although it answered False. */
  ghost function Leaked(states: seq<State>, steps: seq<Step>, n: nat, id: EventId): nat
    requires n <= |steps| && |states| == |steps| + 1
  {
    if n == 0 then 0
    else Leaked(states, steps, n - 1, id) + (if Leaks(states[n - 1], steps[n - 1], id) then 1 else 0)
  }

  predicate IsProcessed(s: State, id: EventId) {
    id in s.events && s.events[id].status == Processed
  }

  lemma EffectStep(s: State, step: Step, id: EventId)
    requires WellFormed(s)
    ensures Count(Next(s, step).applied, id)
         == Count(s.applied, id) + (if Passes(s, step, id) then 1 else 0) + (if Leaks(s, step, id) then 1 else 0)
    ensures Passes(s, step, id) ==> !IsProcessed(s, id) && IsProcessed(Next(s, step), id)
    ensures IsProcessed(s, id) ==> IsProcessed(Next(s, step), id)
  {
  }

  /**
   The account of effects over every run: the committed ones are those that passed the closing fence, at most
   one of them, and those committed although it answered False.
   */
  lemma {:induction false} EffectsAreAccounted(states: seq<State>, steps: seq<Step>, i: nat, id: EventId)
    requires IsRun(states, steps) && i < |states|
    ensures Count(states[i].applied, id) == Passed(states, steps, i, id) + Leaked(states, steps, i, id)
    ensures Passed(states, steps, i, id) <= (if IsProcessed(states[i], id) then 1 else 0)
  {
    hide Next, Passes, Leaks, IsProcessed, Admissible;
    if i == 0 {
    } else {
      EffectsAreAccounted(states, steps, i - 1, id);
      EffectStep(states[i - 1], steps[i - 1], id);
    }
  }

  /**
   The effect runs before the last fence. It is committed at most once over a run exactly if no transaction is
   kept although the fence answered False, or a single one is and none passes the fence.
   */
  lemma EffectAtMostOnceExactlyIf(states: seq<State>, steps: seq<Step>, i: nat, id: EventId)
    requires IsRun(states, steps) && i < |states|
    ensures Count(states[i].applied, id) <= 1
      <==> Leaked(states, steps, i, id) == 0 || (Leaked(states, steps, i, id) == 1 && Passed(states, steps, i, id) == 0)
  {
    EffectsAreAccounted(states, steps, i, id);
  }

  lemma {:induction false} NothingLeaksWhenFalseRollsBack(states: seq<State>, steps: seq<Step>, i: nat, id: EventId)
    requires IsRun(states, steps) && i < |states|
    requires forall m :: 0 <= m < i && steps[m].EndCommit? && steps[m].id == id ==> !steps[m].keep
    ensures Leaked(states, steps, i, id) == 0
  {
    if i == 0 {
    } else {
      NothingLeaksWhenFalseRollsBack(states, steps, i - 1, id);
    }
  }

  /** So a caller that rolls back whenever it is told False commits the effect at most once, on a processed event. */
  lemma EffectAtMostOnce(states: seq<State>, steps: seq<Step>, i: nat, id: EventId)
    requires IsRun(states, steps) && i < |states|
    requires forall m :: 0 <= m < i && steps[m].EndCommit? && steps[m].id == id ==> !steps[m].keep
    ensures Count(states[i].applied, id) <= 1
    ensures Count(states[i].applied, id) == 1 ==> id in states[i].events && states[i].events[id].status == Processed
  {
    NothingLeaksWhenFalseRollsBack(states, steps, i, id);
    EffectsAreAccounted(states, steps, i, id);
  }

  /** A worker claims event 0. */
  lemma FirstClaim() returns (states: seq<State>, steps: seq<Step>)
    ensures IsRun(states, steps)
    ensures var s := states[|steps|];
      && Holds(s, 0, 1) && s.events[0].leaseExpires == Some(LEASE) && s.events[0].nextAttempt == 0
      && s.used == {1} && s.clock == 0 && s.applied == map[] && WellFormed(s)
  {
    var s1 := Next(EMPTY, Ingest(0, true, 0));
    assert s1.events[0] == Event(Received, 0, None, None, 0, None, None);
    var s2 := Next(s1, Claim(0, 1, 0));
    hide Next;
    states, steps := Extend([EMPTY], [], Ingest(0, true, 0), s1);
    states, steps := Extend(states, steps, Claim(0, 1, 0), s2);
  }

  /** It passes the first test, its lease runs out, and a second worker takes the event over. */
  lemma OvertakenWorker() returns (states: seq<State>, steps: seq<Step>)
    ensures IsRun(states, steps)
    ensures var s := states[|steps|];
      && WellFormed(s) && s.clock == LEASE && Count(s.applied, 0) == 0
      && (0, 1) in s.open && (0, 2) in s.open && Holds(s, 0, 2) && !Holds(s, 0, 1)
  {
    states, steps := FirstClaim();
    var s2 := states[|steps|];
    var s3 := Next(s2, BeginCommit(0, 1, 0));
    assert Holds(s3, 0, 1);
    var s4 := Next(s3, Claim(0, 2, LEASE));
    assert Holds(s4, 0, 2);
    var s5 := Next(s4, BeginCommit(0, 2, LEASE));
    hide Next;
    states, steps := Extend(states, steps, BeginCommit(0, 1, 0), s3);
    states, steps := Extend(states, steps, Claim(0, 2, LEASE), s4);
    states, steps := Extend(states, steps, BeginCommit(0, 2, LEASE), s5);
  }

  /**
   Both close their transaction, in either order, and the overtaken one's caller keeps it although told False:
   the effect is committed twice, and the second time may well be the rightful holder's.
   */
  lemma DoubleEffectRun(overtakenFirst: bool) returns (states: seq<State>, steps: seq<Step>)
    ensures IsRun(states, steps) && Count(states[|steps|].applied, 0) == 2
    ensures
      var kept, held := EndCommit(0, 1, true, LEASE), EndCommit(0, 2, false, LEASE);
      |steps| >= 2 && steps[|steps| - 2..] == if overtakenFirst then [kept, held] else [held, kept]
  {
    hide Next, Admissible, WellFormed, Holds, Count;
    states, steps := OvertakenWorker();
    var kept, held := EndCommit(0, 1, true, LEASE), EndCommit(0, 2, false, LEASE);
    var s5 := states[|steps|];
    if overtakenFirst {
      Closing(s5, 1);
      Closing(Next(s5, kept), 2);
      states, steps := ExtendTwice(states, steps, kept, held);
    } else {
      Closing(s5, 2);
      Closing(Next(s5, held), 1);
      states, steps := ExtendTwice(states, steps, held, kept);
    }
  }

  lemma ExtendTwice(states: seq<State>, steps: seq<Step>, a: Step, b: Step)
      returns (states': seq<State>, steps': seq<Step>)
    requires IsRun(states, steps) && WellFormed(states[|steps|]) && WellFormed(Next(states[|steps|], a))
    requires Admissible(states[|steps|], a) && Admissible(Next(states[|steps|], a), b)
    ensures IsRun(states', steps') && |steps'| == |steps| + 2 && steps'[|steps|..] == [a, b]
    ensures states'[|steps'|] == Next(Next(states[|steps|], a), b)
  {
    hide Next, Admissible, WellFormed;
    var s := Next(states[|steps|], a);
    states', steps' := Extend(states, steps, a, s);
    states', steps' := Extend(states', steps', b, Next(s, b));
  }

  /** Closing the transaction of worker 1, whose caller keeps it whatever it is told, or of worker 2. */
  lemma Closing(s: State, token: Token)
    requires WellFormed(s) && s.clock == LEASE && (0, token) in s.open && (token != 1 ==> Holds(s, 0, token))
    ensures
      var step := EndCommit(0, token, token == 1, LEASE);
      var s' := Next(s, step);
      && Admissible(s, step) && WellFormed(s') && s'.clock == LEASE
      && Count(s'.applied, 0) == Count(s.applied, 0) + 1
      && (forall t | t != token && (0, t) in s.open :: (0, t) in s'.open)
      && (!Holds(s, 0, token) ==> s'.events == s.events && forall t :: Holds(s', 0, t) == Holds(s, 0, t))
  {
    NextKeepsInvariant(s, EndCommit(0, token, token == 1, LEASE));
  }

  // ---------------------------------------------------------------- bounded retries

  predicate IsFail(s: State, step: Step, id: EventId) {
    step.Fail? && step.id == id && Succeeds(s, step)
  }

  predicate IsRedrive(s: State, step: Step, id: EventId) {
    step.Redrive? && step.id == id && Succeeds(s, step)
  }

  /** Number of fails of `id` that took effect among the calls `a`, ..., `b - 1`. */
  ghost function Fails(states: seq<State>, steps: seq<Step>, a: nat, b: nat, id: EventId): nat
    requires a <= b <= |steps| && |states| == |steps| + 1
  {
    if a == b then 0
    else Fails(states, steps, a, b - 1, id) + (if IsFail(states[b - 1], steps[b - 1], id) then 1 else 0)
  }

  /** How many fails the row can have seen since the last redrive. */
  predicate FailsFit(s: State, id: EventId, fails: nat) {
    if id !in s.events then fails == 0
    else
      var e := s.events[id];
      match e.status
      case Received => fails == 0
      case Quarantined => fails == 0
      case Processing => fails <= 4 && fails < e.attempts
      case Failed => fails <= e.attempts
      case Processed => fails <= 4
      case DeadLetter => fails <= 5
  }

  lemma FailsFitStep(s: State, step: Step, id: EventId, fails: nat)
    requires WellFormed(s) && FailsFit(s, id, fails) && !IsRedrive(s, step, id)
    ensures FailsFit(Next(s, step), id, fails + (if IsFail(s, step, id) then 1 else 0))
  {
    if id in s.events { assert EventOk(s.events[id], s.used); }
  }

  lemma FailsFitFromScratch(s: State, id: EventId)
    requires WellFormed(s)
    ensures FailsFit(s, id, 0)
  {
    if id in s.events { assert EventOk(s.events[id], s.used); }
  }

  lemma {:induction false} FailsFitAlways(states: seq<State>, steps: seq<Step>, a: nat, b: nat, id: EventId)
    requires IsRun(states, steps) && a <= b <= |steps|
    requires forall m :: a <= m < b ==> !IsRedrive(states[m], steps[m], id)
    ensures FailsFit(states[b], id, Fails(states, steps, a, b, id))
  {
    hide Next, FailsFit;
    if a == b {
      RunKeepsInvariant(states, steps, b);
      FailsFitFromScratch(states[b], id);
    } else {
      FailsFitAlways(states, steps, a, b - 1, id);
      assert !IsRedrive(states[b - 1], steps[b - 1], id);
      FailsFitStep(states[b - 1], steps[b - 1], id, Fails(states, steps, a, b - 1, id));
    }
  }

  /** Between two redrives at most five fails take effect, however often expired leases are reclaimed. */
  lemma FailsAreBounded(states: seq<State>, steps: seq<Step>, a: nat, b: nat, id: EventId)
    requires IsRun(states, steps) && a <= b <= |steps|
    requires forall m :: a <= m < b ==> !IsRedrive(states[m], steps[m], id)
    ensures Fails(states, steps, a, b, id) <= 5
  {
    FailsFitAlways(states, steps, a, b, id);
    RunKeepsInvariant(states, steps, b);
    if id in states[b].events { assert EventOk(states[b].events[id], states[b].used); }
  }

  predicate IsClaim(s: State, step: Step, id: EventId) {
    step.Claim? && step.id == id && Succeeds(s, step)
  }

  /** Number of claims of `id` that succeeded among the calls `a`, ..., `b - 1`. */
  ghost function Claims(states: seq<State>, steps: seq<Step>, a: nat, b: nat, id: EventId): nat
    requires a <= b <= |steps| && |states| == |steps| + 1
  {
    if a == b then 0
    else Claims(states, steps, a, b - 1, id) + (if IsClaim(states[b - 1], steps[b - 1], id) then 1 else 0)
  }

  lemma ClaimStep(s: State, step: Step, id: EventId)
    requires WellFormed(s) && id in s.events && !IsRedrive(s, step, id)
    ensures id in Next(s, step).events
    ensures Next(s, step).events[id].attempts == s.events[id].attempts + (if IsClaim(s, step, id) then 1 else 0)
  {
  }

  /** What a redrive leaves: a received row with no attempts and no error, due at once. */
  lemma RedriveLeaves(s: State, step: Step)
    requires WellFormed(s) && step.Redrive? && Succeeds(s, step)
    ensures step.id in s.events && step.id in Next(s, step).events
    ensures
      var a, b := s.events[step.id], Next(s, step).events[step.id];
      && a.status == DeadLetter && b.status == Received && b.attempts == 0 && b.errorCode == None
      && b.nextAttempt == step.at && Claimable(b, step.at)
  {
  }

  lemma {:induction false} AttemptsSinceRedrive(states: seq<State>, steps: seq<Step>, i: nat, k: nat, id: EventId)
    requires IsRun(states, steps) && i < k <= |steps| && IsRedrive(states[i], steps[i], id)
    requires forall m :: i < m < k ==> !IsRedrive(states[m], steps[m], id)
    ensures id in states[k].events && states[k].events[id].attempts == Claims(states, steps, i + 1, k, id)
  {
    hide Next, IsClaim;
    if k == i + 1 {
      RedriveLeaves(states[i], steps[i]);
    } else {
      AttemptsSinceRedrive(states, steps, i, k - 1, id);
      ClaimStep(states[k - 1], steps[k - 1], id);
    }
  }

  /** A redriven event is a dead letter again only after five further claims. */
  lemma RedriveBuysFiveClaims(states: seq<State>, steps: seq<Step>, i: nat, k: nat, id: EventId)
    requires IsRun(states, steps) && i < k <= |steps| && IsRedrive(states[i], steps[i], id)
    requires forall m :: i < m < k ==> !IsRedrive(states[m], steps[m], id)
    ensures id in states[k].events
    ensures states[k].events[id].status == DeadLetter ==> Claims(states, steps, i + 1, k, id) >= 5
  {
    hide Next;
    AttemptsSinceRedrive(states, steps, i, k, id);
    RunKeepsInvariant(states, steps, k);
    assert EventOk(states[k].events[id], states[k].used);
  }

  lemma BackoffStep(s: State, step: Step, id: EventId)
    requires WellFormed(s) && Admissible(s, step) && id in s.events && s.events[id].status == Failed
    ensures step.at >= s.events[id].nextAttempt
      || (id in Next(s, step).events && Next(s, step).events[id] == s.events[id])
  {
  }

  lemma {:induction false} BackoffIsKept(
      states: seq<State>, steps: seq<Step>, i: nat, k: nat, id: EventId, row: Event)
    requires IsRun(states, steps) && i <= k < |states|
    requires row.status == Failed && id in states[i].events && states[i].events[id] == row
    ensures states[k].clock >= row.nextAttempt || (id in states[k].events && states[k].events[id] == row)
  {
    hide Next;
    if i == k {
    } else {
      BackoffIsKept(states, steps, i, k - 1, id, row);
      MonotoneStep(states[k - 1], steps[k - 1]);
      if id in states[k - 1].events && states[k - 1].events[id] == row {
        BackoffStep(states[k - 1], steps[k - 1], id);
      }
    }
  }

  /** After a fail at attempt k < 5 no claim of the event succeeds before the k-th backoff has passed. */
  lemma NoClaimBeforeBackoff(states: seq<State>, steps: seq<Step>, i: nat, j: nat)
    requires IsRun(states, steps) && i < j < |steps|
    requires steps[i].Fail? && Succeeds(states[i], steps[i]) && states[i].events[steps[i].id].attempts < 5
    requires steps[j].Claim? && steps[j].id == steps[i].id && Succeeds(states[j], steps[j])
    ensures var k := states[i].events[steps[i].id].attempts;
      1 <= k && steps[j].at >= steps[i].at + BACKOFF_SECONDS[k - 1] * SECOND
  {
    RunKeepsInvariant(states, steps, i);
    assert EventOk(states[i].events[steps[i].id], states[i].used);
    assert states[i + 1] == Next(states[i], steps[i]);
    BackoffIsKept(states, steps, i + 1, j, steps[i].id, states[i + 1].events[steps[i].id]);
    assert Admissible(states[j], steps[j]);
  }

  // ---------------------------------------------------------------- the mutable table

  class Inbox {
    var events: map<EventId, Event>
    var applied: map<EventId, nat>
    ghost var now: State
    ghost var states: seq<State>
    ghost var steps: seq<Step>

    ghost predicate Valid()
      reads this
    {
      && now.events == events && now.applied == applied
      && WellFormed(now)
      && IsRun(states, steps)
      && states[|steps|] == now
    }

    constructor ()
      ensures Valid() && steps == []
    {
      events, applied := map[], map[];
      now := EMPTY;
      states, steps := [EMPTY], [];
    }

    ghost method Record(step: Step)
      requires IsRun(states, steps) && states[|steps|] == now && WellFormed(now) && Admissible(now, step)
      requires Next(now, step).events == events && Next(now, step).applied == applied
      modifies this`now, this`states, this`steps
      ensures Valid() && now == Next(old(now), step)
      ensures steps == old(steps) + [step] && states == old(states) + [now]
    {
      RunKeepsInvariant(states, steps, |steps|);
      NextKeepsInvariant(now, step);
      now := Next(now, step);
      states, steps := Extend(states, steps, step, now);
    }

    method Claim(id: EventId, token: Token, at: Time) returns (lease: Option<(Event, Token)>)
      requires Valid() && Admissible(now, Step.Claim(id, token, at))
      modifies this
      ensures Valid() && now == Next(old(now), Step.Claim(id, token, at))
      ensures steps == old(steps) + [Step.Claim(id, token, at)]
      ensures lease == if Succeeds(old(now), Step.Claim(id, token, at)) then Some((events[id], token)) else None
    {
      lease := None;
      if id in events && Claimable(events[id], at) {
        var e := events[id];
        e := e.(status := Processing, attempts := e.attempts + 1);
        e := e.(leaseToken := Some(token), leaseExpires := Some(at + LEASE));
        events := events[id := e];
        lease := Some((e, token));
      }
      Record(Step.Claim(id, token, at));
    }

    method Complete(id: EventId, token: Token, at: Time) returns (ok: bool)
      requires Valid() && Admissible(now, Step.Complete(id, token, at))
      modifies this
      ensures Valid() && now == Next(old(now), Step.Complete(id, token, at))
      ensures steps == old(steps) + [Step.Complete(id, token, at)]
      ensures ok == Holds(old(now), id, token)
    {
      ok := MarkProcessed(id, token, at);
      Record(Step.Complete(id, token, at));
    }

    method MarkProcessed(id: EventId, token: Token, at: Time) returns (ok: bool)
      requires now.events == events
      modifies this`events
      ensures ok == Holds(now, id, token)
      ensures events == if ok then old(events)[id := Completed(old(events)[id], at)] else old(events)
    {
      ok := id in events && events[id].status == Processing && events[id].leaseToken == Some(token);
      if ok {
        events := events[id := events[id].(status := Processed, processedAt := Some(at), leaseExpires := None)];
      }
    }

    method Fail(id: EventId, token: Token, code: string, at: Time) returns (ok: bool)
      requires Valid() && Admissible(now, Step.Fail(id, token, code, at))
      modifies this
      ensures Valid() && now == Next(old(now), Step.Fail(id, token, code, at))
      ensures steps == old(steps) + [Step.Fail(id, token, code, at)]
      ensures ok == Holds(old(now), id, token)
    {
      ok := id in events && events[id].status == Processing && events[id].leaseToken == Some(token);
      if ok {
        var e := events[id].(errorCode := Some(code), leaseExpires := None);
        assert EventOk(events[id], now.used);
        if e.attempts >= |BACKOFF_SECONDS| {
          e := e.(status := DeadLetter);
        } else {
          e := e.(status := Failed);
          e := e.(nextAttempt := at + BACKOFF_SECONDS[e.attempts - 1] * SECOND);
        }
        events := events[id := e];
      }
      Record(Step.Fail(id, token, code, at));
    }

    method Redrive(id: EventId, at: Time) returns (ok: bool)
      requires Valid() && Admissible(now, Step.Redrive(id, at))
      modifies this
      ensures Valid() && now == Next(old(now), Step.Redrive(id, at))
      ensures steps == old(steps) + [Step.Redrive(id, at)]
      ensures ok == Succeeds(old(now), Step.Redrive(id, at))
    {
      ok := id in events && events[id].status == DeadLetter;
      if ok {
        var e := events[id].(status := Received, attempts := 0);
        events := events[id := e.(errorCode := None, nextAttempt := at)];
      }
      Record(Step.Redrive(id, at));
    }

    method Ingest(id: EventId, routed: bool, at: Time) returns (created: bool)
      requires Valid() && Admissible(now, Step.Ingest(id, routed, at))
      modifies this
      ensures Valid() && now == Next(old(now), Step.Ingest(id, routed, at))
      ensures steps == old(steps) + [Step.Ingest(id, routed, at)]
      ensures created == (id !in old(events))
    {
      created := id !in events;
      if created {
        events := events[id := Event(if routed then Received else Quarantined, 0, None, None, at, None, None)];
      }
      Record(Step.Ingest(id, routed, at));
    }

    /** The first half of `commit_webhook_effects`: the unlocked test, after which the effect runs. */
    method BeginCommit(id: EventId, token: Token, at: Time) returns (ok: bool)
      requires Valid() && Admissible(now, Step.BeginCommit(id, token, at))
      modifies this
      ensures Valid() && now == Next(old(now), Step.BeginCommit(id, token, at))
      ensures steps == old(steps) + [Step.BeginCommit(id, token, at)]
      ensures ok == Holds(old(now), id, token)
    {
      ok := id in events && events[id].status == Processing && events[id].leaseToken == Some(token);
      Record(Step.BeginCommit(id, token, at));
    }

    /** The second half: complete under the lock; the effect becomes visible if the transaction commits. */
    method EndCommit(id: EventId, token: Token, keep: bool, at: Time) returns (ok: bool)
      requires Valid() && Admissible(now, Step.EndCommit(id, token, keep, at))
      modifies this
      ensures Valid() && now == Next(old(now), Step.EndCommit(id, token, keep, at))
      ensures steps == old(steps) + [Step.EndCommit(id, token, keep, at)]
      ensures ok == Holds(old(now), id, token)
    {
      ok := MarkProcessed(id, token, at);
      if ok || keep {
        applied := applied[id := Count(applied, id) + 1];
      }
      Record(Step.EndCommit(id, token, keep, at));
    }
  }
}
