/**
 The execution ledger of an automation: claiming an execution under a lease, completing it under the lease's
 token, putting it off after a failure, blocking it on a policy error, and the administrator's redrive.
 */
module Executions {
  import opened Common

  type ExecutionId = nat
  type Token = nat

  datatype Status = Received | Processing | Success | Partial | Failed | DeadLetter | SkippedDepthLimit | Blocked

  datatype Execution = Execution(
    status: Status,
    attempts: nat,
    token: Option<Token>,
    leaseExpires: Option<Time>,
    nextAttempt: Time,
    started: Option<Time>,
    finished: Option<Time>,
    result: Entry)

  /**
   The table, and what the run has seen: the tokens drawn, the tokens a completion was accepted for, and per
   execution the successful claims and the failures that were put off while it was being processed.
   */
  datatype State = State(
    rows: map<ExecutionId, Execution>,
    used: set<Token>,
    completed: set<Token>,
    claims: map<ExecutionId, nat>,
    retries: map<ExecutionId, nat>,
    clock: Time)

  datatype Step =
    | Create(id: ExecutionId, status: Status, at: Time)
    | Claim(id: ExecutionId, token: Token, lease: Time, at: Time)
    | Complete(id: ExecutionId, token: Token, status: Status, result: Entry, at: Time)
    | Retry(id: ExecutionId, result: Entry, unknown: bool, at: Time)
    | Block(id: ExecutionId, reason: Entry, at: Time)
      /** `unknownAction`: one of its actions ended in `unknown`. */
    | Redrive(id: ExecutionId, unknownAction: bool, at: Time)

  predicate Claimable(e: Execution, now: Time) {
    && !(e.status == Processing && e.leaseExpires.Some? && e.leaseExpires.value > now)
    && e.status != Success && e.status != Blocked && e.status != DeadLetter
    && e.nextAttempt <= now
  }

  /** The call finds its row in the state it asks for. */
  predicate Succeeds(s: State, step: Step) {
    match step
    case Create(id, _, _) => id !in s.rows
    case Claim(id, _, _, at) => id in s.rows && Claimable(s.rows[id], at)
    case Complete(id, token, _, _, _) => id in s.rows && s.rows[id].token == Some(token)
    case Retry(id, _, _, _) => id in s.rows
    case Block(id, _, _) => id in s.rows
    case Redrive(id, unknownAction, _) =>
      id in s.rows && (s.rows[id].status == Failed || s.rows[id].status == DeadLetter) && !unknownAction
  }

  function Delay(attempts: nat): Time {
    var last := |BACKOFF_SECONDS| - 1;
    var index := if attempts == 0 then 0 else if attempts - 1 > last then last else attempts - 1;
    BACKOFF_SECONDS[index] * SECOND
  }

  function PutOff(e: Execution, result: Entry, unknown: bool, at: Time): Execution {
    if unknown then
      e.(status := Partial, result := result["awaiting_reconciliation" := Truth(true)])
    else
      e.(status := if e.attempts < |BACKOFF_SECONDS| then Failed else DeadLetter,
         result := result, nextAttempt := at + Delay(e.attempts))
  }

  function Row(s: State, step: Step): Execution
    requires Succeeds(s, step)
  {
    match step
    case Create(_, status, at) => Execution(status, 0, None, None, at, None, None, map[])
    case Claim(id, token, lease, at) =>
      var e := s.rows[id];
      e.(status := Processing, attempts := e.attempts + 1, token := Some(token), leaseExpires := Some(at + lease),
         started := if e.started.Some? then e.started else Some(at))
    case Complete(id, _, status, result, at) =>
      s.rows[id].(status := status, result := result, leaseExpires := None, finished := Some(at))
    case Retry(id, result, unknown, at) => PutOff(s.rows[id], result, unknown, at)
    case Block(id, reason, _) =>
      s.rows[id].(status := Blocked, result := s.rows[id].result + map["blocked" := Truth(true)] + reason)
    case Redrive(id, _, at) =>
      s.rows[id].(status := Received, nextAttempt := at, token := None, leaseExpires := None)
  }

  /** A failure put off to a later attempt, not the one that gives up. */
  predicate PutsOff(s: State, step: Step) {
    step.Retry? && step.id in s.rows && !step.unknown && Succeeds(s, step) && Row(s, step).status == Failed
  }

  function Next(s: State, step: Step): State {
    var ok := Succeeds(s, step);
    State(
      if ok then s.rows[step.id := Row(s, step)] else s.rows,
      if step.Claim? then s.used + {step.token} else s.used,
      if step.Complete? && ok then s.completed + {step.token} else s.completed,
      if step.Claim? && ok then s.claims[step.id := Count(s.claims, step.id) + 1] else s.claims,
      if PutsOff(s, step) then s.retries[step.id := Count(s.retries, step.id) + 1] else s.retries,
      step.at)
  }

  predicate Admissible(s: State, step: Step) {
    && s.clock <= step.at
    && (step.Claim? ==> step.token !in s.used)
    && (step.Create? ==> step.status == Received || step.status == SkippedDepthLimit)
  }

  const EMPTY := State(map[], {}, {}, map[], map[], 0)

  ghost predicate IsRun(states: seq<State>, steps: seq<Step>) {
    && |states| == |steps| + 1
    && states[0] == EMPTY
    && (forall i :: 0 <= i < |steps| ==> Admissible(states[i], steps[i]) && states[i + 1] == Next(states[i], steps[i]))
  }

  lemma RunStep(states: seq<State>, steps: seq<Step>, i: nat)
    requires IsRun(states, steps) && i < |steps|
    ensures |states| == |steps| + 1 && Admissible(states[i], steps[i]) && states[i + 1] == Next(states[i], steps[i])
  {
  }

  // ---------------------------------------------------------------- attempts count claims

  predicate RowOk(s: State, id: ExecutionId) {
    if id !in s.rows then Count(s.claims, id) == 0
    else
      var e := s.rows[id];
      && e.attempts == Count(s.claims, id)
      && (e.status == Processing && e.leaseExpires.Some? ==> e.attempts >= 1)
      && (e.token.Some? ==> e.attempts >= 1 && e.token.value in s.used)
  }

  lemma NextKeepsRowOk(s: State, step: Step, id: ExecutionId)
    requires RowOk(s, id) && Admissible(s, step)
    ensures RowOk(Next(s, step), id)
  {
  }

  lemma {:induction false} RunKeepsRowOk(states: seq<State>, steps: seq<Step>, i: nat, id: ExecutionId)
    requires IsRun(states, steps) && i < |states|
    ensures RowOk(states[i], id)
  {
    hide Next, Admissible;
    if i == 0 {
    } else {
      RunKeepsRowOk(states, steps, i - 1, id);
      NextKeepsRowOk(states[i - 1], steps[i - 1], id);
    }
  }

  /** `attempts` is the number of claims that succeeded, redrives or not. */
  lemma AttemptsCountClaims(states: seq<State>, steps: seq<Step>, i: nat, id: ExecutionId)
    requires IsRun(states, steps) && i < |states| && id in states[i].rows
    ensures states[i].rows[id].attempts == Count(states[i].claims, id)
  {
    RunKeepsRowOk(states, steps, i, id);
  }

  // ---------------------------------------------------------------- what a call does to its row

  /** When a claim succeeds, by the status of the row. */
  lemma ClaimByStatus(s: State, id: ExecutionId, token: Token, lease: Time, at: Time)
    requires id in s.rows
    ensures
      var e := s.rows[id];
      var ok := Succeeds(s, Claim(id, token, lease, at));
      match e.status
      case Success => !ok
      case Blocked => !ok
      case DeadLetter => !ok
      case Processing =>
        ok <==> at >= e.nextAttempt && (e.leaseExpires.Some? ==> at >= e.leaseExpires.value)
      case _ => ok <==> at >= e.nextAttempt
  {
  }

  /** A redrive is refused exactly unless the execution failed and none of its actions is unknown. */
  lemma RedriveByStatus(s: State, id: ExecutionId, unknownAction: bool, at: Time)
    requires id in s.rows
    ensures
      var ok := Succeeds(s, Redrive(id, unknownAction, at));
      match s.rows[id].status
      case Failed => ok <==> !unknownAction
      case DeadLetter => ok <==> !unknownAction
      case _ => !ok
  {
  }

  /** What a successful call leaves of the row, field by field, and that it leaves all others alone. */
  lemma CallLeaves(s: State, step: Step)
    requires Succeeds(s, step)
    ensures step.id in Next(s, step).rows && (!step.Create? ==> step.id in s.rows)
    ensures Next(s, step).rows == s.rows[step.id := Next(s, step).rows[step.id]]
    ensures
      var b := Next(s, step).rows[step.id];
      match step
      case Create(_, status, at) =>
        && b.status == status && b.attempts == 0 && b.token == None && b.leaseExpires == None
        && b.nextAttempt == at && b.started == None && b.finished == None && b.result == map[]
      case Claim(id, token, lease, at) =>
        var a := s.rows[id];
        && b.status == Processing && b.attempts == a.attempts + 1 && b.token == Some(token)
        && b.leaseExpires == Some(at + lease) && b.nextAttempt == a.nextAttempt && b.result == a.result
        && (a.started == None ==> b.started == Some(at)) && (a.started != None ==> b.started == a.started)
      case Complete(id, token, status, result, at) =>
        var a := s.rows[id];
        && a.token == Some(token)
        && b == Execution(status, a.attempts, a.token, None, a.nextAttempt, a.started, Some(at), result)
      case Retry(id, result, unknown, at) =>
        var a := s.rows[id];
        && b.attempts == a.attempts && b.token == a.token && b.leaseExpires == a.leaseExpires
        && (unknown ==>
              && b.status == Partial && b.nextAttempt == a.nextAttempt
              && "awaiting_reconciliation" in b.result && b.result["awaiting_reconciliation"] == Truth(true)
              && (forall key | key in result && key != "awaiting_reconciliation" ::
                    key in b.result && b.result[key] == result[key]))
        && (!unknown ==>
              && b.result == result
              && (b.status == if a.attempts <= 4 then Failed else DeadLetter)
              && (a.attempts <= 1 ==> b.nextAttempt == at + 5_000_000)
              && (a.attempts == 2 ==> b.nextAttempt == at + 30_000_000)
              && (a.attempts == 3 ==> b.nextAttempt == at + 120_000_000)
              && (a.attempts == 4 ==> b.nextAttempt == at + 600_000_000)
              && (a.attempts >= 5 ==> b.nextAttempt == at + 1_800_000_000))
      case Block(id, reason, _) =>
        var a := s.rows[id];
        && b.status == Blocked && b == a.(status := Blocked, result := b.result)
        && (forall key | key in reason :: key in b.result && b.result[key] == reason[key])
        && ("blocked" !in reason ==> "blocked" in b.result && b.result["blocked"] == Truth(true))
        && (forall key | key in a.result && key !in reason && key != "blocked" ::
              key in b.result && b.result[key] == a.result[key])
      case Redrive(id, _, at) =>
        && b.status == Received && b.token == None && b.leaseExpires == None && b.nextAttempt == at
        && b.attempts == s.rows[id].attempts && b.result == s.rows[id].result
  {
    hide Delay;
    if step.Retry? && !step.unknown { DelayIs(s.rows[step.id].attempts); }
  }

  lemma DelayIs(attempts: nat)
    ensures Delay(attempts) == SECOND * (
      if attempts <= 1 then 5 else if attempts == 2 then 30 else if attempts == 3 then 120
      else if attempts == 4 then 600 else 1800)
  {
  }

  // ---------------------------------------------------------------- mutual exclusion and fencing

  /** A call that takes the execution out of the hands of the holder of `token`. */
  predicate Releases(s: State, step: Step, id: ExecutionId, token: Token) {
    step.id == id && (step.Retry? || step.Block? || (step.Complete? && step.token == token))
  }

  lemma LeaseStep(s: State, step: Step, id: ExecutionId, row: Execution)
    requires id in s.rows && s.rows[id] == row && row.status == Processing && row.leaseExpires.Some? && row.token.Some?
    requires step.at < row.leaseExpires.value && !Releases(s, step, id, row.token.value)
    ensures id in Next(s, step).rows && Next(s, step).rows[id] == row
  {
  }

  lemma {:induction false} LeaseIsKept(
      states: seq<State>, steps: seq<Step>, i: nat, k: nat, id: ExecutionId, row: Execution)
    requires IsRun(states, steps) && i <= k < |states|
    requires id in states[i].rows && states[i].rows[id] == row
    requires row.status == Processing && row.leaseExpires.Some? && row.token.Some?
    requires forall m :: i <= m < k ==>
      steps[m].at < row.leaseExpires.value && !Releases(states[m], steps[m], id, row.token.value)
    ensures id in states[k].rows && states[k].rows[id] == row
  {
    hide Next, Admissible;
    if i == k {
    } else {
      LeaseIsKept(states, steps, i, k - 1, id, row);
      LeaseStep(states[k - 1], steps[k - 1], id, row);
    }
  }

  lemma {:induction false} ClockIsMonotone(states: seq<State>, steps: seq<Step>, i: nat, j: nat)
    requires IsRun(states, steps) && i <= j < |states|
    ensures states[i].clock <= states[j].clock
  {
    if i == j {
    } else {
      ClockIsMonotone(states, steps, i, j - 1);
    }
  }

  /** A second claim before the first lease ends comes only after the holder completed, put off or blocked. */
  lemma NoSecondClaimUnderALiveLease(states: seq<State>, steps: seq<Step>, i: nat, j: nat)
    requires IsRun(states, steps) && i < j < |steps|
    requires steps[i].Claim? && Succeeds(states[i], steps[i])
    requires steps[j].Claim? && Succeeds(states[j], steps[j]) && steps[i].id == steps[j].id
    requires steps[j].at < steps[i].at + steps[i].lease
    ensures exists m :: i < m < j && Releases(states[m], steps[m], steps[i].id, steps[i].token)
  {
    if forall m :: i < m < j ==> !Releases(states[m], steps[m], steps[i].id, steps[i].token) {
      RunStep(states, steps, i);
      forall m | i + 1 <= m < j
        ensures steps[m].at < steps[i].at + steps[i].lease
      {
        RunStep(states, steps, m);
        ClockIsMonotone(states, steps, m + 1, j);
        RunStep(states, steps, j);
      }
      LeaseIsKept(states, steps, i + 1, j, steps[i].id, states[i + 1].rows[steps[i].id]);
      assert false;
    }
  }

  predicate Lost(s: State, id: ExecutionId, token: Token) {
    token in s.used && id in s.rows && s.rows[id].token != Some(token)
  }

  lemma LostStep(s: State, step: Step, id: ExecutionId, token: Token)
    requires Admissible(s, step) && Lost(s, id, token)
    ensures Lost(Next(s, step), id, token)
  {
  }

  lemma {:induction false} LostStaysLost(
      states: seq<State>, steps: seq<Step>, i: nat, k: nat, id: ExecutionId, token: Token)
    requires IsRun(states, steps) && i <= k < |states| && Lost(states[i], id, token)
    ensures Lost(states[k], id, token)
  {
    hide Next, Lost;
    if i == k {
    } else {
      LostStaysLost(states, steps, i, k - 1, id, token);
      LostStep(states[k - 1], steps[k - 1], id, token);
    }
  }

  /** Once the execution was claimed again or redriven, the earlier token completes nothing any more. */
  lemma SupersededTokenNeverCompletes(states: seq<State>, steps: seq<Step>, i: nat, j: nat, k: nat)
    requires IsRun(states, steps) && i < j < k < |steps|
    requires steps[i].Claim? && Succeeds(states[i], steps[i])
    requires (steps[j].Claim? || steps[j].Redrive?) && steps[j].id == steps[i].id && Succeeds(states[j], steps[j])
    requires steps[k].Complete? && steps[k].id == steps[i].id && steps[k].token == steps[i].token
    ensures !Succeeds(states[k], steps[k]) && states[k + 1].rows == states[k].rows
  {
    RunStep(states, steps, i);
    RunStep(states, steps, j);
    RunStep(states, steps, k);
    UsedGrows(states, steps, i + 1, j);
    LostStaysLost(states, steps, j + 1, k, steps[i].id, steps[i].token);
  }

  lemma {:induction false} UsedGrows(states: seq<State>, steps: seq<Step>, i: nat, j: nat)
    requires IsRun(states, steps) && i <= j < |states|
    ensures states[i].used <= states[j].used
  {
    if i == j {
    } else {
      UsedGrows(states, steps, i, j - 1);
    }
  }

  // ---------------------------------------------------------------- finished executions

  predicate Settled(e: Execution) {
    e.status == Success || e.status == Blocked
  }

  lemma ClosedStep(s: State, step: Step, id: ExecutionId)
    requires id in s.rows && Settled(s.rows[id])
    ensures id in Next(s, step).rows
    ensures Next(s, step).rows[id] == s.rows[id]
      || (step.id == id && (step.Retry? || step.Block? || (step.Complete? && s.rows[id].token == Some(step.token))))
  {
  }

  /** Nobody finishes, puts off or blocks the execution any more. */
  ghost predicate LeftAlone(steps: seq<Step>, i: nat, k: nat, id: ExecutionId)
    requires i <= k <= |steps|
  {
    forall m :: i <= m < k && steps[m].id == id ==> !steps[m].Retry? && !steps[m].Block? && !steps[m].Complete?
  }

  /** A success or a block survives every claim and redrive: only another finishing call can change the row. */
  lemma {:induction false} SettledIsClosed(states: seq<State>, steps: seq<Step>, i: nat, k: nat, id: ExecutionId)
    requires IsRun(states, steps) && i <= k < |states| && id in states[i].rows && Settled(states[i].rows[id])
    requires LeftAlone(steps, i, k, id)
    ensures id in states[k].rows && states[k].rows[id] == states[i].rows[id]
    ensures k < |steps| && (steps[k].Claim? || steps[k].Redrive?) && steps[k].id == id
      ==> !Succeeds(states[k], steps[k])
  {
    hide Next, Admissible;
    if i == k {
    } else {
      SettledIsClosed(states, steps, i, k - 1, id);
      ClosedStep(states[k - 1], steps[k - 1], id);
    }
  }

  /**
   `complete_execution` asks for the token and not for the status, so the holder of the last token can turn
   a success or a dead letter into any status, from which a claim succeeds exactly when that status allows it.
   */
  lemma SecondCompletionReopens(
      s: State, id: ExecutionId, token: Token, status: Status, result: Entry, at: Time, later: Time)
    requires id in s.rows && s.rows[id].token == Some(token)
    ensures var s' := Next(s, Complete(id, token, status, result, at));
      && id in s'.rows && s'.rows[id].token == Some(token)
      && (Claimable(s'.rows[id], later) <==>
          status != Success && status != Blocked && status != DeadLetter && later >= s.rows[id].nextAttempt)
  {
  }

  // ---------------------------------------------------------------- backoff and bounded retries

  predicate IsRedrive(step: Step, id: ExecutionId) {
    step.Redrive? && step.id == id
  }

  lemma DelaysRise(a: nat, b: nat)
    requires a <= b
    ensures Delay(a) <= Delay(b)
  {
  }

  /** The row waits at least until `due`, and a further failure would not bring that forward. */
  predicate WaitsUntil(s: State, id: ExecutionId, due: Time, attempts: nat) {
    id in s.rows && s.rows[id].nextAttempt >= due && s.rows[id].attempts >= attempts && s.clock + Delay(attempts) >= due
  }

  lemma WaitingStep(s: State, step: Step, id: ExecutionId, due: Time, attempts: nat)
    requires Admissible(s, step) && WaitsUntil(s, id, due, attempts) && !IsRedrive(step, id)
    ensures WaitsUntil(Next(s, step), id, due, attempts)
  {
    hide Delay;
    DelaysRise(attempts, s.rows[id].attempts);
  }

  lemma {:induction false} AppointmentStands(
      states: seq<State>, steps: seq<Step>, i: nat, k: nat, id: ExecutionId, due: Time, attempts: nat)
    requires IsRun(states, steps) && i <= k < |states| && WaitsUntil(states[i], id, due, attempts)
    requires forall m :: i <= m < k ==> !IsRedrive(steps[m], id)
    ensures WaitsUntil(states[k], id, due, attempts)
  {
    hide Next, WaitsUntil, Admissible;
    if i == k {
    } else {
      AppointmentStands(states, steps, i, k - 1, id, due, attempts);
      assert !IsRedrive(steps[k - 1], id);
      WaitingStep(states[k - 1], steps[k - 1], id, due, attempts);
    }
  }

  /**
   After a failure put off at attempt n no claim succeeds before the n-th backoff is over, unless an
   administrator redrives the execution: further failures only push the appointment on.
   */
  lemma NoClaimBeforeBackoff(states: seq<State>, steps: seq<Step>, i: nat, j: nat)
    requires IsRun(states, steps) && i < j < |steps|
    requires steps[i].Retry? && !steps[i].unknown && Succeeds(states[i], steps[i])
    requires steps[j].Claim? && steps[j].id == steps[i].id && Succeeds(states[j], steps[j])
    requires forall m :: i < m < j ==> !IsRedrive(steps[m], steps[i].id)
    ensures
      var n := states[i].rows[steps[i].id].attempts;
      steps[j].at >= steps[i].at + SECOND *
        (if n <= 1 then 5 else if n == 2 then 30 else if n == 3 then 120 else if n == 4 then 600 else 1800)
  {
    RunStep(states, steps, i);
    var n := states[i].rows[steps[i].id].attempts;
    AppointmentStands(states, steps, i + 1, j, steps[i].id, steps[i].at + Delay(n), n);
  }

  /** A failure put off at the given number of attempts: after that claim of the execution, before any if 0. */
  predicate PutsOffAt(s: State, step: Step, id: ExecutionId, attempts: nat) {
    PutsOff(s, step) && step.id == id && s.rows[id].attempts == attempts
  }

  ghost function PutOffs(states: seq<State>, steps: seq<Step>, n: nat, id: ExecutionId, attempts: nat): nat
    requires n <= |steps| && |states| == |steps| + 1
  {
    if n == 0 then 0
    else
      PutOffs(states, steps, n - 1, id, attempts)
      + (if PutsOffAt(states[n - 1], steps[n - 1], id, attempts) then 1 else 0)
  }

  lemma PutsOffBelowFive(s: State, step: Step, id: ExecutionId)
    ensures Count(Next(s, step).retries, id) == Count(s.retries, id)
      + (if PutsOffAt(s, step, id, 0) then 1 else 0) + (if PutsOffAt(s, step, id, 1) then 1 else 0)
      + (if PutsOffAt(s, step, id, 2) then 1 else 0) + (if PutsOffAt(s, step, id, 3) then 1 else 0)
      + (if PutsOffAt(s, step, id, 4) then 1 else 0)
  {
  }

  /** In every run the failures put off are those before the first claim and those after each of the first four. */
  lemma {:induction false} RetriesByAttempt(states: seq<State>, steps: seq<Step>, i: nat, id: ExecutionId)
    requires IsRun(states, steps) && i < |states|
    ensures Count(states[i].retries, id)
      == PutOffs(states, steps, i, id, 0) + PutOffs(states, steps, i, id, 1) + PutOffs(states, steps, i, id, 2)
       + PutOffs(states, steps, i, id, 3) + PutOffs(states, steps, i, id, 4)
  {
    hide Next, PutsOffAt, Admissible;
    if i == 0 {
    } else {
      RetriesByAttempt(states, steps, i - 1, id);
      PutsOffBelowFive(states[i - 1], steps[i - 1], id);
    }
  }

  /** Nothing is put off before the first claim, and after each claim at most one failure is. */
  ghost predicate OncePerClaim(states: seq<State>, steps: seq<Step>, n: nat, id: ExecutionId)
    requires n <= |steps| && |states| == |steps| + 1
  {
    PutOffs(states, steps, n, id, 0) == 0 && forall attempts: nat :: PutOffs(states, steps, n, id, attempts) <= 1
  }

  /** Then an execution is put off at most four times in its whole life: a redrive does not reset the count. */
  lemma AtMostFourRetries(states: seq<State>, steps: seq<Step>, i: nat, id: ExecutionId)
    requires IsRun(states, steps) && i < |states| && OncePerClaim(states, steps, i, id)
    ensures Count(states[i].retries, id) <= 4
  {
    RetriesByAttempt(states, steps, i, id);
  }

  /** Failures are put off only by the holder of a claim: the row is being processed. */
  ghost predicate HoldersPutOff(states: seq<State>, steps: seq<Step>, n: nat, id: ExecutionId)
    requires n <= |steps| && |states| == |steps| + 1
  {
    forall m :: 0 <= m < n && PutsOff(states[m], steps[m]) && steps[m].id == id ==> BeingProcessed(states[m], id)
  }

  predicate BeingProcessed(s: State, id: ExecutionId) {
    id in s.rows && s.rows[id].status == Processing && s.rows[id].leaseExpires.Some?
  }

  /** Failures put off at a number of attempts, seen from the row. */
  predicate PutOffsFit(s: State, id: ExecutionId, attempts: nat, count: nat) {
    && count <= 1 && (attempts == 0 ==> count == 0)
    && (id !in s.rows || s.rows[id].attempts < attempts ==> count == 0)
    && (BeingProcessed(s, id) && s.rows[id].attempts == attempts ==> count == 0)
  }

  lemma PutOffsFitStep(s: State, step: Step, id: ExecutionId, attempts: nat, count: nat)
    requires PutOffsFit(s, id, attempts, count) && RowOk(s, id) && Admissible(s, step)
    requires PutsOff(s, step) && step.id == id ==> BeingProcessed(s, id)
    ensures PutOffsFit(Next(s, step), id, attempts, count + (if PutsOffAt(s, step, id, attempts) then 1 else 0))
  {
  }

  lemma {:induction false} PutOffsFitAlways(
      states: seq<State>, steps: seq<Step>, i: nat, id: ExecutionId, attempts: nat)
    requires IsRun(states, steps) && i < |states| && HoldersPutOff(states, steps, i, id)
    ensures PutOffsFit(states[i], id, attempts, PutOffs(states, steps, i, id, attempts))
  {
    hide Next, PutsOff, PutsOffAt, Admissible, RowOk;
    if i == 0 {
    } else {
      PutOffsFitAlways(states, steps, i - 1, id, attempts);
      RunKeepsRowOk(states, steps, i - 1, id);
      PutOffsFitStep(states[i - 1], steps[i - 1], id, attempts, PutOffs(states, steps, i - 1, id, attempts));
    }
  }

  /** A holder that puts off gives up its claim, so holders put off once per claim. */
  lemma HoldersPutOffOnce(states: seq<State>, steps: seq<Step>, i: nat, id: ExecutionId)
    requires IsRun(states, steps) && i < |states| && HoldersPutOff(states, steps, i, id)
    ensures OncePerClaim(states, steps, i, id)
  {
    hide PutOffs, HoldersPutOff, Next, Admissible;
    forall attempts: nat
      ensures PutOffs(states, steps, i, id, attempts) <= (if attempts == 0 then 0 else 1)
    {
      PutOffsFitAlways(states, steps, i, id, attempts);
    }
  }

  /** The service call takes no token: without that, an execution nobody ever claimed is put off five times. */
  lemma FiveRetriesRun() returns (states: seq<State>, steps: seq<Step>)
    ensures IsRun(states, steps) && |steps| == 6 && Count(states[6].retries, 0) == 5
  {
    var create, retry := Create(0, Received, 0), Retry(0, map[], false, 0);
    var s1 := Next(EMPTY, create);
    PutOffUnclaimed(s1);
    var s2 := Next(s1, retry);
    PutOffUnclaimed(s2);
    var s3 := Next(s2, retry);
    PutOffUnclaimed(s3);
    var s4 := Next(s3, retry);
    PutOffUnclaimed(s4);
    var s5 := Next(s4, retry);
    PutOffUnclaimed(s5);
    hide Next;
    states := [EMPTY, s1, s2, s3, s4, s5, Next(s5, retry)];
    steps := [create, retry, retry, retry, retry, retry];
  }

  lemma PutOffUnclaimed(s: State)
    requires 0 in s.rows && s.rows[0].attempts == 0 && s.clock == 0
    ensures
      var s' := Next(s, Retry(0, map[], false, 0));
      && 0 in s'.rows && s'.rows[0].attempts == 0 && s'.clock == 0
      && Count(s'.retries, 0) == Count(s.retries, 0) + 1
  {
  }

  /** A failure of a redriven dead letter is a dead letter again. */
  lemma RedriveBuysOneAttempt(
      s: State, id: ExecutionId, token: Token, lease: Time, result: Entry, a: Time, b: Time, c: Time)
    requires id in s.rows && s.rows[id].status == DeadLetter && s.rows[id].attempts >= 5 && a <= b
    ensures var s1 := Next(s, Redrive(id, false, a));
      var s2 := Next(s1, Claim(id, token, lease, b));
      var s3 := Next(s2, Retry(id, result, false, c));
      && Succeeds(s1, Claim(id, token, lease, b))
      && id in s3.rows && s3.rows[id].status == DeadLetter && !Claimable(s3.rows[id], c + 1800 * SECOND)
  {
  }

  // ---------------------------------------------------------------- the mutable table

  class ExecutionTable {
    var rows: map<ExecutionId, Execution>
    ghost var now: State
    ghost var states: seq<State>
    ghost var steps: seq<Step>

    ghost predicate Valid()
      reads this
    {
      IsRun(states, steps) && states[|steps|] == now && now.rows == rows
    }

    constructor ()
      ensures Valid() && steps == []
    {
      rows, now := map[], EMPTY;
      states, steps := [EMPTY], [];
    }

    ghost method Record(step: Step)
      requires IsRun(states, steps) && states[|steps|] == now && Admissible(now, step)
      requires Next(now, step).rows == rows
      modifies this`now, this`states, this`steps
      ensures Valid() && now == Next(old(now), step)
      ensures steps == old(steps) + [step] && states == old(states) + [now]
    {
      hide Next, Admissible;
      now := Next(now, step);
      states, steps := states + [now], steps + [step];
    }

    method Create(id: ExecutionId, status: Status, at: Time) returns (created: bool)
      requires Valid() && Admissible(now, Step.Create(id, status, at))
      modifies this
      ensures Valid() && now == Next(old(now), Step.Create(id, status, at))
      ensures steps == old(steps) + [Step.Create(id, status, at)]
      ensures created == (id !in old(rows))
    {
      created := id !in rows;
      if created {
        rows := rows[id := Execution(status, 0, None, None, at, None, None, map[])];
      }
      Record(Step.Create(id, status, at));
    }

    method Claim(id: ExecutionId, token: Token, lease: Time, at: Time) returns (claimed: Option<Token>)
      requires Valid() && Admissible(now, Step.Claim(id, token, lease, at))
      modifies this
      ensures Valid() && now == Next(old(now), Step.Claim(id, token, lease, at))
      ensures steps == old(steps) + [Step.Claim(id, token, lease, at)]
      ensures claimed == if Succeeds(old(now), Step.Claim(id, token, lease, at)) then Some(token) else None
    {
      claimed := TakeRow(id, token, lease, at);
      Record(Step.Claim(id, token, lease, at));
    }

    method TakeRow(id: ExecutionId, token: Token, lease: Time, at: Time) returns (claimed: Option<Token>)
      modifies this`rows
      ensures claimed == if id in old(rows) && Claimable(old(rows)[id], at) then Some(token) else None
      ensures claimed.None? ==> rows == old(rows)
      ensures claimed.Some? ==>
        var e := old(rows)[id];
        rows == old(rows)[id := e.(status := Processing, attempts := e.attempts + 1, token := Some(token),
                                   leaseExpires := Some(at + lease),
                                   started := if e.started.Some? then e.started else Some(at))]
    {
      if id !in rows {
        return None;
      }
      var e := rows[id];
      if e.status == Processing && e.leaseExpires.Some? && e.leaseExpires.value > at {
        return None;
      }
      if e.status == Success || e.status == Blocked || e.status == DeadLetter {
        return None;
      }
      if e.nextAttempt > at {
        return None;
      }
      e := e.(status := Processing, attempts := e.attempts + 1);
      e := e.(token := Some(token), leaseExpires := Some(at + lease));
      if e.started.None? {
        e := e.(started := Some(at));
      }
      rows := rows[id := e];
      return Some(token);
    }

    method Complete(id: ExecutionId, token: Token, status: Status, result: Entry, at: Time) returns (ok: bool)
      requires Valid() && Admissible(now, Step.Complete(id, token, status, result, at))
      modifies this
      ensures Valid() && now == Next(old(now), Step.Complete(id, token, status, result, at))
      ensures steps == old(steps) + [Step.Complete(id, token, status, result, at)]
      ensures ok == Succeeds(old(now), Step.Complete(id, token, status, result, at))
    {
      ok := id in rows && rows[id].token == Some(token);
      if ok {
        var e := rows[id].(status := status, result := result);
        rows := rows[id := e.(leaseExpires := None, finished := Some(at))];
      }
      Record(Step.Complete(id, token, status, result, at));
    }

    method ScheduleRetry(id: ExecutionId, result: Entry, unknown: bool, at: Time)
      requires Valid() && id in rows && Admissible(now, Step.Retry(id, result, unknown, at))
      modifies this
      ensures Valid() && now == Next(old(now), Step.Retry(id, result, unknown, at))
      ensures steps == old(steps) + [Step.Retry(id, result, unknown, at)]
    {
      var e := rows[id];
      if unknown {
        e := e.(status := Partial);
        e := e.(result := result["awaiting_reconciliation" := Truth(true)]);
      } else {
        var most := if e.attempts - 1 > 0 then e.attempts - 1 else 0;
        var index := if most < |BACKOFF_SECONDS| - 1 then most else |BACKOFF_SECONDS| - 1;
        e := e.(status := if e.attempts < |BACKOFF_SECONDS| then Failed else DeadLetter);
        e := e.(result := result, nextAttempt := at + BACKOFF_SECONDS[index] * SECOND);
      }
      rows := rows[id := e];
      Record(Step.Retry(id, result, unknown, at));
    }

    method Block(id: ExecutionId, reason: Entry, at: Time)
      requires Valid() && id in rows && Admissible(now, Step.Block(id, reason, at))
      modifies this
      ensures Valid() && now == Next(old(now), Step.Block(id, reason, at))
      ensures steps == old(steps) + [Step.Block(id, reason, at)]
    {
      var e := rows[id].(status := Blocked);
      e := e.(result := e.result + map["blocked" := Truth(true)] + reason);
      rows := rows[id := e];
      Record(Step.Block(id, reason, at));
    }

    /** False for the refusals of the endpoint. */
    method Redrive(id: ExecutionId, unknownAction: bool, at: Time) returns (ok: bool)
      requires Valid() && Admissible(now, Step.Redrive(id, unknownAction, at))
      modifies this
      ensures Valid() && now == Next(old(now), Step.Redrive(id, unknownAction, at))
      ensures steps == old(steps) + [Step.Redrive(id, unknownAction, at)]
      ensures ok == Succeeds(old(now), Step.Redrive(id, unknownAction, at))
    {
      ok := id in rows && (rows[id].status == Failed || rows[id].status == DeadLetter) && !unknownAction;
      if ok {
        var e := rows[id].(status := Received, nextAttempt := at);
        rows := rows[id := e.(token := None, leaseExpires := None)];
      }
      Record(Step.Redrive(id, unknownAction, at));
    }
  }
}
