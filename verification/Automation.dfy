/**
 The action ledger of an automation execution and the dispatcher loop that works through its actions.

 The dispatcher claims the row of each action, calls its handler and finishes the row under the row's own
 token; other workers may claim and finish rows between its calls. A handler's outcome is an input.
 */
module Automation {
  import opened Common

  type Token = nat

  datatype Status = Pending | Processing | Succeeded | Failed | Unknown | Cancelled

  datatype Attempt = Attempt(status: Status, token: Option<Token>, leaseExpires: Option<Time>, result: Entry)

  /** The unique key of a ledger row. */
  datatype Slot = Slot(execution: nat, index: nat)

  datatype Outcome = Success(result: Entry) | Failure(error: string) | Timeout(error: string)

  /** What one turn of the loop meets: the clock, the token drawn if the row is claimed, the handler's outcome. */
  datatype Turn = Turn(at: Time, token: Token, outcome: Outcome)

  const LEASE: Time := 60 * SECOND

  /**
   The ledger, and what the run has seen: per slot the handler calls that succeeded and the succeeded rows
   that were finished over again, the tokens drawn, and those a finish was accepted for.
   */
  datatype State = State(
    attempts: map<Slot, Attempt>,
    successes: map<Slot, nat>,
    reopened: map<Slot, nat>,
    used: set<Token>,
    finished: set<Token>,
    clock: Time)

  datatype Step =
    | Execute(execution: nat, turns: seq<Turn>)
    | Claim(slot: Slot, token: Token, lease: Time, at: Time)
    | Finish(slot: Slot, token: Token, status: Status, result: Entry, at: Time)

  // ---------------------------------------------------------------- one row

  function Row(attempts: map<Slot, Attempt>, slot: Slot): Option<Attempt> {
    if slot in attempts then Some(attempts[slot]) else None
  }

  predicate Done(row: Option<Attempt>) {
    row.Some? && row.value.status == Succeeded
  }

  predicate Leased(row: Option<Attempt>, now: Time) {
    row.Some? && row.value.status == Processing && row.value.leaseExpires.Some? && row.value.leaseExpires.value > now
  }

  /** The claim takes the row: anything but a success and a live lease, `unknown` and `failed` included. */
  predicate Free(row: Option<Attempt>, now: Time) {
    !Done(row) && !Leased(row, now)
  }

  function Claimed(row: Option<Attempt>, token: Token, until: Time): Attempt {
    Attempt(Processing, Some(token), Some(until), if row.Some? then row.value.result else map[])
  }

  predicate IsFinal(status: Status) {
    status == Succeeded || status == Failed || status == Unknown || status == Cancelled
  }

  predicate Accepts(row: Option<Attempt>, token: Token, status: Status) {
    row.Some? && row.value.token == Some(token) && IsFinal(status)
  }

  function Finished(row: Attempt, status: Status, result: Entry): Attempt {
    row.(status := status, result := result, leaseExpires := None)
  }

  // ---------------------------------------------------------------- one turn of the dispatcher

  function Heading(index: nat, status: string): Entry {
    map["action_index" := Number(index), "status" := Text(status)]
  }

  function StatusOf(outcome: Outcome): Status {
    match outcome
    case Success(_) => Succeeded
    case Failure(_) => Failed
    case Timeout(_) => Unknown
  }

  function ResultOf(outcome: Outcome): Entry {
    match outcome
    case Success(result) => result
    case Failure(error) => map["error" := Text(error)]
    case Timeout(error) => map["error" := Text(error)]
  }

  function NameOf(outcome: Outcome): string {
    match outcome
    case Success(_) => "succeeded"
    case Failure(_) => "failed"
    case Timeout(_) => "unknown"
  }

  /** The row after the turn. */
  function RowAfter(row: Option<Attempt>, turn: Turn): Attempt {
    if Free(row, turn.at) then Attempt(StatusOf(turn.outcome), Some(turn.token), None, ResultOf(turn.outcome))
    else row.value
  }

  /** The entry the turn appends to the results. */
  function EntryOf(row: Option<Attempt>, turn: Turn, index: nat): Entry {
    if Done(row) then Heading(index, "succeeded") + row.value.result
    else if Leased(row, turn.at) then Heading(index, "processing")
    else Heading(index, NameOf(turn.outcome)) + ResultOf(turn.outcome)
  }

  predicate Called(attempts: map<Slot, Attempt>, execution: nat, turns: seq<Turn>, k: nat)
    requires k < |turns|
  {
    Free(Row(attempts, Slot(execution, k)), turns[k].at)
  }

  predicate TimesOut(attempts: map<Slot, Attempt>, execution: nat, turns: seq<Turn>, k: nat)
    requires k < |turns|
  {
    Called(attempts, execution, turns, k) && turns[k].outcome.Timeout?
  }

  /** Number of actions that get a turn, given that the first k did: all of them, or up to the first timeout. */
  function Reach(attempts: map<Slot, Attempt>, execution: nat, turns: seq<Turn>, k: nat): (m: nat)
    requires k <= |turns|
    ensures k <= m <= |turns|
    ensures forall j :: k <= j < m - 1 ==> !TimesOut(attempts, execution, turns, j)
    ensures m < |turns| ==> k < m && TimesOut(attempts, execution, turns, m - 1)
    decreases |turns| - k
  {
    if k == |turns| then k
    else if TimesOut(attempts, execution, turns, k) then k + 1
    else Reach(attempts, execution, turns, k + 1)
  }

  function Results(attempts: map<Slot, Attempt>, execution: nat, turns: seq<Turn>): seq<Entry> {
    seq(Reach(attempts, execution, turns, 0), k requires 0 <= k < |turns| =>
      EntryOf(Row(attempts, Slot(execution, k)), turns[k], k))
  }

  // ---------------------------------------------------------------- one call

  function Slots(execution: nat, m: nat): set<Slot> {
    set k: nat | k < m :: Slot(execution, k)
  }

  /** The table after the first m turns. */
  function Worked(attempts: map<Slot, Attempt>, execution: nat, turns: seq<Turn>, m: nat): map<Slot, Attempt>
    requires m <= |turns|
  {
    map slot | slot in attempts.Keys + Slots(execution, m) ::
      if slot in Slots(execution, m) then RowAfter(Row(attempts, slot), turns[slot.index]) else attempts[slot]
  }

  function Tokens(turns: seq<Turn>): set<Token> {
    set t | t in turns :: t.token
  }

  predicate Succeeding(attempts: map<Slot, Attempt>, execution: nat, turns: seq<Turn>, k: nat)
    requires k < |turns|
  {
    Called(attempts, execution, turns, k) && turns[k].outcome.Success?
  }

  function CountedSuccesses(s: State, execution: nat, turns: seq<Turn>, m: nat): map<Slot, nat>
    requires m <= |turns|
  {
    map slot | slot in s.successes.Keys + Slots(execution, m) ::
      Count(s.successes, slot)
      + (if slot in Slots(execution, m) && Succeeding(s.attempts, execution, turns, slot.index) then 1 else 0)
  }

  predicate Reopens(row: Option<Attempt>, token: Token, status: Status) {
    Done(row) && Accepts(row, token, status) && status != Succeeded
  }

  function ClockAfter(clock: Time, turns: seq<Turn>): Time {
    if turns == [] then clock else turns[|turns| - 1].at
  }

  function CountUp(counts: map<Slot, nat>, slot: Slot): map<Slot, nat> {
    counts[slot := Count(counts, slot) + 1]
  }

  function Next(s: State, step: Step): State {
    match step
    case Execute(execution, turns) =>
      var m := Reach(s.attempts, execution, turns, 0);
      s.(attempts := Worked(s.attempts, execution, turns, m),
         successes := CountedSuccesses(s, execution, turns, m),
         used := s.used + Tokens(turns), finished := s.finished + Tokens(turns),
         clock := ClockAfter(s.clock, turns))
    case Claim(slot, token, lease, at) =>
      var row := Row(s.attempts, slot);
      s.(attempts := if Free(row, at) then s.attempts[slot := Claimed(row, token, at + lease)] else s.attempts,
         used := s.used + {token}, clock := at)
    case Finish(slot, token, status, result, at) =>
      var row := Row(s.attempts, slot);
      if Accepts(row, token, status) then
        s.(attempts := s.attempts[slot := Finished(row.value, status, result)],
           successes := if status == Succeeded && !Done(row) then CountUp(s.successes, slot) else s.successes,
           reopened := if Reopens(row, token, status) then CountUp(s.reopened, slot) else s.reopened,
           finished := s.finished + {token}, clock := at)
      else s.(clock := at)
  }

  /** Drawn tokens are new and clocks do not run backwards. */
  predicate Admissible(s: State, step: Step) {
    match step
    case Execute(_, turns) =>
      && (forall i, j :: 0 <= i < j < |turns| ==> turns[i].token != turns[j].token && turns[i].at <= turns[j].at)
      && (forall t | t in turns :: t.token !in s.used && s.clock <= t.at)
    case Claim(_, token, _, at) => token !in s.used && s.clock <= at
    case Finish(_, _, _, _, at) => s.clock <= at
  }

  const EMPTY := State(map[], map[], map[], {}, {}, 0)

  ghost predicate IsRun(states: seq<State>, steps: seq<Step>) {
    && |states| == |steps| + 1
    && states[0] == EMPTY
    && (forall i :: 0 <= i < |steps| ==> Admissible(states[i], steps[i]) && states[i + 1] == Next(states[i], steps[i]))
  }

  lemma RunStep(states: seq<State>, steps: seq<Step>, i: nat)
    requires IsRun(states, steps) && i < |steps|
    ensures |states| == |steps| + 1 && Admissible(states[i], steps[i]) && states[i + 1] == Next(states[i], steps[i])
  {
  }

  // ---------------------------------------------------------------- what a step does to one row

  predicate Touches(s: State, step: Step, slot: Slot) {
    step.Execute? && slot in Slots(step.execution, Reach(s.attempts, step.execution, step.turns, 0))
  }

  /** The row of `slot` after the step, slot by slot. */
  function After(s: State, step: Step, slot: Slot): Option<Attempt> {
    var row := Row(s.attempts, slot);
    match step
    case Execute(_, turns) => if Touches(s, step, slot) then Some(RowAfter(row, turns[slot.index])) else row
    case Claim(target, token, lease, at) =>
      if target == slot && Free(row, at) then Some(Claimed(row, token, at + lease)) else row
    case Finish(target, token, status, result, _) =>
      if target == slot && Accepts(row, token, status) then Some(Finished(row.value, status, result)) else row
  }

  lemma StepOnRow(s: State, step: Step, slot: Slot)
    ensures Row(Next(s, step).attempts, slot) == After(s, step, slot)
  {
  }

  lemma StepOnCounts(s: State, step: Step, slot: Slot)
    ensures Count(Next(s, step).successes, slot) == Count(s.successes, slot)
      + (if Touches(s, step, slot) && Succeeding(s.attempts, step.execution, step.turns, slot.index) then 1
         else if step.Finish? && step.slot == slot && step.status == Succeeded
            && Accepts(Row(s.attempts, slot), step.token, step.status) && !Done(Row(s.attempts, slot)) then 1
         else 0)
    ensures Count(Next(s, step).reopened, slot) == Count(s.reopened, slot)
      + (if step.Finish? && step.slot == slot && Reopens(Row(s.attempts, slot), step.token, step.status) then 1 else 0)
  {
  }

  predicate RowOk(s: State, slot: Slot) {
    var row := Row(s.attempts, slot);
    && Count(s.successes, slot) == Count(s.reopened, slot) + (if Done(row) then 1 else 0)
    && (row.Some? ==> row.value.token.Some? && row.value.token.value in s.used)
    && (Done(row) ==> row.value.token.value in s.finished)
    && (row.Some? && row.value.status == Processing ==> row.value.leaseExpires.Some?)
  }

  lemma Monotone(s: State, step: Step)
    requires Admissible(s, step)
    ensures s.used <= Next(s, step).used && s.finished <= Next(s, step).finished && s.clock <= Next(s, step).clock
  {
  }

  /** The tokens a step draws and finishes. */
  lemma StepOnTokens(s: State, step: Step)
    ensures step.Execute? ==> forall k :: 0 <= k < |step.turns| ==>
      step.turns[k].token in Next(s, step).used && step.turns[k].token in Next(s, step).finished
    ensures step.Claim? ==> step.token in Next(s, step).used
    ensures step.Finish? && Accepts(Row(s.attempts, step.slot), step.token, step.status)
      ==> step.token in Next(s, step).finished
  {
  }

  lemma NextKeepsRowOk(s: State, step: Step, slot: Slot)
    requires RowOk(s, slot) && Admissible(s, step)
    ensures RowOk(Next(s, step), slot)
  {
    hide Next, Admissible, Slots, Reach;
    StepOnRow(s, step, slot);
    StepOnCounts(s, step, slot);
    StepOnTokens(s, step);
    Monotone(s, step);
    if Touches(s, step, slot) {
      TouchedIsATurn(s, step, slot);
    }
  }

  lemma TouchedIsATurn(s: State, step: Step, slot: Slot)
    requires Touches(s, step, slot)
    ensures slot.index < |step.turns| && step.turns[slot.index] in step.turns
    ensures slot == Slot(step.execution, slot.index)
  {
  }

  lemma {:induction false} RunKeepsRowOk(states: seq<State>, steps: seq<Step>, i: nat, slot: Slot)
    requires IsRun(states, steps) && i < |states|
    ensures RowOk(states[i], slot)
  {
    hide Next, Admissible, RowOk;
    if i == 0 {
      NothingDone(states, steps, slot);
    } else {
      RunStep(states, steps, i - 1);
      RunKeepsRowOk(states, steps, i - 1, slot);
      NextKeepsRowOk(states[i - 1], steps[i - 1], slot);
    }
  }

  lemma NothingDone(states: seq<State>, steps: seq<Step>, slot: Slot)
    requires IsRun(states, steps)
    ensures |states| == |steps| + 1 && RowOk(states[0], slot)
  {
  }

  // ---------------------------------------------------------------- at most one success

  /**
   In every run the successes of a slot are its reopenings plus one if its row is succeeded now: the claim's
   test keeps the handler away from a succeeded row, whatever failures, timeouts and lapsed leases there were.
   */
  lemma SuccessesAccounted(states: seq<State>, steps: seq<Step>, i: nat, slot: Slot)
    requires IsRun(states, steps) && i < |states|
    ensures Count(states[i].successes, slot)
      == Count(states[i].reopened, slot) + (if Done(Row(states[i].attempts, slot)) then 1 else 0)
  {
    RunKeepsRowOk(states, steps, i, slot);
  }

  /** Every claim is finished at most once: no finish comes with a token that a finish was accepted for. */
  ghost predicate FinishedOnce(states: seq<State>, steps: seq<Step>, n: nat)
    requires IsRun(states, steps) && n <= |steps|
  {
    forall m :: 0 <= m < n && steps[m].Finish? ==> steps[m].token !in states[m].finished
  }

  lemma KeptStep(s: State, step: Step, slot: Slot)
    requires RowOk(s, slot) && (step.Finish? ==> step.token !in s.finished)
    ensures Count(Next(s, step).reopened, slot) == Count(s.reopened, slot)
    ensures Done(Row(s.attempts, slot)) ==> Row(Next(s, step).attempts, slot) == Row(s.attempts, slot)
  {
    StepOnRow(s, step, slot);
    StepOnCounts(s, step, slot);
  }

  lemma {:induction false} NothingReopened(states: seq<State>, steps: seq<Step>, i: nat, slot: Slot)
    requires IsRun(states, steps) && i < |states| && FinishedOnce(states, steps, i)
    ensures Count(states[i].reopened, slot) == 0
  {
    hide Next, Admissible, RowOk;
    if i == 0 {
    } else {
      NothingReopened(states, steps, i - 1, slot);
      RunKeepsRowOk(states, steps, i - 1, slot);
      KeptStep(states[i - 1], steps[i - 1], slot);
    }
  }

  /** So each action's handler succeeds at most once, and once exactly when its row is succeeded. */
  lemma HandlerSucceedsAtMostOnce(states: seq<State>, steps: seq<Step>, i: nat, slot: Slot)
    requires IsRun(states, steps) && i < |states| && FinishedOnce(states, steps, i)
    ensures Count(states[i].successes, slot) <= 1
    ensures Count(states[i].successes, slot) == 1 <==> Done(Row(states[i].attempts, slot))
  {
    NothingReopened(states, steps, i, slot);
    SuccessesAccounted(states, steps, i, slot);
  }

  lemma {:induction false} SuccessIsKept(states: seq<State>, steps: seq<Step>, i: nat, k: nat, slot: Slot)
    requires IsRun(states, steps) && i <= k < |states| && FinishedOnce(states, steps, k)
    requires Done(Row(states[i].attempts, slot))
    ensures Row(states[k].attempts, slot) == Row(states[i].attempts, slot)
  {
    hide Next, Admissible, RowOk, Done;
    if i == k {
    } else {
      SuccessIsKept(states, steps, i, k - 1, slot);
      RunKeepsRowOk(states, steps, k - 1, slot);
      KeptStep(states[k - 1], steps[k - 1], slot);
    }
  }

  /**
   Replay: once a call saw an action succeed, every later call that reaches the action answers with the very
   same entry and does not call the handler.
   */
  lemma ReplayReturnsTheStoredEntry(states: seq<State>, steps: seq<Step>, i: nat, j: nat, k: nat)
    requires IsRun(states, steps) && i < j < |steps| && FinishedOnce(states, steps, j)
    requires steps[i].Execute? && steps[j].Execute? && steps[i].execution == steps[j].execution
    requires
      var first := Results(states[i].attempts, steps[i].execution, steps[i].turns);
      && k < |first| && Succeeding(states[i].attempts, steps[i].execution, steps[i].turns, k)
    requires k < |Results(states[j].attempts, steps[j].execution, steps[j].turns)|
    ensures Results(states[j].attempts, steps[j].execution, steps[j].turns)[k]
         == Results(states[i].attempts, steps[i].execution, steps[i].turns)[k]
    ensures !Called(states[j].attempts, steps[j].execution, steps[j].turns, k)
  {
    var slot := Slot(steps[i].execution, k);
    RunStep(states, steps, i);
    StepOnRow(states[i], steps[i], slot);
    SuccessIsKept(states, steps, i + 1, j, slot);
  }

  /** Every row of the first n actions is succeeded, or its handler is called and succeeds. */
  predicate AllSucceed(attempts: map<Slot, Attempt>, execution: nat, turns: seq<Turn>) {
    forall k :: 0 <= k < |turns| ==>
      Done(Row(attempts, Slot(execution, k))) || Succeeding(attempts, execution, turns, k)
  }

  lemma AllSucceedReachesAll(attempts: map<Slot, Attempt>, execution: nat, turns: seq<Turn>)
    requires AllSucceed(attempts, execution, turns)
    ensures Reach(attempts, execution, turns, 0) == |turns|
  {
    assert forall k :: 0 <= k < |turns| ==> !TimesOut(attempts, execution, turns, k);
  }

  /** A completed execution is replayed whole: every later call answers with the same list and calls no handler. */
  lemma CompletedExecutionReplays(states: seq<State>, steps: seq<Step>, i: nat, j: nat)
    requires IsRun(states, steps) && i < j < |steps| && FinishedOnce(states, steps, j)
    requires steps[i].Execute? && steps[j].Execute? && steps[i].execution == steps[j].execution
    requires |steps[i].turns| == |steps[j].turns| && AllSucceed(states[i].attempts, steps[i].execution, steps[i].turns)
    ensures Results(states[j].attempts, steps[j].execution, steps[j].turns)
         == Results(states[i].attempts, steps[i].execution, steps[i].turns)
    ensures forall k :: 0 <= k < |steps[j].turns| ==> !Called(states[j].attempts, steps[j].execution, steps[j].turns, k)
  {
    hide Next, Admissible, Reach;
    var execution, n := steps[i].execution, |steps[i].turns|;
    AllSucceedReachesAll(states[i].attempts, execution, steps[i].turns);
    forall k: nat | k < n
      ensures Done(Row(states[j].attempts, Slot(execution, k)))
      ensures EntryOf(Row(states[j].attempts, Slot(execution, k)), steps[j].turns[k], k)
           == EntryOf(Row(states[i].attempts, Slot(execution, k)), steps[i].turns[k], k)
    {
      SucceededStays(states, steps, i, j, k);
    }
    AllSucceedReachesAll(states[j].attempts, execution, steps[j].turns);
  }

  lemma SucceededStays(states: seq<State>, steps: seq<Step>, i: nat, j: nat, k: nat)
    requires IsRun(states, steps) && i < j < |steps| && FinishedOnce(states, steps, j)
    requires steps[i].Execute? && k < |steps[i].turns|
    requires AllSucceed(states[i].attempts, steps[i].execution, steps[i].turns)
    ensures var slot := Slot(steps[i].execution, k);
      && Done(Row(states[j].attempts, slot))
      && EntryOf(Row(states[i].attempts, slot), steps[i].turns[k], k)
         == Heading(k, "succeeded") + states[j].attempts[slot].result
  {
    var slot := Slot(steps[i].execution, k);
    RunStep(states, steps, i);
    AllSucceedReachesAll(states[i].attempts, steps[i].execution, steps[i].turns);
    StepOnRow(states[i], steps[i], slot);
    hide Next, Reach;
    SuccessIsKept(states, steps, i + 1, j, slot);
  }

  /** One entry per action in order; the list is shorter exactly if a handler before the last one timed out. */
  lemma ResultsAreCutAfterTheFirstTimeout(attempts: map<Slot, Attempt>, execution: nat, turns: seq<Turn>)
    ensures var r := Results(attempts, execution, turns);
      && |r| <= |turns|
      && (forall k :: 0 <= k < |r| ==> r[k] == EntryOf(Row(attempts, Slot(execution, k)), turns[k], k))
      && (forall k :: 0 <= k < |r| - 1 ==> !TimesOut(attempts, execution, turns, k))
      && (|r| < |turns| <==> exists k: nat :: k < |turns| - 1 && TimesOut(attempts, execution, turns, k))
      && (|r| < |turns| ==> |r| > 0 && r[|r| - 1]["status"] == Text("unknown"))
  {
    var r := Results(attempts, execution, turns);
    assert forall k :: 0 <= k < |r| - 1 ==> !TimesOut(attempts, execution, turns, k);
    if |r| < |turns| {
      assert TimesOut(attempts, execution, turns, |r| - 1);
    }
  }

  /**
   The entry names its action and the outcome, except that a handler's result hides them under keys of its
   own: a queued message is reported as "queued" and not as "succeeded".
   */
  lemma EntriesNameTheirAction(attempts: map<Slot, Attempt>, execution: nat, turns: seq<Turn>, k: nat)
    requires k < |Results(attempts, execution, turns)|
    ensures var entry := Results(attempts, execution, turns)[k];
      var row := Row(attempts, Slot(execution, k));
      var own := if Done(row) then row.value.result
                 else if Called(attempts, execution, turns, k) then ResultOf(turns[k].outcome) else map[];
      var status := if Done(row) then "succeeded"
                    else if Called(attempts, execution, turns, k) then NameOf(turns[k].outcome) else "processing";
      && "action_index" in entry && "status" in entry
      && (entry["action_index"] == Number(k) <==> "action_index" !in own || own["action_index"] == Number(k))
      && (entry["status"] == Text(status) <==> "status" !in own || own["status"] == Text(status))
  {
  }

  /** The send handler answers with the status of the message, so a succeeded send is entered as "queued". */
  lemma SucceededSendReadsQueued(execution: nat, at: Time, token: Token, message: string)
    ensures
      var result: Entry := map["message_id" := Text(message), "status" := Text("queued")];
      var turns := [Turn(at, token, Success(result))];
      && |Results(map[], execution, turns)| == 1
      && Results(map[], execution, turns)[0]["status"] == Text("queued")
      && Done(Row(Worked(map[], execution, turns, 1), Slot(execution, 0)))
  {
    var turns := [Turn(at, token, Success(map["message_id" := Text(message), "status" := Text("queued")]))];
    assert Called(map[], execution, turns, 0);
    assert Reach(map[], execution, turns, 0) == 1;
  }

  /** What a handler's outcome leaves in the row it was called for, and in the list of results. */
  predicate Recorded(b: Attempt, entry: Entry, turn: Turn, k: nat) {
    && b.token == Some(turn.token) && b.leaseExpires == None
    && match turn.outcome
       case Success(result) =>
         && b.status == Succeeded && b.result == result
         && entry == map["action_index" := Number(k), "status" := Text("succeeded")] + result
       case Failure(error) =>
         && b.status == Failed && b.result == map["error" := Text(error)]
         && entry == map["action_index" := Number(k), "status" := Text("failed"), "error" := Text(error)]
       case Timeout(error) =>
         && b.status == Unknown && b.result == map["error" := Text(error)]
         && entry == map["action_index" := Number(k), "status" := Text("unknown"), "error" := Text(error)]
  }

  lemma OutcomeIsRecorded(row: Option<Attempt>, turn: Turn, k: nat)
    requires Free(row, turn.at)
    ensures Recorded(RowAfter(row, turn), EntryOf(row, turn, k), turn, k)
  {
    var entry := EntryOf(row, turn, k);
    match turn.outcome {
      case Success(result) =>
        assert entry == Heading(k, "succeeded") + result;
      case Failure(error) =>
        assert entry == map["action_index" := Number(k), "status" := Text("failed"), "error" := Text(error)];
      case Timeout(error) =>
        assert entry == map["action_index" := Number(k), "status" := Text("unknown"), "error" := Text(error)];
    }
  }

  lemma TurnLeaves(row: Option<Attempt>, turn: Turn, k: nat)
    ensures
      var b, entry := RowAfter(row, turn), EntryOf(row, turn, k);
      if row.Some? && row.value.status == Succeeded then
        && b == row.value
        && entry == map["action_index" := Number(k), "status" := Text("succeeded")] + b.result
      else if row.Some? && row.value.status == Processing && row.value.leaseExpires.Some?
              && turn.at < row.value.leaseExpires.value then
        b == row.value && entry == map["action_index" := Number(k), "status" := Text("processing")]
      else
        Recorded(b, entry, turn, k)
  {
    hide Recorded;
    if Free(row, turn.at) { OutcomeIsRecorded(row, turn, k); }
  }

  /**
   A call of the dispatcher, action by action up to the cut: a succeeded row answers with what it stored, a row
   under a lease that still runs reports "processing", and any other row gets the handler's outcome.
   */
  lemma ExecutionLeaves(states: seq<State>, steps: seq<Step>, i: nat, k: nat)
    requires IsRun(states, steps) && i < |steps| && steps[i].Execute?
    requires k < |Results(states[i].attempts, steps[i].execution, steps[i].turns)|
    ensures k < |steps[i].turns| && Slot(steps[i].execution, k) in states[i + 1].attempts
    ensures
      var slot, turn := Slot(steps[i].execution, k), steps[i].turns[k];
      var before, b := states[i].attempts, states[i + 1].attempts[slot];
      var entry := Results(before, steps[i].execution, steps[i].turns)[k];
      if slot in before && before[slot].status == Succeeded then
        && b == before[slot]
        && entry == map["action_index" := Number(k), "status" := Text("succeeded")] + b.result
      else if slot in before && before[slot].status == Processing && before[slot].leaseExpires.Some?
              && turn.at < before[slot].leaseExpires.value then
        b == before[slot] && entry == map["action_index" := Number(k), "status" := Text("processing")]
      else
        Recorded(b, entry, turn, k)
  {
    hide Next, Admissible, RowAfter, EntryOf, Recorded;
    RunStep(states, steps, i);
    StepOnRow(states[i], steps[i], Slot(steps[i].execution, k));
    TurnLeaves(Row(states[i].attempts, Slot(steps[i].execution, k)), steps[i].turns[k], k);
  }

  /** When a claim takes the row, by its status, and what it leaves. */
  lemma ClaimLeaves(s: State, step: Step)
    requires step.Claim?
    ensures
      var row, b := Row(s.attempts, step.slot), Row(Next(s, step).attempts, step.slot);
      var takes := b == Some(Attempt(Processing, Some(step.token), Some(step.at + step.lease),
                                     if row.Some? then row.value.result else map[]));
      if row.None? then takes
      else
        match row.value.status
        case Succeeded => b == row
        case Processing =>
          if row.value.leaseExpires.Some? && step.at < row.value.leaseExpires.value then b == row else takes
        case _ => takes
  {
  }

  /** When a finish is accepted, and what it leaves. */
  lemma FinishLeaves(s: State, step: Step)
    requires step.Finish? && step.slot in s.attempts
    ensures step.slot in Next(s, step).attempts
    ensures
      var a, b := s.attempts[step.slot], Next(s, step).attempts[step.slot];
      if a.token == Some(step.token) && step.status != Pending && step.status != Processing then
        b == Attempt(step.status, a.token, None, step.result)
      else b == a
  {
  }

  /** No action after the cut is touched, and no other execution's. */
  lemma ExecuteTouchesOnlyItsTurns(s: State, execution: nat, turns: seq<Turn>, slot: Slot)
    requires slot.execution != execution || slot.index >= |Results(s.attempts, execution, turns)|
    ensures Row(Next(s, Execute(execution, turns)).attempts, slot) == Row(s.attempts, slot)
  {
    StepOnRow(s, Execute(execution, turns), slot);
  }

  // ---------------------------------------------------------------- the missing status test of finish

  lemma Extend(states: seq<State>, steps: seq<Step>, step: Step, s: State)
      returns (states': seq<State>, steps': seq<Step>)
    requires IsRun(states, steps)
    requires Admissible(states[|steps|], step) && s == Next(states[|steps|], step)
    ensures states' == states + [s] && steps' == steps + [step] && IsRun(states', steps')
  {
    hide Next, Admissible;
    states', steps' := states + [s], steps + [step];
  }

  /**
   `finish` looks at the token and not at the status, so finishing one claim twice reopens a success; the
   dispatcher then calls the handler again and it succeeds a second time.
   */
  lemma FinishingTwiceRepeatsTheAction() returns (states: seq<State>, steps: seq<Step>)
    ensures IsRun(states, steps) && Count(states[|steps|].successes, Slot(0, 0)) == 2
  {
    var slot := Slot(0, 0);
    var s3: State;
    states, steps, s3 := SuccessFinishedAsFailure();
    var turns := [Turn(0, 2, Success(map[]))];
    var step := Execute(0, turns);
    assert Reach(s3.attempts, 0, turns, 0) == 1;
    assert Touches(s3, step, slot);
    StepOnCounts(s3, step, slot);
    states, steps := Extend(states, steps, step, Next(s3, step));
  }

  lemma SuccessFinishedAsFailure() returns (states: seq<State>, steps: seq<Step>, s: State)
    ensures IsRun(states, steps) && s == states[|steps|] && Count(s.successes, Slot(0, 0)) == 1
    ensures Row(s.attempts, Slot(0, 0)) == Some(Attempt(Failed, Some(1), None, map[])) && s.used == {1} && s.clock == 0
  {
    var slot := Slot(0, 0);
    var s1 := Next(EMPTY, Claim(slot, 1, LEASE, 0));
    assert Row(s1.attempts, slot) == Some(Attempt(Processing, Some(1), Some(LEASE), map[]));
    var s2 := Next(s1, Finish(slot, 1, Succeeded, map[], 0));
    assert Row(s2.attempts, slot) == Some(Attempt(Succeeded, Some(1), None, map[]));
    s := Next(s2, Finish(slot, 1, Failed, map[], 0));
    hide Next;
    states, steps := Extend([EMPTY], [], Claim(slot, 1, LEASE, 0), s1);
    states, steps := Extend(states, steps, Finish(slot, 1, Succeeded, map[], 0), s2);
    states, steps := Extend(states, steps, Finish(slot, 1, Failed, map[], 0), s);
  }

  // ---------------------------------------------------------------- leases and fencing

  predicate Releases(s: State, step: Step, slot: Slot, token: Token) {
    step.Finish? && step.slot == slot && step.token == token && IsFinal(step.status)
  }

  /** Every clock reading of the step lies before `deadline`. */
  predicate Early(step: Step, deadline: Time) {
    match step
    case Execute(_, turns) => forall t | t in turns :: t.at < deadline
    case Claim(_, _, _, at) => at < deadline
    case Finish(_, _, _, _, at) => true
  }

  lemma LeaseStep(s: State, step: Step, slot: Slot, row: Attempt)
    requires Row(s.attempts, slot) == Some(row) && row.status == Processing && row.leaseExpires.Some? && row.token.Some?
    requires Early(step, row.leaseExpires.value) && !Releases(s, step, slot, row.token.value)
    ensures Row(Next(s, step).attempts, slot) == Some(row)
  {
    StepOnRow(s, step, slot);
    if Touches(s, step, slot) {
      assert step.turns[slot.index] in step.turns;
    }
  }

  lemma {:induction false} LeaseIsKept(states: seq<State>, steps: seq<Step>, i: nat, k: nat, slot: Slot, row: Attempt)
    requires IsRun(states, steps) && i <= k < |states|
    requires Row(states[i].attempts, slot) == Some(row)
    requires row.status == Processing && row.leaseExpires.Some? && row.token.Some?
    requires forall m :: i <= m < k ==>
      Early(steps[m], row.leaseExpires.value) && !Releases(states[m], steps[m], slot, row.token.value)
    ensures Row(states[k].attempts, slot) == Some(row)
  {
    hide Next, Admissible, Early, Releases;
    if i == k {
    } else {
      LeaseIsKept(states, steps, i, k - 1, slot, row);
      LeaseStep(states[k - 1], steps[k - 1], slot, row);
    }
  }

  /**
   While a claim's lease runs and its holder has not finished, nobody else takes the row: a claim gets
   nothing, and a dispatcher reports "processing" and does not call the handler.
   */
  lemma NoSecondClaimUnderALiveLease(states: seq<State>, steps: seq<Step>, i: nat, j: nat)
    requires IsRun(states, steps) && i < j < |steps|
    requires steps[i].Claim? && Free(Row(states[i].attempts, steps[i].slot), steps[i].at)
    requires forall m :: i < m <= j ==> Early(steps[m], steps[i].at + steps[i].lease)
    requires forall m :: i < m < j ==> !Releases(states[m], steps[m], steps[i].slot, steps[i].token)
    ensures steps[j].Claim? && steps[j].slot == steps[i].slot ==>
      !Free(Row(states[j].attempts, steps[j].slot), steps[j].at)
    ensures
      var k := steps[i].slot.index;
      steps[j].Execute? && steps[j].execution == steps[i].slot.execution && k < |steps[j].turns| ==>
      && !Called(states[j].attempts, steps[j].execution, steps[j].turns, k)
      && EntryOf(Row(states[j].attempts, steps[i].slot), steps[j].turns[k], k) == Heading(k, "processing")
  {
    RunStep(states, steps, i);
    var slot := steps[i].slot;
    StepOnRow(states[i], steps[i], slot);
    LeaseIsKept(states, steps, i + 1, j, slot, Row(states[i + 1].attempts, slot).value);
    assert Early(steps[j], steps[i].at + steps[i].lease);
    if steps[j].Execute? && slot.execution == steps[j].execution && slot.index < |steps[j].turns| {
      assert steps[j].turns[slot.index] in steps[j].turns;
    }
  }

  predicate Lost(s: State, slot: Slot, token: Token) {
    token in s.used && slot in s.attempts && s.attempts[slot].token != Some(token)
  }

  lemma LostStep(s: State, step: Step, slot: Slot, token: Token)
    requires Admissible(s, step) && Lost(s, slot, token)
    ensures Lost(Next(s, step), slot, token)
  {
    StepOnRow(s, step, slot);
    if Touches(s, step, slot) {
      assert step.turns[slot.index] in step.turns;
    }
  }

  lemma {:induction false} LostStaysLost(states: seq<State>, steps: seq<Step>, i: nat, k: nat, slot: Slot, token: Token)
    requires IsRun(states, steps) && i <= k < |states| && Lost(states[i], slot, token)
    ensures Lost(states[k], slot, token)
  {
    hide Next, Lost;
    if i == k {
    } else {
      LostStaysLost(states, steps, i, k - 1, slot, token);
      LostStep(states[k - 1], steps[k - 1], slot, token);
    }
  }

  /** Fencing: once another claim took the row, the earlier token never finishes anything there again. */
  lemma SupersededTokenNeverFinishes(states: seq<State>, steps: seq<Step>, i: nat, k: nat, slot: Slot, token: Token)
    requires IsRun(states, steps) && i < k < |steps|
    requires Row(states[i].attempts, slot).Some? && states[i].attempts[slot].token == Some(token)
    requires After(states[i], steps[i], slot).value.token != Some(token)
    requires steps[k].Finish? && steps[k].slot == slot && steps[k].token == token
    ensures !Accepts(Row(states[k].attempts, slot), token, steps[k].status)
    ensures states[k + 1].attempts == states[k].attempts
  {
    RunKeepsRowOk(states, steps, i, slot);
    RunStep(states, steps, i);
    RunStep(states, steps, k);
    StepOnRow(states[i], steps[i], slot);
    Monotone(states[i], steps[i]);
    LostStaysLost(states, steps, i + 1, k, slot, token);
  }

  // ---------------------------------------------------------------- the mutable ledger

  lemma WorkedNone(attempts: map<Slot, Attempt>, execution: nat, turns: seq<Turn>)
    ensures Worked(attempts, execution, turns, 0) == attempts
  {
  }

  lemma WorkedOne(attempts: map<Slot, Attempt>, execution: nat, turns: seq<Turn>, m: nat)
    requires m < |turns|
    ensures var before := Worked(attempts, execution, turns, m);
      && Row(before, Slot(execution, m)) == Row(attempts, Slot(execution, m))
      && Worked(attempts, execution, turns, m + 1)
         == before[Slot(execution, m) := RowAfter(Row(attempts, Slot(execution, m)), turns[m])]
  {
    assert Slots(execution, m + 1) == Slots(execution, m) + {Slot(execution, m)};
  }

  lemma NotTaken(attempts: map<Slot, Attempt>, execution: nat, turns: seq<Turn>, m: nat)
    requires m < |turns| && !Called(attempts, execution, turns, m)
    ensures Worked(attempts, execution, turns, m + 1) == Worked(attempts, execution, turns, m)
  {
    WorkedOne(attempts, execution, turns, m);
  }

  class Ledger {
    var attempts: map<Slot, Attempt>
    ghost var now: State
    ghost var states: seq<State>
    ghost var steps: seq<Step>

    ghost predicate Valid()
      reads this
    {
      IsRun(states, steps) && states[|steps|] == now && now.attempts == attempts
    }

    constructor ()
      ensures Valid() && steps == []
    {
      attempts, now := map[], EMPTY;
      states, steps := [EMPTY], [];
    }

    ghost method Record(step: Step)
      requires IsRun(states, steps) && states[|steps|] == now && Admissible(now, step)
      requires Next(now, step).attempts == attempts
      modifies this`now, this`states, this`steps
      ensures Valid() && now == Next(old(now), step)
      ensures steps == old(steps) + [step] && states == old(states) + [now]
    {
      hide Next, Admissible;
      now := Next(now, step);
      states, steps := Extend(states, steps, step, now);
    }

    /** Lock or insert the row; None while somebody else's lease runs, the untouched row if it succeeded. */
    method ClaimRow(slot: Slot, token: Token, lease: Time, at: Time) returns (attempt: Option<Attempt>)
      modifies this`attempts
      ensures var row := Row(old(attempts), slot);
        && attempts == (if Free(row, at) then old(attempts)[slot := Claimed(row, token, at + lease)] else old(attempts))
        && attempt == (if Leased(row, at) then None else Row(attempts, slot))
    {
      if slot in attempts {
        var row := attempts[slot];
        if row.status == Succeeded {
          return Some(row);
        }
        if row.status == Processing && row.leaseExpires.Some? && row.leaseExpires.value > at {
          return None;
        }
      } else {
        attempts := attempts[slot := Attempt(Pending, None, None, map[])];
      }
      var row := attempts[slot].(status := Processing);
      row := row.(token := Some(token));
      row := row.(leaseExpires := Some(at + lease));
      attempts := attempts[slot := row];
      return Some(row);
    }

    method FinishRow(slot: Slot, token: Token, status: Status, result: Entry) returns (ok: bool)
      requires slot in attempts
      modifies this`attempts
      ensures ok == Accepts(Row(old(attempts), slot), token, status)
      ensures attempts ==
        if ok then old(attempts)[slot := Finished(old(attempts)[slot], status, result)] else old(attempts)
    {
      var row := attempts[slot];
      if row.token != Some(token)
         || (status != Succeeded && status != Failed && status != Unknown && status != Cancelled) {
        return false;
      }
      row := row.(status := status);
      row := row.(result := result, leaseExpires := None);
      attempts := attempts[slot := row];
      return true;
    }

    method Claim(slot: Slot, token: Token, lease: Time, at: Time) returns (attempt: Option<Attempt>)
      requires Valid() && Admissible(now, Step.Claim(slot, token, lease, at))
      modifies this
      ensures Valid() && now == Next(old(now), Step.Claim(slot, token, lease, at))
      ensures steps == old(steps) + [Step.Claim(slot, token, lease, at)]
      ensures attempt.None? <==> Leased(Row(old(attempts), slot), at)
      ensures attempt.Some? ==> attempt == Row(attempts, slot)
      ensures attempt.Some? ==> (attempt.value.token == Some(token) <==> Free(Row(old(attempts), slot), at))
    {
      RunKeepsRowOk(states, steps, |steps|, slot);
      attempt := ClaimRow(slot, token, lease, at);
      Record(Step.Claim(slot, token, lease, at));
    }

    method Finish(slot: Slot, token: Token, status: Status, result: Entry, at: Time) returns (ok: bool)
      requires Valid() && slot in attempts && Admissible(now, Step.Finish(slot, token, status, result, at))
      modifies this
      ensures Valid() && now == Next(old(now), Step.Finish(slot, token, status, result, at))
      ensures steps == old(steps) + [Step.Finish(slot, token, status, result, at)]
      ensures ok == Accepts(Row(old(attempts), slot), token, status)
    {
      ok := FinishRow(slot, token, status, result);
      Record(Step.Finish(slot, token, status, result, at));
    }

    /** One turn of the loop: claim, call the handler, finish under the row's token. */
    method Work(execution: nat, index: nat, turn: Turn) returns (entry: Entry, called: bool)
      modifies this`attempts
      ensures var slot := Slot(execution, index);
        var row := Row(old(attempts), slot);
        && called == Free(row, turn.at)
        && entry == EntryOf(row, turn, index)
        && attempts == (if called then old(attempts)[slot := RowAfter(row, turn)] else old(attempts))
    {
      called := false;
      var slot := Slot(execution, index);
      var attempt := ClaimRow(slot, turn.token, LEASE, turn.at);
      if attempt.None? {
        return Heading(index, "processing"), false;
      }
      if attempt.value.status == Succeeded {
        return Heading(index, "succeeded") + attempt.value.result, false;
      }
      called := true;
      var token := if attempt.value.token.Some? then attempt.value.token.value else 0;
      match turn.outcome {
        case Success(result) =>
          var ok := FinishRow(slot, token, Succeeded, result);
          entry := Heading(index, "succeeded") + result;
        case Failure(error) =>
          var ok := FinishRow(slot, token, Failed, map["error" := Text(error)]);
          entry := Heading(index, "failed") + map["error" := Text(error)];
        case Timeout(error) =>
          var ok := FinishRow(slot, token, Unknown, map["error" := Text(error)]);
          entry := Heading(index, "unknown") + map["error" := Text(error)];
      }
    }

    method ExecuteActions(execution: nat, turns: seq<Turn>) returns (results: seq<Entry>)
      requires Valid() && Admissible(now, Execute(execution, turns))
      modifies this
      ensures Valid() && now == Next(old(now), Execute(execution, turns))
      ensures steps == old(steps) + [Execute(execution, turns)]
      ensures results == Results(old(attempts), execution, turns)
    {
      hide Admissible;
      results := RunActions(execution, turns);
      Record(Execute(execution, turns));
    }

    method RunActions(execution: nat, turns: seq<Turn>) returns (results: seq<Entry>)
      modifies this`attempts
      ensures results == Results(old(attempts), execution, turns)
      ensures attempts == Worked(old(attempts), execution, turns, Reach(old(attempts), execution, turns, 0))
    {
      hide Worked, EntryOf, RowAfter;
      ghost var before := attempts;
      results := [];
      WorkedNone(before, execution, turns);
      for index := 0 to |turns|
        invariant |results| == index && attempts == Worked(before, execution, turns, index)
        invariant Reach(before, execution, turns, 0) == Reach(before, execution, turns, index)
        invariant forall k :: 0 <= k < index ==> results[k] == EntryOf(Row(before, Slot(execution, k)), turns[k], k)
      {
        WorkedOne(before, execution, turns, index);
        var entry, called := Work(execution, index, turns[index]);
        results := results + [entry];
        if called {
          if turns[index].outcome.Timeout? {
            break;
          }
        } else {
          NotTaken(before, execution, turns, index);
        }
      }
    }
  }
}
