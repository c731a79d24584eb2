/**
 Conversation timers, the transactional outbox they feed, and the relay that hands outbox rows to the queue.

 Inbound messages and accepted outbound messages cancel and schedule timers, due timers are fired into the
 outbox, and due outbox rows are enqueued. Row selection is by (time, id) as in the queries.
 */
module Timers {
  import opened Common
  import opened Ordering

  type ConversationId = nat
  type RuleId = nat
  type TimerId = nat
  type EventId = nat

  datatype Trigger = TeamUnanswered | CustomerUnanswered | OtherTrigger

  datatype Rule = Rule(enabled: bool, version: nat, trigger: Trigger, duration: Option<nat>)

  datatype TimerStatus = Pending | Fired | Cancelled

  datatype Timer = Timer(
    conversation: ConversationId,
    rule: RuleId,
    ruleVersion: nat,
    trigger: Trigger,
    activity: nat,
    deadline: Time,
    status: TimerStatus)

  /** An outbox row; `timer` is the timer id in its payload, if the event came from one. */
  datatype Row = Row(timer: Option<TimerId>, createdAt: Time, attempts: nat, published: Option<Time>, nextAttempt: Time)

  datatype State = State(
    rules: map<RuleId, Rule>,
    closed: map<ConversationId, bool>,
    timers: map<TimerId, Timer>,
    outbox: map<EventId, Row>,
    enqueued: seq<EventId>,
    usedRules: set<RuleId>,
    usedTimers: set<TimerId>)

  datatype Step =
    | PutRule(r: RuleId, enabled: bool, trigger: Trigger, duration: Option<nat>)
    | DeleteRule(r: RuleId)
    | PutConversation(c: ConversationId, isClosed: bool)
      /** `matching`: the enabled rules of the trigger, in the order of the query; `ids`: the ids drawn. */
    | Inbound(c: ConversationId, matching: seq<RuleId>, ids: seq<TimerId>, at: Time)
    | Outbound(c: ConversationId, author: Author, matching: seq<RuleId>, ids: seq<TimerId>, at: Time)
    | Fire(limit: nat, events: seq<EventId>, at: Time)
    | Publish(event: EventId, at: Time)
      /** `accepted[i]`: whether the queue takes the i-th row of the batch. */
    | Relay(limit: nat, accepted: seq<bool>, at: Time)

  // ---------------------------------------------------------------- scheduling and cancelling

  predicate Waiting(t: Timer, c: ConversationId) {
    t.status == Pending && t.conversation == c
  }

  function CancelFor(timers: map<TimerId, Timer>, c: ConversationId, trigger: Trigger): map<TimerId, Timer> {
    map t | t in timers ::
      if Waiting(timers[t], c) && timers[t].trigger == trigger then timers[t].(status := Cancelled) else timers[t]
  }

  predicate HasPending(timers: map<TimerId, Timer>, c: ConversationId, r: RuleId, trigger: Trigger) {
    exists t | t in timers :: Waiting(timers[t], c) && timers[t].rule == r && timers[t].trigger == trigger
  }

  function Activities(timers: map<TimerId, Timer>, c: ConversationId, r: RuleId): set<nat> {
    set t | t in timers && timers[t].conversation == c && timers[t].rule == r :: timers[t].activity
  }

  lemma {:induction false} GreatestExists(s: set<nat>) returns (greatest: nat)
    requires s != {}
    ensures greatest in s && forall x | x in s :: x <= greatest
  {
    greatest :| greatest in s;
    if s != {greatest} {
      var rest := GreatestExists(s - {greatest});
      assert forall x | x in s :: x == greatest || x in s - {greatest};
      greatest := if greatest < rest then rest else greatest;
    }
  }

  /** The query for the latest activity version, 0 if there is none. */
  function Latest(s: set<nat>): (greatest: nat)
    ensures forall x | x in s :: x <= greatest
  {
    if s == {} then 0
    else
      assert exists g | g in s :: forall x | x in s :: x <= g by {
        var g := GreatestExists(s);
      }
      var g :| g in s && forall x | x in s :: x <= g;
      g
  }

  /** One rule: nothing while it has a pending timer, else a timer with the next activity version. */
  function ScheduleOne(rules: map<RuleId, Rule>, timers: map<TimerId, Timer>, c: ConversationId, trigger: Trigger,
                       r: RuleId, id: TimerId, at: Time): map<TimerId, Timer>
    requires r in rules
  {
    if HasPending(timers, c, r, trigger) then timers
    else
      var rule := rules[r];
      var seconds := if rule.duration.Some? then rule.duration.value else 0;
      var activity := Latest(Activities(timers, c, r)) + 1;
      timers[id := Timer(c, r, rule.version, trigger, activity, at + seconds * SECOND, Pending)]
  }

  function ScheduleAll(rules: map<RuleId, Rule>, timers: map<TimerId, Timer>, c: ConversationId, trigger: Trigger,
                       matching: seq<RuleId>, ids: seq<TimerId>, at: Time): map<TimerId, Timer>
    requires |matching| == |ids| && forall r | r in matching :: r in rules
  {
    if matching == [] then timers
    else
      var n := |matching| - 1;
      ScheduleOne(rules, ScheduleAll(rules, timers, c, trigger, matching[..n], ids[..n], at),
                  c, trigger, matching[n], ids[n], at)
  }

  // ---------------------------------------------------------------- firing

  predicate Due(t: Timer, at: Time) {
    t.status == Pending && t.deadline <= at
  }

  function DueTimers(timers: map<TimerId, Timer>, at: Time): set<Key> {
    set t | t in timers && Due(timers[t], at) :: Key(timers[t].deadline, t)
  }

  predicate StillValid(s: State, t: Timer) {
    && t.rule in s.rules && s.rules[t.rule].enabled && s.rules[t.rule].version == t.ruleVersion
    && t.conversation in s.closed && !s.closed[t.conversation]
  }

  /** One due timer: fired together with its outbox row, or cancelled if rule or conversation moved on. */
  function FireOne(s: State, t: TimerId, event: EventId, at: Time): State
    requires t in s.timers
  {
    if StillValid(s, s.timers[t]) then
      s.(timers := s.timers[t := s.timers[t].(status := Fired)],
         outbox := s.outbox[event := Row(Some(t), at, 0, None, at)])
    else
      s.(timers := s.timers[t := s.timers[t].(status := Cancelled)])
  }

  function FireAll(s: State, batch: seq<Key>, events: seq<EventId>, at: Time): (s': State)
    requires |batch| <= |events| && forall k | k in batch :: k.id in s.timers
    ensures s'.timers.Keys == s.timers.Keys
  {
    if batch == [] then s
    else
      var n := |batch| - 1;
      FireOne(FireAll(s, batch[..n], events, at), batch[n].id, events[n], at)
  }

  // ---------------------------------------------------------------- relaying

  predicate Deliverable(row: Row, at: Time) {
    row.published.None? && row.nextAttempt <= at
  }

  function DueRows(outbox: map<EventId, Row>, at: Time): set<Key> {
    set e | e in outbox && Deliverable(outbox[e], at) :: Key(outbox[e].createdAt, e)
  }

  function Pow2(n: nat): nat {
    if n == 0 then 1 else 2 * Pow2(n - 1)
  }

  /** Seconds until the next attempt after a failed one. */
  function RelayDelay(attempts: nat): nat {
    var power := Pow2(if attempts < 8 then attempts else 8);
    if power < 300 then power else 300
  }

  function RelayOne(s: State, e: EventId, accepted: bool, at: Time): State
    requires e in s.outbox
  {
    var row := s.outbox[e].(attempts := s.outbox[e].attempts + 1);
    if accepted then
      s.(outbox := s.outbox[e := row.(published := Some(at), nextAttempt := at)], enqueued := s.enqueued + [e])
    else
      s.(outbox := s.outbox[e := row.(nextAttempt := at + RelayDelay(row.attempts) * SECOND)])
  }

  function RelayAll(s: State, batch: seq<Key>, accepted: seq<bool>, at: Time): (s': State)
    requires |batch| <= |accepted| && forall k | k in batch :: k.id in s.outbox
    ensures s'.outbox.Keys == s.outbox.Keys
  {
    if batch == [] then s
    else
      var n := |batch| - 1;
      RelayOne(RelayAll(s, batch[..n], accepted, at), batch[n].id, accepted[n], at)
  }

  // ---------------------------------------------------------------- one call

  function FireBatch(s: State, limit: nat, at: Time): (batch: seq<Key>)
    ensures forall k | k in batch :: k.id in s.timers
  {
    var rows := Sorted(DueTimers(s.timers, at));
    assert forall i :: 0 <= i < |rows| ==> rows[i] in rows;
    Take(rows, limit)
  }

  function RelayBatch(s: State, limit: nat, at: Time): (batch: seq<Key>)
    ensures forall k | k in batch :: k.id in s.outbox
  {
    var rows := Sorted(DueRows(s.outbox, at));
    assert forall i :: 0 <= i < |rows| ==> rows[i] in rows;
    Take(rows, limit)
  }

  /** The rows of the query `enabled and trigger_type == trigger`, in some order. */
  predicate Matches(rules: map<RuleId, Rule>, trigger: Trigger, matching: seq<RuleId>) {
    && (forall i, j :: 0 <= i < j < |matching| ==> matching[i] != matching[j])
    && (forall r | r in matching :: r in rules && rules[r].enabled && rules[r].trigger == trigger)
    && (forall r | r in rules && rules[r].enabled && rules[r].trigger == trigger :: r in matching)
  }

  predicate Distinct(ids: seq<nat>) {
    forall i, j :: 0 <= i < j < |ids| ==> ids[i] != ids[j]
  }

  /** Queries return what they select; ids drawn are new. */
  predicate Admissible(s: State, step: Step) {
    match step
    case PutRule(r, _, _, _) => r in s.rules || r !in s.usedRules
    case DeleteRule(_) => true
    case PutConversation(_, _) => true
    case Inbound(_, matching, ids, _) =>
      && Matches(s.rules, TeamUnanswered, matching) && |ids| == |matching|
      && Distinct(ids) && (forall t | t in ids :: t !in s.usedTimers)
    case Outbound(_, _, matching, ids, _) =>
      && Matches(s.rules, CustomerUnanswered, matching) && |ids| == |matching|
      && Distinct(ids) && (forall t | t in ids :: t !in s.usedTimers)
    case Fire(limit, events, at) =>
      |FireBatch(s, limit, at)| <= |events| && Distinct(events) && (forall e | e in events :: e !in s.outbox)
    case Publish(event, _) => event !in s.outbox
    case Relay(limit, accepted, at) => |RelayBatch(s, limit, at)| <= |accepted|
  }

  predicate Schedules(author: Author) {
    author == User || author == Ai || author == Automation
  }

  function Drawn(ids: seq<TimerId>): set<TimerId> {
    set t | t in ids
  }

  function Next(s: State, step: Step): State
    requires Admissible(s, step)
  {
    match step
    case PutRule(r, enabled, trigger, duration) =>
      var version := if r in s.rules then s.rules[r].version + 1 else 1;
      s.(rules := s.rules[r := Rule(enabled, version, trigger, duration)], usedRules := s.usedRules + {r})
    case DeleteRule(r) =>
      s.(rules := s.rules - {r}, timers := map t | t in s.timers && s.timers[t].rule != r :: s.timers[t])
    case PutConversation(c, isClosed) =>
      s.(closed := s.closed[c := isClosed])
    case Inbound(c, matching, ids, at) =>
      s.(timers := ScheduleAll(s.rules, CancelFor(s.timers, c, CustomerUnanswered),
                               c, TeamUnanswered, matching, ids, at),
         usedTimers := s.usedTimers + Drawn(ids))
    case Outbound(c, author, matching, ids, at) =>
      var cancelled := CancelFor(s.timers, c, TeamUnanswered);
      s.(timers := if Schedules(author)
                   then ScheduleAll(s.rules, cancelled, c, CustomerUnanswered, matching, ids, at)
                   else cancelled,
         usedTimers := s.usedTimers + Drawn(ids))
    case Fire(limit, events, at) => FireAll(s, FireBatch(s, limit, at), events, at)
    case Publish(event, at) => s.(outbox := s.outbox[event := Row(None, at, 0, None, at)])
    case Relay(limit, accepted, at) => RelayAll(s, RelayBatch(s, limit, at), accepted, at)
  }

  // ---------------------------------------------------------------- scheduling keeps timers exclusive

  predicate Unanswered(trigger: Trigger) {
    trigger == TeamUnanswered || trigger == CustomerUnanswered
  }

  /** Pending timers of one conversation agree on the trigger and differ in the rule. */
  predicate Exclusive(timers: map<TimerId, Timer>) {
    && (forall t | t in timers && timers[t].status == Pending :: Unanswered(timers[t].trigger))
    && (forall t, u | t in timers && u in timers && t != u && timers[t].status == Pending
                      && Waiting(timers[u], timers[t].conversation) ::
          timers[t].trigger == timers[u].trigger && timers[t].rule != timers[u].rule)
  }

  /** Activity versions of one conversation and rule are all different. */
  predicate VersionsDiffer(timers: map<TimerId, Timer>) {
    forall t, u | t in timers && u in timers && t != u
                  && timers[t].conversation == timers[u].conversation && timers[t].rule == timers[u].rule ::
      timers[t].activity != timers[u].activity
  }

  predicate OnlyTrigger(timers: map<TimerId, Timer>, c: ConversationId, trigger: Trigger) {
    forall t | t in timers && Waiting(timers[t], c) :: timers[t].trigger == trigger
  }

  /** Rows stay as they are, and a new row is pending with an activity version above all earlier ones. */
  predicate Grows(before: map<TimerId, Timer>, after: map<TimerId, Timer>, c: ConversationId, trigger: Trigger) {
    && (forall t | t in before :: t in after && after[t] == before[t])
    && (forall u | u in after && u !in before ::
          && after[u].conversation == c && after[u].trigger == trigger && after[u].status == Pending
          && (forall t | t in before && before[t].conversation == c && before[t].rule == after[u].rule ::
                before[t].activity < after[u].activity))
  }

  lemma OneScheduled(rules: map<RuleId, Rule>, timers: map<TimerId, Timer>, c: ConversationId, trigger: Trigger,
                     r: RuleId, id: TimerId, at: Time)
    requires r in rules && id !in timers && Unanswered(trigger)
    requires Exclusive(timers) && VersionsDiffer(timers) && OnlyTrigger(timers, c, trigger)
    ensures var timers' := ScheduleOne(rules, timers, c, trigger, r, id, at);
      && Exclusive(timers') && VersionsDiffer(timers') && OnlyTrigger(timers', c, trigger)
      && Grows(timers, timers', c, trigger)
      && timers'.Keys <= timers.Keys + {id}
      && (id in timers' ==> timers'[id].rule == r)
  {
    forall t | t in timers && timers[t].conversation == c && timers[t].rule == r
      ensures timers[t].activity <= Latest(Activities(timers, c, r))
    {
      assert timers[t].activity in Activities(timers, c, r);
    }
  }

  lemma NothingScheduled(timers: map<TimerId, Timer>, c: ConversationId, trigger: Trigger)
    ensures Grows(timers, timers, c, trigger)
  {
  }

  lemma GrowsOn(a: map<TimerId, Timer>, b: map<TimerId, Timer>, d: map<TimerId, Timer>,
                c: ConversationId, trigger: Trigger)
    requires Grows(a, b, c, trigger) && Grows(b, d, c, trigger)
    ensures Grows(a, d, c, trigger)
  {
  }

  lemma GrowsKeeps(a: map<TimerId, Timer>, b: map<TimerId, Timer>, c: ConversationId, trigger: Trigger)
    requires Grows(a, b, c, trigger)
    ensures forall t | t in a :: t in b && b[t] == a[t]
  {
  }

  lemma {:induction false} AllScheduled(rules: map<RuleId, Rule>, timers: map<TimerId, Timer>, c: ConversationId,
                     trigger: Trigger, matching: seq<RuleId>, ids: seq<TimerId>, at: Time)
    requires |matching| == |ids| && (forall r | r in matching :: r in rules)
    requires Distinct(ids) && (forall t | t in ids :: t !in timers) && Unanswered(trigger)
    requires Exclusive(timers) && VersionsDiffer(timers) && OnlyTrigger(timers, c, trigger)
    ensures var timers' := ScheduleAll(rules, timers, c, trigger, matching, ids, at);
      && Exclusive(timers') && VersionsDiffer(timers') && OnlyTrigger(timers', c, trigger)
      && Grows(timers, timers', c, trigger)
      && timers'.Keys <= timers.Keys + Drawn(ids)
      && (forall t | t in timers' && t !in timers :: timers'[t].rule in matching)
  {
    hide Exclusive, VersionsDiffer, OnlyTrigger, Grows, ScheduleOne;
    if matching == [] {
      NothingScheduled(timers, c, trigger);
    } else {
      var n := |matching| - 1;
      AllScheduled(rules, timers, c, trigger, matching[..n], ids[..n], at);
      var timers1 := ScheduleAll(rules, timers, c, trigger, matching[..n], ids[..n], at);
      assert ids[n] !in Drawn(ids[..n]);
      assert forall t | t in Drawn(ids[..n]) :: t in ids;
      OneScheduled(rules, timers1, c, trigger, matching[n], ids[n], at);
      assert matching[n] in matching && ids[n] in ids;
      GrowsOn(timers, timers1, ScheduleOne(rules, timers1, c, trigger, matching[n], ids[n], at), c, trigger);
      GrowsKeeps(timers1, ScheduleOne(rules, timers1, c, trigger, matching[n], ids[n], at), c, trigger);
    }
  }

  /** Cancelling the other side's timers leaves only one trigger pending in the conversation. */
  lemma CancellingClears(timers: map<TimerId, Timer>, c: ConversationId, trigger: Trigger, other: Trigger)
    requires Exclusive(timers) && VersionsDiffer(timers)
    requires Unanswered(trigger) && Unanswered(other) && trigger != other
    ensures var timers' := CancelFor(timers, c, trigger);
      Exclusive(timers') && VersionsDiffer(timers') && OnlyTrigger(timers', c, other)
  {
  }

  // ---------------------------------------------------------------- the invariant

  ghost predicate TimersOk(s: State) {
    && Exclusive(s.timers) && VersionsDiffer(s.timers)
    && s.timers.Keys <= s.usedTimers && s.rules.Keys <= s.usedRules
    && (forall t | t in s.timers :: s.timers[t].rule in s.usedRules)
  }

  predicate Carries(s: State, e: EventId, t: TimerId) {
    e in s.outbox && s.outbox[e].timer == Some(t)
  }

  ghost predicate Carried(s: State, t: TimerId) {
    exists e :: Carries(s, e, t)
  }

  /** A timer is fired exactly when an outbox row carries its id, and no two rows carry the same. */
  ghost predicate OutboxOk(s: State) {
    && (forall e, t | Carries(s, e, t) :: t in s.usedTimers)
    && (forall t | t in s.timers :: s.timers[t].status == Fired <==> Carried(s, t))
    && (forall e, f, t | Carries(s, e, t) && Carries(s, f, t) :: e == f)
  }

  function Enqueues(s: State, e: EventId): nat {
    multiset(s.enqueued)[e]
  }

  predicate IsPublished(s: State, e: EventId) {
    e in s.outbox && s.outbox[e].published.Some?
  }

  /** A row was taken by the queue once if it is published, and never if not. */
  ghost predicate QueueOk(s: State) {
    forall e :: Enqueues(s, e) == if IsPublished(s, e) then 1 else 0
  }

  ghost predicate Inv(s: State) {
    TimersOk(s) && OutboxOk(s) && QueueOk(s)
  }

  // ---------------------------------------------------------------- firing a batch

  /** What a loop over pending timers and fresh event ids needs. */
  ghost predicate Fireable(s: State, batch: seq<Key>, events: seq<EventId>) {
    && |batch| <= |events|
    && (forall i :: 0 <= i < |batch| ==> batch[i].id in s.timers && s.timers[batch[i].id].status == Pending)
    && (forall i, j :: 0 <= i < j < |batch| ==> batch[i].id != batch[j].id)
    && Distinct(events) && (forall e | e in events :: e !in s.outbox)
  }

  lemma {:induction false} FiringLeavesTheRest(s: State, batch: seq<Key>, events: seq<EventId>, at: Time, n: nat)
    requires Fireable(s, batch, events) && n <= |batch|
    ensures var s' := FireAll(s, batch[..n], events, at);
      && s'.rules == s.rules && s'.closed == s.closed && s'.enqueued == s.enqueued
      && s'.usedTimers == s.usedTimers && s'.usedRules == s.usedRules
      && (forall t | t in s.timers && (forall i :: 0 <= i < n ==> batch[i].id != t) :: s'.timers[t] == s.timers[t])
      && (forall e | e in s'.outbox :: e in s.outbox || exists i :: 0 <= i < n && e == events[i])
  {
    if n == 0 {
    } else {
      assert batch[..n][..n - 1] == batch[..n - 1];
      FiringLeavesTheRest(s, batch, events, at, n - 1);
    }
  }

  lemma FireOneKeepsTimers(s: State, t: TimerId, event: EventId, at: Time)
    requires TimersOk(s) && t in s.timers && s.timers[t].status == Pending
    ensures TimersOk(FireOne(s, t, event, at))
  {
  }

  lemma FireOneKeepsOutbox(s: State, t: TimerId, event: EventId, at: Time)
    requires TimersOk(s) && OutboxOk(s) && t in s.timers && s.timers[t].status == Pending && event !in s.outbox
    ensures OutboxOk(FireOne(s, t, event, at))
  {
    var s' := FireOne(s, t, event, at);
    assert !Carried(s, t);
    assert forall e, u | Carries(s, e, u) :: Carries(s', e, u);
    assert forall e, u | Carries(s', e, u) :: Carries(s, e, u) || (e == event && u == t && StillValid(s, s.timers[t]));
    assert StillValid(s, s.timers[t]) ==> Carries(s', event, t);
    forall u | u in s'.timers
      ensures s'.timers[u].status == Fired <==> Carried(s', u)
    {
      if Carried(s, u) {
        var e :| Carries(s, e, u);
        assert Carries(s', e, u);
      }
    }
  }

  lemma FireOneKeepsQueue(s: State, t: TimerId, event: EventId, at: Time)
    requires QueueOk(s) && t in s.timers && event !in s.outbox
    ensures QueueOk(FireOne(s, t, event, at))
  {
    var s' := FireOne(s, t, event, at);
    forall e
      ensures Enqueues(s', e) == if IsPublished(s', e) then 1 else 0
    {
      assert Enqueues(s, e) == if IsPublished(s, e) then 1 else 0;
    }
  }

  lemma {:induction false} FiringKeepsInv(s: State, batch: seq<Key>, events: seq<EventId>, at: Time, n: nat)
    requires Inv(s) && Fireable(s, batch, events) && n <= |batch|
    ensures Inv(FireAll(s, batch[..n], events, at))
  {
    hide TimersOk, OutboxOk, QueueOk, FireOne;
    if n == 0 {
      assert batch[..0] == [];
    } else {
      assert batch[..n][..n - 1] == batch[..n - 1];
      FiringKeepsInv(s, batch, events, at, n - 1);
      FiringLeavesTheRest(s, batch, events, at, n - 1);
      var s1, t := FireAll(s, batch[..n - 1], events, at), batch[n - 1].id;
      assert events[n - 1] in events;
      FireOneKeepsTimers(s1, t, events[n - 1], at);
      FireOneKeepsOutbox(s1, t, events[n - 1], at);
      FireOneKeepsQueue(s1, t, events[n - 1], at);
    }
  }

  /** The batch of the query consists of pending timers, each once. */
  lemma BatchIsFireable(s: State, limit: nat, events: seq<EventId>, at: Time)
    requires |FireBatch(s, limit, at)| <= |events| && Distinct(events) && (forall e | e in events :: e !in s.outbox)
    ensures Fireable(s, FireBatch(s, limit, at), events)
  {
    var rows := Sorted(DueTimers(s.timers, at));
    assert forall i :: 0 <= i < |rows| ==> rows[i] in rows;
    forall i, j | 0 <= i < j < |rows|
      ensures rows[i].id != rows[j].id
    {
      assert Before(rows[i], rows[j]);
    }
  }

  // ---------------------------------------------------------------- relaying a batch

  ghost predicate Relayable(s: State, batch: seq<Key>, accepted: seq<bool>) {
    && |batch| <= |accepted|
    && (forall i :: 0 <= i < |batch| ==> batch[i].id in s.outbox && s.outbox[batch[i].id].published.None?)
    && (forall i, j :: 0 <= i < j < |batch| ==> batch[i].id != batch[j].id)
  }

  lemma BatchIsRelayable(s: State, limit: nat, accepted: seq<bool>, at: Time)
    requires |RelayBatch(s, limit, at)| <= |accepted|
    ensures Relayable(s, RelayBatch(s, limit, at), accepted)
  {
    var rows := Sorted(DueRows(s.outbox, at));
    assert forall i :: 0 <= i < |rows| ==> rows[i] in rows;
    forall i, j | 0 <= i < j < |rows|
      ensures rows[i].id != rows[j].id
    {
      assert Before(rows[i], rows[j]);
    }
  }

  /** Relaying touches neither cargo nor timestamps of creation, and no row outside the batch. */
  predicate SameCargo(s: State, s': State) {
    && s'.outbox.Keys == s.outbox.Keys
    && s' == s.(outbox := s'.outbox, enqueued := s'.enqueued)
    && forall e | e in s.outbox ::
         s'.outbox[e].timer == s.outbox[e].timer && s'.outbox[e].createdAt == s.outbox[e].createdAt
  }

  lemma RelayOneKeepsCargo(s: State, s1: State, e: EventId, taken: bool, at: Time)
    requires SameCargo(s, s1) && e in s1.outbox
    ensures SameCargo(s, RelayOne(s1, e, taken, at))
    ensures forall f | f in s.outbox && f != e :: RelayOne(s1, e, taken, at).outbox[f] == s1.outbox[f]
  {
  }

  lemma {:induction false} RelayingLeavesTheRest(s: State, batch: seq<Key>, accepted: seq<bool>, at: Time, n: nat)
    requires Relayable(s, batch, accepted) && n <= |batch|
    ensures var s' := RelayAll(s, batch[..n], accepted, at);
      && SameCargo(s, s')
      && (forall e | e in s.outbox && (forall i :: 0 <= i < n ==> batch[i].id != e) :: s'.outbox[e] == s.outbox[e])
  {
    hide RelayOne;
    if n == 0 {
      assert batch[..0] == [];
    } else {
      assert batch[..n][..n - 1] == batch[..n - 1];
      RelayingLeavesTheRest(s, batch, accepted, at, n - 1);
      RelayOneKeepsCargo(s, RelayAll(s, batch[..n - 1], accepted, at), batch[n - 1].id, accepted[n - 1], at);
    }
  }

  lemma RelayOneKeepsQueue(s: State, e: EventId, taken: bool, at: Time)
    requires QueueOk(s) && e in s.outbox && s.outbox[e].published.None?
    ensures QueueOk(RelayOne(s, e, taken, at))
  {
    var s' := RelayOne(s, e, taken, at);
    forall f
      ensures Enqueues(s', f) == if IsPublished(s', f) then 1 else 0
    {
      assert Enqueues(s, f) == if IsPublished(s, f) then 1 else 0;
    }
  }

  lemma {:induction false} RelayingKeepsQueue(s: State, batch: seq<Key>, accepted: seq<bool>, at: Time, n: nat)
    requires QueueOk(s) && Relayable(s, batch, accepted) && n <= |batch|
    ensures QueueOk(RelayAll(s, batch[..n], accepted, at))
  {
    hide QueueOk, RelayOne;
    if n == 0 {
      assert batch[..0] == [];
    } else {
      assert batch[..n][..n - 1] == batch[..n - 1];
      RelayingKeepsQueue(s, batch, accepted, at, n - 1);
      RelayingLeavesTheRest(s, batch, accepted, at, n - 1);
      RelayOneKeepsQueue(RelayAll(s, batch[..n - 1], accepted, at), batch[n - 1].id, accepted[n - 1], at);
    }
  }

  lemma SameCargoKeepsOutbox(s: State, s': State)
    requires OutboxOk(s) && s'.timers == s.timers && s'.usedTimers == s.usedTimers && s'.outbox.Keys == s.outbox.Keys
    requires forall e | e in s.outbox :: s'.outbox[e].timer == s.outbox[e].timer
    ensures OutboxOk(s')
  {
    assert forall e, t :: Carries(s, e, t) <==> Carries(s', e, t);
    assert forall t :: Carried(s, t) <==> Carried(s', t);
  }

  // ---------------------------------------------------------------- every step keeps it

  ghost predicate Rescheduled(s: State, timers: map<TimerId, Timer>, c: ConversationId, cancelled: Trigger,
                              scheduled: Trigger, ids: seq<TimerId>) {
    && Exclusive(timers) && VersionsDiffer(timers)
    && Grows(CancelFor(s.timers, c, cancelled), timers, c, scheduled)
    && timers.Keys <= s.timers.Keys + Drawn(ids)
    && (forall t | t in timers && t !in s.timers :: timers[t].rule in s.usedRules)
  }

  lemma Reschedules(s: State, c: ConversationId, cancelled: Trigger, scheduled: Trigger,
                    matching: seq<RuleId>, ids: seq<TimerId>, at: Time, go: bool)
    requires TimersOk(s) && Matches(s.rules, scheduled, matching)
    requires |ids| == |matching| && Distinct(ids) && (forall t | t in ids :: t !in s.usedTimers)
    requires Unanswered(cancelled) && Unanswered(scheduled) && cancelled != scheduled
    ensures var before := CancelFor(s.timers, c, cancelled);
      var timers := if go then ScheduleAll(s.rules, before, c, scheduled, matching, ids, at) else before;
      Rescheduled(s, timers, c, cancelled, scheduled, ids)
  {
    var before := CancelFor(s.timers, c, cancelled);
    CancellingClears(s.timers, c, cancelled, scheduled);
    AllScheduled(s.rules, before, c, scheduled, matching, ids, at);
  }

  lemma ReschedulingKeepsTimers(s: State, timers: map<TimerId, Timer>, c: ConversationId, cancelled: Trigger,
                                scheduled: Trigger, ids: seq<TimerId>)
    requires TimersOk(s) && Rescheduled(s, timers, c, cancelled, scheduled, ids)
    ensures TimersOk(s.(timers := timers, usedTimers := s.usedTimers + Drawn(ids)))
  {
    hide Exclusive, VersionsDiffer;
    assert forall t | t in timers && t in s.timers ::
      t in CancelFor(s.timers, c, cancelled) && timers[t].rule == s.timers[t].rule;
  }

  lemma ReschedulingKeepsOutbox(s: State, timers: map<TimerId, Timer>, c: ConversationId, cancelled: Trigger,
                                scheduled: Trigger, ids: seq<TimerId>)
    requires OutboxOk(s) && Rescheduled(s, timers, c, cancelled, scheduled, ids)
    requires s.timers.Keys <= s.usedTimers && forall t | t in ids :: t !in s.usedTimers
    ensures OutboxOk(s.(timers := timers, usedTimers := s.usedTimers + Drawn(ids)))
  {
    hide Exclusive, VersionsDiffer;
    var s' := s.(timers := timers, usedTimers := s.usedTimers + Drawn(ids));
    var before := CancelFor(s.timers, c, cancelled);
    assert forall e, t :: Carries(s', e, t) <==> Carries(s, e, t);
    forall t | t in s'.timers
      ensures s'.timers[t].status == Fired <==> Carried(s', t)
    {
      if Carried(s, t) { var e :| Carries(s, e, t); assert Carries(s', e, t); }
      if Carried(s', t) { var e :| Carries(s', e, t); assert Carries(s, e, t); }
      if t in s.timers {
        assert t in before && timers[t] == before[t];
      } else {
        assert t in Drawn(ids);
      }
    }
  }

  lemma SameQueueKeepsQueue(s: State, s': State)
    requires QueueOk(s) && s'.outbox == s.outbox && s'.enqueued == s.enqueued
    ensures QueueOk(s')
  {
    assert forall e :: Enqueues(s', e) == Enqueues(s, e) && IsPublished(s', e) == IsPublished(s, e);
  }

  lemma SchedulingKeepsInv(s: State, c: ConversationId, cancelled: Trigger, scheduled: Trigger,
                           matching: seq<RuleId>, ids: seq<TimerId>, at: Time, go: bool)
    requires Inv(s) && Matches(s.rules, scheduled, matching)
    requires |ids| == |matching| && Distinct(ids) && (forall t | t in ids :: t !in s.usedTimers)
    requires Unanswered(cancelled) && Unanswered(scheduled) && cancelled != scheduled
    ensures var before := CancelFor(s.timers, c, cancelled);
      var timers := if go then ScheduleAll(s.rules, before, c, scheduled, matching, ids, at) else before;
      Inv(s.(timers := timers, usedTimers := s.usedTimers + Drawn(ids)))
  {
    hide OutboxOk, QueueOk, Rescheduled, Exclusive, VersionsDiffer, ScheduleAll, CancelFor, Matches;
    var before := CancelFor(s.timers, c, cancelled);
    assert forall r | r in matching :: r in s.rules by { MatchesRules(s.rules, scheduled, matching); }
    var timers := if go then ScheduleAll(s.rules, before, c, scheduled, matching, ids, at) else before;
    Reschedules(s, c, cancelled, scheduled, matching, ids, at, go);
    ReschedulingKeepsTimers(s, timers, c, cancelled, scheduled, ids);
    ReschedulingKeepsOutbox(s, timers, c, cancelled, scheduled, ids);
    SameQueueKeepsQueue(s, s.(timers := timers, usedTimers := s.usedTimers + Drawn(ids)));
  }

  lemma MatchesRules(rules: map<RuleId, Rule>, trigger: Trigger, matching: seq<RuleId>)
    requires Matches(rules, trigger, matching)
    ensures forall r | r in matching :: r in rules
  {
  }

  lemma AdministeringKeepsInv(s: State, step: Step)
    requires Inv(s) && Admissible(s, step)
    requires step.PutRule? || step.DeleteRule? || step.PutConversation? || step.Publish?
    ensures Inv(Next(s, step))
  {
    var s' := Next(s, step);
    assert forall e, t :: Carries(s', e, t) <==> Carries(s, e, t);
    assert forall t :: Carried(s', t) <==> Carried(s, t);
    assert QueueOk(s') by {
      forall e
        ensures Enqueues(s', e) == if IsPublished(s', e) then 1 else 0
      {
        assert Enqueues(s, e) == if IsPublished(s, e) then 1 else 0;
      }
    }
  }

  lemma FiringStep(s: State, step: Step)
    requires Inv(s) && Admissible(s, step) && step.Fire?
    ensures Inv(Next(s, step))
  {
    hide Inv, FireOne;
    var batch := FireBatch(s, step.limit, step.at);
    BatchIsFireable(s, step.limit, step.events, step.at);
    FiringKeepsInv(s, batch, step.events, step.at, |batch|);
    assert batch[..|batch|] == batch;
  }

  lemma RelayingStep(s: State, step: Step)
    requires Inv(s) && Admissible(s, step) && step.Relay?
    ensures Inv(Next(s, step))
  {
    hide OutboxOk, QueueOk, RelayOne, Exclusive, VersionsDiffer;
    var batch := RelayBatch(s, step.limit, step.at);
    BatchIsRelayable(s, step.limit, step.accepted, step.at);
    assert batch[..|batch|] == batch;
    RelayingLeavesTheRest(s, batch, step.accepted, step.at, |batch|);
    RelayingKeepsQueue(s, batch, step.accepted, step.at, |batch|);
    SameCargoKeepsOutbox(s, Next(s, step));
  }

  lemma NextKeepsInv(s: State, step: Step)
    requires Inv(s) && Admissible(s, step)
    ensures Inv(Next(s, step))
  {
    hide Inv;
    match step
    case Inbound(c, matching, ids, at) =>
      SchedulingKeepsInv(s, c, CustomerUnanswered, TeamUnanswered, matching, ids, at, true);
    case Outbound(c, author, matching, ids, at) =>
      SchedulingKeepsInv(s, c, TeamUnanswered, CustomerUnanswered, matching, ids, at, Schedules(author));
    case Fire(_, _, _) => FiringStep(s, step);
    case Relay(_, _, _) => RelayingStep(s, step);
    case _ =>
      AdministeringKeepsInv(s, step);
  }

  // ---------------------------------------------------------------- runs

  const EMPTY := State(map[], map[], map[], map[], [], {}, {})

  ghost predicate IsRun(states: seq<State>, steps: seq<Step>) {
    && |states| == |steps| + 1
    && states[0] == EMPTY
    && (forall i :: 0 <= i < |steps| ==>
          Admissible(states[i], steps[i]) && states[i + 1] == Next(states[i], steps[i]))
  }

  lemma RunStep(states: seq<State>, steps: seq<Step>, i: nat)
    requires IsRun(states, steps) && i + 1 < |states|
    ensures i < |steps| && Admissible(states[i], steps[i]) && states[i + 1] == Next(states[i], steps[i])
  {
    hide Next, Admissible;
  }

  lemma EmptyIsOk()
    ensures Inv(EMPTY)
  {
  }

  lemma {:induction false} RunKeepsInv(states: seq<State>, steps: seq<Step>, i: nat)
    requires IsRun(states, steps) && i < |states|
    ensures Inv(states[i])
  {
    hide Next, Admissible, Inv;
    if i == 0 {
      EmptyIsOk();
    } else {
      RunStep(states, steps, i - 1);
      RunKeepsInv(states, steps, i - 1);
      NextKeepsInv(states[i - 1], steps[i - 1]);
    }
  }

  /** Never pending for both sides at once, and at most one pending timer per conversation and rule. */
  lemma PendingTimersExclude(states: seq<State>, steps: seq<Step>, i: nat, t: TimerId, u: TimerId)
    requires IsRun(states, steps) && i < |states|
    requires t in states[i].timers && u in states[i].timers && t != u
    requires states[i].timers[t].status == Pending && states[i].timers[u].status == Pending
    requires states[i].timers[t].conversation == states[i].timers[u].conversation
    ensures states[i].timers[t].trigger == states[i].timers[u].trigger
    ensures states[i].timers[t].rule != states[i].timers[u].rule
  {
    hide Next, Admissible, OutboxOk, QueueOk;
    RunKeepsInv(states, steps, i);
  }

  // ---------------------------------------------------------------- from timer to queue, at most once

  predicate FiredAs(s: State, s': State, t: TimerId, event: EventId, at: Time)
    requires t in s.timers
  {
    var ok := StillValid(s, s.timers[t]);
    && t in s'.timers && s'.timers[t] == s.timers[t].(status := if ok then Fired else Cancelled)
    && (ok ==> event in s'.outbox && s'.outbox[event] == Row(Some(t), at, 0, None, at))
  }

  lemma FiredNow(s: State, s1: State, t: TimerId, event: EventId, at: Time)
    requires t in s.timers && t in s1.timers && s1.timers[t] == s.timers[t]
    requires s1.rules == s.rules && s1.closed == s.closed
    ensures FiredAs(s, FireOne(s1, t, event, at), t, event, at)
  {
  }

  lemma FiredBefore(s: State, s1: State, t: TimerId, event: EventId, u: TimerId, next: EventId, at: Time)
    requires t in s.timers && FiredAs(s, s1, t, event, at) && u in s1.timers && u != t && next != event
    ensures FiredAs(s, FireOne(s1, u, next, at), t, event, at)
  {
  }

  /** What firing makes of the i-th timer of the batch, and the outbox row it writes. */
  lemma {:induction false} FiredRow(s: State, batch: seq<Key>, events: seq<EventId>, at: Time, n: nat, i: nat)
    requires Fireable(s, batch, events) && i < n <= |batch|
    ensures FiredAs(s, FireAll(s, batch[..n], events, at), batch[i].id, events[i], at)
  {
    hide FiredAs, FireOne;
    assert batch[..n][..n - 1] == batch[..n - 1];
    FiringLeavesTheRest(s, batch, events, at, n - 1);
    var s1 := FireAll(s, batch[..n - 1], events, at);
    if i == n - 1 {
      FiredNow(s, s1, batch[i].id, events[i], at);
    } else {
      FiredRow(s, batch, events, at, n - 1, i);
      FiredBefore(s, s1, batch[i].id, events[i], batch[n - 1].id, events[n - 1], at);
    }
  }

  /** A batch, fired or relayed, leaves rules, used ids and the set of timers alone; relaying also their rows. */
  lemma BatchFrame(s: State, step: Step)
    requires Admissible(s, step) && (step.Fire? || step.Relay?)
    ensures var s' := Next(s, step);
      && s'.timers.Keys == s.timers.Keys && s'.rules == s.rules
      && s'.usedTimers == s.usedTimers && s'.usedRules == s.usedRules
      && (step.Relay? ==> s'.timers == s.timers)
  {
    if step.Fire? {
      var batch := FireBatch(s, step.limit, step.at);
      BatchIsFireable(s, step.limit, step.events, step.at);
      assert batch[..|batch|] == batch;
      FiringLeavesTheRest(s, batch, step.events, step.at, |batch|);
    } else {
      var batch := RelayBatch(s, step.limit, step.at);
      BatchIsRelayable(s, step.limit, step.accepted, step.at);
      assert batch[..|batch|] == batch;
      RelayingLeavesTheRest(s, batch, step.accepted, step.at, |batch|);
    }
  }

  predicate Settling(a: Timer, b: Timer) {
    b == a.(status := b.status) && (a.status != Pending ==> b.status == a.status)
  }

  lemma FiringSettles(s: State, step: Step, t: TimerId)
    requires Admissible(s, step) && step.Fire? && t in s.timers
    ensures t in Next(s, step).timers && Settling(s.timers[t], Next(s, step).timers[t])
  {
    var batch := FireBatch(s, step.limit, step.at);
    BatchIsFireable(s, step.limit, step.events, step.at);
    assert batch[..|batch|] == batch;
    FiringLeavesTheRest(s, batch, step.events, step.at, |batch|);
    if i :| 0 <= i < |batch| && batch[i].id == t {
      FiredRow(s, batch, step.events, step.at, |batch|, i);
    }
  }

  lemma SchedulingSettles(s: State, timers: map<TimerId, Timer>, c: ConversationId, cancelled: Trigger,
                          scheduled: Trigger, ids: seq<TimerId>, t: TimerId)
    requires Rescheduled(s, timers, c, cancelled, scheduled, ids) && t in s.timers
    ensures t in timers && Settling(s.timers[t], timers[t])
  {
    assert t in CancelFor(s.timers, c, cancelled);
  }

  /** The timers after the two message steps. */
  lemma MessageStep(s: State, step: Step) returns (cancelled: Trigger, scheduled: Trigger)
    requires Admissible(s, step) && TimersOk(s) && (step.Inbound? || step.Outbound?)
    ensures Rescheduled(s, Next(s, step).timers, step.c, cancelled, scheduled, step.ids)
    ensures Next(s, step) == s.(timers := Next(s, step).timers, usedTimers := s.usedTimers + Drawn(step.ids))
    ensures forall t | t in step.ids :: t !in s.usedTimers
    ensures forall u | u in Next(s, step).timers && u !in s.timers :: Next(s, step).timers[u].rule in s.rules
  {
    if step.Inbound? {
      cancelled, scheduled := CustomerUnanswered, TeamUnanswered;
    } else {
      cancelled, scheduled := TeamUnanswered, CustomerUnanswered;
    }
    Reschedules(s, step.c, cancelled, scheduled, step.matching, step.ids, step.at,
                step.Inbound? || Schedules(step.author));
    var before := CancelFor(s.timers, step.c, cancelled);
    CancellingClears(s.timers, step.c, cancelled, scheduled);
    AllScheduled(s.rules, before, step.c, scheduled, step.matching, step.ids, step.at);
  }

  /** What one call may do to a timer row: delete it with its rule, keep it, or settle it if it was pending. */
  lemma TimerStep(s: State, step: Step, t: TimerId)
    requires Admissible(s, step) && TimersOk(s) && t in s.timers && t in Next(s, step).timers
    ensures Settling(s.timers[t], Next(s, step).timers[t])
  {
    if step.Fire? {
      FiringSettles(s, step, t);
    } else if step.Relay? {
      BatchFrame(s, step);
    } else if step.Inbound? || step.Outbound? {
      hide TimersOk, Rescheduled, Next, Admissible;
      var cancelled, scheduled := MessageStep(s, step);
      SchedulingSettles(s, Next(s, step).timers, step.c, cancelled, scheduled, step.ids, t);
    }
  }

  lemma UsedStep(s: State, step: Step)
    requires Admissible(s, step) && TimersOk(s)
    ensures s.usedTimers <= Next(s, step).usedTimers
    ensures forall t | t in s.usedTimers && t in Next(s, step).timers :: t in s.timers
  {
    if step.Fire? || step.Relay? {
      BatchFrame(s, step);
    } else if step.Inbound? || step.Outbound? {
      var cancelled, scheduled := MessageStep(s, step);
    }
  }

  predicate Fires(s: State, s': State, t: TimerId) {
    t in s.timers && t in s'.timers && s.timers[t].status == Pending && s'.timers[t].status == Fired
  }

  lemma RunKeepsTimers(states: seq<State>, steps: seq<Step>, i: nat)
    requires IsRun(states, steps) && i < |states|
    ensures TimersOk(states[i])
  {
    hide Next, Admissible, TimersOk, OutboxOk, QueueOk;
    RunKeepsInv(states, steps, i);
  }

  /** Settled for good: whenever the row is still there, its status is the one it settled to. */
  lemma {:induction false} SettledStays(states: seq<State>, steps: seq<Step>, i: nat, k: nat, t: TimerId)
    requires IsRun(states, steps) && i <= k < |states|
    requires t in states[i].timers && states[i].timers[t].status != Pending
    ensures t in states[k].usedTimers
    ensures t in states[k].timers ==> states[k].timers[t] == states[i].timers[t]
  {
    hide Next, Admissible, IsRun, Exclusive, VersionsDiffer;
    if i == k {
      RunKeepsTimers(states, steps, i);
    } else {
      RunStep(states, steps, k - 1);
      SettledStays(states, steps, i, k - 1, t);
      RunKeepsTimers(states, steps, k - 1);
      UsedStep(states[k - 1], steps[k - 1]);
      if t in states[k].timers {
        TimerStep(states[k - 1], steps[k - 1], t);
      }
    }
  }

  /** A timer is fired at most once over a run. */
  lemma FiresOnce(states: seq<State>, steps: seq<Step>, i: nat, j: nat, t: TimerId)
    requires IsRun(states, steps) && i <= j < |steps|
    requires Fires(states[i], states[i + 1], t) && Fires(states[j], states[j + 1], t)
    ensures i == j
  {
    hide Next, Admissible;
    if i < j {
      SettledStays(states, steps, i + 1, j, t);
      assert false;
    }
  }

  /** A timer in the table is fired exactly when one outbox row carries its id, and no other row does. */
  lemma FiredIffOneRow(states: seq<State>, steps: seq<Step>, i: nat, t: TimerId)
    requires IsRun(states, steps) && i < |states| && t in states[i].timers
    ensures states[i].timers[t].status == Fired
      <==> exists e :: Carries(states[i], e, t) && forall f | Carries(states[i], f, t) :: f == e
  {
    hide Next, Admissible, TimersOk, QueueOk;
    RunKeepsInv(states, steps, i);
    if Carried(states[i], t) {
      var e :| Carries(states[i], e, t);
      assert forall f | Carries(states[i], f, t) :: f == e;
    }
  }

  /** Every outbox row is taken by the queue exactly once if it is published, and never otherwise. */
  lemma RowEnqueuedOnce(states: seq<State>, steps: seq<Step>, i: nat, e: EventId)
    requires IsRun(states, steps) && i < |states|
    ensures Enqueues(states[i], e) == if IsPublished(states[i], e) then 1 else 0
  {
    hide Next, Admissible, TimersOk, OutboxOk;
    RunKeepsInv(states, steps, i);
  }

  lemma {:induction false} TwiceMeansTwo(log: seq<EventId>, i: nat, j: nat)
    requires i < j < |log| && log[i] == log[j]
    ensures multiset(log)[log[i]] >= 2
  {
    assert log == log[..j] + log[j..];
    assert log[i] in log[..j] && log[j] in log[j..] by {
      assert log[..j][i] == log[i] && log[j..][0] == log[j];
    }
  }

  /** End to end: over any run, the queue takes at most one event of a timer. */
  lemma TimerEnqueuedAtMostOnce(states: seq<State>, steps: seq<Step>, k: nat, t: TimerId, i: nat, j: nat)
    requires IsRun(states, steps) && k < |states|
    requires i < |states[k].enqueued| && j < |states[k].enqueued|
    requires Carries(states[k], states[k].enqueued[i], t) && Carries(states[k], states[k].enqueued[j], t)
    ensures i == j
  {
    hide Next, Admissible, TimersOk;
    RunKeepsInv(states, steps, k);
    var log := states[k].enqueued;
    assert log[i] == log[j];
    assert Enqueues(states[k], log[i]) <= 1;
    if i < j {
      TwiceMeansTwo(log, i, j);
    } else if j < i {
      TwiceMeansTwo(log, j, i);
    }
  }

  // ---------------------------------------------------------------- activity versions

  /** A timer that appears belongs to a live rule and outranks every earlier timer of its conversation and rule. */
  lemma CreationStep(s: State, step: Step, u: TimerId, t: TimerId)
    requires Admissible(s, step) && TimersOk(s)
    requires u !in s.timers && u in Next(s, step).timers
    ensures var b := Next(s, step).timers[u];
      && b.rule in s.rules
      && (t in s.timers && s.timers[t].conversation == b.conversation && s.timers[t].rule == b.rule
          ==> s.timers[t].activity < b.activity)
  {
    if step.Fire? || step.Relay? {
      BatchFrame(s, step);
      assert false;
    } else if step.Inbound? || step.Outbound? {
      hide TimersOk, Next, Admissible;
      var cancelled, scheduled := MessageStep(s, step);
      var before := CancelFor(s.timers, step.c, cancelled);
      if t in s.timers { assert before[t].activity == s.timers[t].activity; }
    } else {
      assert false;
    }
  }

  /** A row leaves the table only with its rule, and a deleted rule does not come back. */
  lemma RuleGoneStep(s: State, step: Step, t: TimerId, r: RuleId)
    requires Admissible(s, step) && TimersOk(s) && r in s.usedRules
    requires (t in s.timers && s.timers[t].rule == r) || r !in s.rules
    ensures r in Next(s, step).usedRules
    ensures t in Next(s, step).timers || r !in Next(s, step).rules
    ensures r !in s.rules ==> r !in Next(s, step).rules
  {
    if step.Fire? || step.Relay? {
      BatchFrame(s, step);
    } else if step.Inbound? || step.Outbound? {
      var cancelled, scheduled := MessageStep(s, step);
      assert t in s.timers ==> t in CancelFor(s.timers, step.c, cancelled);
    }
  }

  lemma {:induction false} RowOrRuleGone(states: seq<State>, steps: seq<Step>, i: nat, k: nat, t: TimerId)
    requires IsRun(states, steps) && i <= k < |states| && t in states[i].timers
    ensures var r := states[i].timers[t].rule;
      && r in states[k].usedRules
      && (r !in states[k].rules
          || (t in states[k].timers
              && states[k].timers[t] == states[i].timers[t].(status := states[k].timers[t].status)))
  {
    hide Next, Admissible, IsRun, Exclusive, VersionsDiffer;
    if i == k {
      RunKeepsTimers(states, steps, i);
    } else {
      RunStep(states, steps, k - 1);
      RowOrRuleGone(states, steps, i, k - 1, t);
      RunKeepsTimers(states, steps, k - 1);
      RuleGoneStep(states[k - 1], steps[k - 1], t, states[i].timers[t].rule);
      if t in states[k - 1].timers && t in states[k].timers {
        TimerStep(states[k - 1], steps[k - 1], t);
      }
    }
  }

  /** Of two timers of one conversation and rule the one created later has the higher activity version. */
  lemma {:induction false} LaterTimerHasHigherVersion(
      states: seq<State>, steps: seq<Step>, i: nat, j: nat, t: TimerId, u: TimerId)
    requires IsRun(states, steps) && i <= j < |states|
    requires t in states[i].timers && u in states[j].timers && u !in states[i].timers
    requires states[i].timers[t].conversation == states[j].timers[u].conversation
    requires states[i].timers[t].rule == states[j].timers[u].rule
    ensures states[i].timers[t].activity < states[j].timers[u].activity
  {
    hide Next, Admissible, IsRun, Exclusive, VersionsDiffer;
    if i == j {
    } else {
      RunStep(states, steps, j - 1);
      RunKeepsTimers(states, steps, j - 1);
      if u in states[j - 1].timers {
        TimerStep(states[j - 1], steps[j - 1], u);
        LaterTimerHasHigherVersion(states, steps, i, j - 1, t, u);
      } else {
        RowOrRuleGone(states, steps, i, j - 1, t);
        CreationStep(states[j - 1], steps[j - 1], u, t);
      }
    }
  }

  // ---------------------------------------------------------------- what a message schedules and cancels

  /** A pending timer of the rule as it stands, due its duration after the message, if it has one. */
  predicate IsFor(rules: map<RuleId, Rule>, t: Timer, c: ConversationId, r: RuleId, trigger: Trigger, at: Time) {
    && t.conversation == c && t.trigger == trigger && t.status == Pending
    && t.rule == r && r in rules && t.ruleVersion == rules[r].version
    && (rules[r].duration.Some? ==> t.deadline == at + rules[r].duration.value * 1_000_000)
    && (rules[r].duration.None? ==> t.deadline == at)
  }

  predicate SamePlace(a: Timer, b: Timer) {
    a.conversation == b.conversation && a.rule == b.rule
  }

  /** Its activity version follows on the highest one its conversation and rule had, or is the first. */
  predicate Continues(before: map<TimerId, Timer>, t: Timer) {
    && (forall u | u in before && SamePlace(before[u], t) :: before[u].activity < t.activity)
    && t.activity >= 1
    && (t.activity > 1 ==> exists u | u in before && SamePlace(before[u], t) :: before[u].activity + 1 == t.activity)
  }

  predicate PendingOn(timers: map<TimerId, Timer>, c: ConversationId, r: RuleId, trigger: Trigger) {
    exists t | t in timers ::
      && timers[t].status == Pending && timers[t].conversation == c && timers[t].rule == r
      && timers[t].trigger == trigger
  }

  /** `id` is the one new timer of the rule. */
  predicate OneNew(rules: map<RuleId, Rule>, before: map<TimerId, Timer>, after: map<TimerId, Timer>,
                   c: ConversationId, r: RuleId, trigger: Trigger, at: Time, id: TimerId)
  {
    && id in after && id !in before && IsFor(rules, after[id], c, r, trigger, at) && Continues(before, after[id])
    && forall u | u in after && u !in before && after[u].rule == r :: u == id
  }

  /** The rule has exactly one new timer, or none. */
  ghost predicate NewTimers(rules: map<RuleId, Rule>, before: map<TimerId, Timer>, after: map<TimerId, Timer>,
                            c: ConversationId, r: RuleId, trigger: Trigger, at: Time, wanted: bool)
  {
    if wanted then exists id :: OneNew(rules, before, after, c, r, trigger, at, id)
    else forall u | u in after && u !in before :: after[u].rule != r
  }

  /** Rows stay, and the rule has no new one. */
  predicate StaysFor(before: map<TimerId, Timer>, after: map<TimerId, Timer>, r: RuleId) {
    && (forall t | t in before :: t in after && after[t] == before[t])
    && (forall u | u in after && u !in before :: after[u].rule != r)
  }

  lemma LatestIsDrawn(s: set<nat>)
    ensures Latest(s) == 0 || Latest(s) in s
  {
  }

  lemma OwnTurn(rules: map<RuleId, Rule>, before: map<TimerId, Timer>, timers: map<TimerId, Timer>,
                c: ConversationId, r: RuleId, trigger: Trigger, id: TimerId, at: Time)
    requires r in rules && id !in timers && StaysFor(before, timers, r)
    ensures NewTimers(rules, before, ScheduleOne(rules, timers, c, trigger, r, id, at), c, r, trigger, at,
                      !PendingOn(before, c, r, trigger))
  {
    var after := ScheduleOne(rules, timers, c, trigger, r, id, at);
    assert HasPending(timers, c, r, trigger) <==> PendingOn(before, c, r, trigger);
    if !PendingOn(before, c, r, trigger) {
      var activities := Activities(timers, c, r);
      LatestIsDrawn(activities);
      forall u | u in before && SamePlace(before[u], after[id])
        ensures before[u].activity in activities
      {
        assert timers[u] == before[u];
      }
      assert OneNew(rules, before, after, c, r, trigger, at, id);
    }
  }

  lemma OtherTurn(rules: map<RuleId, Rule>, before: map<TimerId, Timer>, timers: map<TimerId, Timer>,
                  c: ConversationId, r: RuleId, other: RuleId, trigger: Trigger, id: TimerId, at: Time, wanted: bool)
    requires other in rules && other != r && id !in timers && id !in before
    requires NewTimers(rules, before, timers, c, r, trigger, at, wanted)
    ensures NewTimers(rules, before, ScheduleOne(rules, timers, c, trigger, other, id, at), c, r, trigger, at, wanted)
  {
    var after := ScheduleOne(rules, timers, c, trigger, other, id, at);
    if wanted {
      var u :| OneNew(rules, before, timers, c, r, trigger, at, u);
      assert OneNew(rules, before, after, c, r, trigger, at, u);
    }
  }

  /** The loop gives each rule of the query its one timer, unless one is pending, and no other rule any. */
  lemma {:induction false} EachTurnCounts(
      rules: map<RuleId, Rule>, before: map<TimerId, Timer>, c: ConversationId, trigger: Trigger,
      matching: seq<RuleId>, ids: seq<TimerId>, at: Time, r: RuleId)
    requires |matching| == |ids| && (forall q | q in matching :: q in rules) && Unanswered(trigger)
    requires Distinct(matching) && Distinct(ids) && (forall t | t in ids :: t !in before)
    requires Exclusive(before) && VersionsDiffer(before) && OnlyTrigger(before, c, trigger)
    ensures NewTimers(rules, before, ScheduleAll(rules, before, c, trigger, matching, ids, at), c, r, trigger, at,
                      r in matching && !PendingOn(before, c, r, trigger))
  {
    hide Exclusive, VersionsDiffer, OnlyTrigger, ScheduleOne, PendingOn, OneNew;
    if matching == [] {
    } else {
      var n := |matching| - 1;
      EachTurnCounts(rules, before, c, trigger, matching[..n], ids[..n], at, r);
      AllScheduled(rules, before, c, trigger, matching[..n], ids[..n], at);
      var timers := ScheduleAll(rules, before, c, trigger, matching[..n], ids[..n], at);
      assert ids[n] in ids && matching[n] in matching && ids[n] !in Drawn(ids[..n]) && matching[n] !in matching[..n];
      GrowsKeeps(before, timers, c, trigger);
      assert r in matching <==> r in matching[..n] || r == matching[n];
      if r == matching[n] {
        OwnTurn(rules, before, timers, c, r, trigger, ids[n], at);
      } else {
        OtherTurn(rules, before, timers, c, r, matching[n], trigger, ids[n], at,
                  r in matching && !PendingOn(before, c, r, trigger));
      }
    }
  }

  /** The trigger whose timers a message of the step schedules, and the one whose timers it cancels. */
  function Scheduled(step: Step): Trigger
    requires step.Inbound? || step.Outbound?
  {
    if step.Inbound? then TeamUnanswered else CustomerUnanswered
  }

  function Answered(step: Step): Trigger
    requires step.Inbound? || step.Outbound?
  {
    if step.Inbound? then CustomerUnanswered else TeamUnanswered
  }

  /** An inbound message, or an outbound one of somebody who can be left waiting for an answer. */
  predicate StartsWaiting(step: Step) {
    step.Inbound? || (step.Outbound? && (step.author == User || step.author == Ai || step.author == Automation))
  }

  predicate Wanted(s: State, step: Step, r: RuleId)
    requires step.Inbound? || step.Outbound?
  {
    && StartsWaiting(step) && r in s.rules && s.rules[r].enabled && s.rules[r].trigger == Scheduled(step)
    && !PendingOn(s.timers, step.c, r, Scheduled(step))
  }

  lemma MessageSchedules(s: State, step: Step, r: RuleId)
    requires Admissible(s, step) && TimersOk(s) && (step.Inbound? || step.Outbound?)
    ensures NewTimers(s.rules, s.timers, Next(s, step).timers, step.c, r, Scheduled(step), step.at, Wanted(s, step, r))
  {
    var before := CancelFor(s.timers, step.c, Answered(step));
    CancellingClears(s.timers, step.c, Answered(step), Scheduled(step));
    assert PendingOn(before, step.c, r, Scheduled(step)) <==> PendingOn(s.timers, step.c, r, Scheduled(step)) by {
      CancellingOthers(s.timers, step.c, Answered(step), r, Scheduled(step));
    }
    if StartsWaiting(step) {
      EachTurnCounts(s.rules, before, step.c, Scheduled(step), step.matching, step.ids, step.at, r);
      assert Next(s, step).timers
        == ScheduleAll(s.rules, before, step.c, Scheduled(step), step.matching, step.ids, step.at);
    } else {
      assert Next(s, step).timers == before;
    }
    CancelledBefore(s.rules, s.timers, Next(s, step).timers, step.c, Answered(step), r, Scheduled(step), step.at,
                    Wanted(s, step, r));
  }

  lemma CancellingOthers(timers: map<TimerId, Timer>, c: ConversationId, cancelled: Trigger,
                         r: RuleId, trigger: Trigger)
    requires cancelled != trigger
    ensures PendingOn(CancelFor(timers, c, cancelled), c, r, trigger) <==> PendingOn(timers, c, r, trigger)
  {
    var after := CancelFor(timers, c, cancelled);
    forall t | t in timers
      ensures (after[t].status == Pending && after[t].trigger == trigger)
        <==> (timers[t].status == Pending && timers[t].trigger == trigger
              && !(timers[t].trigger == cancelled && timers[t].conversation == c))
    {
    }
  }

  /** New timers are counted alike whether the cancelled ones still show as pending or not. */
  lemma CancelledBefore(
      rules: map<RuleId, Rule>, timers: map<TimerId, Timer>, after: map<TimerId, Timer>, c: ConversationId,
      cancelled: Trigger, r: RuleId, trigger: Trigger, at: Time, wanted: bool)
    requires NewTimers(rules, CancelFor(timers, c, cancelled), after, c, r, trigger, at, wanted)
    ensures NewTimers(rules, timers, after, c, r, trigger, at, wanted)
  {
    var before := CancelFor(timers, c, cancelled);
    assert before.Keys == timers.Keys;
    if wanted {
      var id :| OneNew(rules, before, after, c, r, trigger, at, id);
      assert forall u | u in timers ::
        SamePlace(before[u], after[id]) == SamePlace(timers[u], after[id]) && before[u].activity == timers[u].activity;
      assert OneNew(rules, timers, after, c, r, trigger, at, id);
    }
  }

  /**
   Over every run: a message gives each enabled rule of its trigger exactly one new timer, unless one is pending
   there, with the rule's version and a deadline its duration later; every other rule gets none.
   */
  lemma EachRuleGetsItsTimer(states: seq<State>, steps: seq<Step>, i: nat, r: RuleId)
    requires IsRun(states, steps) && i < |steps| && (steps[i].Inbound? || steps[i].Outbound?)
    ensures NewTimers(states[i].rules, states[i].timers, states[i + 1].timers, steps[i].c, r, Scheduled(steps[i]),
                      steps[i].at, Wanted(states[i], steps[i], r))
  {
    hide Next, Admissible, TimersOk, NewTimers, Wanted;
    RunStep(states, steps, i);
    RunKeepsTimers(states, steps, i);
    MessageSchedules(states[i], steps[i], r);
  }

  /** Timers appear only with messages. */
  lemma OnlyMessagesSchedule(s: State, step: Step, u: TimerId)
    requires Admissible(s, step) && u !in s.timers && u in Next(s, step).timers
    ensures step.Inbound? || step.Outbound?
  {
    if step.Fire? || step.Relay? {
      BatchFrame(s, step);
    }
  }

  /** What a timer that appears in a run looks like. */
  lemma CreatedTimer(states: seq<State>, steps: seq<Step>, i: nat, u: TimerId)
    requires IsRun(states, steps) && i < |steps| && u !in states[i].timers && u in states[i + 1].timers
    ensures steps[i].Inbound? || steps[i].Outbound?
    ensures
      var t := states[i + 1].timers[u];
      && Wanted(states[i], steps[i], t.rule)
      && IsFor(states[i].rules, t, steps[i].c, t.rule, Scheduled(steps[i]), steps[i].at)
      && Continues(states[i].timers, t)
  {
    hide Next, Admissible, TimersOk, Wanted, IsFor, Continues;
    RunStep(states, steps, i);
    OnlyMessagesSchedule(states[i], steps[i], u);
    EachRuleGetsItsTimer(states, steps, i, states[i + 1].timers[u].rule);
  }

  /** A message cancels exactly the pending timers of the other side of its conversation and leaves the others. */
  lemma MessageCancels(states: seq<State>, steps: seq<Step>, i: nat, t: TimerId)
    requires IsRun(states, steps) && i < |steps| && (steps[i].Inbound? || steps[i].Outbound?)
    requires t in states[i].timers
    ensures t in states[i + 1].timers
    ensures
      var a, b := states[i].timers[t], states[i + 1].timers[t];
      if a.status == Pending && a.conversation == steps[i].c && a.trigger == Answered(steps[i])
      then b == a.(status := Cancelled) else b == a
  {
    RunStep(states, steps, i);
    RunKeepsTimers(states, steps, i);
    var s, step := states[i], steps[i];
    var before := CancelFor(s.timers, step.c, Answered(step));
    CancellingClears(s.timers, step.c, Answered(step), Scheduled(step));
    if StartsWaiting(step) {
      AllScheduled(s.rules, before, step.c, Scheduled(step), step.matching, step.ids, step.at);
      GrowsKeeps(before, states[i + 1].timers, step.c, Scheduled(step));
    }
  }

  // ---------------------------------------------------------------- what firing and relaying leave

  /** The rule still runs in the version the timer was made for, and its conversation is not closed. */
  predicate Stands(s: State, t: Timer) {
    && t.rule in s.rules && s.rules[t.rule].enabled == true && s.rules[t.rule].version == t.ruleVersion
    && t.conversation in s.closed && s.closed[t.conversation] == false
  }

  predicate Earlier(s: State, t: TimerId, u: TimerId)
    requires t in s.timers && u in s.timers
  {
    s.timers[t].deadline < s.timers[u].deadline || (s.timers[t].deadline == s.timers[u].deadline && t < u)
  }

  predicate InBatch(batch: seq<Key>, t: TimerId) {
    exists i | 0 <= i < |batch| :: batch[i].id == t
  }

  /** The batch holds the first due timers: any other due one comes after all of them. */
  lemma BatchIsOldestFirst(s: State, limit: nat, at: Time, t: TimerId)
    requires t in s.timers
    ensures
      var batch := FireBatch(s, limit, at);
      && |batch| <= limit
      && (InBatch(batch, t) ==> s.timers[t].status == Pending && s.timers[t].deadline <= at)
      && (s.timers[t].status == Pending && s.timers[t].deadline <= at && !InBatch(batch, t) ==>
            |batch| == limit && forall u | u in s.timers && InBatch(batch, u) :: Earlier(s, u, t))
  {
    var rows := Sorted(DueTimers(s.timers, at));
    assert forall i :: 0 <= i < |rows| ==> rows[i] in rows;
    var batch := FireBatch(s, limit, at);
    if s.timers[t].status == Pending && s.timers[t].deadline <= at && !InBatch(batch, t) {
      assert Key(s.timers[t].deadline, t) in rows;
      assert forall i :: 0 <= i < |batch| ==> batch[i].id != t;
      var k :| 0 <= k < |rows| && rows[k] == Key(s.timers[t].deadline, t);
      forall u | u in s.timers && InBatch(batch, u)
        ensures Earlier(s, u, t)
      {
        var i :| 0 <= i < |batch| && batch[i].id == u;
        assert rows[i] in rows && Before(rows[i], rows[k]);
      }
    }
  }

  lemma FireStep(s: State, step: Step, t: TimerId)
    requires Admissible(s, step) && step.Fire? && t in s.timers
    ensures t in Next(s, step).timers
    ensures Next(s, step).timers[t] ==
      if !InBatch(FireBatch(s, step.limit, step.at), t) then s.timers[t]
      else s.timers[t].(status := if Stands(s, s.timers[t]) then Fired else Cancelled)
  {
    var batch := FireBatch(s, step.limit, step.at);
    BatchIsFireable(s, step.limit, step.events, step.at);
    assert batch[..|batch|] == batch;
    FiringLeavesTheRest(s, batch, step.events, step.at, |batch|);
    if i :| 0 <= i < |batch| && batch[i].id == t {
      FiredRow(s, batch, step.events, step.at, |batch|, i);
    }
  }

  /**
   A call settles the due timers by (deadline, id) up to its limit, and each of them fires exactly if its rule
   still runs in that version and its conversation is not closed; the others stay as they are.
   */
  lemma FiringSettlesTheOldest(states: seq<State>, steps: seq<Step>, i: nat, t: TimerId)
    requires IsRun(states, steps) && i < |steps| && steps[i].Fire? && t in states[i].timers
    ensures t in states[i + 1].timers
    ensures
      var s, s', a, b := states[i], states[i + 1], states[i].timers[t], states[i + 1].timers[t];
      && (b != a ==>
            && a.status == Pending && a.deadline <= steps[i].at
            && b == a.(status := if Stands(s, a) then Fired else Cancelled))
      && (b == a && a.status == Pending && a.deadline <= steps[i].at ==>
            forall u | u in s.timers && u in s'.timers && s'.timers[u] != s.timers[u] :: Earlier(s, u, t))
  {
    hide Next, Admissible, FireBatch, InBatch, Stands, Earlier;
    RunStep(states, steps, i);
    var s, step := states[i], steps[i];
    forall u | u in s.timers
      ensures u in states[i + 1].timers
      ensures states[i + 1].timers[u] ==
        if !InBatch(FireBatch(s, step.limit, step.at), u) then s.timers[u]
        else s.timers[u].(status := if Stands(s, s.timers[u]) then Fired else Cancelled)
    {
      FireStep(s, step, u);
    }
    BatchIsOldestFirst(s, step.limit, step.at, t);
  }

  lemma OnlyFiringFires(s: State, step: Step, t: TimerId)
    requires Admissible(s, step) && TimersOk(s) && Fires(s, Next(s, step), t)
    ensures step.Fire?
  {
    if step.Relay? {
      BatchFrame(s, step);
    } else if step.Inbound? || step.Outbound? {
      hide TimersOk, Rescheduled, Admissible;
      var cancelled, scheduled := MessageStep(s, step);
      ReschedulingFiresNothing(s, Next(s, step).timers, step.c, cancelled, scheduled, step.ids, t);
    }
  }

  lemma ReschedulingFiresNothing(s: State, timers: map<TimerId, Timer>, c: ConversationId, cancelled: Trigger,
                                 scheduled: Trigger, ids: seq<TimerId>, t: TimerId)
    requires Rescheduled(s, timers, c, cancelled, scheduled, ids) && t in s.timers
    ensures t in timers && (timers[t].status == Fired ==> s.timers[t].status == Fired)
  {
    assert t in CancelFor(s.timers, c, cancelled);
  }

  lemma RuleStep(s: State, step: Step, r: RuleId)
    requires Admissible(s, step) && r in s.usedRules && r in Next(s, step).rules
    ensures r in s.rules && r in Next(s, step).usedRules
    ensures
      var a, b := s.rules[r], Next(s, step).rules[r];
      b == a || b.version > a.version
  {
    if step.Fire? || step.Relay? {
      BatchFrame(s, step);
    }
  }

  /** A deleted rule does not come back and an edit raises the version: equal versions mean the very same rule. */
  lemma {:induction false} EqualVersionsMeanTheSameRule(
      states: seq<State>, steps: seq<Step>, i: nat, j: nat, r: RuleId)
    requires IsRun(states, steps) && i <= j < |states| && r in states[i].rules && r in states[j].rules
    ensures r in states[j].usedRules && states[i].rules[r].version <= states[j].rules[r].version
    ensures states[i].rules[r].version == states[j].rules[r].version ==> states[j].rules[r] == states[i].rules[r]
  {
    hide Next, Admissible, IsRun, Exclusive, VersionsDiffer;
    if i == j {
      RunKeepsTimers(states, steps, i);
    } else {
      RunStep(states, steps, j - 1);
      UsedRulesGrow(states, steps, i, j - 1);
      RunKeepsTimers(states, steps, i);
      RuleStep(states[j - 1], steps[j - 1], r);
      EqualVersionsMeanTheSameRule(states, steps, i, j - 1, r);
    }
  }

  lemma UsedRulesStep(s: State, step: Step)
    requires Admissible(s, step)
    ensures s.usedRules <= Next(s, step).usedRules
  {
    if step.Fire? || step.Relay? {
      BatchFrame(s, step);
    }
  }

  lemma {:induction false} UsedRulesGrow(states: seq<State>, steps: seq<Step>, i: nat, j: nat)
    requires IsRun(states, steps) && i <= j < |states|
    ensures states[i].usedRules <= states[j].usedRules
  {
    hide Next, Admissible;
    if i == j {
    } else {
      UsedRulesGrow(states, steps, i, j - 1);
      UsedRulesStep(states[j - 1], steps[j - 1]);
    }
  }

  /**
   From message to firing, over every run: a timer fires no earlier than its rule's duration after the message
   that scheduled it, and only while the rule is the very same, enabled, and the conversation is not closed.
   */
  lemma FiresNoEarlierThanItsDuration(states: seq<State>, steps: seq<Step>, i: nat, j: nat, t: TimerId)
    requires IsRun(states, steps) && i < j < |steps|
    requires t !in states[i].timers && t in states[i + 1].timers && Fires(states[j], states[j + 1], t)
    ensures steps[j].Fire? && (steps[i].Inbound? || steps[i].Outbound?)
    ensures
      var r, before, now := states[i + 1].timers[t].rule, states[i].rules, states[j].rules;
      && r in before && r in now && now[r] == before[r] && now[r].enabled
      && steps[i].c in states[j].closed && !states[j].closed[steps[i].c]
      && steps[j].at >= steps[i].at + (if before[r].duration.Some? then before[r].duration.value * 1_000_000 else 0)
  {
    hide Next, Admissible, TimersOk, Continues;
    RunStep(states, steps, j);
    RunKeepsTimers(states, steps, j);
    CreatedTimer(states, steps, i, t);
    OnlyFiringFires(states[j], steps[j], t);
    FiringSettlesTheOldest(states, steps, j, t);
    NoOtherRow(states, steps, i + 1, j, t);
    EqualVersionsMeanTheSameRule(states, steps, i, j, states[i + 1].timers[t].rule);
  }

  /** A timer id that is in the table at both times is the same timer. */
  lemma {:induction false} NoOtherRow(states: seq<State>, steps: seq<Step>, i: nat, k: nat, t: TimerId)
    requires IsRun(states, steps) && i <= k < |states| && t in states[i].timers
    ensures t in states[k].usedTimers
    ensures t in states[k].timers ==>
      states[k].timers[t] == states[i].timers[t].(status := states[k].timers[t].status)
  {
    hide Next, Admissible, IsRun, Exclusive, VersionsDiffer;
    if i == k {
      RunKeepsTimers(states, steps, i);
    } else {
      RunStep(states, steps, k - 1);
      NoOtherRow(states, steps, i, k - 1, t);
      RunKeepsTimers(states, steps, k - 1);
      UsedStep(states[k - 1], steps[k - 1]);
      if t in states[k].timers {
        TimerStep(states[k - 1], steps[k - 1], t);
      }
    }
  }

  /** The wait after the n-th refusal, in seconds. */
  function Wait(n: nat): nat {
    match n
    case 0 => 1
    case 1 => 2
    case 2 => 4
    case 3 => 8
    case 4 => 16
    case 5 => 32
    case 6 => 64
    case 7 => 128
    case _ => 256
  }

  lemma WaitIsTheDelay(n: nat)
    ensures RelayDelay(n) == Wait(n)
  {
    assert Pow2(4) == 16;
    assert Pow2(8) == 256;
  }

  /** What relaying makes of a due row that the queue takes or refuses. */
  predicate Relayed(a: Row, b: Row, at: Time, taken: bool) {
    && a.published == None && a.nextAttempt <= at
    && b.timer == a.timer && b.createdAt == a.createdAt && b.attempts == a.attempts + 1
    && (taken ==> b.published == Some(at) && b.nextAttempt == at)
    && (!taken ==> b.published == None && b.nextAttempt == at + Wait(b.attempts) * 1_000_000)
  }

  lemma RelayOneLeaves(s: State, e: EventId, taken: bool, at: Time)
    requires e in s.outbox && s.outbox[e].published == None && s.outbox[e].nextAttempt <= at
    ensures
      var s' := RelayOne(s, e, taken, at);
      && e in s'.outbox && Relayed(s.outbox[e], s'.outbox[e], at, taken)
      && (forall f | f in s.outbox && f != e :: f in s'.outbox && s'.outbox[f] == s.outbox[f])
      && s'.enqueued == s.enqueued + (if taken then [e] else [])
  {
    WaitIsTheDelay(s.outbox[e].attempts + 1);
  }

  function AcceptedCount(accepted: seq<bool>): nat {
    if accepted == [] then 0
    else AcceptedCount(accepted[..|accepted| - 1]) + (if accepted[|accepted| - 1] then 1 else 0)
  }

  lemma RelayAllGrows(s: State, batch: seq<Key>, accepted: seq<bool>, at: Time, i: nat)
    requires i < |batch| <= |accepted| && forall k | k in batch :: k.id in s.outbox
    ensures var before := RelayAll(s, batch[..i], accepted, at);
      && RelayAll(s, batch[..i + 1], accepted, at) == RelayOne(before, batch[i].id, accepted[i], at)
      && AcceptedCount(accepted[..i + 1]) == AcceptedCount(accepted[..i]) + (if accepted[i] then 1 else 0)
  {
    hide RelayOne;
    assert batch[..i + 1][..i] == batch[..i];
    assert accepted[..i + 1][..i] == accepted[..i];
  }

  /** The turn of the n-th row finds it as the batch did. */
  lemma RowAwaitsItsTurn(s: State, batch: seq<Key>, accepted: seq<bool>, at: Time, n: nat)
    requires Relayable(s, batch, accepted) && n < |batch|
    ensures
      var s1, e := RelayAll(s, batch[..n], accepted, at), batch[n].id;
      && e in s.outbox && s.outbox[e].published == None && e in s1.outbox && s1.outbox[e] == s.outbox[e]
      && RelayAll(s, batch[..n + 1], accepted, at) == RelayOne(s1, e, accepted[n], at)
      && (forall k :: 0 <= k < n ==> batch[k].id != e)
  {
    RelayingLeavesTheRest(s, batch, accepted, at, n);
    RelayAllGrows(s, batch, accepted, at, n);
  }

  /** Row by row: the k-th row of the batch is taken or refused as the queue decides. */
  lemma {:induction false} RelayingLeaves(s: State, batch: seq<Key>, accepted: seq<bool>, at: Time, n: nat, k: nat)
    requires Relayable(s, batch, accepted) && k < n <= |batch|
    requires s.outbox[batch[k].id].nextAttempt <= at
    ensures
      var s' := RelayAll(s, batch[..n], accepted, at);
      batch[k].id in s'.outbox && Relayed(s.outbox[batch[k].id], s'.outbox[batch[k].id], at, accepted[k])
  {
    hide RelayOne, RelayAll, Relayed, Wait, SameCargo;
    var s1 := RelayAll(s, batch[..n - 1], accepted, at);
    RowAwaitsItsTurn(s, batch, accepted, at, n - 1);
    if k == n - 1 {
      RelayOneLeaves(s1, batch[k].id, accepted[k], at);
    } else {
      RelayingLeaves(s, batch, accepted, at, n - 1, k);
      OthersStay(s1, batch[n - 1].id, accepted[n - 1], at, batch[k].id);
    }
  }

  lemma OthersStay(s: State, e: EventId, taken: bool, at: Time, f: EventId)
    requires e in s.outbox && f in s.outbox && f != e
    ensures var s' := RelayOne(s, e, taken, at); f in s'.outbox && s'.outbox[f] == s.outbox[f]
  {
  }

  lemma BatchIsDue(s: State, limit: nat, at: Time)
    ensures
      var batch := RelayBatch(s, limit, at);
      forall i :: 0 <= i < |batch| ==> batch[i].id in s.outbox && s.outbox[batch[i].id].nextAttempt <= at
  {
    var rows := Sorted(DueRows(s.outbox, at));
    assert forall i :: 0 <= i < |rows| ==> rows[i] in rows;
  }

  /**
   Over every run a relay call leaves a row alone or counts an attempt on a due one: taken it is published, and
   refused it waits 2, 4, 8, ..., 256 seconds.
   */
  lemma RelayLeaves(states: seq<State>, steps: seq<Step>, i: nat, e: EventId)
    requires IsRun(states, steps) && i < |steps| && steps[i].Relay? && e in states[i].outbox
    ensures e in states[i + 1].outbox
    ensures
      var a, b := states[i].outbox[e], states[i + 1].outbox[e];
      b == a || exists taken :: Relayed(a, b, steps[i].at, taken)
  {
    RunStep(states, steps, i);
    var s, step := states[i], steps[i];
    var batch := RelayBatch(s, step.limit, step.at);
    BatchIsRelayable(s, step.limit, step.accepted, step.at);
    BatchIsDue(s, step.limit, step.at);
    assert batch[..|batch|] == batch;
    hide Relayed;
    RelayingLeavesTheRest(s, batch, step.accepted, step.at, |batch|);
    if k :| 0 <= k < |batch| && batch[k].id == e {
      RelayingLeaves(s, batch, step.accepted, step.at, |batch|, k);
    }
  }

  predicate Queued(row: Row, at: Time) {
    row.published == None && row.nextAttempt <= at
  }

  /** The relay takes the first due rows by (created_at, id): any other due row comes after all of them. */
  lemma RelayTakesTheOldest(states: seq<State>, steps: seq<Step>, i: nat, e: EventId)
    requires IsRun(states, steps) && i < |steps| && steps[i].Relay? && e in states[i].outbox
    requires Queued(states[i].outbox[e], steps[i].at)
    ensures e in states[i + 1].outbox
    ensures states[i + 1].outbox[e] == states[i].outbox[e] ==>
      var s, s' := states[i], states[i + 1];
      forall f | f in s.outbox && f in s'.outbox && s'.outbox[f] != s.outbox[f] ::
        Before(Key(s.outbox[f].createdAt, f), Key(s.outbox[e].createdAt, e))
  {
    RunStep(states, steps, i);
    var s, step := states[i], steps[i];
    var batch := RelayBatch(s, step.limit, step.at);
    BatchIsRelayable(s, step.limit, step.accepted, step.at);
    BatchIsDue(s, step.limit, step.at);
    assert batch[..|batch|] == batch;
    hide Relayed;
    RelayingLeavesTheRest(s, batch, step.accepted, step.at, |batch|);
    if k :| 0 <= k < |batch| && batch[k].id == e {
      RelayingLeaves(s, batch, step.accepted, step.at, |batch|, k);
      RelayedRowMoves(s.outbox[e], states[i + 1].outbox[e], step.at, step.accepted[k]);
    } else {
      RestComesLater(s, step.limit, step.at, e);
    }
  }

  lemma RelayedRowMoves(a: Row, b: Row, at: Time, taken: bool)
    requires Relayed(a, b, at, taken)
    ensures b != a
  {
  }

  lemma RestComesLater(s: State, limit: nat, at: Time, e: EventId)
    requires e in s.outbox && Queued(s.outbox[e], at)
    requires forall k :: 0 <= k < |RelayBatch(s, limit, at)| ==> RelayBatch(s, limit, at)[k].id != e
    ensures
      var batch := RelayBatch(s, limit, at);
      forall k :: 0 <= k < |batch| ==>
        && batch[k].id in s.outbox && batch[k].at == s.outbox[batch[k].id].createdAt
        && Before(batch[k], Key(s.outbox[e].createdAt, e))
  {
    var rows := Sorted(DueRows(s.outbox, at));
    assert forall i :: 0 <= i < |rows| ==> rows[i] in rows;
    assert Key(s.outbox[e].createdAt, e) in rows;
    var j :| 0 <= j < |rows| && rows[j] == Key(s.outbox[e].createdAt, e);
  }

  /** Deleting a rule takes its timers with it and no others; a conversation is closed or reopened as asked. */
  lemma AdministrationLeaves(s: State, step: Step)
    requires Admissible(s, step) && (step.DeleteRule? || step.PutConversation?)
    ensures step.DeleteRule? ==>
      && step.r !in Next(s, step).rules
      && (forall r | r in s.rules && r != step.r :: r in Next(s, step).rules && Next(s, step).rules[r] == s.rules[r])
      && (forall t :: t in Next(s, step).timers <==> t in s.timers && s.timers[t].rule != step.r)
      && (forall t | t in Next(s, step).timers :: Next(s, step).timers[t] == s.timers[t])
    ensures step.PutConversation? ==>
      && Next(s, step) == s.(closed := Next(s, step).closed)
      && step.c in Next(s, step).closed && Next(s, step).closed[step.c] == step.isClosed
      && (forall c | c in s.closed && c != step.c ::
            c in Next(s, step).closed && Next(s, step).closed[c] == s.closed[c])
  {
  }

  /** An edit of a rule stores what it says and raises the version; a new rule starts at one. */
  lemma RuleIsStored(s: State, step: Step)
    requires Admissible(s, step) && step.PutRule?
    ensures
      var s' := Next(s, step);
      && step.r in s'.rules
      && var rule := s'.rules[step.r];
      && rule.enabled == step.enabled && rule.trigger == step.trigger && rule.duration == step.duration
      && (step.r in s.rules ==> rule.version == s.rules[step.r].version + 1)
      && (step.r !in s.rules ==> rule.version == 1)
  {
  }

  // ---------------------------------------------------------------- draining the outbox

  /** The exponential delay doubles up to 256 seconds; the cap of 300 seconds is never what decides. */
  lemma RelayDelayNeverCapped(attempts: nat)
    ensures RelayDelay(attempts) == Pow2(if attempts < 8 then attempts else 8) <= 256
    ensures attempts < 8 ==> RelayDelay(attempts + 1) == 2 * RelayDelay(attempts)
  {
    assert Pow2(8) == 256 by {
      assert Pow2(4) == 16;
    }
    PowersRise(if attempts < 8 then attempts else 8, 8);
  }

  lemma {:induction false} PowersRise(a: nat, b: nat)
    requires a <= b
    ensures Pow2(a) <= Pow2(b)
  {
    if a < b { PowersRise(a, b - 1); }
  }

  function Ids(rows: seq<Key>): seq<EventId> {
    if rows == [] then [] else Ids(rows[..|rows| - 1]) + [rows[|rows| - 1].id]
  }

  function Trues(n: nat): (s: seq<bool>)
    ensures |s| == n && forall i :: 0 <= i < n ==> s[i]
  {
    seq(n, i => true)
  }

  /** A relay call in which the queue takes every row. */
  function Sweep(s: State, limit: nat, at: Time): State {
    var batch := RelayBatch(s, limit, at);
    RelayAll(s, batch, Trues(|batch|), at)
  }

  lemma {:induction false} SweepsRows(s: State, batch: seq<Key>, accepted: seq<bool>, at: Time, n: nat)
    requires Relayable(s, batch, accepted) && n <= |batch| && forall i :: 0 <= i < |accepted| ==> accepted[i]
    ensures var s' := RelayAll(s, batch[..n], accepted, at);
      && s'.enqueued == s.enqueued + Ids(batch[..n])
      && forall i :: 0 <= i < n ==> s'.outbox[batch[i].id].published.Some?
  {
    if n == 0 {
      assert batch[..0] == [];
    } else {
      assert batch[..n][..n - 1] == batch[..n - 1];
      SweepsRows(s, batch, accepted, at, n - 1);
    }
  }

  /** The due rows in the order of the query. */
  function DueList(s: State, at: Time): seq<Key> {
    Sorted(DueRows(s.outbox, at))
  }

  /** One sweep enqueues the first `limit` due rows in order; exactly the others stay due. */
  lemma SweepTakesPrefix(s: State, limit: nat, at: Time)
    ensures var due := DueList(s, at);
      var m := if |due| <= limit then |due| else limit;
      && Sweep(s, limit, at).enqueued == s.enqueued + Ids(due[..m])
      && DueList(Sweep(s, limit, at), at) == due[m..]
  {
    var due := Sorted(DueRows(s.outbox, at));
    var m := if |due| <= limit then |due| else limit;
    var batch := RelayBatch(s, limit, at);
    var accepted := Trues(|batch|);
    BatchIsRelayable(s, limit, accepted, at);
    assert batch[..|batch|] == batch && batch == due[..m];
    SweepsRows(s, batch, accepted, at, |batch|);
    RelayingLeavesTheRest(s, batch, accepted, at, |batch|);
    LeftToRelay(s, Sweep(s, limit, at), due, m, at);
  }

  lemma NotRelayed(s: State, s': State, due: seq<Key>, m: nat, at: Time, j: nat)
    requires due == Sorted(DueRows(s.outbox, at)) && m <= j < |due| && s'.outbox.Keys == s.outbox.Keys
    requires forall e | e in s.outbox && (forall i :: 0 <= i < m ==> due[i].id != e) :: s'.outbox[e] == s.outbox[e]
    ensures due[j] in DueRows(s'.outbox, at)
  {
    var k := due[j];
    assert k in due;
    forall i | 0 <= i < m
      ensures due[i].id != k.id
    {
      assert due[i] in due && Before(due[i], due[j]);
    }
    assert s'.outbox[k.id] == s.outbox[k.id];
  }

  lemma StillDue(s: State, s': State, due: seq<Key>, m: nat, at: Time, k: Key)
    requires due == Sorted(DueRows(s.outbox, at)) && m <= |due| && s'.outbox.Keys == s.outbox.Keys
    requires forall i :: 0 <= i < m ==> due[i].id in s'.outbox && s'.outbox[due[i].id].published.Some?
    requires forall e | e in s.outbox && (forall i :: 0 <= i < m ==> due[i].id != e) :: s'.outbox[e] == s.outbox[e]
    requires k in DueRows(s'.outbox, at)
    ensures k in due[m..]
  {
    assert forall i :: 0 <= i < m ==> due[i].id != k.id;
    assert k in DueRows(s.outbox, at);
    assert k in due;
    var i :| 0 <= i < |due| && due[i] == k;
    assert due[m..][i - m] == k;
  }

  lemma LeftToRelay(s: State, s': State, due: seq<Key>, m: nat, at: Time)
    requires due == Sorted(DueRows(s.outbox, at)) && m <= |due| && s'.outbox.Keys == s.outbox.Keys
    requires forall i :: 0 <= i < m ==> due[i].id in s'.outbox && s'.outbox[due[i].id].published.Some?
    requires forall e | e in s.outbox && (forall i :: 0 <= i < m ==> due[i].id != e) :: s'.outbox[e] == s.outbox[e]
    ensures Sorted(DueRows(s'.outbox, at)) == due[m..]
  {
    hide DueRows, Sorted;
    forall k
      ensures k in due[m..] <==> k in DueRows(s'.outbox, at)
    {
      if k in due[m..] {
        var i :| m <= i < |due| && due[i] == k;
        NotRelayed(s, s', due, m, at, i);
      }
      if k in DueRows(s'.outbox, at) {
        StillDue(s, s', due, m, at, k);
      }
    }
    SortedIsUnique(due[m..], DueRows(s'.outbox, at));
  }

  function Drain(s: State, limit: nat, at: Time, calls: nat): State {
    if calls == 0 then s else Sweep(Drain(s, limit, at, calls - 1), limit, at)
  }

  lemma {:induction false} IdsConcat(a: seq<Key>, b: seq<Key>)
    ensures Ids(a + b) == Ids(a) + Ids(b)
  {
    if b == [] {
      assert a + b == a;
    } else {
      assert (a + b)[..|a + b| - 1] == a + b[..|b| - 1];
      IdsConcat(a, b[..|b| - 1]);
    }
  }

  /** Rows enqueued by `k` sweeps over `n` due rows. */
  function Progress(n: nat, limit: nat, k: nat): (m: nat)
    ensures m <= n
  {
    if n <= k * limit then n else k * limit
  }

  lemma ProgressStarts(n: nat, limit: nat)
    ensures Progress(n, limit, 0) == 0
  {
  }

  lemma NoIds(rows: seq<Key>)
    ensures Ids(rows[..0]) == [] && rows[0..] == rows
  {
  }

  lemma ProgressStep(n: nat, limit: nat, k: nat)
    requires k >= 1
    ensures var m := Progress(n, limit, k - 1);
      Progress(n, limit, k) == m + (if n - m <= limit then n - m else limit)
  {
    assert k * limit == (k - 1) * limit + limit;
  }

  /** After k sweeps the first min(n, k * limit) due rows were enqueued, in (created_at, id) order. */
  lemma {:induction false} DrainTakesPrefix(s: State, limit: nat, at: Time, k: nat)
    ensures var due := DueList(s, at);
      var m := Progress(|due|, limit, k);
      && Drain(s, limit, at, k).enqueued == s.enqueued + Ids(due[..m])
      && DueList(Drain(s, limit, at, k), at) == due[m..]
  {
    hide Sweep, DueList, Progress, Ids;
    var due := DueList(s, at);
    ProgressStarts(|due|, limit);
    if k == 0 {
      NoIds(due);
    } else {
      DrainTakesPrefix(s, limit, at, k - 1);
      ProgressStep(|due|, limit, k);
      SweepTakesPrefix(Drain(s, limit, at, k - 1), limit, at);
      NextSlice(s.enqueued, due, Progress(|due|, limit, k - 1), limit);
    }
  }

  lemma SliceOfSlice(rows: seq<Key>, a: nat, n: nat)
    requires a + n <= |rows|
    ensures rows[..a] + rows[a..][..n] == rows[..a + n]
    ensures rows[a..][n..] == rows[a + n..]
  {
  }

  lemma NextSlice(log: seq<EventId>, rows: seq<Key>, a: nat, limit: nat)
    requires a <= |rows|
    ensures var n := if |rows| - a <= limit then |rows| - a else limit;
      && log + Ids(rows[..a]) + Ids(rows[a..][..n]) == log + Ids(rows[..a + n])
      && rows[a..][n..] == rows[a + n..]
  {
    hide Ids;
    var n := if |rows| - a <= limit then |rows| - a else limit;
    SliceOfSlice(rows, a, n);
    IdsConcat(rows[..a], rows[a..][..n]);
    Associates(log, Ids(rows[..a]), Ids(rows[a..][..n]));
  }

  lemma Associates(a: seq<EventId>, b: seq<EventId>, c: seq<EventId>)
    ensures a + b + c == a + (b + c)
  {
  }

  /** With a queue that takes everything, n due rows are drained after ceil(n / limit) calls and not before. */
  lemma DrainsInCeilCalls(s: State, limit: nat, at: Time, k: nat)
    requires limit >= 1
    ensures var due := DueList(s, at);
      var calls := (|due| + limit - 1) / limit;
      && (k >= calls ==> Drain(s, limit, at, k).enqueued == s.enqueued + Ids(due))
      && (DueList(Drain(s, limit, at, k), at) == [] <==> k >= calls)
  {
    hide Sweep, DueList;
    var due := DueList(s, at);
    DrainTakesPrefix(s, limit, at, k);
    CeilDiv(|due|, limit, k);
    assert due[..|due|] == due;
  }

  lemma CeilDiv(n: nat, d: nat, k: nat)
    requires d >= 1
    ensures k >= (n + d - 1) / d <==> k * d >= n
  {
    var q := (n + d - 1) / d;
    assert q * d <= n + d - 1 < q * d + d;
    if k >= q {
      assert k * d >= q * d;
    } else {
      assert k * d <= (q - 1) * d == q * d - d;
    }
  }

  // ---------------------------------------------------------------- the mutable store

  function FiredCount(s: State, batch: seq<Key>): nat
    requires forall k | k in batch :: k.id in s.timers
  {
    if batch == [] then 0
    else
      var n := |batch| - 1;
      FiredCount(s, batch[..n]) + (if StillValid(s, s.timers[batch[n].id]) then 1 else 0)
  }

  function Selected(timers: map<TimerId, Timer>, c: ConversationId, trigger: Trigger): set<TimerId> {
    set t | t in timers && Waiting(timers[t], c) && timers[t].trigger == trigger
  }

  lemma SameVerdict(s: State, s': State, t: TimerId)
    requires t in s.timers && t in s'.timers && s'.timers[t] == s.timers[t]
    requires s'.rules == s.rules && s'.closed == s.closed
    ensures StillValid(s', s'.timers[t]) == StillValid(s, s.timers[t])
  {
  }

  lemma FireAllGrows(s: State, batch: seq<Key>, events: seq<EventId>, at: Time, i: nat)
    requires i < |batch| <= |events| && forall k | k in batch :: k.id in s.timers
    ensures var before := FireAll(s, batch[..i], events, at);
      && FireAll(s, batch[..i + 1], events, at) == FireOne(before, batch[i].id, events[i], at)
      && FiredCount(s, batch[..i + 1])
         == FiredCount(s, batch[..i]) + (if StillValid(s, s.timers[batch[i].id]) then 1 else 0)
  {
    hide FireOne, StillValid;
    assert batch[..i + 1][..i] == batch[..i];
  }

  lemma PublishIs(s: State, event: EventId, at: Time)
    requires Admissible(s, Publish(event, at))
    ensures event !in s.outbox
    ensures Next(s, Publish(event, at)) == s.(outbox := s.outbox[event := Row(None, at, 0, None, at)])
  {
  }

  lemma FireIs(s: State, limit: nat, events: seq<EventId>, at: Time)
    requires Admissible(s, Fire(limit, events, at))
    ensures Fireable(s, FireBatch(s, limit, at), events)
    ensures Next(s, Fire(limit, events, at)) == FireAll(s, FireBatch(s, limit, at), events, at)
  {
    BatchIsFireable(s, limit, events, at);
  }

  lemma RelayIs(s: State, limit: nat, accepted: seq<bool>, at: Time)
    requires Admissible(s, Relay(limit, accepted, at))
    ensures Relayable(s, RelayBatch(s, limit, at), accepted)
    ensures Next(s, Relay(limit, accepted, at)) == RelayAll(s, RelayBatch(s, limit, at), accepted, at)
  {
    BatchIsRelayable(s, limit, accepted, at);
  }

  function CancelThese(timers: map<TimerId, Timer>, ids: set<TimerId>): map<TimerId, Timer> {
    map t | t in timers :: if t in ids then timers[t].(status := Cancelled) else timers[t]
  }

  lemma CancellingNone(timers: map<TimerId, Timer>)
    ensures CancelThese(timers, {}) == timers
  {
  }

  lemma CancellingOneMore(timers: map<TimerId, Timer>, ids: set<TimerId>, t: TimerId)
    requires t in timers && t !in ids
    ensures var before := CancelThese(timers, ids);
      t in before && CancelThese(timers, ids + {t}) == before[t := before[t].(status := Cancelled)]
  {
  }

  lemma CancellingAll(timers: map<TimerId, Timer>, c: ConversationId, trigger: Trigger)
    ensures CancelThese(timers, Selected(timers, c, trigger)) == CancelFor(timers, c, trigger)
  {
  }

  /** The i-th turn of the loop meets its timer as the batch found it, and a free event id. */
  lemma TurnIsReady(s: State, batch: seq<Key>, events: seq<EventId>, at: Time, i: nat)
    requires Fireable(s, batch, events) && i < |batch|
    ensures i < |events| && batch[i].id in s.timers
    ensures var s' := FireAll(s, batch[..i], events, at);
      && batch[i].id in s'.timers && events[i] !in s'.outbox
      && StillValid(s', s'.timers[batch[i].id]) == StillValid(s, s.timers[batch[i].id])
  {
    FiringLeavesTheRest(s, batch, events, at, i);
    assert events[i] in events;
    SameVerdict(s, FireAll(s, batch[..i], events, at), batch[i].id);
  }

  lemma OneTurnLeaves(rules: map<RuleId, Rule>, timers: map<TimerId, Timer>, c: ConversationId, trigger: Trigger,
                      r: RuleId, id: TimerId, at: Time)
    requires r in rules
    ensures
      var after := ScheduleOne(rules, timers, c, trigger, r, id, at);
      && (PendingOn(timers, c, r, trigger) ==> after == timers)
      && (!PendingOn(timers, c, r, trigger) && id !in timers ==>
            && id in after && after == timers[id := after[id]]
            && IsFor(rules, after[id], c, r, trigger, at) && Continues(timers, after[id]))
  {
    assert HasPending(timers, c, r, trigger) <==> PendingOn(timers, c, r, trigger);
    if id !in timers {
      OwnTurn(rules, timers, timers, c, r, trigger, id, at);
    }
  }

  class TimerStore {
    var rules: map<RuleId, Rule>
    var closed: map<ConversationId, bool>
    var timers: map<TimerId, Timer>
    var outbox: map<EventId, Row>
    var enqueued: seq<EventId>
    ghost var usedRules: set<RuleId>
    ghost var usedTimers: set<TimerId>
    ghost var states: seq<State>
    ghost var steps: seq<Step>

    ghost function Now(): State
      reads this
    {
      State(rules, closed, timers, outbox, enqueued, usedRules, usedTimers)
    }

    ghost predicate Valid()
      reads this
    {
      IsRun(states, steps) && states[|steps|] == Now()
    }

    constructor ()
      ensures Valid() && steps == []
    {
      rules, closed, timers, outbox, enqueued := map[], map[], map[], map[], [];
      usedRules, usedTimers := {}, {};
      states, steps := [EMPTY], [];
    }

    ghost method Record(before: State, step: Step)
      requires IsRun(states, steps) && states[|steps|] == before && Admissible(before, step)
      requires Now() == Next(before, step)
      modifies this`states, this`steps
      ensures Valid() && steps == old(steps) + [step] && states == old(states) + [Now()]
    {
      hide Next, Admissible;
      states, steps := states + [Now()], steps + [step];
    }

    method PutRule(r: RuleId, enabled: bool, trigger: Trigger, duration: Option<nat>)
      requires Valid() && Admissible(Now(), Step.PutRule(r, enabled, trigger, duration))
      modifies this
      ensures Valid() && Now() == Next(old(Now()), Step.PutRule(r, enabled, trigger, duration))
      ensures steps == old(steps) + [Step.PutRule(r, enabled, trigger, duration)]
    {
      ghost var before := Now();
      var version := if r in rules then rules[r].version + 1 else 1;
      rules := rules[r := Rule(enabled, version, trigger, duration)];
      usedRules := usedRules + {r};
      Record(before, Step.PutRule(r, enabled, trigger, duration));
    }

    /** Deleting a rule cascades to its timers. */
    method DeleteRule(r: RuleId)
      requires Valid()
      modifies this
      ensures Valid() && Now() == Next(old(Now()), Step.DeleteRule(r)) && steps == old(steps) + [Step.DeleteRule(r)]
    {
      ghost var before := Now();
      rules := rules - {r};
      timers := map t | t in timers && timers[t].rule != r :: timers[t];
      Record(before, Step.DeleteRule(r));
    }

    method PutConversation(c: ConversationId, isClosed: bool)
      requires Valid()
      modifies this
      ensures Valid() && Now() == Next(old(Now()), Step.PutConversation(c, isClosed))
      ensures steps == old(steps) + [Step.PutConversation(c, isClosed)]
    {
      ghost var before := Now();
      closed := closed[c := isClosed];
      Record(before, Step.PutConversation(c, isClosed));
    }

    method CancelUnanswered(c: ConversationId, trigger: Trigger) returns (count: nat)
      modifies this`timers
      ensures timers == CancelFor(old(timers), c, trigger)
      ensures count == |Selected(old(timers), c, trigger)|
    {
      ghost var before, all := timers, Selected(timers, c, trigger);
      var rows := set t | t in timers && Waiting(timers[t], c) && timers[t].trigger == trigger;
      assert rows == all;
      count := 0;
      CancellingNone(before);
      while rows != {}
        invariant rows <= all && count + |rows| == |all|
        invariant timers == CancelThese(before, all - rows)
        decreases rows
      {
        var row :| row in rows;
        CancellingOneMore(before, all - rows, row);
        assert all - (rows - {row}) == all - rows + {row};
        timers := timers[row := timers[row].(status := Cancelled)];
        rows, count := rows - {row}, count + 1;
      }
      assert all - rows == all;
      CancellingAll(before, c, trigger);
    }

    /** Nothing while the rule has a pending timer, else one that is due the rule's duration later. */
    method ScheduleTimer(c: ConversationId, trigger: Trigger, r: RuleId, id: TimerId, at: Time)
      requires r in rules
      modifies this`timers
      ensures timers == ScheduleOne(rules, old(timers), c, trigger, r, id, at)
      ensures PendingOn(old(timers), c, r, trigger) ==> timers == old(timers)
      ensures !PendingOn(old(timers), c, r, trigger) && id !in old(timers) ==>
        && id in timers && timers == old(timers)[id := timers[id]]
        && IsFor(rules, timers[id], c, r, trigger, at) && Continues(old(timers), timers[id])
    {
      OneTurnLeaves(rules, timers, c, trigger, r, id, at);
      if !(exists t | t in timers :: Waiting(timers[t], c) && timers[t].rule == r && timers[t].trigger == trigger) {
        var activity := Latest(Activities(timers, c, r)) + 1;
        var seconds := if rules[r].duration.Some? then rules[r].duration.value else 0;
        timers := timers[id := Timer(c, r, rules[r].version, trigger, activity, at + seconds * SECOND, Pending)];
      }
    }

    method ScheduleUnanswered(c: ConversationId, trigger: Trigger, matching: seq<RuleId>, ids: seq<TimerId>, at: Time)
      requires |matching| == |ids| && forall r | r in matching :: r in rules
      modifies this`timers
      ensures timers == ScheduleAll(rules, old(timers), c, trigger, matching, ids, at)
    {
      for i := 0 to |matching|
        invariant timers == ScheduleAll(rules, old(timers), c, trigger, matching[..i], ids[..i], at)
      {
        ScheduleTimer(c, trigger, matching[i], ids[i], at);
        assert matching[..i + 1][..i] == matching[..i] && ids[..i + 1][..i] == ids[..i];
      }
      assert matching[..|matching|] == matching && ids[..|ids|] == ids;
    }

    /** The timer steps of an inbound message. */
    method Inbound(c: ConversationId, matching: seq<RuleId>, ids: seq<TimerId>, at: Time)
      requires Valid() && Admissible(Now(), Step.Inbound(c, matching, ids, at))
      modifies this
      ensures Valid() && Now() == Next(old(Now()), Step.Inbound(c, matching, ids, at))
      ensures steps == old(steps) + [Step.Inbound(c, matching, ids, at)]
    {
      ghost var before := Now();
      var count := CancelUnanswered(c, CustomerUnanswered);
      ScheduleUnanswered(c, TeamUnanswered, matching, ids, at);
      usedTimers := usedTimers + Drawn(ids);
      Record(before, Step.Inbound(c, matching, ids, at));
    }

    /** The timer steps of an outbound message the provider accepted. */
    method Outbound(c: ConversationId, author: Author, matching: seq<RuleId>, ids: seq<TimerId>, at: Time)
      requires Valid() && Admissible(Now(), Step.Outbound(c, author, matching, ids, at))
      modifies this
      ensures Valid() && Now() == Next(old(Now()), Step.Outbound(c, author, matching, ids, at))
      ensures steps == old(steps) + [Step.Outbound(c, author, matching, ids, at)]
    {
      ghost var before := Now();
      var count := CancelUnanswered(c, TeamUnanswered);
      if author == User || author == Ai || author == Automation {
        ScheduleUnanswered(c, CustomerUnanswered, matching, ids, at);
      }
      usedTimers := usedTimers + Drawn(ids);
      Record(before, Step.Outbound(c, author, matching, ids, at));
    }

    /** One more row, due at once, that carries the timer; no other row changes. */
    method PublishEvent(timer: Option<TimerId>, event: EventId, at: Time)
      requires event !in outbox
      modifies this`outbox
      ensures outbox.Keys == old(outbox).Keys + {event} && |outbox| == |old(outbox)| + 1
      ensures forall e | e in old(outbox) :: outbox[e] == old(outbox)[e]
      ensures outbox[event].timer == timer && Deliverable(outbox[event], at)
      ensures outbox[event].createdAt == outbox[event].nextAttempt == at && outbox[event].attempts == 0
    {
      assert |outbox[event := Row(timer, at, 0, None, at)].Keys| == |outbox.Keys + {event}|;
      outbox := outbox[event := Row(timer, at, 0, None, at)];
    }

    method Publish(event: EventId, at: Time)
      requires Valid() && Admissible(Now(), Step.Publish(event, at))
      modifies this
      ensures Valid() && Now() == Next(old(Now()), Step.Publish(event, at))
      ensures steps == old(steps) + [Step.Publish(event, at)]
    {
      hide Next, Admissible;
      ghost var before := Now();
      PublishIs(before, event, at);
      PublishEvent(None, event, at);
      assert outbox == before.outbox[event := Row(None, at, 0, None, at)];
      Record(before, Step.Publish(event, at));
    }

    method FireDue(limit: nat, events: seq<EventId>, at: Time) returns (fired: nat)
      requires Valid() && Admissible(Now(), Step.Fire(limit, events, at))
      modifies this
      ensures Valid() && Now() == Next(old(Now()), Step.Fire(limit, events, at))
      ensures steps == old(steps) + [Step.Fire(limit, events, at)]
      ensures fired == FiredCount(old(Now()), FireBatch(old(Now()), limit, at))
    {
      hide Next, Admissible, Inv;
      ghost var before := Now();
      FireIs(before, limit, events, at);
      fired := FireRows(limit, events, at);
      Record(before, Step.Fire(limit, events, at));
    }

    /** The loop over the locked rows. */
    method FireRows(limit: nat, events: seq<EventId>, at: Time) returns (fired: nat)
      requires Fireable(Now(), FireBatch(Now(), limit, at), events)
      modifies this`timers, this`outbox
      ensures Now() == FireAll(old(Now()), FireBatch(old(Now()), limit, at), events, at)
      ensures fired == FiredCount(old(Now()), FireBatch(old(Now()), limit, at))
    {
      hide Sorted, DueTimers, FireOne, StillValid, Distinct;
      ghost var before := Now();
      var batch := Take(Sorted(DueTimers(timers, at)), limit);
      assert batch == FireBatch(before, limit, at);
      fired := 0;
      for i := 0 to |batch|
        invariant Now() == FireAll(before, batch[..i], events, at)
        invariant fired == FiredCount(before, batch[..i])
      {
        TurnIsReady(before, batch, events, at, i);
        var valid := FireRow(batch[i].id, events[i], at);
        if valid {
          fired := fired + 1;
        }
        FireAllGrows(before, batch, events, at, i);
      }
      assert batch[..|batch|] == batch;
    }

    method FireRow(timer: TimerId, event: EventId, at: Time) returns (valid: bool)
      requires timer in timers && event !in outbox
      modifies this`timers, this`outbox
      ensures Now() == FireOne(old(Now()), timer, event, at)
      ensures valid == StillValid(old(Now()), old(timers)[timer])
    {
      var row := timers[timer];
      valid := row.rule in rules && rules[row.rule].enabled && rules[row.rule].version == row.ruleVersion
               && row.conversation in closed && !closed[row.conversation];
      if valid {
        PublishEvent(Some(timer), event, at);
        assert outbox == old(outbox)[event := Row(Some(timer), at, 0, None, at)];
        timers := timers[timer := row.(status := Fired)];
      } else {
        timers := timers[timer := row.(status := Cancelled)];
      }
    }

    method RelayOutbox(limit: nat, accepted: seq<bool>, at: Time) returns (published: nat)
      requires Valid() && Admissible(Now(), Step.Relay(limit, accepted, at))
      modifies this
      ensures Valid() && Now() == Next(old(Now()), Step.Relay(limit, accepted, at))
      ensures steps == old(steps) + [Step.Relay(limit, accepted, at)]
      ensures published == AcceptedCount(accepted[..|RelayBatch(old(Now()), limit, at)|])
    {
      hide Next, Admissible;
      ghost var before := Now();
      RelayIs(before, limit, accepted, at);
      published := RelayRows(limit, accepted, at);
      Record(before, Step.Relay(limit, accepted, at));
    }

    /** The loop over the locked rows. */
    method RelayRows(limit: nat, accepted: seq<bool>, at: Time) returns (published: nat)
      requires Relayable(Now(), RelayBatch(Now(), limit, at), accepted)
      modifies this`outbox, this`enqueued
      ensures Now() == RelayAll(old(Now()), RelayBatch(old(Now()), limit, at), accepted, at)
      ensures published == AcceptedCount(accepted[..|RelayBatch(old(Now()), limit, at)|])
    {
      hide Sorted, DueRows, RelayOne;
      ghost var before := Now();
      var batch := Take(Sorted(DueRows(outbox, at)), limit);
      assert batch == RelayBatch(before, limit, at);
      published := 0;
      for i := 0 to |batch|
        invariant Now() == RelayAll(before, batch[..i], accepted, at)
        invariant published == AcceptedCount(accepted[..i])
      {
        RelayRow(batch[i].id, accepted[i], at);
        if accepted[i] {
          published := published + 1;
        }
        RelayAllGrows(before, batch, accepted, at, i);
      }
      assert batch[..|batch|] == batch;
    }

    /** Count the attempt, then mark the row published or push it back. */
    method RelayRow(event: EventId, taken: bool, at: Time)
      requires event in outbox
      modifies this`outbox, this`enqueued
      ensures Now() == RelayOne(old(Now()), event, taken, at)
    {
      outbox := outbox[event := outbox[event].(attempts := outbox[event].attempts + 1)];
      var row := outbox[event];
      if taken {
        enqueued := enqueued + [event];
        outbox := outbox[event := row.(published := Some(at), nextAttempt := at)];
      } else {
        outbox := outbox[event := row.(nextAttempt := at + RelayDelay(row.attempts) * SECOND)];
      }
    }
  }
}
