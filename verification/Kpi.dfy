/**
 First-response windows: an inbound message opens a window on its conversation, the first accepted reply of a
 person, the AI or an automation closes it with an event.

 The reference is the trace of messages: which inbound messages are unanswered at a point of it.
 */
module Kpi {
  import opened Common

  type ConversationId = nat
  type WindowId = nat

  datatype Responder = Agent | AiResponder | AutomationResponder

  datatype Status = Queued | Sent | Delivered | Read | Failed | Unknown | Cancelled

  datatype Message = Message(conversation: ConversationId, outbound: bool, status: Status, author: Author)

  datatype Conversation = Conversation(window: Option<WindowId>, startedAt: Option<Time>)

  datatype Event = Event(
    conversation: ConversationId,
    window: WindowId,
    responder: Responder,
    receivedAt: Time,
    respondedAt: Time,
    elapsedMs: nat,
    resolvedByAi: bool)

  /** The rows, and per conversation the number of windows opened, with the window ids drawn. */
  datatype State = State(
    conversations: map<ConversationId, Conversation>,
    events: seq<Event>,
    windows: map<ConversationId, nat>,
    used: set<WindowId>)

  datatype Step =
    | Start(c: ConversationId)
      /** `drawn`: the id drawn if the window has to be opened. */
    | Inbound(c: ConversationId, drawn: WindowId, at: Time)
      /** A message handed to the closing of a window; `aiActive`: the conversation's mode at that time. */
    | Reply(message: Message, aiActive: bool, at: Time)

  // ---------------------------------------------------------------- one call

  function ResponderOf(author: Author): Option<Responder> {
    match author
    case User => Some(Agent)
    case Ai => Some(AiResponder)
    case Automation => Some(AutomationResponder)
    case Contact => None
    case System => None
  }

  /** An accepted message by somebody who answers. */
  predicate Qualifies(m: Message) {
    m.outbound && (m.status == Sent || m.status == Delivered || m.status == Read) && ResponderOf(m.author).Some?
  }

  /** Whole milliseconds, truncated; a reply dated before the inbound message counts as immediate. */
  function Elapsed(receivedAt: Time, respondedAt: Time): nat {
    if respondedAt <= receivedAt then 0 else (respondedAt - receivedAt) / 1000
  }

  function Answer(m: Message, aiActive: bool, window: WindowId, receivedAt: Time, respondedAt: Time): Event
    requires Qualifies(m)
  {
    var responder := ResponderOf(m.author).value;
    Event(m.conversation, window, responder, receivedAt, respondedAt, Elapsed(receivedAt, respondedAt),
          responder == AiResponder && aiActive)
  }

  predicate HasWindow(s: State, c: ConversationId) {
    c in s.conversations && s.conversations[c].window.Some? && s.conversations[c].startedAt.Some?
  }

  predicate Closes(s: State, step: Step) {
    step.Reply? && Qualifies(step.message) && HasWindow(s, step.message.conversation)
  }

  predicate Opens(s: State, step: Step) {
    step.Inbound? && step.c in s.conversations && s.conversations[step.c].window.None?
  }

  function Next(s: State, step: Step): State {
    match step
    case Start(c) =>
      if c in s.conversations then s else s.(conversations := s.conversations[c := Conversation(None, None)])
    case Inbound(c, drawn, at) =>
      if Opens(s, step) then
        s.(conversations := s.conversations[c := Conversation(Some(drawn), Some(at))],
           windows := s.windows[c := Count(s.windows, c) + 1], used := s.used + {drawn})
      else s
    case Reply(m, aiActive, at) =>
      if Closes(s, step) then
        var row := s.conversations[m.conversation];
        s.(conversations := s.conversations[m.conversation := Conversation(None, None)],
           events := s.events + [Answer(m, aiActive, row.window.value, row.startedAt.value, at)])
      else s
  }

  predicate Admissible(s: State, step: Step) {
    step.Inbound? ==> step.c in s.conversations && step.drawn !in s.used
  }

  const EMPTY := State(map[], [], map[], {})

  ghost predicate IsRun(states: seq<State>, steps: seq<Step>) {
    && |states| == |steps| + 1
    && states[0] == EMPTY
    && (forall i :: 0 <= i < |steps| ==> Admissible(states[i], steps[i]) && states[i + 1] == Next(states[i], steps[i]))
  }

  lemma RunStep(states: seq<State>, steps: seq<Step>, i: nat)
    requires IsRun(states, steps) && i < |steps|
    ensures |states| == |steps| + 1 && Admissible(states[i], steps[i]) && states[i + 1] == Next(states[i], steps[i])
  {
  }

  // ---------------------------------------------------------------- the trace

  predicate IsInbound(steps: seq<Step>, c: ConversationId, i: nat)
    requires i < |steps|
  {
    steps[i].Inbound? && steps[i].c == c
  }

  predicate IsReply(steps: seq<Step>, c: ConversationId, i: nat)
    requires i < |steps|
  {
    steps[i].Reply? && steps[i].message.conversation == c && Qualifies(steps[i].message)
  }

  /** The i-th message came in on c and no reply on c followed among the first n messages. */
  predicate Unanswered(steps: seq<Step>, c: ConversationId, i: nat, n: nat)
    requires n <= |steps|
  {
    i < n && IsInbound(steps, c, i) && forall k :: i < k < n ==> !IsReply(steps, c, k)
  }

  predicate FirstUnanswered(steps: seq<Step>, c: ConversationId, i: nat, n: nat)
    requires n <= |steps|
  {
    Unanswered(steps, c, i, n) && forall k: nat :: k < i ==> !Unanswered(steps, c, k, n)
  }

  ghost predicate AllAnswered(steps: seq<Step>, c: ConversationId, n: nat)
    requires n <= |steps|
  {
    forall i: nat :: !Unanswered(steps, c, i, n)
  }

  ghost predicate SomeUnanswered(steps: seq<Step>, c: ConversationId, n: nat)
    requires n <= |steps|
  {
    exists i: nat :: FirstUnanswered(steps, c, i, n)
  }

  /** The events the trace calls for: one per reply to an unanswered inbound message, dated from the first such. */
  ghost function EventsOf(steps: seq<Step>, n: nat): seq<Event>
    requires n <= |steps|
  {
    if n == 0 then [] else EventsOf(steps, n - 1) + EventAt(steps, n - 1)
  }

  ghost function EventAt(steps: seq<Step>, j: nat): seq<Event>
    requires j < |steps|
  {
    if steps[j].Reply? && Qualifies(steps[j].message) && SomeUnanswered(steps, steps[j].message.conversation, j) then
      var i: nat :| FirstUnanswered(steps, steps[j].message.conversation, i, j);
      [Answer(steps[j].message, steps[j].aiActive, steps[i].drawn, steps[i].at, steps[j].at)]
    else []
  }

  lemma FirstIsUnique(steps: seq<Step>, c: ConversationId, i: nat, j: nat, n: nat)
    requires n <= |steps| && FirstUnanswered(steps, c, i, n) && FirstUnanswered(steps, c, j, n)
    ensures i == j
  {
  }

  lemma UnansweredStep(steps: seq<Step>, c: ConversationId, i: nat, n: nat)
    requires n < |steps|
    ensures Unanswered(steps, c, i, n + 1) <==>
      (Unanswered(steps, c, i, n) && !IsReply(steps, c, n)) || (i == n && IsInbound(steps, c, n))
  {
  }

  // ---------------------------------------------------------------- windows are unanswered messages

  /** The window of c is open exactly if a message is unanswered, and is dated and named by the first. */
  ghost predicate WindowOk(s: State, steps: seq<Step>, n: nat, c: ConversationId)
    requires n <= |steps|
  {
    if c !in s.conversations then forall i: nat :: i < n ==> !IsInbound(steps, c, i)
    else if s.conversations[c].window.None? then
      s.conversations[c].startedAt.None? && AllAnswered(steps, c, n)
    else
      exists i: nat :: OpenedBy(s.conversations[c], steps, c, i, n)
  }

  ghost predicate OpenedBy(row: Conversation, steps: seq<Step>, c: ConversationId, i: nat, n: nat)
    requires n <= |steps|
  {
    FirstUnanswered(steps, c, i, n) && row == Conversation(Some(steps[i].drawn), Some(steps[i].at))
  }

  lemma NothingUnanswered(steps: seq<Step>, c: ConversationId, n: nat)
    requires n < |steps| && AllAnswered(steps, c, n) && !IsInbound(steps, c, n)
    ensures AllAnswered(steps, c, n + 1)
  {
    var m := n + 1;
    forall i: nat
      ensures !Unanswered(steps, c, i, m)
    {
      UnansweredStep(steps, c, i, n);
    }
  }

  lemma ReplyAnswersAll(steps: seq<Step>, c: ConversationId, n: nat)
    requires n < |steps| && IsReply(steps, c, n)
    ensures AllAnswered(steps, c, n + 1)
  {
    var m := n + 1;
    forall i: nat
      ensures !Unanswered(steps, c, i, m)
    {
      UnansweredStep(steps, c, i, n);
    }
  }

  lemma FirstStays(steps: seq<Step>, c: ConversationId, f: nat, n: nat)
    requires n < |steps| && FirstUnanswered(steps, c, f, n) && !IsReply(steps, c, n)
    ensures FirstUnanswered(steps, c, f, n + 1)
  {
    UnansweredStep(steps, c, f, n);
    var m := n + 1;
    forall k: nat | k < f
      ensures !Unanswered(steps, c, k, m)
    {
      UnansweredStep(steps, c, k, n);
    }
  }

  lemma FirstNow(steps: seq<Step>, c: ConversationId, n: nat)
    requires n < |steps| && AllAnswered(steps, c, n) && IsInbound(steps, c, n)
    ensures FirstUnanswered(steps, c, n, n + 1)
  {
    UnansweredStep(steps, c, n, n);
    var m := n + 1;
    forall k: nat | k < n
      ensures !Unanswered(steps, c, k, m)
    {
      UnansweredStep(steps, c, k, n);
    }
  }

  /** What the step at n does to the row of c. */
  lemma RowStep(s: State, step: Step, c: ConversationId)
    requires Admissible(s, step)
    ensures var s' := Next(s, step);
      && (c in s'.conversations <==> c in s.conversations || (step.Start? && step.c == c))
      && (c !in s.conversations && c in s'.conversations ==> s'.conversations[c] == Conversation(None, None))
      && (c in s.conversations ==>
            s'.conversations[c] ==
            if Opens(s, step) && step.c == c then Conversation(Some(step.drawn), Some(step.at))
            else if Closes(s, step) && step.message.conversation == c then Conversation(None, None)
            else s.conversations[c])
  {
  }

  lemma WindowStep(s: State, steps: seq<Step>, n: nat, c: ConversationId)
    requires n < |steps| && WindowOk(s, steps, n, c) && Admissible(s, steps[n])
    ensures WindowOk(Next(s, steps[n]), steps, n + 1, c)
  {
    hide Next, Unanswered, FirstUnanswered;
    var s', step := Next(s, steps[n]), steps[n];
    RowStep(s, step, c);
    if c !in s.conversations {
      if c in s'.conversations {
        NoneBefore(steps, c, n);
        NothingUnanswered(steps, c, n);
      }
    } else if s.conversations[c].window.None? {
      if IsInbound(steps, c, n) {
        FirstNow(steps, c, n);
        assert OpenedBy(s'.conversations[c], steps, c, n, n + 1);
      } else {
        NothingUnanswered(steps, c, n);
      }
    } else {
      var f: nat :| OpenedBy(s.conversations[c], steps, c, f, n);
      if IsReply(steps, c, n) {
        ReplyAnswersAll(steps, c, n);
      } else {
        FirstStays(steps, c, f, n);
        assert OpenedBy(s'.conversations[c], steps, c, f, n + 1);
      }
    }
  }

  lemma NoneBefore(steps: seq<Step>, c: ConversationId, n: nat)
    requires n <= |steps| && forall i: nat :: i < n ==> !IsInbound(steps, c, i)
    ensures AllAnswered(steps, c, n)
  {
  }

  lemma {:induction false} RunKeepsWindows(states: seq<State>, steps: seq<Step>, n: nat, c: ConversationId)
    requires IsRun(states, steps) && n <= |steps|
    ensures WindowOk(states[n], steps, n, c)
  {
    hide Next, Admissible, Unanswered, FirstUnanswered;
    if n == 0 {
    } else {
      RunKeepsWindows(states, steps, n - 1, c);
      WindowStep(states[n - 1], steps, n - 1, c);
    }
  }

  /** At every point of a run a conversation has an open window exactly if an inbound message is unanswered. */
  lemma WindowIsOpenExactlyIfUnanswered(states: seq<State>, steps: seq<Step>, n: nat, c: ConversationId)
    requires IsRun(states, steps) && n <= |steps|
    ensures HasWindow(states[n], c) <==> exists i: nat :: i < n && Unanswered(steps, c, i, n)
    ensures forall i: nat | FirstUnanswered(steps, c, i, n) ::
      HasWindow(states[n], c) && states[n].conversations[c].startedAt == Some(steps[i].at)
  {
    hide Next, Admissible;
    RunKeepsWindows(states, steps, n, c);
    if HasWindow(states[n], c) {
      var f: nat :| OpenedBy(states[n].conversations[c], steps, c, f, n);
      forall i: nat | FirstUnanswered(steps, c, i, n)
        ensures i == f
      {
        FirstIsUnique(steps, c, i, f, n);
      }
    }
  }

  lemma EventStep(s: State, steps: seq<Step>, n: nat)
    requires n < |steps| && Admissible(s, steps[n])
    requires steps[n].Reply? ==> WindowOk(s, steps, n, steps[n].message.conversation)
    ensures Next(s, steps[n]).events == s.events + EventAt(steps, n)
  {
    hide Unanswered;
    if steps[n].Reply? && Qualifies(steps[n].message) {
      var c := steps[n].message.conversation;
      if HasWindow(s, c) {
        var f: nat :| OpenedBy(s.conversations[c], steps, c, f, n);
        forall i: nat | FirstUnanswered(steps, c, i, n)
          ensures i == f
        {
          FirstIsUnique(steps, c, i, f, n);
        }
      } else {
        NoWindowNoEvent(s, steps, n, c);
      }
    }
  }

  lemma NoWindowNoEvent(s: State, steps: seq<Step>, n: nat, c: ConversationId)
    requires n <= |steps| && WindowOk(s, steps, n, c) && !HasWindow(s, c)
    ensures !SomeUnanswered(steps, c, n)
  {
    if c !in s.conversations {
      NoneBefore(steps, c, n);
    }
  }

  /**
   The windows refine the trace: the events recorded are exactly one per reply to an unanswered inbound
   message, in order, each dated from the first message that was still unanswered.
   */
  lemma {:induction false} EventsAreTheAnswers(states: seq<State>, steps: seq<Step>, n: nat)
    requires IsRun(states, steps) && n <= |steps|
    ensures states[n].events == EventsOf(steps, n)
  {
    hide Next, Admissible, EventAt;
    if n == 0 {
    } else {
      EventsAreTheAnswers(states, steps, n - 1);
      if steps[n - 1].Reply? {
        RunKeepsWindows(states, steps, n - 1, steps[n - 1].message.conversation);
      }
      EventStep(states[n - 1], steps, n - 1);
    }
  }

  /** One reply: it is recorded exactly if it qualifies and an inbound message waits, and with these fields. */
  lemma ReplyIsRecordedExactlyIfItAnswers(states: seq<State>, steps: seq<Step>, n: nat)
    requires IsRun(states, steps) && n < |steps| && steps[n].Reply?
    ensures var c := steps[n].message.conversation;
      && (states[n + 1].events != states[n].events
          <==> Qualifies(steps[n].message) && exists i: nat :: Unanswered(steps, c, i, n))
      && (forall i: nat | FirstUnanswered(steps, c, i, n) && Qualifies(steps[n].message) ::
            states[n + 1].events == states[n].events
              + [Answer(steps[n].message, steps[n].aiActive, steps[i].drawn, steps[i].at, steps[n].at)])
  {
    var c := steps[n].message.conversation;
    RunStep(states, steps, n);
    RunKeepsWindows(states, steps, n, c);
    WindowIsOpenExactlyIfUnanswered(states, steps, n, c);
    if HasWindow(states[n], c) {
      var f: nat :| OpenedBy(states[n].conversations[c], steps, c, f, n);
      forall i: nat | FirstUnanswered(steps, c, i, n)
        ensures i == f
      {
        FirstIsUnique(steps, c, i, f, n);
      }
    }
  }

  /**
   The event of a reply, in terms of the message and the two instants: whole milliseconds between them, not below
   zero, who answered, and whether the AI resolved it.
   */
  lemma RecordedEvent(states: seq<State>, steps: seq<Step>, n: nat, i: nat)
    requires IsRun(states, steps) && n < |steps| && steps[n].Reply?
    requires FirstUnanswered(steps, steps[n].message.conversation, i, n)
    requires
      var m := steps[n].message;
      && m.outbound && (m.status == Sent || m.status == Delivered || m.status == Read)
      && (m.author == User || m.author == Ai || m.author == Automation)
    ensures |states[n + 1].events| == |states[n].events| + 1
    ensures states[n + 1].events[..|states[n].events|] == states[n].events
    ensures
      var event, m := states[n + 1].events[|states[n].events|], steps[n].message;
      && event.conversation == m.conversation && event.window == steps[i].drawn
      && event.receivedAt == steps[i].at && event.respondedAt == steps[n].at
      && (m.author == User ==> event.responder == Agent)
      && (m.author == Ai ==> event.responder == AiResponder)
      && (m.author == Automation ==> event.responder == AutomationResponder)
      && (event.resolvedByAi <==> m.author == Ai && steps[n].aiActive)
      && (steps[n].at <= steps[i].at ==> event.elapsedMs == 0)
      && (steps[n].at > steps[i].at ==>
            event.elapsedMs * 1000 <= steps[n].at - steps[i].at < event.elapsedMs * 1000 + 1000)
  {
    ReplyIsRecordedExactlyIfItAnswers(states, steps, n);
    hide Next, IsRun, FirstUnanswered;
    var m := steps[n].message;
    assert Qualifies(m);
    assert states[n + 1].events
      == states[n].events + [Answer(m, steps[n].aiActive, steps[i].drawn, steps[i].at, steps[n].at)];
  }

  /** A message that is no accepted outbound one of a person, the AI or an automation records nothing. */
  lemma OthersRecordNothing(states: seq<State>, steps: seq<Step>, n: nat)
    requires IsRun(states, steps) && n < |steps| && steps[n].Reply?
    requires
      var m := steps[n].message;
      || !m.outbound || m.author == Contact || m.author == System
      || m.status == Queued || m.status == Failed || m.status == Unknown || m.status == Cancelled
    ensures states[n + 1] == states[n]
  {
    RunStep(states, steps, n);
  }

  // ---------------------------------------------------------------- counting windows

  function EventsFor(events: seq<Event>, c: ConversationId): nat {
    if events == [] then 0
    else EventsFor(events[..|events| - 1], c) + (if events[|events| - 1].conversation == c then 1 else 0)
  }

  function OpenWindows(s: State, c: ConversationId): nat {
    if c in s.conversations && s.conversations[c].window.Some? then 1 else 0
  }

  predicate Paired(s: State) {
    forall c | c in s.conversations :: s.conversations[c].window.Some? <==> s.conversations[c].startedAt.Some?
  }

  /** Ids of recorded events and open windows were drawn, and are all different. */
  ghost predicate IdsOk(s: State) {
    && Paired(s)
    && (forall i :: 0 <= i < |s.events| ==> s.events[i].window in s.used)
    && (forall i, j :: 0 <= i < j < |s.events| ==> s.events[i].window != s.events[j].window)
    && (forall c | HasWindow(s, c) :: s.conversations[c].window.value in s.used)
    && (forall c, i | HasWindow(s, c) && 0 <= i < |s.events| :: s.conversations[c].window.value != s.events[i].window)
    && (forall c, d | HasWindow(s, c) && HasWindow(s, d) && c != d ::
          s.conversations[c].window != s.conversations[d].window)
  }

  predicate CountOk(s: State, c: ConversationId) {
    Count(s.windows, c) == EventsFor(s.events, c) + OpenWindows(s, c)
  }

  lemma NextKeepsIds(s: State, step: Step)
    requires IdsOk(s) && Admissible(s, step)
    ensures IdsOk(Next(s, step))
  {
  }

  lemma NextKeepsCount(s: State, step: Step, c: ConversationId)
    requires Paired(s) && CountOk(s, c) && Admissible(s, step)
    ensures CountOk(Next(s, step), c)
  {
    if Closes(s, step) {
      var events := Next(s, step).events;
      assert events[..|events| - 1] == s.events;
    }
  }

  lemma {:induction false} RunKeepsIds(states: seq<State>, steps: seq<Step>, n: nat)
    requires IsRun(states, steps) && n <= |steps|
    ensures IdsOk(states[n])
  {
    hide Next, Admissible;
    if n == 0 {
    } else {
      hide IdsOk;
      RunKeepsIds(states, steps, n - 1);
      NextKeepsIds(states[n - 1], steps[n - 1]);
    }
  }

  /** Windows opened on a conversation are its events and the one still open, if any. */
  lemma {:induction false} OpenedAreAnsweredOrOpen(states: seq<State>, steps: seq<Step>, n: nat, c: ConversationId)
    requires IsRun(states, steps) && n <= |steps|
    ensures Count(states[n].windows, c) == EventsFor(states[n].events, c) + OpenWindows(states[n], c)
  {
    hide Next, Admissible;
    if n == 0 {
    } else {
      OpenedAreAnsweredOrOpen(states, steps, n - 1, c);
      RunKeepsIds(states, steps, n - 1);
      NextKeepsCount(states[n - 1], steps[n - 1], c);
    }
  }

  /** No two events share a window id, no open window has an event's, and no two open windows share one. */
  lemma WindowIdsNeverRepeat(states: seq<State>, steps: seq<Step>, n: nat)
    requires IsRun(states, steps) && n <= |steps|
    ensures
      var s := states[n];
      && (forall i, j :: 0 <= i < j < |s.events| ==> s.events[i].window != s.events[j].window)
      && (forall c, i | HasWindow(s, c) && 0 <= i < |s.events| ::
            s.conversations[c].window != Some(s.events[i].window))
      && (forall c, d | HasWindow(s, c) && HasWindow(s, d) && c != d ::
            s.conversations[c].window != s.conversations[d].window)
  {
    hide Next, Admissible;
    RunKeepsIds(states, steps, n);
  }

  // ---------------------------------------------------------------- the mutable rows

  class ResponseWindows {
    var conversations: map<ConversationId, Conversation>
    var events: seq<Event>
    ghost var now: State
    ghost var states: seq<State>
    ghost var steps: seq<Step>

    ghost predicate Valid()
      reads this
    {
      IsRun(states, steps) && states[|steps|] == now && now.conversations == conversations && now.events == events
    }

    constructor ()
      ensures Valid() && steps == []
    {
      conversations, events, now := map[], [], EMPTY;
      states, steps := [EMPTY], [];
    }

    ghost method Record(step: Step)
      requires IsRun(states, steps) && states[|steps|] == now && Admissible(now, step)
      requires Next(now, step).conversations == conversations && Next(now, step).events == events
      modifies this`now, this`states, this`steps
      ensures Valid() && now == Next(old(now), step)
      ensures steps == old(steps) + [step] && states == old(states) + [now]
    {
      hide Next, Admissible;
      now := Next(now, step);
      states, steps := states + [now], steps + [step];
    }

    method Start(c: ConversationId)
      requires Valid()
      modifies this
      ensures Valid() && now == Next(old(now), Step.Start(c)) && steps == old(steps) + [Step.Start(c)]
    {
      if c !in conversations {
        conversations := conversations[c := Conversation(None, None)];
      }
      Record(Step.Start(c));
    }

    method OpenResponseWindow(c: ConversationId, drawn: WindowId, receivedAt: Time) returns (window: WindowId)
      requires Valid() && Admissible(now, Inbound(c, drawn, receivedAt))
      modifies this
      ensures Valid() && now == Next(old(now), Inbound(c, drawn, receivedAt))
      ensures steps == old(steps) + [Inbound(c, drawn, receivedAt)]
      ensures conversations[c].window == Some(window)
      ensures old(conversations[c].window).Some? ==> conversations == old(conversations)
    {
      if conversations[c].window.None? {
        conversations := conversations[c := conversations[c].(window := Some(drawn))];
        conversations := conversations[c := conversations[c].(startedAt := Some(receivedAt))];
      }
      window := conversations[c].window.value;
      Record(Inbound(c, drawn, receivedAt));
    }

    method CloseResponseWindow(message: Message, aiActive: bool, respondedAt: Time) returns (event: Option<Event>)
      requires Valid()
      modifies this
      ensures Valid() && now == Next(old(now), Reply(message, aiActive, respondedAt))
      ensures steps == old(steps) + [Reply(message, aiActive, respondedAt)]
      ensures events == old(events) + (if event.Some? then [event.value] else [])
      ensures event.Some? <==> Closes(old(now), Reply(message, aiActive, respondedAt))
    {
      event := CloseRow(message, aiActive, respondedAt);
      Record(Reply(message, aiActive, respondedAt));
    }

    method CloseRow(message: Message, aiActive: bool, respondedAt: Time) returns (event: Option<Event>)
      requires now.conversations == conversations && now.events == events
      modifies this`conversations, this`events
      ensures events == old(events) + (if event.Some? then [event.value] else [])
      ensures event.Some? <==> Closes(now, Reply(message, aiActive, respondedAt))
      ensures Next(now, Reply(message, aiActive, respondedAt)).conversations == conversations
      ensures Next(now, Reply(message, aiActive, respondedAt)).events == events
    {
      if !message.outbound || (message.status != Sent && message.status != Delivered && message.status != Read) {
        return None;
      }
      var responder;
      if message.author == User {
        responder := Agent;
      } else if message.author == Ai {
        responder := AiResponder;
      } else if message.author == Automation {
        responder := AutomationResponder;
      } else {
        return None;
      }
      var c := message.conversation;
      if c !in conversations || conversations[c].window.None? || conversations[c].startedAt.None? {
        return None;
      }
      var window, receivedAt := conversations[c].window.value, conversations[c].startedAt.value;
      var elapsed := if respondedAt - receivedAt > 0 then (respondedAt - receivedAt) / 1000 else 0;
      var answer := Event(c, window, responder, receivedAt, respondedAt, elapsed, responder == AiResponder && aiActive);
      events := events + [answer];
      conversations := conversations[c := conversations[c].(window := None)];
      conversations := conversations[c := conversations[c].(startedAt := None)];
      return Some(answer);
    }
  }
}
