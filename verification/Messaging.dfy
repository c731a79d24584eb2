/**
 One tenant's conversations: queueing outbound messages, dispatching them to the provider, resolving an
 unknown outcome, delivery reports, and who is in control (AI, pending handoff, human).

 Every service call is one transaction. A provider call is not part of it: `sends` counts the calls the
 provider received, and keeps them when the transaction is rolled back.
 */
module Messaging {
  import opened Common

  type ConversationId = nat
  type MessageId = nat
  type AssetId = nat
  type UserId = nat
  type TransferId = nat
  type TriggerId = nat
  type ProviderId = nat
  type Key = nat

  datatype Channel = WhatsApp | Instagram | Messenger | AdAccount

  datatype Mode = Active | HandoffPending | Human

  datatype MessageStatus = Queued | Dispatching | Sent | Delivered | Read | Failed | Unknown | Cancelled

  datatype AttemptStatus = InFlight | Accepted | Rejected | Uncertain

  datatype ErrorCode = ProviderTimeout | ProviderRejected

  datatype Resolution = VerifiedReceipt | ExplicitResend

  /** A delivery status as providers report it. */
  datatype Report = ReportSent | ReportDelivered | ReportRead | ReportFailed

  /** What comes of a call to the provider. */
  datatype Reply = Timeout | Raised | Returned(report: Report, id: Option<ProviderId>)

  /** The caller; `restricted` is the role that may only touch conversations assigned to it. */
  datatype Actor = Actor(user: UserId, restricted: bool)

  datatype Conversation = Conversation(
    asset: AssetId, aiMode: Mode, controlVersion: nat, assignee: Option<UserId>)

  datatype Evidence = Evidence(
    number: nat, status: AttemptStatus, providerId: Option<ProviderId>, error: Option<ErrorCode>)

  datatype Attempt = Attempt(message: MessageId, evidence: Evidence)

  datatype Message = Message(
    conversation: ConversationId,
    asset: AssetId,
    author: Author,
    outbound: bool,
    stamp: Option<nat>,
    key: Option<Key>,
    requestHash: Option<Digest<string>>,
    status: MessageStatus,
    providerId: Option<ProviderId>,
    history: seq<Evidence>,
    fenced: bool,
    resolution: Option<Resolution>)

  datatype Transfer = Transfer(
    conversation: ConversationId, trigger: TriggerId, recipient: Option<UserId>, pending: bool)

  datatype State = State(
    assets: map<AssetId, Channel>,
    conversations: map<ConversationId, Conversation>,
    messages: map<MessageId, Message>,
    attempts: seq<Attempt>,
    transfers: map<TransferId, Transfer>,
    sends: map<MessageId, nat>)

  datatype Step =
    | Open(c: ConversationId, asset: AssetId)
    | Assign(c: ConversationId, user: Option<UserId>)
    | Receive(m: MessageId, c: ConversationId, pid: ProviderId)
    | SendIntent(actor: Actor, m: MessageId, c: ConversationId, body: string, key: Option<Key>)
    | SendOutbound(m: MessageId, c: ConversationId, author: Author, body: string, key: Option<Key>, stamp: Option<nat>)
    | Dispatch(m: MessageId, reply: Reply)
    | Resolve(actor: Actor, m: MessageId, receipt: Option<ProviderId>, resend: bool, acknowledged: bool)
    | Deliver(asset: AssetId, pid: ProviderId, report: Option<Report>)
    | SetMode(actor: Actor, c: ConversationId, mode: Mode)
    | Takeover(actor: Actor, c: ConversationId)
    | Handoff(caller: Option<Actor>, c: ConversationId, trigger: TriggerId, recipient: Option<UserId>, t: TransferId)
    | Accept(actor: Actor, t: TransferId)

  /** How a call ends; only `Done` commits changes to the tables. */
  datatype Answer = Done | Unchanged | NotFound | Denied | Refused | RolledBack

  // ---------------------------------------------------------------- reading the tables

  function StatusOf(report: Report): MessageStatus {
    match report
    case ReportSent => Sent
    case ReportDelivered => Delivered
    case ReportRead => Read
    case ReportFailed => Failed
  }

  /** `STATUS_ORDER` of the delivery reports. */
  function Rank(status: MessageStatus): nat {
    match status
    case Dispatching => 1
    case Sent => 2
    case Delivered => 3
    case Read => 4
    case _ => 0
  }

  predicate Locked(actor: Actor, c: Conversation) {
    actor.restricted && c.assignee != Some(actor.user)
  }

  predicate Keyed(msg: Message, c: ConversationId, key: Key) {
    msg.conversation == c && msg.key == Some(key)
  }

  predicate KeyTaken(s: State, c: ConversationId, key: Option<Key>) {
    key.Some? && exists m | m in s.messages :: Keyed(s.messages[m], c, key.value)
  }

  predicate SameRequest(s: State, c: ConversationId, key: Option<Key>, body: string) {
    key.Some? && exists m | m in s.messages ::
      Keyed(s.messages[m], c, key.value) && s.messages[m].requestHash == Some(Sha256(body))
  }

  predicate Identifies(msg: Message, asset: AssetId, pid: ProviderId) {
    msg.asset == asset && msg.providerId == Some(pid)
  }

  predicate IdTaken(s: State, asset: AssetId, pid: ProviderId) {
    exists m | m in s.messages :: Identifies(s.messages[m], asset, pid)
  }

  /** Storing this provider id on the message breaks the unique index or the check on system authors. */
  predicate Breaks(s: State, msg: Message, pid: Option<ProviderId>) {
    pid.Some? && (msg.author == System || IdTaken(s, msg.asset, pid.value))
  }

  predicate PendingFor(t: Transfer, c: ConversationId) {
    t.pending && t.conversation == c
  }

  predicate HasPending(s: State, c: ConversationId) {
    exists t | t in s.transfers :: PendingFor(s.transfers[t], c)
  }

  function AttemptsOf(attempts: seq<Attempt>, m: MessageId): seq<Evidence> {
    if attempts == [] then []
    else
      var last := attempts[|attempts| - 1];
      AttemptsOf(attempts[..|attempts| - 1], m) + (if last.message == m then [last.evidence] else [])
  }

  /** The query for the highest attempt number of a message, 0 if there is none. */
  function MaxNumber(attempts: seq<Attempt>, m: MessageId): nat {
    if attempts == [] then 0
    else
      var last := attempts[|attempts| - 1];
      var rest := MaxNumber(attempts[..|attempts| - 1], m);
      if last.message == m && last.evidence.number > rest then last.evidence.number else rest
  }

  // ---------------------------------------------------------------- dispatching one message

  datatype Path = NoRow | Broken | Fenced | CallsProvider

  function DispatchPath(s: State, m: MessageId): Path {
    if m !in s.messages || s.messages[m].status != Queued then NoRow
    else
      var msg := s.messages[m];
      if msg.conversation !in s.conversations || msg.asset !in s.assets then Broken
      else
        var c := s.conversations[msg.conversation];
        var moved := msg.stamp.Some? && msg.stamp.value != c.controlVersion;
        if msg.author == Ai && (c.aiMode != Active || moved) then Fenced
        else if s.assets[msg.asset] == AdAccount then Broken
        else CallsProvider
  }

  function EvidenceFor(number: nat, reply: Reply): Evidence {
    match reply
    case Timeout => Evidence(number, Uncertain, None, Some(ProviderTimeout))
    case Raised => Evidence(number, Rejected, None, Some(ProviderRejected))
    case Returned(report, id) => Evidence(number, if report == ReportFailed then Rejected else Accepted, id, None)
  }

  function AfterReply(msg: Message, number: nat, reply: Reply): Message {
    var msg' := msg.(history := msg.history + [EvidenceFor(number, reply)]);
    match reply
    case Timeout => msg'.(status := Unknown)
    case Raised => msg'.(status := Failed)
    case Returned(report, id) => msg'.(status := StatusOf(report), providerId := id)
  }

  // ---------------------------------------------------------------- one call

  function NewMessage(
      s: State, c: ConversationId, author: Author, stamp: Option<nat>, key: Option<Key>, body: string): Message
    requires c in s.conversations
  {
    Message(c, s.conversations[c].asset, author, true, stamp, key,
            if key.Some? then Some(Sha256(body)) else None, Queued, None, [], false, None)
  }

  function CancelAi(messages: map<MessageId, Message>, c: ConversationId): map<MessageId, Message> {
    map m | m in messages ::
      if messages[m].conversation == c && messages[m].author == Ai && messages[m].status == Queued
      then messages[m].(status := Cancelled)
      else messages[m]
  }

  function Reported(msg: Message, report: Report): Message {
    if report != ReportFailed && Rank(StatusOf(report)) < Rank(msg.status) then msg
    else msg.(status := StatusOf(report))
  }

  function DeliverTo(
      messages: map<MessageId, Message>, asset: AssetId, pid: ProviderId, report: Report): map<MessageId, Message>
  {
    map m | m in messages ::
      if Identifies(messages[m], asset, pid) then Reported(messages[m], report) else messages[m]
  }

  function Settled(msg: Message, receipt: Option<ProviderId>): Message {
    if receipt.Some? then msg.(providerId := receipt, status := Sent, resolution := Some(VerifiedReceipt))
    else msg.(status := Queued, resolution := Some(ExplicitResend))
  }

  function AnswerTo(s: State, step: Step): Answer {
    match step
    case Open(c, asset) => if c in s.conversations || asset !in s.assets then Refused else Done
    case Assign(c, _) => if c in s.conversations then Done else NotFound
    case Receive(_, c, pid) =>
      if c !in s.conversations then NotFound
      else if IdTaken(s, s.conversations[c].asset, pid) then Unchanged
      else Done
    case SendIntent(actor, _, c, body, key) =>
      if c !in s.conversations then NotFound
      else if Locked(actor, s.conversations[c]) then Denied
      else if KeyTaken(s, c, key) then (if SameRequest(s, c, key, body) then Unchanged else Refused)
      else Done
    case SendOutbound(_, c, _, _, key, _) =>
      if c !in s.conversations then NotFound
      else if KeyTaken(s, c, key) then RolledBack
      else Done
    case Dispatch(m, reply) =>
      (match DispatchPath(s, m)
       case NoRow => NotFound
       case CallsProvider =>
         if reply.Returned? && Breaks(s, s.messages[m], reply.id) then RolledBack else Done
       case _ => Done)
    case Resolve(actor, m, receipt, resend, acknowledged) =>
      if m !in s.messages || s.messages[m].conversation !in s.conversations then NotFound
      else if Locked(actor, s.conversations[s.messages[m].conversation]) then Denied
      else if s.messages[m].status != Unknown then Refused
      else if receipt.Some? then (if Breaks(s, s.messages[m], receipt) then RolledBack else Done)
      else if resend && acknowledged then Done
      else Refused
    case Deliver(asset, pid, report) =>
      if !IdTaken(s, asset, pid) then NotFound
      else if report.None? then Refused
      else Done
    case SetMode(actor, c, mode) =>
      if mode == HandoffPending then Refused
      else if c !in s.conversations then NotFound
      else if Locked(actor, s.conversations[c]) then Denied
      else Done
    case Takeover(actor, c) =>
      if c !in s.conversations then NotFound
      else if Locked(actor, s.conversations[c]) then Denied
      else Done
    case Handoff(caller, c, trigger, _, _) =>
      if c !in s.conversations then NotFound
      else if caller.Some? && Locked(caller.value, s.conversations[c]) then Denied
      else if (exists t | t in s.transfers :: s.transfers[t].trigger == trigger) || HasPending(s, c) then Unchanged
      else Done
    case Accept(actor, t) =>
      if t !in s.transfers then NotFound
      else if !s.transfers[t].pending then Unchanged
      else if s.transfers[t].conversation !in s.conversations then NotFound
      else
        var c := s.conversations[s.transfers[t].conversation];
        if actor.restricted && c.assignee.Some? && c.assignee.value != actor.user then Denied
        else Done
  }

  /** The row a call inserts or rewrites, for the calls that name a message. */
  function RowAfter(s: State, step: Step): Message
    requires AnswerTo(s, step) == Done
    requires step.Receive? || step.SendIntent? || step.SendOutbound? || step.Dispatch? || step.Resolve?
  {
    match step
    case Receive(_, c, pid) =>
      Message(c, s.conversations[c].asset, Contact, false, None, None, None, Delivered, Some(pid), [], false, None)
    case SendIntent(_, _, c, body, key) => NewMessage(s, c, User, None, key, body)
    case SendOutbound(_, c, author, body, key, stamp) => NewMessage(s, c, author, stamp, key, body)
    case Dispatch(m, reply) =>
      var path := DispatchPath(s, m);
      if path == Fenced then s.messages[m].(status := Cancelled, fenced := true)
      else if path == CallsProvider then AfterReply(s.messages[m], MaxNumber(s.attempts, m) + 1, reply)
      else s.messages[m].(status := Failed)
    case Resolve(_, m, receipt, _, _) => Settled(s.messages[m], receipt)
  }

  function MessagesAfter(s: State, step: Step): map<MessageId, Message>
    requires AnswerTo(s, step) == Done
  {
    if step.Receive? || step.SendIntent? || step.SendOutbound? || step.Dispatch? || step.Resolve? then
      s.messages[step.m := RowAfter(s, step)]
    else if step.Deliver? then
      DeliverTo(s.messages, step.asset, step.pid, step.report.value)
    else if step.Takeover? || step.Handoff? || (step.SetMode? && step.mode == Human) then
      CancelAi(s.messages, step.c)
    else
      s.messages
  }

  predicate Attempting(s: State, step: Step) {
    step.Dispatch? && AnswerTo(s, step) == Done && DispatchPath(s, step.m) == CallsProvider
  }

  function AttemptsAfter(s: State, step: Step): seq<Attempt> {
    if Attempting(s, step) then
      s.attempts + [Attempt(step.m, EvidenceFor(MaxNumber(s.attempts, step.m) + 1, step.reply))]
    else
      s.attempts
  }

  ghost function PendingOf(s: State, c: ConversationId): TransferId
    requires HasPending(s, c)
  {
    var t :| t in s.transfers && PendingFor(s.transfers[t], c); t
  }

  ghost function TransfersAfter(s: State, step: Step): map<TransferId, Transfer>
    requires AnswerTo(s, step) == Done
  {
    match step
    case Takeover(_, c) =>
      if HasPending(s, c) then AcceptedIn(s.transfers, PendingOf(s, c)) else s.transfers
    case Handoff(_, c, trigger, recipient, t) => s.transfers[t := Transfer(c, trigger, recipient, true)]
    case Accept(_, t) => AcceptedIn(s.transfers, t)
    case _ => s.transfers
  }

  function AcceptedIn(transfers: map<TransferId, Transfer>, t: TransferId): map<TransferId, Transfer>
    requires t in transfers
  {
    transfers[t := transfers[t].(pending := false)]
  }

  function Moded(v: Conversation, mode: Mode): Conversation {
    v.(aiMode := mode, controlVersion := v.controlVersion + 1)
  }

  function TakenBy(v: Conversation, t: Transfer, actor: Actor): Conversation {
    Moded(v, Human).(assignee := if t.recipient.Some? then t.recipient else Some(actor.user))
  }

  ghost function ConversationsAfter(s: State, step: Step): map<ConversationId, Conversation>
    requires AnswerTo(s, step) == Done
  {
    var cs := s.conversations;
    match step
    case Open(c, asset) => cs[c := Conversation(asset, Active, 0, None)]
    case Assign(c, user) => cs[c := cs[c].(assignee := user)]
    case SetMode(_, c, mode) => cs[c := Moded(cs[c], mode)]
    case Takeover(actor, c) =>
      cs[c := if HasPending(s, c) then TakenBy(Moded(cs[c], Human), s.transfers[PendingOf(s, c)], actor)
              else Moded(cs[c], Human)]
    case Handoff(_, c, _, _, _) => cs[c := Moded(cs[c], HandoffPending)]
    case Accept(actor, t) =>
      var c := s.transfers[t].conversation;
      cs[c := TakenBy(cs[c], s.transfers[t], actor)]
    case _ => cs
  }

  /** The provider receives a call whenever dispatch gets that far, whether or not the transaction survives. */
  predicate ProviderCalled(s: State, step: Step) {
    step.Dispatch? && DispatchPath(s, step.m) == CallsProvider
  }

  ghost function Next(s: State, step: Step): State {
    var sends := if ProviderCalled(s, step) then s.sends[step.m := Count(s.sends, step.m) + 1] else s.sends;
    if AnswerTo(s, step) != Done then s.(sends := sends)
    else State(s.assets, ConversationsAfter(s, step), MessagesAfter(s, step), AttemptsAfter(s, step),
               TransfersAfter(s, step), sends)
  }

  /** Ids drawn for new rows are new; only the service's own authors reach `send_outbound_message`. */
  predicate Admissible(s: State, step: Step) {
    && (step.Receive? || step.SendIntent? || step.SendOutbound? ==> step.m !in s.messages)
    && (step.SendOutbound? ==> step.author == Ai || step.author == Automation || step.author == System)
    && (step.Handoff? ==> step.t !in s.transfers)
  }

  // ---------------------------------------------------------------- the invariant

  /** A message that is queued, unknown or cancelled carries no provider id, and neither does a system one. */
  predicate RowOk(s: State, msg: Message) {
    && msg.conversation in s.conversations && msg.asset == s.conversations[msg.conversation].asset
    && msg.asset in s.assets
    && msg.status != Dispatching
    && (msg.status == Queued || msg.status == Unknown || msg.status == Cancelled ==> msg.providerId == None)
    && (msg.author == System ==> msg.providerId == None)
    && (msg.status == Queued || msg.status == Unknown ==> msg.outbound)
  }

  ghost predicate RowsOk(s: State) {
    && (forall c | c in s.conversations :: s.conversations[c].asset in s.assets)
    && (forall m | m in s.messages :: RowOk(s, s.messages[m]))
  }

  /** The unique index over (asset, provider id). */
  ghost predicate ProviderIdsUnique(s: State) {
    forall m, n | m in s.messages && n in s.messages && m != n && s.messages[m].asset == s.messages[n].asset ::
      s.messages[m].providerId.Some? ==> s.messages[m].providerId != s.messages[n].providerId
  }

  /** The unique index over (conversation, idempotency key). */
  ghost predicate KeysUnique(s: State) {
    forall m, n | m in s.messages && n in s.messages && m != n
                  && s.messages[m].conversation == s.messages[n].conversation ::
      s.messages[m].key.Some? ==> s.messages[m].key != s.messages[n].key
  }

  /** Triggers name one transfer, and a conversation waits for at most one. */
  ghost predicate TransfersOk(s: State) {
    && (forall t | t in s.transfers :: s.transfers[t].conversation in s.conversations)
    && (forall t, u | t in s.transfers && u in s.transfers && t != u ::
          s.transfers[t].trigger != s.transfers[u].trigger
          && (s.transfers[t].pending && s.transfers[u].pending
              ==> s.transfers[t].conversation != s.transfers[u].conversation))
  }

  predicate Numbered(evidence: seq<Evidence>) {
    forall k :: 0 <= k < |evidence| ==> evidence[k].number == k + 1
  }

  function HistoryOf(s: State, m: MessageId): seq<Evidence> {
    if m in s.messages then s.messages[m].history else []
  }

  /** The history in the message's metadata is the attempts table, row by row, numbered 1, 2, ... */
  ghost predicate EvidenceOk(s: State) {
    forall m :: AttemptsOf(s.attempts, m) == HistoryOf(s, m) && Numbered(HistoryOf(s, m))
  }

  ghost predicate Inv(s: State) {
    RowsOk(s) && ProviderIdsUnique(s) && KeysUnique(s) && TransfersOk(s) && EvidenceOk(s)
  }

  // ---------------------------------------------------------------- every step keeps it

  lemma AttemptsAppend(attempts: seq<Attempt>, a: Attempt, m: MessageId)
    ensures AttemptsOf(attempts + [a], m) == AttemptsOf(attempts, m) + (if a.message == m then [a.evidence] else [])
  {
    assert (attempts + [a])[..|attempts|] == attempts;
  }

  /** On a contiguous numbering the highest number is the count: the next attempt continues it. */
  lemma {:induction false} MaxNumberIsCount(attempts: seq<Attempt>, m: MessageId)
    requires Numbered(AttemptsOf(attempts, m))
    ensures MaxNumber(attempts, m) == |AttemptsOf(attempts, m)|
  {
    if attempts == [] {
    } else {
      var init, last := attempts[..|attempts| - 1], attempts[|attempts| - 1];
      var all := AttemptsOf(attempts, m);
      assert forall k :: 0 <= k < |AttemptsOf(init, m)| ==> AttemptsOf(init, m)[k] == all[k];
      MaxNumberIsCount(init, m);
      if last.message == m {
        assert all[|all| - 1] == last.evidence;
      }
    }
  }

  predicate NamesMessage(step: Step) {
    step.Receive? || step.SendIntent? || step.SendOutbound? || step.Dispatch? || step.Resolve?
  }

  predicate SameIdentity(a: Message, b: Message) {
    && b.conversation == a.conversation && b.asset == a.asset && b.author == a.author
    && b.outbound == a.outbound && b.stamp == a.stamp && b.key == a.key && b.requestHash == a.requestHash
  }

  /** A row the call does not name can only be cancelled (AI, queued) or take a delivery report by its id. */
  predicate Bystander(step: Step, a: Message, b: Message) {
    if step.Deliver? && step.report.Some? && Identifies(a, step.asset, step.pid) then
      b == Reported(a, step.report.value)
    else
      || b == a
      || (a.author == Ai && a.status == Queued && b == a.(status := Cancelled)
          && (step.SetMode? || step.Takeover? || step.Handoff?))
  }

  lemma OthersAreBystanders(s: State, step: Step, m: MessageId)
    requires NamesMessage(step) ==> m != step.m
    ensures m in Next(s, step).messages <==> m in s.messages
    ensures m in s.messages ==> Bystander(step, s.messages[m], Next(s, step).messages[m])
  {
  }

  /** An inserted row has free ids, an empty history and the asset of its conversation. */
  predicate Insertion(s: State, b: Message) {
    && b.history == []
    && b.conversation in s.conversations && b.asset == s.conversations[b.conversation].asset
    && (b.providerId.Some? ==> b.author == Contact && !IdTaken(s, b.asset, b.providerId.value))
    && (b.key.Some? ==> !KeyTaken(s, b.conversation, b.key))
  }

  /** A rewritten row was queued or unknown, keeps its identity, and takes only a provider id that can be stored. */
  predicate Rewrite(s: State, a: Message, b: Message) {
    && SameIdentity(a, b)
    && (a.status == Queued || a.status == Unknown)
    && (b.providerId.Some? ==> !Breaks(s, a, b.providerId))
  }

  predicate Settles(b: Message) {
    && b.status != Dispatching
    && (b.status == Queued || b.status == Unknown || b.status == Cancelled ==> b.providerId == None)
    && (b.status == Queued || b.status == Unknown ==> b.outbound)
  }

  lemma InsertedRow(s: State, step: Step)
    requires AnswerTo(s, step) == Done && Admissible(s, step)
    requires step.Receive? || step.SendIntent? || step.SendOutbound?
    ensures step.m !in s.messages && Insertion(s, RowAfter(s, step)) && Settles(RowAfter(s, step))
  {
  }

  lemma RewrittenRow(s: State, step: Step)
    requires AnswerTo(s, step) == Done && RowsOk(s)
    requires step.Dispatch? || step.Resolve?
    ensures step.m in s.messages && Rewrite(s, s.messages[step.m], RowAfter(s, step)) && Settles(RowAfter(s, step))
  {
    assert RowOk(s, s.messages[step.m]);
  }

  lemma NamedRow(s: State, step: Step)
    requires NamesMessage(step) && AnswerTo(s, step) == Done && Admissible(s, step) && RowsOk(s)
    ensures var b := RowAfter(s, step);
      && Next(s, step).messages == s.messages[step.m := b]
      && (if step.m in s.messages then Rewrite(s, s.messages[step.m], b) else Insertion(s, b))
      && Settles(b)
  {
    hide AnswerTo, RowAfter, RowsOk, Insertion, Rewrite, Settles;
    if step.Dispatch? || step.Resolve? {
      RewrittenRow(s, step);
    } else {
      InsertedRow(s, step);
    }
  }

  lemma BystandsItself(step: Step, a: Message)
    requires NamesMessage(step)
    ensures Bystander(step, a, a)
  {
  }

  predicate Writes(s: State, step: Step, m: MessageId) {
    NamesMessage(step) && m == step.m && AnswerTo(s, step) == Done
  }

  /** What one step does to one message. */
  lemma MessageStep(s: State, step: Step, m: MessageId)
    requires RowsOk(s) && Admissible(s, step)
    ensures Writes(s, step, m) ==>
      var b := RowAfter(s, step);
      && m in Next(s, step).messages && Next(s, step).messages[m] == b
      && (if m in s.messages then Rewrite(s, s.messages[m], b) else Insertion(s, b))
      && Settles(b)
    ensures !Writes(s, step, m) ==>
      && (m in Next(s, step).messages <==> m in s.messages)
      && (m in s.messages ==> Bystander(step, s.messages[m], Next(s, step).messages[m]))
  {
    hide RowAfter, Rewrite, Insertion, Settles, Bystander, RowsOk;
    if NamesMessage(step) && m == step.m {
      if AnswerTo(s, step) == Done {
        NamedRow(s, step);
      } else if m in s.messages {
        BystandsItself(step, s.messages[m]);
      }
    } else {
      OthersAreBystanders(s, step, m);
    }
  }

  lemma ConversationsAreStable(s: State, step: Step, c: ConversationId)
    requires c in s.conversations
    ensures c in Next(s, step).conversations && Next(s, step).conversations[c].asset == s.conversations[c].asset
  {
  }

  lemma NamedRowOk(s: State, step: Step)
    requires RowsOk(s) && Admissible(s, step) && NamesMessage(step) && AnswerTo(s, step) == Done
    ensures RowOk(Next(s, step), RowAfter(s, step))
  {
    NamedRow(s, step);
    if step.m in s.messages { assert RowOk(s, s.messages[step.m]); }
    hide Next, AnswerTo, RowAfter, Admissible;
    ConversationsAreStable(s, step, RowAfter(s, step).conversation);
    AssetsAreStable(s, step);
  }

  lemma AssetsAreStable(s: State, step: Step)
    ensures Next(s, step).assets == s.assets
  {
  }

  lemma UntouchedRowOk(s: State, step: Step, a: Message, b: Message)
    requires RowsOk(s) && RowOk(s, a) && Bystander(step, a, b)
    ensures RowOk(Next(s, step), b)
  {
    hide Next;
    ConversationsAreStable(s, step, a.conversation);
    AssetsAreStable(s, step);
  }

  lemma NextKeepsAssets(s: State, step: Step)
    requires RowsOk(s)
    ensures forall c | c in Next(s, step).conversations :: Next(s, step).conversations[c].asset in Next(s, step).assets
  {
  }

  lemma NextKeepsRows(s: State, step: Step)
    requires RowsOk(s) && Admissible(s, step)
    ensures RowsOk(Next(s, step))
  {
    var s' := Next(s, step);
    NextKeepsAssets(s, step);
    forall m | m in s'.messages
      ensures RowOk(s', s'.messages[m])
    {
      hide RowOk, Bystander, AnswerTo, RowAfter;
      if NamesMessage(step) && m == step.m && AnswerTo(s, step) == Done {
        NamedRowOk(s, step);
      } else if NamesMessage(step) && m == step.m {
        BystandsItself(step, s.messages[m]);
        UntouchedRowOk(s, step, s.messages[m], s'.messages[m]);
      } else {
        OthersAreBystanders(s, step, m);
        UntouchedRowOk(s, step, s.messages[m], s'.messages[m]);
      }
    }
  }

  /** Where a row of the next state has its provider id and its key from: unchanged, or free before. */
  lemma IdsAreOldOrFree(s: State, step: Step, m: MessageId)
    requires RowsOk(s) && Admissible(s, step) && m in Next(s, step).messages
    ensures var b := Next(s, step).messages[m];
      if NamesMessage(step) && m == step.m then
        || b.providerId == None
        || (m in s.messages && b.asset == s.messages[m].asset && b.providerId == s.messages[m].providerId)
        || !IdTaken(s, b.asset, b.providerId.value)
      else
        m in s.messages && b.asset == s.messages[m].asset && b.providerId == s.messages[m].providerId
    ensures var b := Next(s, step).messages[m];
      if NamesMessage(step) && m == step.m && m !in s.messages then
        b.key.Some? ==> !KeyTaken(s, b.conversation, b.key)
      else
        m in s.messages && b.conversation == s.messages[m].conversation && b.key == s.messages[m].key
  {
    hide Next;
    MessageStep(s, step, m);
  }

  lemma NextKeepsProviderIds(s: State, step: Step)
    requires RowsOk(s) && ProviderIdsUnique(s) && Admissible(s, step)
    ensures ProviderIdsUnique(Next(s, step))
  {
    var s' := Next(s, step);
    forall m, n | m in s'.messages && n in s'.messages && m != n && s'.messages[m].asset == s'.messages[n].asset
      ensures s'.messages[m].providerId.Some? ==> s'.messages[m].providerId != s'.messages[n].providerId
    {
      IdsAreOldOrFree(s, step, m);
      IdsAreOldOrFree(s, step, n);
    }
  }

  lemma NextKeepsKeys(s: State, step: Step)
    requires RowsOk(s) && KeysUnique(s) && Admissible(s, step)
    ensures KeysUnique(Next(s, step))
  {
    var s' := Next(s, step);
    forall m, n | m in s'.messages && n in s'.messages && m != n
                  && s'.messages[m].conversation == s'.messages[n].conversation
      ensures s'.messages[m].key.Some? ==> s'.messages[m].key != s'.messages[n].key
    {
      IdsAreOldOrFree(s, step, m);
      IdsAreOldOrFree(s, step, n);
    }
  }

  lemma NextKeepsTransfers(s: State, step: Step)
    requires TransfersOk(s) && Admissible(s, step)
    ensures TransfersOk(Next(s, step))
  {
    var s' := Next(s, step);
    forall t | t in s'.transfers
      ensures s'.transfers[t].conversation in s'.conversations
    {
      ConversationsAreStable(s, step, s'.transfers[t].conversation);
    }
  }

  /** A row that exists stays, and keeps its identity. */
  lemma RowStep(s: State, step: Step, m: MessageId)
    requires RowsOk(s) && Admissible(s, step) && m in s.messages
    ensures m in Next(s, step).messages && SameIdentity(s.messages[m], Next(s, step).messages[m])
  {
    hide Next;
    MessageStep(s, step, m);
  }

  /** A history grows by exactly the attempts made for its message. */
  lemma HistoryStep(s: State, step: Step, m: MessageId)
    requires RowsOk(s) && Admissible(s, step)
    ensures HistoryOf(Next(s, step), m) == HistoryOf(s, m) + (
              if Attempting(s, step) && m == step.m
              then [EvidenceFor(MaxNumber(s.attempts, m) + 1, step.reply)] else [])
  {
    hide Next, AnswerTo, RowAfter, RowsOk, Attempting, EvidenceFor, MaxNumber;
    MessageStep(s, step, m);
    if Writes(s, step, m) {
      RowHistory(s, step);
    } else {
      NotAttempted(s, step, m);
    }
  }

  lemma RowHistory(s: State, step: Step)
    requires NamesMessage(step) && AnswerTo(s, step) == Done && Admissible(s, step)
    ensures RowAfter(s, step).history == HistoryOf(s, step.m) + (
              if Attempting(s, step) then [EvidenceFor(MaxNumber(s.attempts, step.m) + 1, step.reply)] else [])
  {
  }

  lemma NotAttempted(s: State, step: Step, m: MessageId)
    requires !Writes(s, step, m)
    ensures !(Attempting(s, step) && m == step.m)
  {
  }

  lemma NextAttempts(s: State, step: Step)
    ensures Next(s, step).attempts == AttemptsAfter(s, step)
    ensures Attempting(s, step) ==> step.Dispatch?
  {
  }

  lemma AttemptsStep(s: State, step: Step, m: MessageId)
    ensures AttemptsOf(Next(s, step).attempts, m) == AttemptsOf(s.attempts, m) + (
              if Attempting(s, step) && m == step.m
              then [EvidenceFor(MaxNumber(s.attempts, m) + 1, step.reply)] else [])
  {
    hide Next, AnswerTo, MaxNumber, EvidenceFor, AttemptsOf, Attempting;
    NextAttempts(s, step);
    if Attempting(s, step) {
      AttemptsAppend(s.attempts, Attempt(step.m, EvidenceFor(MaxNumber(s.attempts, step.m) + 1, step.reply)), m);
    }
  }

  lemma NextKeepsEvidence(s: State, step: Step)
    requires RowsOk(s) && EvidenceOk(s) && Admissible(s, step)
    ensures EvidenceOk(Next(s, step))
  {
    var s' := Next(s, step);
    forall m
      ensures AttemptsOf(s'.attempts, m) == HistoryOf(s', m) && Numbered(HistoryOf(s', m))
    {
      assert AttemptsOf(s.attempts, m) == HistoryOf(s, m) && Numbered(HistoryOf(s, m));
      HistoryStep(s, step, m);
      AttemptsStep(s, step, m);
      MaxNumberIsCount(s.attempts, m);
    }
  }

  // ---------------------------------------------------------------- runs

  ghost predicate IsRun(states: seq<State>, steps: seq<Step>) {
    && |states| == |steps| + 1
    && states[0] == State(states[0].assets, map[], map[], [], map[], map[])
    && (forall i :: 0 <= i < |steps| ==>
          Admissible(states[i], steps[i]) && states[i + 1] == Next(states[i], steps[i]))
  }

  lemma RunStep(states: seq<State>, steps: seq<Step>, i: nat)
    requires IsRun(states, steps) && i + 1 < |states|
    ensures i < |steps| && Admissible(states[i], steps[i]) && states[i + 1] == Next(states[i], steps[i])
  {
    hide Next, Admissible;
  }

  lemma NextKeepsInv(s: State, step: Step)
    requires Inv(s) && Admissible(s, step)
    ensures Inv(Next(s, step))
  {
    hide Next, RowsOk, ProviderIdsUnique, KeysUnique, TransfersOk, EvidenceOk;
    NextKeepsRows(s, step);
    NextKeepsProviderIds(s, step);
    NextKeepsKeys(s, step);
    NextKeepsTransfers(s, step);
    NextKeepsEvidence(s, step);
  }

  lemma NothingStored(s: State)
    requires s.conversations == map[] && s.messages == map[] && s.attempts == [] && s.transfers == map[]
    ensures Inv(s)
  {
  }

  lemma {:induction false} RunKeepsInv(states: seq<State>, steps: seq<Step>, i: nat)
    requires IsRun(states, steps) && i < |states|
    ensures Inv(states[i])
  {
    hide Next, Admissible, Inv;
    if i == 0 {
      NothingStored(states[0]);
    } else {
      RunStep(states, steps, i - 1);
      RunKeepsInv(states, steps, i - 1);
      NextKeepsInv(states[i - 1], steps[i - 1]);
    }
  }

  lemma RunKeepsRows(states: seq<State>, steps: seq<Step>, i: nat)
    requires IsRun(states, steps) && i < |states|
    ensures RowsOk(states[i])
  {
    hide Next, RowsOk, ProviderIdsUnique, KeysUnique, TransfersOk, EvidenceOk;
    RunKeepsInv(states, steps, i);
  }

  lemma {:induction false} RowsPersist(states: seq<State>, steps: seq<Step>, i: nat, k: nat, m: MessageId)
    requires IsRun(states, steps) && i <= k < |states| && m in states[i].messages
    ensures m in states[k].messages && SameIdentity(states[i].messages[m], states[k].messages[m])
  {
    hide Next, IsRun, RowsOk, Admissible;
    if i == k {
    } else {
      RunStep(states, steps, k - 1);
      RowsPersist(states, steps, i, k - 1, m);
      RunKeepsRows(states, steps, k - 1);
      RowStep(states[k - 1], steps[k - 1], m);
    }
  }

  // ---------------------------------------------------------------- no send is retried on its own

  predicate Resends(s: State, step: Step, m: MessageId) {
    step.Resolve? && step.m == m && AnswerTo(s, step) == Done && step.receipt.None?
  }

  /** The provider was called and the transaction rolled back. */
  predicate LosesSend(s: State, step: Step, m: MessageId) {
    step.Dispatch? && step.m == m && AnswerTo(s, step) == RolledBack
  }

  /** Acknowledged resends of `m` among the first `n` calls. */
  ghost function ResendsOf(states: seq<State>, steps: seq<Step>, m: MessageId, n: nat): nat
    requires n <= |steps| && |states| == |steps| + 1
  {
    if n == 0 then 0
    else ResendsOf(states, steps, m, n - 1) + (if Resends(states[n - 1], steps[n - 1], m) then 1 else 0)
  }

  ghost function LossesOf(states: seq<State>, steps: seq<Step>, m: MessageId, n: nat): nat
    requires n <= |steps| && |states| == |steps| + 1
  {
    if n == 0 then 0
    else LossesOf(states, steps, m, n - 1) + (if LosesSend(states[n - 1], steps[n - 1], m) then 1 else 0)
  }

  function Waiting(s: State, m: MessageId): nat {
    if m in s.messages && s.messages[m].status == Queued then 1 else 0
  }

  /** Becoming or staying queued costs an attempt saved, a resend, or the insertion of the row. */
  lemma WaitingStep(s: State, step: Step, m: MessageId)
    requires RowsOk(s) && Admissible(s, step) && m in s.messages
    ensures Waiting(Next(s, step), m) + (if Attempting(s, step) && m == step.m then 1 else 0)
      <= Waiting(s, m) + (if Resends(s, step, m) then 1 else 0)
  {
    hide Next;
    MessageStep(s, step, m);
  }

  lemma SendsStep(s: State, step: Step, m: MessageId)
    ensures Count(Next(s, step).sends, m) == Count(s.sends, m)
      + (if Attempting(s, step) && m == step.m then 1 else 0) + (if LosesSend(s, step, m) then 1 else 0)
  {
  }

  lemma BudgetStep(s: State, step: Step, m: MessageId)
    requires Inv(s) && Admissible(s, step)
    ensures var a, a' := |AttemptsOf(s.attempts, m)|, |AttemptsOf(Next(s, step).attempts, m)|;
      && (a' + Waiting(Next(s, step), m) <= 1
          || a' + Waiting(Next(s, step), m) <= a + Waiting(s, m) + (if Resends(s, step, m) then 1 else 0))
      && Count(Next(s, step).sends, m) + a == Count(s.sends, m) + a' + (if LosesSend(s, step, m) then 1 else 0)
  {
    hide Next, AnswerTo, RowsOk, ProviderIdsUnique, KeysUnique, TransfersOk, EvidenceOk;
    EvidenceIsHistory(s, m);
    AttemptsStep(s, step, m);
    SendsStep(s, step, m);
    if m in s.messages {
      WaitingStep(s, step, m);
    } else {
      assert Waiting(Next(s, step), m) <= 1;
    }
  }

  lemma EvidenceIsHistory(s: State, m: MessageId)
    requires Inv(s)
    ensures AttemptsOf(s.attempts, m) == HistoryOf(s, m) && Numbered(HistoryOf(s, m))
  {
    hide RowsOk, ProviderIdsUnique, KeysUnique, TransfersOk;
  }

  lemma EmptyBudget(s: State, m: MessageId)
    requires s.messages == map[] && s.attempts == [] && s.sends == map[]
    ensures AttemptsOf(s.attempts, m) == [] && Waiting(s, m) == 0 && Count(s.sends, m) == 0
  {
  }

  /**
   In every reachable state attempts plus one if queued is at most one plus the acknowledged resends; the
   attempts are numbered 1, 2, ..., n, they are the history in the metadata, and the provider was called
   once per attempt plus once per transaction lost after the call.
   */
  lemma {:induction false} SendBudget(states: seq<State>, steps: seq<Step>, i: nat, m: MessageId)
    requires IsRun(states, steps) && i < |states|
    ensures var evidence := AttemptsOf(states[i].attempts, m);
      && |evidence| + Waiting(states[i], m) <= 1 + ResendsOf(states, steps, m, i)
      && evidence == HistoryOf(states[i], m) && Numbered(evidence)
      && Count(states[i].sends, m) == |evidence| + LossesOf(states, steps, m, i)
  {
    hide Next, Inv, Admissible, AnswerTo, Resends, LosesSend, Waiting, Count, HistoryOf, Numbered;
    RunKeepsInv(states, steps, i);
    EvidenceIsHistory(states[i], m);
    if i == 0 {
      assert states[0] == State(states[0].assets, map[], map[], [], map[], map[]);
      EmptyBudget(states[0], m);
    } else {
      RunStep(states, steps, i - 1);
      SendBudget(states, steps, i - 1, m);
      RunKeepsInv(states, steps, i - 1);
      BudgetStep(states[i - 1], steps[i - 1], m);
    }
  }

  /** Leaving `unknown` takes an explicit resolution: no dispatch, report or control step does it. */
  lemma OnlyResolveLeavesUnknown(states: seq<State>, steps: seq<Step>, i: nat, m: MessageId)
    requires IsRun(states, steps) && i < |steps|
    requires m in states[i].messages && states[i].messages[m].status == Unknown
    ensures m in states[i + 1].messages
    ensures states[i + 1].messages[m].status != Unknown
      <==> steps[i].Resolve? && steps[i].m == m && AnswerTo(states[i], steps[i]) == Done
  {
    RunKeepsInv(states, steps, i);
    var s, step := states[i], steps[i];
    hide Next;
    assert RowOk(s, s.messages[m]);
    MessageStep(s, step, m);
  }

  // ---------------------------------------------------------------- what the provider sees

  /** A call whose answer cannot be stored: the id meets a system author or is already on another message. */
  predicate Unstorable(s: State, step: Step, m: MessageId) {
    && step.Dispatch? && step.m == m && step.reply.Returned? && step.reply.id.Some?
    && m in s.messages
    && (s.messages[m].author == System || IdTaken(s, s.messages[m].asset, step.reply.id.value))
  }

  /** Attempts counted in resends: a queued message has one send left, an unknown one none. */
  predicate Standing(s: State, m: MessageId, resends: nat) {
    var attempts := |AttemptsOf(s.attempts, m)|;
    if m !in s.messages then attempts == 0 && resends == 0
    else
      match s.messages[m].status
      case Queued => attempts == resends
      case Unknown => attempts == resends + 1
      case _ => true
  }

  /** Only an insertion or a resend leaves the row it writes queued, and only an attempt leaves it unknown. */
  lemma RowStatus(s: State, step: Step)
    requires NamesMessage(step) && AnswerTo(s, step) == Done
    ensures
      var status := RowAfter(s, step).status;
      && (status == Queued ==> step.SendIntent? || step.SendOutbound? || Resends(s, step, step.m))
      && (status == Unknown ==> Attempting(s, step))
      && (Attempting(s, step) ==> step.m in s.messages && s.messages[step.m].status == Queued && status != Queued)
      && (Resends(s, step, step.m) ==> step.m in s.messages && s.messages[step.m].status == Unknown && status == Queued)
  {
  }

  lemma BystanderStatus(step: Step, a: Message, b: Message)
    requires Bystander(step, a, b)
    ensures b.status == Queued ==> a.status == Queued
    ensures b.status == Unknown ==> a.status == Unknown
  {
  }

  lemma StandingWhenNamed(s: State, step: Step, resends: nat)
    requires RowsOk(s) && Admissible(s, step) && NamesMessage(step) && AnswerTo(s, step) == Done
    requires Standing(s, step.m, resends)
    ensures Standing(Next(s, step), step.m, resends + (if Resends(s, step, step.m) then 1 else 0))
  {
    RowStatus(s, step);
    NamedRow(s, step);
    AttemptsStep(s, step, step.m);
    if step.SendIntent? || step.SendOutbound? { assert step.m !in s.messages; }
    hide Next, AnswerTo, RowAfter, RowsOk, Attempting, Resends, AttemptsOf;
  }

  lemma StandingWhenNotNamed(s: State, step: Step, m: MessageId, resends: nat)
    requires (NamesMessage(step) ==> m != step.m) && Standing(s, m, resends)
    ensures Standing(Next(s, step), m, resends) && !Resends(s, step, m)
  {
    OthersAreBystanders(s, step, m);
    AttemptsStep(s, step, m);
    assert !(Attempting(s, step) && m == step.m);
    hide Next, AnswerTo, Bystander, AttemptsOf, Attempting;
    if m in s.messages { BystanderStatus(step, s.messages[m], Next(s, step).messages[m]); }
  }

  lemma StandingStep(s: State, step: Step, m: MessageId, resends: nat)
    requires RowsOk(s) && Admissible(s, step) && Standing(s, m, resends)
    ensures Standing(Next(s, step), m, resends + (if Resends(s, step, m) then 1 else 0))
  {
    hide Standing, RowsOk;
    if !NamesMessage(step) || m != step.m {
      StandingWhenNotNamed(s, step, m, resends);
    } else if AnswerTo(s, step) == Done {
      StandingWhenNamed(s, step, resends);
    } else {
      NothingMoves(s, step, m, resends);
    }
  }

  lemma NothingMoves(s: State, step: Step, m: MessageId, resends: nat)
    requires AnswerTo(s, step) != Done && Standing(s, m, resends)
    ensures Standing(Next(s, step), m, resends) && !Resends(s, step, m)
  {
  }

  lemma {:induction false} RunKeepsStanding(states: seq<State>, steps: seq<Step>, i: nat, m: MessageId)
    requires IsRun(states, steps) && i < |states|
    ensures Standing(states[i], m, ResendsOf(states, steps, m, i))
  {
    hide Next, RowsOk, Admissible, Resends, Standing;
    if i == 0 {
      NothingStands(states, steps, m);
    } else {
      RunStep(states, steps, i - 1);
      RunKeepsStanding(states, steps, i - 1, m);
      RunKeepsRows(states, steps, i - 1);
      StandingStep(states[i - 1], steps[i - 1], m, ResendsOf(states, steps, m, i - 1));
    }
  }

  lemma NothingStands(states: seq<State>, steps: seq<Step>, m: MessageId)
    requires IsRun(states, steps)
    ensures |states| == |steps| + 1 && Standing(states[0], m, 0)
  {
  }

  /** What the provider saw of `m` is covered by its one send and the acknowledged resends. */
  ghost predicate WithinBudget(states: seq<State>, steps: seq<Step>, m: MessageId, k: nat)
    requires k <= |steps| && |states| == |steps| + 1
  {
    Count(states[k].sends, m) + Waiting(states[k], m) <= 1 + ResendsOf(states, steps, m, k)
  }

  lemma LossIsUnstorableCall(s: State, step: Step, m: MessageId)
    ensures LosesSend(s, step, m) <==> ProviderCalled(s, step) && Unstorable(s, step, m)
    ensures LosesSend(s, step, m) ==>
      && m in s.messages && s.messages[m].status == Queued && !Resends(s, step, m)
      && Next(s, step).messages == s.messages && Next(s, step).attempts == s.attempts
  {
  }

  /** A lost call leaves the message queued, with its send used up: the budget is exceeded at once. */
  lemma LossBreaksBudget(states: seq<State>, steps: seq<Step>, k: nat, m: MessageId)
    requires IsRun(states, steps) && k < |steps| && LosesSend(states[k], steps[k], m)
    ensures !WithinBudget(states, steps, m, k + 1)
  {
    hide Next, Inv, Admissible, Resends, LosesSend;
    RunStep(states, steps, k);
    RunKeepsStanding(states, steps, k, m);
    LossIsUnstorableCall(states[k], steps[k], m);
    SendBudget(states, steps, k + 1, m);
  }

  /**
   Seen from the provider the budget holds in all states up to i exactly if no call for the message before i
   returned an id that cannot be stored.
   */
  lemma ProviderBudget(states: seq<State>, steps: seq<Step>, i: nat, m: MessageId)
    requires IsRun(states, steps) && i < |states|
    ensures (forall k :: 0 <= k <= i ==> WithinBudget(states, steps, m, k))
      <==> forall k :: 0 <= k < i && ProviderCalled(states[k], steps[k]) ==> !Unstorable(states[k], steps[k], m)
  {
    hide Next, Inv, Admissible, Resends, WithinBudget, ProviderCalled, Unstorable;
    forall k | 0 <= k < i
      ensures LosesSend(states[k], steps[k], m)
        <==> ProviderCalled(states[k], steps[k]) && Unstorable(states[k], steps[k], m)
      ensures LosesSend(states[k], steps[k], m) ==> !WithinBudget(states, steps, m, k + 1)
    {
      LossIsUnstorableCall(states[k], steps[k], m);
      if LosesSend(states[k], steps[k], m) { LossBreaksBudget(states, steps, k, m); }
    }
    if forall k :: 0 <= k < i ==> !LosesSend(states[k], steps[k], m) {
      forall k | 0 <= k <= i
        ensures WithinBudget(states, steps, m, k)
      {
        NothingLost(states, steps, k, m);
      }
    }
  }

  /** As long as no call is lost the provider's count is the attempts, so the budget of attempts carries over. */
  lemma {:induction false} NothingLost(states: seq<State>, steps: seq<Step>, i: nat, m: MessageId)
    requires IsRun(states, steps) && i < |states|
    requires forall k :: 0 <= k < i ==> !LosesSend(states[k], steps[k], m)
    ensures LossesOf(states, steps, m, i) == 0 && WithinBudget(states, steps, m, i)
  {
    hide Next, Inv, Admissible, Resends, LosesSend;
    SendBudget(states, steps, i, m);
    if i == 0 {
    } else {
      NothingLost(states, steps, i - 1, m);
    }
  }

  lemma LeavesAlone(s: State, step: Step)
    requires AnswerTo(s, step) != Done && !step.Dispatch?
    ensures Next(s, step) == s
  {
  }

  /** The tables after a call that commits and does not go to the provider. */
  lemma Commits(s: State, step: Step, s': State)
    requires AnswerTo(s, step) == Done && !step.Dispatch?
    requires s' == State(s.assets, ConversationsAfter(s, step), MessagesAfter(s, step), s.attempts,
                         TransfersAfter(s, step), s.sends)
    ensures s' == Next(s, step)
  {
  }

  lemma Concludes(s: State, step: Step, s': State)
    requires !step.Dispatch?
    requires s' == if AnswerTo(s, step) != Done then s
                   else State(s.assets, ConversationsAfter(s, step), MessagesAfter(s, step), s.attempts,
                              TransfersAfter(s, step), s.sends)
    ensures s' == Next(s, step)
  {
  }

  /** The queued auto-reply of the off-hours policy: its author is the system. */
  lemma QueuedAutoReply() returns (states: seq<State>, steps: seq<Step>)
    ensures IsRun(states, steps) && |steps| == 2 && ResendsOf(states, steps, 0, 2) == 0
    ensures var s := states[2];
      DispatchPath(s, 0) == CallsProvider && s.messages[0].author == System && s.sends == map[]
  {
    var s0 := State(map[0 := WhatsApp], map[], map[], [], map[], map[]);
    var s1 := s0.(conversations := map[0 := Conversation(0, Active, 0, None)]);
    Commits(s0, Open(0, 0), s1);
    var step := SendOutbound(0, 0, System, "", None, None);
    var s2 := s1.(messages := map[0 := NewMessage(s1, 0, System, None, None, "")]);
    Commits(s1, step, s2);
    hide Next;
    states, steps := [s0, s1, s2], [Open(0, 0), step];
    assert ResendsOf(states, steps, 0, 1) == ResendsOf(states, steps, 0, 0);
  }

  /** Without an acknowledged resend the provider receives it twice: each accepted call is rolled back. */
  lemma AutoReplySentTwice() returns (states: seq<State>, steps: seq<Step>)
    ensures IsRun(states, steps) && Count(states[|steps|].sends, 0) == 2 && ResendsOf(states, steps, 0, |steps|) == 0
  {
    var states2, steps2 := QueuedAutoReply();
    var step := Dispatch(0, Returned(ReportSent, Some(7)));
    var s3 := Next(states2[2], step);
    var s4 := Next(s3, step);
    states, steps := states2 + [s3, s4], steps2 + [step, step];
    ResendsAgree(states2, steps2, states, steps, 0, 2);
    assert ResendsOf(states, steps, 0, 3) == 0;
  }

  lemma {:induction false} ResendsAgree(
      states: seq<State>, steps: seq<Step>, states': seq<State>, steps': seq<Step>, m: MessageId, n: nat)
    requires |states| == |steps| + 1 && |states'| == |steps'| + 1 && n <= |steps| <= |steps'|
    requires steps'[..|steps|] == steps && states'[..|states|] == states
    ensures ResendsOf(states', steps', m, n) == ResendsOf(states, steps, m, n)
  {
    if n == 0 {
    } else {
      ResendsAgree(states, steps, states', steps', m, n - 1);
      assert states'[..|states|][n - 1] == states'[n - 1] && steps'[..|steps|][n - 1] == steps'[n - 1];
    }
  }

  // ---------------------------------------------------------------- from the provider's answer to the message

  /** A committed dispatch that reached the provider. */
  predicate Answered(s: State, step: Step, m: MessageId) {
    step.Dispatch? && step.m == m && ProviderCalled(s, step) && AnswerTo(s, step) == Done
  }

  /** What the message and its evidence say of a reply. */
  predicate Mirrors(before: Message, after: Message, evidence: Evidence, reply: Reply) {
    match reply
    case Timeout =>
      && after.status == Unknown && after.providerId == before.providerId
      && evidence.status == Uncertain && evidence.error == Some(ProviderTimeout) && evidence.providerId == None
    case Raised =>
      && after.status == Failed && after.providerId == before.providerId
      && evidence.status == Rejected && evidence.error == Some(ProviderRejected) && evidence.providerId == None
    case Returned(report, id) =>
      && after.providerId == id && evidence.providerId == id && evidence.error == None
      && (report == ReportSent ==> after.status == Sent && evidence.status == Accepted)
      && (report == ReportDelivered ==> after.status == Delivered && evidence.status == Accepted)
      && (report == ReportRead ==> after.status == Read && evidence.status == Accepted)
      && (report == ReportFailed ==> after.status == Failed && evidence.status == Rejected)
  }

  lemma AnsweredStep(s: State, step: Step, m: MessageId)
    requires Answered(s, step, m)
    ensures step.Dispatch? && m in s.messages && s.messages[m].status == Queued && m in Next(s, step).messages
    ensures |Next(s, step).attempts| == |s.attempts| + 1
    ensures
      var last := Next(s, step).attempts[|s.attempts|];
      && last.message == m && Next(s, step).attempts[..|s.attempts|] == s.attempts
      && Mirrors(s.messages[m], Next(s, step).messages[m], last.evidence, step.reply)
  {
  }

  /**
   Whatever the provider answers, the message and the attempt recorded for it say so: unknown exactly after a
   timeout, failed if the call raised or failure was returned, else the status and id returned.
   */
  lemma DispatchMirrorsTheReply(states: seq<State>, steps: seq<Step>, i: nat, m: MessageId)
    requires IsRun(states, steps) && i < |steps| && Answered(states[i], steps[i], m)
    ensures m in states[i].messages && m in states[i + 1].messages
    ensures
      var evidence := AttemptsOf(states[i + 1].attempts, m);
      && |evidence| == |AttemptsOf(states[i].attempts, m)| + 1
      && evidence[|evidence| - 1].number == |evidence|
      && Mirrors(states[i].messages[m], states[i + 1].messages[m], evidence[|evidence| - 1], steps[i].reply)
    ensures states[i + 1].messages[m].status == Unknown <==> steps[i].reply.Timeout?
    ensures states[i + 1].messages[m].status == Failed
      <==> steps[i].reply.Raised? || (steps[i].reply.Returned? && steps[i].reply.report == ReportFailed)
  {
    hide Next, Inv, Admissible, Answered, Numbered;
    RunStep(states, steps, i);
    AnsweredStep(states[i], steps[i], m);
    AttemptsAppend(states[i].attempts, states[i + 1].attempts[|states[i].attempts|], m);
    assert states[i + 1].attempts == states[i].attempts + [states[i + 1].attempts[|states[i].attempts|]];
    RunKeepsInv(states, steps, i + 1);
    EvidenceIsHistory(states[i + 1], m);
    LastNumber(AttemptsOf(states[i + 1].attempts, m));
    MirroredStatus(states[i].messages[m], states[i + 1].messages[m],
                   states[i + 1].attempts[|states[i].attempts|].evidence, steps[i].reply);
  }

  lemma MirroredStatus(before: Message, after: Message, evidence: Evidence, reply: Reply)
    requires Mirrors(before, after, evidence, reply)
    ensures after.status == Unknown <==> reply.Timeout?
    ensures after.status == Failed <==> reply.Raised? || (reply.Returned? && reply.report == ReportFailed)
  {
    if reply.Returned? {
      match reply.report {
        case ReportSent =>
        case ReportDelivered =>
        case ReportRead =>
        case ReportFailed =>
      }
    }
  }

  lemma LastNumber(evidence: seq<Evidence>)
    requires Numbered(evidence) && evidence != []
    ensures evidence[|evidence| - 1].number == |evidence|
  {
  }

  /** A dispatch that stops short of the provider: its rows are gone, it is fenced off, or there is no adapter. */
  lemma DispatchWithoutProvider(s: State, m: MessageId, reply: Reply)
    requires m in s.messages && s.messages[m].status == Queued
    ensures
      var msg, s' := s.messages[m], Next(s, Dispatch(m, reply));
      var failed := s.(messages := s.messages[m := msg.(status := Failed)]);
      var called := ProviderCalled(s, Dispatch(m, reply));
      if msg.conversation !in s.conversations || msg.asset !in s.assets then !called && s' == failed
      else
        var c := s.conversations[msg.conversation];
        if msg.author == Ai && (c.aiMode != Active || (msg.stamp.Some? && msg.stamp != Some(c.controlVersion))) then
          !called && s' == s.(messages := s.messages[m := msg.(status := Cancelled, fenced := true)])
        else if s.assets[msg.asset] == AdAccount then !called && s' == failed
        else called
    ensures !ProviderCalled(s, Dispatch(m, reply)) ==> AnswerTo(s, Dispatch(m, reply)) == Done
    ensures ProviderCalled(s, Dispatch(m, reply)) <==> DispatchPath(s, m) == CallsProvider
  {
  }

  /** Only a queued message is dispatched. */
  lemma NothingToDispatch(s: State, m: MessageId, reply: Reply)
    requires m !in s.messages || s.messages[m].status != Queued
    ensures Next(s, Dispatch(m, reply)) == s && AnswerTo(s, Dispatch(m, reply)) == NotFound
    ensures !ProviderCalled(s, Dispatch(m, reply))
  {
  }

  predicate TimesOut(s: State, step: Step, m: MessageId) {
    Answered(s, step, m) && step.reply.Timeout?
  }

  predicate Resolves(s: State, step: Step, m: MessageId) {
    step.Resolve? && step.m == m && AnswerTo(s, step) == Done
  }

  /** The call at d timed out for m, and nobody resolved it in the calls after d and before i. */
  ghost predicate TimedOutSince(states: seq<State>, steps: seq<Step>, d: nat, i: nat, m: MessageId)
    requires i <= |steps| && |states| == |steps| + 1
  {
    d < i && TimesOut(states[d], steps[d], m) && forall k :: d < k < i ==> !Resolves(states[k], steps[k], m)
  }

  ghost predicate TimedOut(states: seq<State>, steps: seq<Step>, i: nat, m: MessageId)
    requires i <= |steps| && |states| == |steps| + 1
  {
    exists d: nat :: TimedOutSince(states, steps, d, i, m)
  }

  lemma UnknownStep(s: State, step: Step, m: MessageId)
    requires RowsOk(s) && Admissible(s, step)
    ensures IsUnknown(Next(s, step), m) <==> TimesOut(s, step, m) || (IsUnknown(s, m) && !Resolves(s, step, m))
    ensures TimesOut(s, step, m) ==> !IsUnknown(s, m)
  {
    hide Next;
    MessageStep(s, step, m);
    if Writes(s, step, m) { RowStatus(s, step); }
  }

  predicate IsUnknown(s: State, m: MessageId) {
    m in s.messages && s.messages[m].status == Unknown
  }

  /** In every run a message is unknown exactly if its last call timed out and nobody has resolved it since. */
  lemma {:induction false} UnknownExactlyIfTimedOut(states: seq<State>, steps: seq<Step>, i: nat, m: MessageId)
    requires IsRun(states, steps) && i < |states|
    ensures IsUnknown(states[i], m) <==> TimedOut(states, steps, i, m)
  {
    hide Next, RowsOk, Admissible, TimesOut, Resolves;
    if i == 0 {
      assert states[0].messages == map[];
    } else {
      RunStep(states, steps, i - 1);
      UnknownExactlyIfTimedOut(states, steps, i - 1, m);
      RunKeepsRows(states, steps, i - 1);
      UnknownStep(states[i - 1], steps[i - 1], m);
      TimedOutSoFar(states, steps, i - 1, m);
    }
  }

  lemma TimedOutSoFar(states: seq<State>, steps: seq<Step>, i: nat, m: MessageId)
    requires i < |steps| && |states| == |steps| + 1
    ensures TimedOut(states, steps, i + 1, m) <==>
      TimesOut(states[i], steps[i], m) || (TimedOut(states, steps, i, m) && !Resolves(states[i], steps[i], m))
  {
    hide TimesOut, Resolves;
    var j := i + 1;
    if TimesOut(states[i], steps[i], m) {
      assert TimedOutSince(states, steps, i, j, m);
    }
    if TimedOut(states, steps, i, m) && !Resolves(states[i], steps[i], m) {
      var d: nat :| TimedOutSince(states, steps, d, i, m);
      assert TimedOutSince(states, steps, d, j, m);
    }
    if TimedOut(states, steps, j, m) {
      var d: nat :| TimedOutSince(states, steps, d, j, m);
      if d < i { assert TimedOutSince(states, steps, d, i, m); }
    }
  }

  /** What a call that stores a new message puts into its row. */
  lemma InsertionLeaves(s: State, step: Step)
    requires AnswerTo(s, step) == Done && (step.SendIntent? || step.SendOutbound? || step.Receive?)
    ensures step.c in s.conversations && step.m in Next(s, step).messages
    ensures
      var b := Next(s, step).messages[step.m];
      && Next(s, step) == s.(messages := s.messages[step.m := b])
      && b.conversation == step.c && b.asset == s.conversations[step.c].asset && b.history == [] && !b.fenced
      && b.resolution == None
      && (step.Receive? ==>
            && !b.outbound && b.author == Contact && b.status == Delivered && b.providerId == Some(step.pid)
            && b.key == None && b.requestHash == None && b.stamp == None)
      && (step.SendIntent? ==> b.author == User && b.stamp == None)
      && (step.SendOutbound? ==> b.author == step.author && b.stamp == step.stamp)
      && (!step.Receive? ==>
            && b.outbound && b.status == Queued && b.providerId == None && b.key == step.key
            && (step.key.Some? ==> b.requestHash == Some(Sha256(step.body)))
            && (step.key.None? ==> b.requestHash == None))
  {
  }

  /** A resolution makes of an unknown message a sent one under the receipt's id, or a queued one again. */
  lemma ResolutionLeaves(s: State, step: Step)
    requires step.Resolve? && AnswerTo(s, step) == Done
    ensures step.m in s.messages && s.messages[step.m].status == Unknown
    ensures
      var a, b := s.messages[step.m], Next(s, step).messages[step.m];
      && Next(s, step) == s.(messages := s.messages[step.m := b])
      && b.history == a.history && SameIdentity(a, b)
      && (step.receipt.Some? ==>
            b.status == Sent && b.providerId == step.receipt && b.resolution == Some(VerifiedReceipt))
      && (step.receipt.None? ==>
            && b.status == Queued && b.providerId == a.providerId && b.resolution == Some(ExplicitResend)
            && step.resend && step.acknowledged)
  {
  }

  /** What a report leaves of the message it identifies, by the statuses themselves; every other message stays. */
  lemma ReportLeaves(s: State, step: Step, m: MessageId)
    requires step.Deliver? && AnswerTo(s, step) == Done && m in s.messages
    ensures m in Next(s, step).messages
    ensures
      var a, b := s.messages[m], Next(s, step).messages[m];
      if a.asset == step.asset && a.providerId == Some(step.pid) then
        && b == a.(status := b.status)
        && b.status ==
           match step.report.value
           case ReportFailed => Failed
           case ReportRead => Read
           case ReportDelivered => if a.status == Read then Read else Delivered
           case ReportSent => if a.status == Read || a.status == Delivered then a.status else Sent
      else b == a
  {
  }

  predicate QueuesUnder(s: State, step: Step, c: ConversationId, key: Key) {
    (step.SendIntent? || step.SendOutbound?) && step.c == c && step.key == Some(key) && AnswerTo(s, step) == Done
  }

  /** One idempotency key of a conversation queues at most one message, whichever entry point is used. */
  lemma KeyQueuesOnce(states: seq<State>, steps: seq<Step>, i: nat, j: nat, c: ConversationId, key: Key)
    requires IsRun(states, steps) && i <= j < |steps|
    requires QueuesUnder(states[i], steps[i], c, key) && QueuesUnder(states[j], steps[j], c, key)
    ensures i == j
  {
    if i < j {
      var m := steps[i].m;
      assert m in states[i + 1].messages && Keyed(states[i + 1].messages[m], c, key);
      RowsPersist(states, steps, i + 1, j, m);
      assert Keyed(states[j].messages[m], c, key);
      assert false;
    }
  }

  /** A repeated intent is answered by what the first one stored: same body, same message; another body, refusal. */
  lemma IntentReplay(states: seq<State>, steps: seq<Step>, i: nat, j: nat)
    requires IsRun(states, steps) && i < j < |steps|
    requires steps[i].SendIntent? && steps[i].key.Some? && AnswerTo(states[i], steps[i]) == Done
    requires steps[j].SendIntent? && steps[j].c == steps[i].c && steps[j].key == steps[i].key
    requires AnswerTo(states[j], steps[j]) != Denied
    ensures AnswerTo(states[j], steps[j]) == if steps[j].body == steps[i].body then Unchanged else Refused
    ensures states[j + 1] == states[j]
  {
    var m, c, key := steps[i].m, steps[i].c, steps[i].key.value;
    assert m in states[i + 1].messages && Keyed(states[i + 1].messages[m], c, key);
    assert states[i + 1].messages[m].requestHash == Some(Sha256(steps[i].body));
    RowsPersist(states, steps, i + 1, j, m);
    RunKeepsInv(states, steps, j);
    ConversationsPersist(states, steps, i, j, c);
    assert Keyed(states[j].messages[m], c, key);
  }

  lemma {:induction false} ConversationsPersist(states: seq<State>, steps: seq<Step>, i: nat, k: nat, c: ConversationId)
    requires IsRun(states, steps) && i <= k < |states| && c in states[i].conversations
    ensures c in states[k].conversations
    ensures states[i].conversations[c].controlVersion <= states[k].conversations[c].controlVersion
  {
    hide Next, IsRun, Admissible, Controls;
    if i == k {
    } else {
      RunStep(states, steps, k - 1);
      ConversationsPersist(states, steps, i, k - 1, c);
      ControlStep(states[k - 1], steps[k - 1], c);
    }
  }

  // ---------------------------------------------------------------- the control fence

  /** The call moves control of the conversation: mode, takeover, a new transfer, or its acceptance. */
  predicate Controls(s: State, step: Step, c: ConversationId) {
    && AnswerTo(s, step) == Done
    && (((step.SetMode? || step.Takeover? || step.Handoff?) && step.c == c)
        || (step.Accept? && s.transfers[step.t].conversation == c))
  }

  lemma ControlStep(s: State, step: Step, c: ConversationId)
    requires c in s.conversations
    ensures c in Next(s, step).conversations
    ensures var a, b := s.conversations[c], Next(s, step).conversations[c];
      if Controls(s, step, c) then a.controlVersion < b.controlVersion
      else a.controlVersion == b.controlVersion && a.aiMode == b.aiMode
  {
  }

  /** No ABA: equal versions mean that no control step happened in between and the mode never moved. */
  lemma {:induction false} EqualVersionsMeanNoControl(
      states: seq<State>, steps: seq<Step>, i: nat, j: nat, c: ConversationId)
    requires IsRun(states, steps) && i <= j < |states| && c in states[i].conversations
    requires c in states[j].conversations
      && states[j].conversations[c].controlVersion == states[i].conversations[c].controlVersion
    ensures states[j].conversations[c].aiMode == states[i].conversations[c].aiMode
    ensures forall k :: i <= k < j ==> !Controls(states[k], steps[k], c)
  {
    hide Next, IsRun, Admissible, Controls;
    if i == j {
    } else {
      RunStep(states, steps, j - 1);
      ConversationsPersist(states, steps, i, j - 1, c);
      ControlStep(states[j - 1], steps[j - 1], c);
      EqualVersionsMeanNoControl(states, steps, i, j - 1, c);
    }
  }

  /**
   An AI message reaches the provider only in active mode; if it was stamped with the version it was queued
   under, control of its conversation did not move at all between the two.
   */
  lemma StampedMessageMeetsNoControl(states: seq<State>, steps: seq<Step>, i: nat, j: nat)
    requires IsRun(states, steps) && i < j < |steps|
    requires steps[i].SendOutbound? && steps[i].author == Ai && AnswerTo(states[i], steps[i]) == Done
    requires steps[i].stamp == Some(states[i].conversations[steps[i].c].controlVersion)
    requires ProviderCalled(states[j], steps[j]) && steps[j].m == steps[i].m
    ensures steps[i].c in states[j].conversations && states[j].conversations[steps[i].c].aiMode == Active
    ensures forall k :: i <= k < j ==> !Controls(states[k], steps[k], steps[i].c)
  {
    var m := steps[i].m;
    assert m in states[i + 1].messages;
    RowsPersist(states, steps, i + 1, j, m);
    EqualVersionsMeanNoControl(states, steps, i, j, steps[i].c);
  }

  /** The transfer that waits for the conversation, if any: there is at most one. */
  predicate WaitsFor(s: State, t: TransferId, c: ConversationId) {
    t in s.transfers && s.transfers[t].pending && s.transfers[t].conversation == c
  }

  /** After its acceptance a conversation belongs to the recipient the transfer names, else to the one who accepts. */
  predicate HandedOver(s: State, s': State, t: TransferId, actor: Actor)
    requires t in s.transfers
  {
    var c := s.transfers[t].conversation;
    && t in s'.transfers && !s'.transfers[t].pending
    && c in s'.conversations
    && (s.transfers[t].recipient.Some? ==> s'.conversations[c].assignee == s.transfers[t].recipient)
    && (s.transfers[t].recipient.None? ==> s'.conversations[c].assignee == Some(actor.user))
  }

  lemma SetModeLeaves(s: State, step: Step)
    requires step.SetMode? && AnswerTo(s, step) == Done
    ensures
      var a, b := s.conversations[step.c], Next(s, step).conversations[step.c];
      && (step.mode == Active || step.mode == Human)
      && b.aiMode == step.mode && b.controlVersion == a.controlVersion + 1
      && b.assignee == a.assignee && b.asset == a.asset
    ensures Next(s, step).transfers == s.transfers
  {
  }

  lemma HandoffLeaves(s: State, step: Step)
    requires step.Handoff? && AnswerTo(s, step) == Done
    ensures
      var a, b := s.conversations[step.c], Next(s, step).conversations[step.c];
      && b.aiMode == HandoffPending && b.controlVersion == a.controlVersion + 1
      && b.assignee == a.assignee && b.asset == a.asset
    ensures WaitsFor(Next(s, step), step.t, step.c)
    ensures
      var t := Next(s, step).transfers[step.t];
      t.trigger == step.trigger && t.recipient == step.recipient
    ensures forall t | WaitsFor(s, t, step.c) :: t == step.t
  {
  }

  lemma AcceptLeaves(s: State, step: Step)
    requires step.Accept? && AnswerTo(s, step) == Done
    ensures HandedOver(s, Next(s, step), step.t, step.actor)
    ensures
      var c := s.transfers[step.t].conversation;
      var a, b := s.conversations[c], Next(s, step).conversations[c];
      b.aiMode == Human && b.controlVersion == a.controlVersion + 1 && b.asset == a.asset
  {
  }

  lemma TakeoverLeaves(s: State, step: Step)
    requires step.Takeover? && AnswerTo(s, step) == Done && TransfersOk(s)
    ensures step.c in Next(s, step).conversations && Next(s, step).conversations[step.c].aiMode == Human
    ensures
      var a, b := s.conversations[step.c], Next(s, step).conversations[step.c];
      if exists t :: WaitsFor(s, t, step.c) then b.controlVersion == a.controlVersion + 2
      else b.controlVersion == a.controlVersion + 1 && b.assignee == a.assignee
    ensures forall t | WaitsFor(s, t, step.c) :: HandedOver(s, Next(s, step), t, step.actor)
    ensures forall t :: !WaitsFor(Next(s, step), t, step.c)
  {
    assert forall t | t in s.transfers :: PendingFor(s.transfers[t], step.c) <==> WaitsFor(s, t, step.c);
    if t :| WaitsFor(s, t, step.c) {
      assert HasPending(s, step.c) && PendingOf(s, step.c) == t;
    }
  }

  lemma AssignLeaves(s: State, step: Step)
    requires step.Assign? && AnswerTo(s, step) == Done
    ensures step.c in s.conversations
    ensures Next(s, step)
      == s.(conversations := s.conversations[step.c := s.conversations[step.c].(assignee := step.user)])
  {
  }

  lemma AcceptedWasWaiting(s: State, step: Step)
    requires step.Accept? && AnswerTo(s, step) == Done
    ensures step.t in s.transfers && WaitsFor(s, step.t, s.transfers[step.t].conversation)
    ensures s.transfers[step.t].conversation in Next(s, step).conversations
  {
  }

  /** What a control step makes of the conversation, in every run: the mode, the version and the assignee. */
  lemma ControlLeaves(states: seq<State>, steps: seq<Step>, i: nat)
    requires IsRun(states, steps) && i < |steps| && AnswerTo(states[i], steps[i]) == Done
    ensures
      var s, s', step := states[i], states[i + 1], steps[i];
      match step
      case SetMode(_, c, mode) =>
        && c in s.conversations && c in s'.conversations
        && s'.conversations[c].aiMode == mode && s'.conversations[c].assignee == s.conversations[c].assignee
        && s'.conversations[c].controlVersion == s.conversations[c].controlVersion + 1
      case Handoff(_, c, _, _, t) =>
        && c in s.conversations && c in s'.conversations
        && s'.conversations[c].aiMode == HandoffPending && WaitsFor(s', t, c)
        && s'.conversations[c].controlVersion == s.conversations[c].controlVersion + 1
      case Accept(actor, t) =>
        && WaitsFor(s, t, s.transfers[t].conversation) && HandedOver(s, s', t, actor)
        && var c := s.transfers[t].conversation;
        && c in s.conversations && s'.conversations[c].aiMode == Human
        && s'.conversations[c].controlVersion == s.conversations[c].controlVersion + 1
      case Takeover(actor, c) =>
        && c in s.conversations && c in s'.conversations && s'.conversations[c].aiMode == Human
        && s'.conversations[c].controlVersion
           == s.conversations[c].controlVersion + (if exists t :: WaitsFor(s, t, c) then 2 else 1)
        && (forall t | WaitsFor(s, t, c) :: HandedOver(s, s', t, actor))
        && ((forall t :: !WaitsFor(s, t, c)) ==> s'.conversations[c].assignee == s.conversations[c].assignee)
      case Assign(c, user) =>
        c in s.conversations && s' == s.(conversations := s.conversations[c := s.conversations[c].(assignee := user)])
      case _ => true
  {
    hide Next, Admissible, RowsOk, ProviderIdsUnique, KeysUnique, TransfersOk, EvidenceOk, HandedOver, WaitsFor;
    RunStep(states, steps, i);
    RunKeepsInv(states, steps, i);
    if steps[i].SetMode? {
      SetModeLeaves(states[i], steps[i]);
      ControlStep(states[i], steps[i], steps[i].c);
    } else if steps[i].Handoff? {
      HandoffLeaves(states[i], steps[i]);
      ControlStep(states[i], steps[i], steps[i].c);
    } else if steps[i].Accept? {
      AcceptLeaves(states[i], steps[i]);
      AcceptedWasWaiting(states[i], steps[i]);
    } else if steps[i].Takeover? {
      TakeoverLeaves(states[i], steps[i]);
      ControlStep(states[i], steps[i], steps[i].c);
    } else if steps[i].Assign? {
      AssignLeaves(states[i], steps[i]);
    }
  }

  /** The only step that puts the AI in charge again. */
  predicate Reactivates(s: State, step: Step, c: ConversationId) {
    step.SetMode? && step.c == c && step.mode == Active && AnswerTo(s, step) == Done
  }

  lemma QuietStep(s: State, step: Step, c: ConversationId)
    requires c in s.conversations && s.conversations[c].aiMode != Active && !Reactivates(s, step, c)
    ensures c in Next(s, step).conversations && Next(s, step).conversations[c].aiMode != Active
  {
  }

  lemma {:induction false} StaysQuiet(states: seq<State>, steps: seq<Step>, i: nat, k: nat, c: ConversationId)
    requires IsRun(states, steps) && i <= k < |states|
    requires c in states[i].conversations && states[i].conversations[c].aiMode != Active
    requires forall j :: i <= j < k ==> !Reactivates(states[j], steps[j], c)
    ensures c in states[k].conversations && states[k].conversations[c].aiMode != Active
  {
    hide Next, Admissible, Reactivates;
    if i == k {
    } else {
      StaysQuiet(states, steps, i, k - 1, c);
      QuietStep(states[k - 1], steps[k - 1], c);
    }
  }

  /** The step takes the conversation out of the AI's hands. */
  predicate Silences(s: State, step: Step, c: ConversationId) {
    && AnswerTo(s, step) == Done
    && match step
       case SetMode(_, target, mode) => target == c && mode == Human
       case Takeover(_, target) => target == c
       case Handoff(_, target, _, _, _) => target == c
       case Accept(_, t) => s.transfers[t].conversation == c
       case _ => false
  }

  /**
   From a takeover, a switch to human, a new transfer or an acceptance up to the next switch to active, no AI
   message of that conversation is handed to the provider, whenever it was queued.
   */
  lemma AiIsSilentUntilReactivated(states: seq<State>, steps: seq<Step>, i: nat, k: nat, c: ConversationId)
    requires IsRun(states, steps) && i < k < |steps| && Silences(states[i], steps[i], c)
    requires forall j :: i < j < k ==> !Reactivates(states[j], steps[j], c)
    requires ProviderCalled(states[k], steps[k])
    ensures steps[k].m in states[k].messages
    ensures states[k].messages[steps[k].m].conversation == c ==> states[k].messages[steps[k].m].author != Ai
  {
    ControlLeaves(states, steps, i);
    hide Next, Admissible, Reactivates, HandedOver;
    StaysQuiet(states, steps, i + 1, k, c);
  }

  /** The caller of a call that names one. */
  function Caller(step: Step): Option<Actor> {
    match step
    case SendIntent(actor, _, _, _, _) => Some(actor)
    case Resolve(actor, _, _, _, _) => Some(actor)
    case SetMode(actor, _, _) => Some(actor)
    case Takeover(actor, _) => Some(actor)
    case Handoff(caller, _, _, _, _) => caller
    case Accept(actor, _) => Some(actor)
    case _ => None
  }

  /** The conversation a caller's call is about, as far as the tables tell. */
  function Target(s: State, step: Step): Option<ConversationId> {
    match step
    case SendIntent(_, _, c, _, _) => Some(c)
    case Resolve(_, m, _, _, _) => if m in s.messages then Some(s.messages[m].conversation) else None
    case SetMode(_, c, mode) => if mode == HandoffPending then None else Some(c)
    case Takeover(_, c) => Some(c)
    case Handoff(_, c, _, _, _) => Some(c)
    case Accept(_, t) => if t in s.transfers && s.transfers[t].pending then Some(s.transfers[t].conversation) else None
    case _ => None
  }

  /** A call is denied exactly to a restricted caller whose target exists and is somebody else's. */
  lemma DeniedExactlyIf(s: State, step: Step)
    ensures AnswerTo(s, step) == Denied <==>
      && Caller(step).Some? && Caller(step).value.restricted
      && Target(s, step).Some? && Target(s, step).value in s.conversations
      && var assignee := s.conversations[Target(s, step).value].assignee;
      assignee != Some(Caller(step).value.user) && (step.Accept? ==> assignee != None)
  {
  }

  predicate HasMessage(s: State, c: ConversationId, key: Option<Key>) {
    key != None && exists n | n in s.messages :: s.messages[n].conversation == c && s.messages[n].key == key
  }

  predicate ReportedId(s: State, asset: AssetId, pid: ProviderId) {
    exists n | n in s.messages :: s.messages[n].asset == asset && s.messages[n].providerId == Some(pid)
  }

  lemma SameId(s: State, asset: AssetId, pid: ProviderId)
    ensures IdTaken(s, asset, pid) <==> ReportedId(s, asset, pid)
  {
    assert forall n | n in s.messages ::
      Identifies(s.messages[n], asset, pid)
      <==> s.messages[n].asset == asset && s.messages[n].providerId == Some(pid);
  }

  lemma SameKey(s: State, c: ConversationId, key: Option<Key>)
    ensures KeyTaken(s, c, key) <==> HasMessage(s, c, key)
    ensures key.Some? ==> forall n | n in s.messages ::
      Keyed(s.messages[n], c, key.value) <==> s.messages[n].conversation == c && s.messages[n].key == key
  {
    assert key.Some? ==> forall n | n in s.messages ::
      Keyed(s.messages[n], c, key.value) <==> s.messages[n].conversation == c && s.messages[n].key == key;
  }

  /** A call misses its row exactly in these cases. */
  lemma NotFoundExactlyIf(s: State, step: Step)
    requires RowsOk(s) && TransfersOk(s)
    ensures AnswerTo(s, step) == NotFound <==>
      match step
      case Open(_, _) => false
      case Dispatch(m, _) => m !in s.messages || s.messages[m].status != Queued
      case Resolve(_, m, _, _, _) => m !in s.messages
      case Deliver(asset, pid, _) => !ReportedId(s, asset, pid)
      case Accept(_, t) => t !in s.transfers
      case SetMode(_, c, mode) => mode != HandoffPending && c !in s.conversations
      case _ => step.c !in s.conversations
  {
    if step.Resolve? && step.m in s.messages { assert RowOk(s, s.messages[step.m]); }
    if step.Deliver? { SameId(s, step.asset, step.pid); }
  }

  /** A call is refused exactly for what it asks, once it has its row and its caller is admitted. */
  lemma RefusedExactlyIf(s: State, step: Step)
    requires RowsOk(s) && KeysUnique(s)
    ensures AnswerTo(s, step) == Refused <==>
      match step
      case Open(c, asset) => c in s.conversations || asset !in s.assets
      case SendIntent(_, _, c, body, key) =>
        && c in s.conversations && AnswerTo(s, step) != Denied && key != None
        && exists n | n in s.messages ::
             s.messages[n].conversation == c && s.messages[n].key == key
             && s.messages[n].requestHash != Some(Sha256(body))
      case Resolve(_, m, receipt, resend, acknowledged) =>
        && m in s.messages && AnswerTo(s, step) != Denied
        && (s.messages[m].status != Unknown || (receipt == None && !(resend && acknowledged)))
      case Deliver(asset, pid, report) => ReportedId(s, asset, pid) && report == None
      case SetMode(_, _, mode) => mode == HandoffPending
      case _ => false
  {
    if step.Resolve? && step.m in s.messages { assert RowOk(s, s.messages[step.m]); }
    if step.Deliver? { SameId(s, step.asset, step.pid); }
    if step.SendIntent? { SameKey(s, step.c, step.key); }
  }

  /** A transaction is rolled back exactly by the unique indexes on keys and provider ids, or the check on authors. */
  lemma RolledBackExactlyIf(s: State, step: Step)
    requires RowsOk(s)
    ensures AnswerTo(s, step) == RolledBack <==>
      match step
      case SendOutbound(_, c, _, _, key, _) => c in s.conversations && HasMessage(s, c, key)
      case Dispatch(m, reply) =>
        && ProviderCalled(s, step) && reply.Returned? && reply.id.Some?
        && m in s.messages
        && (s.messages[m].author == System || ReportedId(s, s.messages[m].asset, reply.id.value))
      case Resolve(_, m, receipt, _, _) =>
        && m in s.messages && s.messages[m].status == Unknown && receipt.Some? && AnswerTo(s, step) != Denied
        && (s.messages[m].author == System || ReportedId(s, s.messages[m].asset, receipt.value))
      case _ => false
  {
    if (step.Resolve? || step.Dispatch?) && step.m in s.messages {
      assert RowOk(s, s.messages[step.m]);
    }
    if step.Dispatch? && step.m in s.messages && step.reply.Returned? && step.reply.id.Some? {
      SameId(s, s.messages[step.m].asset, step.reply.id.value);
    }
    if step.Resolve? && step.m in s.messages && step.receipt.Some? {
      SameId(s, s.messages[step.m].asset, step.receipt.value);
    }
    if step.SendOutbound? { SameKey(s, step.c, step.key); }
  }

  /** The row of the conversation or of one of its messages is not as before. */
  predicate Touched(s: State, s': State, c: ConversationId) {
    || c !in s.conversations || c !in s'.conversations || s'.conversations[c] != s.conversations[c]
    || exists m | m in s'.messages ::
         s'.messages[m].conversation == c && (m !in s.messages || s'.messages[m] != s.messages[m])
  }

  lemma RestrictedStep(s: State, step: Step, c: ConversationId)
    requires RowsOk(s) && Admissible(s, step) && c in s.conversations
    requires Caller(step).Some? && Caller(step).value.restricted
    ensures Touched(s, Next(s, step), c) ==>
      var assignee := s.conversations[c].assignee;
      assignee == Some(Caller(step).value.user) || (step.Accept? && assignee == None)
  {
    if AnswerTo(s, step) == Done && step.Resolve? {
      NamedRow(s, step);
    }
  }

  /**
   A restricted caller changes a conversation and its messages only if it is assigned to that caller; accepting
   a transfer also works on an unassigned one.
   */
  lemma RestrictedCallersTouchTheirOwn(states: seq<State>, steps: seq<Step>, i: nat, c: ConversationId)
    requires IsRun(states, steps) && i < |steps| && c in states[i].conversations
    requires Caller(steps[i]).Some? && Caller(steps[i]).value.restricted
    requires Touched(states[i], states[i + 1], c)
    ensures
      var assignee := states[i].conversations[c].assignee;
      assignee == Some(Caller(steps[i]).value.user) || (steps[i].Accept? && assignee == None)
  {
    RunStep(states, steps, i);
    RunKeepsRows(states, steps, i);
    RestrictedStep(states[i], steps[i], c);
  }

  /** Takeover, switching to human, and opening a transfer withdraw what the AI has queued. */
  predicate Withdraws(s: State, step: Step, c: ConversationId) {
    && AnswerTo(s, step) == Done
    && (step.Takeover? || step.Handoff? || (step.SetMode? && step.mode == Human))
    && step.c == c
  }

  lemma CancelledStep(s: State, step: Step, m: MessageId)
    requires RowsOk(s) && Admissible(s, step) && m in s.messages && s.messages[m].status == Cancelled
    ensures m in Next(s, step).messages && Next(s, step).messages[m] == s.messages[m]
  {
    hide Next;
    assert RowOk(s, s.messages[m]);
    MessageStep(s, step, m);
  }

  lemma {:induction false} CancelledForGood(states: seq<State>, steps: seq<Step>, i: nat, k: nat, m: MessageId)
    requires IsRun(states, steps) && i <= k < |states|
    requires m in states[i].messages && states[i].messages[m].status == Cancelled
    ensures m in states[k].messages && states[k].messages[m] == states[i].messages[m]
  {
    hide Next, IsRun, RowsOk, Admissible;
    if i == k {
    } else {
      RunStep(states, steps, k - 1);
      CancelledForGood(states, steps, i, k - 1, m);
      RunKeepsRows(states, steps, k - 1);
      CancelledStep(states[k - 1], steps[k - 1], m);
    }
  }

  /** An AI message queued at such a step is cancelled by it, for good: no continuation hands it to the provider. */
  lemma WithdrawnNeverSent(states: seq<State>, steps: seq<Step>, i: nat, k: nat, m: MessageId)
    requires IsRun(states, steps) && i < k < |steps|
    requires m in states[i].messages && states[i].messages[m].author == Ai && states[i].messages[m].status == Queued
    requires Withdraws(states[i], steps[i], states[i].messages[m].conversation)
    ensures m in states[k].messages && states[k].messages[m].status == Cancelled
    ensures !(ProviderCalled(states[k], steps[k]) && steps[k].m == m)
  {
    assert states[i + 1].messages == CancelAi(states[i].messages, steps[i].c);
    CancelledForGood(states, steps, i + 1, k, m);
  }

  // ---------------------------------------------------------------- delivery reports

  predicate Delivering(status: MessageStatus) {
    status == Sent || status == Delivered || status == Read
  }

  predicate ReportsFailure(step: Step, msg: Message) {
    step.Deliver? && step.report == Some(ReportFailed) && Identifies(msg, step.asset, step.pid)
  }

  /** An accepted message loses rank in one step exactly when a failure is reported for it. */
  lemma RankDropsExactlyOnFailure(s: State, step: Step, m: MessageId)
    requires RowsOk(s) && Admissible(s, step) && m in s.messages && Delivering(s.messages[m].status)
    ensures m in Next(s, step).messages
    ensures Rank(Next(s, step).messages[m].status) < Rank(s.messages[m].status) <==> ReportsFailure(step, s.messages[m])
    ensures !ReportsFailure(step, s.messages[m]) ==> Delivering(Next(s, step).messages[m].status)
  {
    hide Next;
    MessageStep(s, step, m);
  }

  /** Without one, duplicated and reordered reports only ever raise the rank. */
  lemma {:induction false} RankClimbs(states: seq<State>, steps: seq<Step>, i: nat, k: nat, m: MessageId)
    requires IsRun(states, steps) && i <= k < |states|
    requires m in states[i].messages && Delivering(states[i].messages[m].status)
    requires forall j :: i <= j < k && m in states[j].messages ==> !ReportsFailure(steps[j], states[j].messages[m])
    ensures m in states[k].messages && Delivering(states[k].messages[m].status)
    ensures Rank(states[i].messages[m].status) <= Rank(states[k].messages[m].status)
  {
    hide Next, IsRun, RowsOk, Admissible, Rank, ReportsFailure, Delivering;
    if i == k {
    } else {
      RunStep(states, steps, k - 1);
      RankClimbs(states, steps, i, k - 1, m);
      RunKeepsRows(states, steps, k - 1);
      RankDropsExactlyOnFailure(states[k - 1], steps[k - 1], m);
    }
  }

  /** The tables after a transfer was opened. */
  lemma OpensTransfer(s: State, step: Step, s': State)
    requires step.Handoff? && AnswerTo(s, step) == Done
    requires s' == s.(conversations := s.conversations[step.c := Moded(s.conversations[step.c], HandoffPending)],
                      messages := CancelAi(s.messages, step.c),
                      transfers := s.transfers[step.t := Transfer(step.c, step.trigger, step.recipient, true)])
    ensures s' == Next(s, step)
  {
  }

  /** The tables after a provider call: the answer is stored, or the transaction is rolled back. */
  lemma Calls(s: State, m: MessageId, reply: Reply, s': State)
    requires DispatchPath(s, m) == CallsProvider
    requires var number := MaxNumber(s.attempts, m) + 1;
      var sends := s.sends[m := Count(s.sends, m) + 1];
      s' == if reply.Returned? && Breaks(s, s.messages[m], reply.id) then s.(sends := sends)
            else s.(messages := s.messages[m := AfterReply(s.messages[m], number, reply)],
                    attempts := s.attempts + [Attempt(m, EvidenceFor(number, reply))],
                    sends := sends)
    ensures s' == Next(s, Dispatch(m, reply))
    ensures AnswerTo(s, Dispatch(m, reply))
      == if reply.Returned? && Breaks(s, s.messages[m], reply.id) then RolledBack else Done
  {
  }

  lemma EvidenceIsNumbered(states: seq<State>, steps: seq<Step>, m: MessageId)
    requires IsRun(states, steps)
    ensures |states| == |steps| + 1 && Numbered(AttemptsOf(states[|steps|].attempts, m))
  {
    hide Next, Admissible, Inv, AttemptsOf, Numbered;
    RunKeepsInv(states, steps, |steps|);
    EvidenceIsHistory(states[|steps|], m);
  }

  /** What the methods need of the unique indexes. */
  lemma IndexesHold(states: seq<State>, steps: seq<Step>)
    requires IsRun(states, steps)
    ensures |states| == |steps| + 1
    ensures var s := states[|steps|]; KeysUnique(s) && ProviderIdsUnique(s) && TransfersOk(s)
  {
    hide Next, Admissible, RowsOk, ProviderIdsUnique, KeysUnique, TransfersOk, EvidenceOk;
    RunKeepsInv(states, steps, |steps|);
  }

  /** By the unique index a key leads to one row, though the specification asks whether some row fits. */
  lemma OneRowKeyed(s: State, c: ConversationId, key: Key, body: string, existing: MessageId)
    requires KeysUnique(s) && existing in s.messages && Keyed(s.messages[existing], c, key)
    ensures KeyTaken(s, c, Some(key))
    ensures SameRequest(s, c, Some(key), body) <==> s.messages[existing].requestHash == Some(Sha256(body))
  {
  }

  /** By the unique index a delivery report updates one row, though the specification maps over all. */
  lemma OneRowDelivered(s: State, asset: AssetId, pid: ProviderId, report: Report, m: MessageId)
    requires ProviderIdsUnique(s) && m in s.messages && Identifies(s.messages[m], asset, pid)
    ensures DeliverTo(s.messages, asset, pid, report) == s.messages[m := Reported(s.messages[m], report)]
  {
  }

  // ---------------------------------------------------------------- the mutable store

  lemma Delivers(s: State, asset: AssetId, pid: ProviderId, report: Report, m: MessageId, s': State)
    requires ProviderIdsUnique(s) && m in s.messages && Identifies(s.messages[m], asset, pid)
    requires s' == s.(messages := s.messages[m := Reported(s.messages[m], report)])
    ensures s' == Next(s, Deliver(asset, pid, Some(report))) && AnswerTo(s, Deliver(asset, pid, Some(report))) == Done
  {
    OneRowDelivered(s, asset, pid, report, m);
  }

  class Store {
    var assets: map<AssetId, Channel>
    var conversations: map<ConversationId, Conversation>
    var messages: map<MessageId, Message>
    var attempts: seq<Attempt>
    var transfers: map<TransferId, Transfer>
    ghost var sends: map<MessageId, nat>
    ghost var states: seq<State>
    ghost var steps: seq<Step>

    ghost function Now(): State
      reads this
    {
      State(assets, conversations, messages, attempts, transfers, sends)
    }

    ghost predicate Valid()
      reads this
    {
      IsRun(states, steps) && states[|steps|] == Now()
    }

    constructor (assets: map<AssetId, Channel>)
      ensures Valid() && steps == [] && this.assets == assets
    {
      this.assets := assets;
      conversations, messages, attempts, transfers := map[], map[], [], map[];
      sends := map[];
      states, steps := [State(assets, map[], map[], [], map[], map[])], [];
    }

    ghost method Record(before: State, step: Step)
      requires IsRun(states, steps) && states[|steps|] == before && Admissible(before, step)
      requires Now() == Next(before, step)
      modifies this`states, this`steps
      ensures Valid() && steps == old(steps) + [step] && states == old(states) + [Now()]
    {
      hide Next, Admissible;
      states, steps := states + [Now()], steps + [step];
    }

    method Open(c: ConversationId, asset: AssetId) returns (answer: Answer)
      requires Valid() && Admissible(Now(), Step.Open(c, asset))
      modifies this
      ensures Valid() && Now() == Next(old(Now()), Step.Open(c, asset))
      ensures steps == old(steps) + [Step.Open(c, asset)]
      ensures answer == AnswerTo(old(Now()), Step.Open(c, asset))
    {
      hide Next, IsRun, Admissible, KeysUnique, ProviderIdsUnique, TransfersOk;
      ghost var before := Now();
      answer := Refused;
      if c !in conversations && asset in assets {
        conversations := conversations[c := Conversation(asset, Active, 0, None)];
        answer := Done;
      }
      Concludes(before, Step.Open(c, asset), Now());
      Record(before, Step.Open(c, asset));
    }

    method Assign(c: ConversationId, user: Option<UserId>) returns (answer: Answer)
      requires Valid() && Admissible(Now(), Step.Assign(c, user))
      modifies this
      ensures Valid() && Now() == Next(old(Now()), Step.Assign(c, user))
      ensures steps == old(steps) + [Step.Assign(c, user)]
      ensures answer == AnswerTo(old(Now()), Step.Assign(c, user))
    {
      hide Next, IsRun, Admissible, KeysUnique, ProviderIdsUnique, TransfersOk;
      ghost var before := Now();
      answer := NotFound;
      if c in conversations {
        conversations := conversations[c := conversations[c].(assignee := user)];
        answer := Done;
      }
      Concludes(before, Step.Assign(c, user), Now());
      Record(before, Step.Assign(c, user));
    }

    method Receive(m: MessageId, c: ConversationId, pid: ProviderId) returns (answer: Answer)
      requires Valid() && Admissible(Now(), Step.Receive(m, c, pid))
      modifies this
      ensures Valid() && Now() == Next(old(Now()), Step.Receive(m, c, pid))
      ensures steps == old(steps) + [Step.Receive(m, c, pid)]
      ensures answer == AnswerTo(old(Now()), Step.Receive(m, c, pid))
    {
      hide Next, IsRun, Admissible, KeysUnique, ProviderIdsUnique, TransfersOk;
      ghost var before := Now();
      answer := NotFound;
      if c in conversations {
        var asset := conversations[c].asset;
        answer := Unchanged;
        if !(exists n | n in messages :: Identifies(messages[n], asset, pid)) {
          messages := messages[m := Message(
            c, asset, Contact, false, None, None, None, Delivered, Some(pid), [], false, None)];
          answer := Done;
        }
      }
      Concludes(before, Step.Receive(m, c, pid), Now());
      Record(before, Step.Receive(m, c, pid));
    }

    /** `create_message` for an outbound row. */
    method CreateMessage(
        m: MessageId, c: ConversationId, author: Author, stamp: Option<nat>, key: Option<Key>, body: string)
      requires c in conversations
      modifies this`messages
      ensures messages == old(messages)[m := NewMessage(old(Now()), c, author, stamp, key, body)]
    {
      var hash := if key.Some? then Some(Sha256(body)) else None;
      messages := messages[m := Message(
        c, conversations[c].asset, author, true, stamp, key, hash, Queued, None, [], false, None)];
    }

    method CreateSendIntent(actor: Actor, m: MessageId, c: ConversationId, body: string, key: Option<Key>)
        returns (answer: Answer)
      requires Valid() && Admissible(Now(), Step.SendIntent(actor, m, c, body, key))
      modifies this
      ensures Valid() && Now() == Next(old(Now()), Step.SendIntent(actor, m, c, body, key))
      ensures steps == old(steps) + [Step.SendIntent(actor, m, c, body, key)]
      ensures answer == AnswerTo(old(Now()), Step.SendIntent(actor, m, c, body, key))
    {
      hide Next, IsRun, Admissible, KeysUnique, ProviderIdsUnique, TransfersOk;
      ghost var before := Now();
      if c !in conversations {
        answer := NotFound;
      } else if actor.restricted && conversations[c].assignee != Some(actor.user) {
        answer := Denied;
      } else if key.Some? && exists n | n in messages :: Keyed(messages[n], c, key.value) {
        IndexesHold(states, steps);
        var existing :| existing in messages && Keyed(messages[existing], c, key.value);
        OneRowKeyed(before, c, key.value, body, existing);
        answer := if messages[existing].requestHash == Some(Sha256(body)) then Unchanged else Refused;
      } else {
        CreateMessage(m, c, User, None, key, body);
        answer := Done;
        Commits(before, Step.SendIntent(actor, m, c, body, key), Now());
      }
      if answer != Done { LeavesAlone(before, Step.SendIntent(actor, m, c, body, key)); }
      Record(before, Step.SendIntent(actor, m, c, body, key));
    }

    method SendOutbound(
        m: MessageId, c: ConversationId, author: Author, body: string, key: Option<Key>, stamp: Option<nat>)
        returns (answer: Answer)
      requires Valid() && Admissible(Now(), Step.SendOutbound(m, c, author, body, key, stamp))
      modifies this
      ensures Valid() && Now() == Next(old(Now()), Step.SendOutbound(m, c, author, body, key, stamp))
      ensures steps == old(steps) + [Step.SendOutbound(m, c, author, body, key, stamp)]
      ensures answer == AnswerTo(old(Now()), Step.SendOutbound(m, c, author, body, key, stamp))
    {
      hide Next, IsRun, Admissible, KeysUnique, ProviderIdsUnique, TransfersOk;
      ghost var before := Now();
      if c !in conversations {
        answer := NotFound;
      } else if key.Some? && exists n | n in messages :: Keyed(messages[n], c, key.value) {
        answer := RolledBack;
      } else {
        CreateMessage(m, c, author, stamp, key, body);
        answer := Done;
      }
      Concludes(before, Step.SendOutbound(m, c, author, body, key, stamp), Now());
      Record(before, Step.SendOutbound(m, c, author, body, key, stamp));
    }

    /** The next attempt of a message: its evidence stays numbered 1, 2, ..., n, and no other message's changes. */
    method StartAttempt(m: MessageId) returns (number: nat)
      requires Numbered(AttemptsOf(attempts, m))
      modifies this`attempts
      ensures number == |AttemptsOf(attempts, m)| == |AttemptsOf(old(attempts), m)| + 1
      ensures AttemptsOf(attempts, m) == AttemptsOf(old(attempts), m) + [Evidence(number, InFlight, None, None)]
      ensures Numbered(AttemptsOf(attempts, m))
      ensures forall n | n != m :: AttemptsOf(attempts, n) == AttemptsOf(old(attempts), n)
      ensures |attempts| == |old(attempts)| + 1 && attempts[..|old(attempts)|] == old(attempts)
      ensures attempts[|old(attempts)|] == Attempt(m, Evidence(number, InFlight, None, None))
    {
      number := MaxNumber(attempts, m) + 1;
      MaxNumberIsCount(attempts, m);
      forall n: MessageId
        ensures AttemptsOf(attempts + [Attempt(m, Evidence(number, InFlight, None, None))], n)
             == AttemptsOf(attempts, n) + (if n == m then [Evidence(number, InFlight, None, None)] else [])
      {
        AttemptsAppend(attempts, Attempt(m, Evidence(number, InFlight, None, None)), n);
      }
      attempts := attempts + [Attempt(m, Evidence(number, InFlight, None, None))];
    }

    /** Finishes the attempt that was started last. */
    method FinishAttempt(status: AttemptStatus, pid: Option<ProviderId>, error: Option<ErrorCode>) returns (e: Evidence)
      requires attempts != []
      modifies this`attempts
      ensures var last := old(attempts)[|old(attempts)| - 1];
        && e == Evidence(last.evidence.number, status, pid, error)
        && attempts == old(attempts)[..|old(attempts)| - 1] + [Attempt(last.message, e)]
    {
      var last := |attempts| - 1;
      e := attempts[last].evidence.(status := status, providerId := pid, error := error);
      attempts := attempts[last := Attempt(attempts[last].message, e)];
    }

    method DispatchQueued(m: MessageId, reply: Reply) returns (answer: Answer)
      requires Valid() && Admissible(Now(), Step.Dispatch(m, reply))
      modifies this
      ensures Valid() && Now() == Next(old(Now()), Step.Dispatch(m, reply))
      ensures steps == old(steps) + [Step.Dispatch(m, reply)]
      ensures answer == AnswerTo(old(Now()), Step.Dispatch(m, reply))
      ensures Answered(old(Now()), Step.Dispatch(m, reply), m) ==>
        && m in old(messages) && m in messages && |attempts| == |old(attempts)| + 1
        && Mirrors(old(messages)[m], messages[m], attempts[|old(attempts)|].evidence, reply)
    {
      hide Next, AnswerTo, IsRun, Admissible, Answered, Mirrors, Numbered, AttemptsOf;
      ghost var before := Now();
      EvidenceIsNumbered(states, steps, m);
      answer := DispatchRow(m, reply);
      if Answered(before, Step.Dispatch(m, reply), m) { AnsweredStep(before, Step.Dispatch(m, reply), m); }
      Record(before, Step.Dispatch(m, reply));
    }

    /** The row under its lock: the ways to stop short of the provider, and the call. */
    method DispatchRow(m: MessageId, reply: Reply) returns (answer: Answer)
      requires Numbered(AttemptsOf(attempts, m))
      modifies this`messages, this`attempts, this`sends
      ensures Now() == Next(old(Now()), Step.Dispatch(m, reply))
      ensures answer == AnswerTo(old(Now()), Step.Dispatch(m, reply))
    {
      hide Next, AnswerTo, DispatchPath, ProviderCalled, Numbered, AttemptsOf;
      ghost var before := Now();
      if m !in messages || messages[m].status != Queued {
        NothingToDispatch(before, m, reply);
        return NotFound;
      }
      DispatchWithoutProvider(before, m, reply);
      var msg := messages[m];
      answer := Done;
      if msg.conversation !in conversations || msg.asset !in assets {
        messages := messages[m := msg.(status := Failed)];
      } else {
        var c := conversations[msg.conversation];
        if msg.author == Ai && (c.aiMode != Active || (msg.stamp.Some? && msg.stamp.value != c.controlVersion)) {
          messages := messages[m := msg.(status := Cancelled, fenced := true)];
        } else if assets[msg.asset] == AdAccount {
          messages := messages[m := msg.(status := Failed)];
        } else {
          answer := CallProvider(m, reply);
        }
      }
    }

    /** Records the attempt around the provider call; `msg` is the row to be written. */
    method TryProvider(m: MessageId, reply: Reply) returns (msg: Message)
      requires m in messages && Numbered(AttemptsOf(attempts, m))
      modifies this`attempts, this`sends
      ensures var number := MaxNumber(old(attempts), m) + 1;
        && msg == AfterReply(messages[m], number, reply)
        && attempts == old(attempts) + [Attempt(m, EvidenceFor(number, reply))]
      ensures sends == old(sends)[m := Count(old(sends), m) + 1]
    {
      hide MaxNumber, AttemptsOf, Numbered;
      MaxNumberIsCount(attempts, m);
      msg := messages[m].(status := Dispatching);
      var number := StartAttempt(m);
      sends := sends[m := Count(sends, m) + 1];
      var status, pid, error := Uncertain, None, None;
      match reply {
        case Timeout =>
          msg, error := msg.(status := Unknown), Some(ProviderTimeout);
        case Raised =>
          msg, status, error := msg.(status := Failed), Rejected, Some(ProviderRejected);
        case Returned(report, id) =>
          msg := msg.(status := StatusOf(report), providerId := id);
          status, pid := if report == ReportFailed then Rejected else Accepted, id;
      }
      var e := FinishAttempt(status, pid, error);
      msg := msg.(history := msg.history + [e]);
    }

    /** The transaction around it: rolled back when a constraint refuses the answer. */
    method CallProvider(m: MessageId, reply: Reply) returns (answer: Answer)
      requires DispatchPath(Now(), m) == CallsProvider && Numbered(AttemptsOf(attempts, m))
      modifies this`messages, this`attempts, this`sends
      ensures Now() == Next(old(Now()), Step.Dispatch(m, reply))
      ensures answer == AnswerTo(old(Now()), Step.Dispatch(m, reply))
    {
      hide Next, AnswerTo, MaxNumber, AfterReply, EvidenceFor;
      ghost var before := Now();
      var oldAttempts, author, asset := attempts, messages[m].author, messages[m].asset;
      var msg := TryProvider(m, reply);
      if reply.Returned? && reply.id.Some?
         && (author == System || exists n | n in messages :: Identifies(messages[n], asset, reply.id.value)) {
        attempts := oldAttempts;
        answer := RolledBack;
      } else {
        messages := messages[m := msg];
        answer := Done;
      }
      Calls(before, m, reply, Now());
    }

    method ResolveUnknown(actor: Actor, m: MessageId, receipt: Option<ProviderId>, resend: bool, acknowledged: bool)
        returns (answer: Answer)
      requires Valid() && Admissible(Now(), Step.Resolve(actor, m, receipt, resend, acknowledged))
      modifies this
      ensures Valid() && Now() == Next(old(Now()), Step.Resolve(actor, m, receipt, resend, acknowledged))
      ensures steps == old(steps) + [Step.Resolve(actor, m, receipt, resend, acknowledged)]
      ensures answer == AnswerTo(old(Now()), Step.Resolve(actor, m, receipt, resend, acknowledged))
    {
      hide Next, IsRun, Admissible, KeysUnique, ProviderIdsUnique, TransfersOk;
      ghost var before := Now();
      if m !in messages || messages[m].conversation !in conversations {
        answer := NotFound;
      } else if actor.restricted && conversations[messages[m].conversation].assignee != Some(actor.user) {
        answer := Denied;
      } else if messages[m].status != Unknown {
        answer := Refused;
      } else if receipt.Some? {
        var msg := messages[m];
        if msg.author == System || exists n | n in messages :: Identifies(messages[n], msg.asset, receipt.value) {
          answer := RolledBack;
        } else {
          messages := messages[m := msg.(providerId := receipt, status := Sent, resolution := Some(VerifiedReceipt))];
          answer := Done;
        }
      } else if resend && acknowledged {
        messages := messages[m := messages[m].(status := Queued, resolution := Some(ExplicitResend))];
        answer := Done;
      } else {
        answer := Refused;
      }
      Concludes(before, Step.Resolve(actor, m, receipt, resend, acknowledged), Now());
      Record(before, Step.Resolve(actor, m, receipt, resend, acknowledged));
    }

    method ApplyDelivery(asset: AssetId, pid: ProviderId, report: Option<Report>) returns (answer: Answer)
      requires Valid() && Admissible(Now(), Step.Deliver(asset, pid, report))
      modifies this
      ensures Valid() && Now() == Next(old(Now()), Step.Deliver(asset, pid, report))
      ensures steps == old(steps) + [Step.Deliver(asset, pid, report)]
      ensures answer == AnswerTo(old(Now()), Step.Deliver(asset, pid, report))
    {
      hide Next, IsRun, Admissible, KeysUnique, ProviderIdsUnique, TransfersOk;
      ghost var before := Now();
      answer := NotFound;
      if exists n | n in messages :: Identifies(messages[n], asset, pid) {
        IndexesHold(states, steps);
        var m :| m in messages && Identifies(messages[m], asset, pid);
        answer := Refused;
        if report.Some? {
          var msg, status := messages[m], StatusOf(report.value);
          if report.value == ReportFailed || Rank(status) >= Rank(msg.status) {
            messages := messages[m := msg.(status := status)];
          }
          answer := Done;
          assert messages == old(messages)[m := Reported(msg, report.value)];
          Delivers(before, asset, pid, report.value, m, Now());
        }
      }
      if answer != Done { LeavesAlone(before, Step.Deliver(asset, pid, report)); }
      Record(before, Step.Deliver(asset, pid, report));
    }

    /** Switches the mode, and withdraws the queued AI messages unless the AI is (again) in charge. */
    method ChangeMode(c: ConversationId, mode: Mode)
      requires c in conversations
      modifies this`conversations, this`messages
      ensures conversations == old(conversations)[c := Moded(old(conversations)[c], mode)]
      ensures messages == if mode == Active then old(messages) else CancelAi(old(messages), c)
    {
      var v := conversations[c];
      conversations := conversations[c := v.(aiMode := mode, controlVersion := v.controlVersion + 1)];
      if mode != Active {
        messages := CancelAi(messages, c);
      }
    }

    method AcceptTransfer(t: TransferId, actor: Actor)
      requires t in transfers && transfers[t].conversation in conversations
      modifies this`conversations, this`transfers
      ensures transfers == AcceptedIn(old(transfers), t)
      ensures var c := old(transfers)[t].conversation;
        conversations == old(conversations)[c := TakenBy(old(conversations)[c], old(transfers)[t], actor)]
    {
      var row := transfers[t];
      transfers := transfers[t := row.(pending := false)];
      var v := conversations[row.conversation];
      v := v.(aiMode := Human);
      v := v.(assignee := if row.recipient.Some? then row.recipient else Some(actor.user));
      conversations := conversations[row.conversation := v.(controlVersion := v.controlVersion + 1)];
    }

    method SetConversationMode(actor: Actor, c: ConversationId, mode: Mode) returns (answer: Answer)
      requires Valid() && Admissible(Now(), Step.SetMode(actor, c, mode))
      modifies this
      ensures Valid() && Now() == Next(old(Now()), Step.SetMode(actor, c, mode))
      ensures steps == old(steps) + [Step.SetMode(actor, c, mode)]
      ensures answer == AnswerTo(old(Now()), Step.SetMode(actor, c, mode))
      ensures answer == Done ==>
        && c in conversations && conversations[c].aiMode == mode
        && conversations[c].controlVersion == old(conversations)[c].controlVersion + 1
    {
      hide Next, IsRun, Admissible, KeysUnique, ProviderIdsUnique, TransfersOk;
      ghost var before := Now();
      if mode == HandoffPending {
        answer := Refused;
      } else if c !in conversations {
        answer := NotFound;
      } else if actor.restricted && conversations[c].assignee != Some(actor.user) {
        answer := Denied;
      } else {
        ChangeMode(c, mode);
        answer := Done;
        Commits(before, Step.SetMode(actor, c, mode), Now());
      }
      if answer != Done { LeavesAlone(before, Step.SetMode(actor, c, mode)); }
      if answer == Done { SetModeLeaves(before, Step.SetMode(actor, c, mode)); }
      Record(before, Step.SetMode(actor, c, mode));
    }

    /** The human side takes over; a pending transfer is accepted along the way. */
    method TakeControl(actor: Actor, c: ConversationId)
      requires AnswerTo(Now(), Step.Takeover(actor, c)) == Done && TransfersOk(Now())
      modifies this`conversations, this`messages, this`transfers
      ensures Now() == Next(old(Now()), Step.Takeover(actor, c))
    {
      hide Next, KeysUnique, ProviderIdsUnique;
      ghost var before := Now();
      ChangeMode(c, Human);
      if exists t | t in transfers :: PendingFor(transfers[t], c) {
        var t :| t in transfers && PendingFor(transfers[t], c);
        assert HasPending(before, c) && PendingOf(before, c) == t;
        AcceptTransfer(t, actor);
      }
      Commits(before, Step.Takeover(actor, c), Now());
    }

    method TakeoverConversation(actor: Actor, c: ConversationId) returns (answer: Answer)
      requires Valid() && Admissible(Now(), Step.Takeover(actor, c))
      modifies this
      ensures Valid() && Now() == Next(old(Now()), Step.Takeover(actor, c))
      ensures steps == old(steps) + [Step.Takeover(actor, c)]
      ensures answer == AnswerTo(old(Now()), Step.Takeover(actor, c))
      ensures answer == Done ==>
        && c in conversations && conversations[c].aiMode == Human
        && forall t | WaitsFor(old(Now()), t, c) :: HandedOver(old(Now()), Now(), t, actor)
    {
      hide Next, IsRun, Admissible, KeysUnique, ProviderIdsUnique, TransfersOk;
      ghost var before := Now();
      if c !in conversations {
        answer := NotFound;
      } else if actor.restricted && conversations[c].assignee != Some(actor.user) {
        answer := Denied;
      } else {
        IndexesHold(states, steps);
        TakeControl(actor, c);
        answer := Done;
      }
      if answer != Done { LeavesAlone(before, Step.Takeover(actor, c)); }
      if answer == Done { TakeoverLeaves(before, Step.Takeover(actor, c)); }
      Record(before, Step.Takeover(actor, c));
    }

    method RequestHandoff(
        caller: Option<Actor>, c: ConversationId, trigger: TriggerId, recipient: Option<UserId>, t: TransferId)
        returns (answer: Answer)
      requires Valid() && Admissible(Now(), Step.Handoff(caller, c, trigger, recipient, t))
      modifies this
      ensures Valid() && Now() == Next(old(Now()), Step.Handoff(caller, c, trigger, recipient, t))
      ensures steps == old(steps) + [Step.Handoff(caller, c, trigger, recipient, t)]
      ensures answer == AnswerTo(old(Now()), Step.Handoff(caller, c, trigger, recipient, t))
      ensures answer == Done ==>
        && c in conversations && conversations[c].aiMode == HandoffPending
        && WaitsFor(Now(), t, c) && transfers[t].recipient == recipient
    {
      hide Next, IsRun, Admissible, KeysUnique, ProviderIdsUnique, TransfersOk;
      ghost var before := Now();
      if c !in conversations {
        answer := NotFound;
      } else if caller.Some? && caller.value.restricted && conversations[c].assignee != Some(caller.value.user) {
        answer := Denied;
      } else if (exists u | u in transfers :: transfers[u].trigger == trigger)
                || exists u | u in transfers :: PendingFor(transfers[u], c) {
        answer := Unchanged;
      } else {
        ChangeMode(c, HandoffPending);
        transfers := transfers[t := Transfer(c, trigger, recipient, true)];
        answer := Done;
        OpensTransfer(before, Step.Handoff(caller, c, trigger, recipient, t), Now());
      }
      if answer != Done { LeavesAlone(before, Step.Handoff(caller, c, trigger, recipient, t)); }
      if answer == Done { HandoffLeaves(before, Step.Handoff(caller, c, trigger, recipient, t)); }
      Record(before, Step.Handoff(caller, c, trigger, recipient, t));
    }

    method AcceptHandoff(actor: Actor, t: TransferId) returns (answer: Answer)
      requires Valid() && Admissible(Now(), Step.Accept(actor, t))
      modifies this
      ensures Valid() && Now() == Next(old(Now()), Step.Accept(actor, t))
      ensures steps == old(steps) + [Step.Accept(actor, t)]
      ensures answer == AnswerTo(old(Now()), Step.Accept(actor, t))
      ensures answer == Done ==>
        && t in old(transfers) && HandedOver(old(Now()), Now(), t, actor)
        && conversations[old(transfers)[t].conversation].aiMode == Human
    {
      hide Next, IsRun, Admissible, KeysUnique, ProviderIdsUnique, TransfersOk;
      ghost var before := Now();
      if t !in transfers {
        answer := NotFound;
      } else if !transfers[t].pending {
        answer := Unchanged;
      } else if transfers[t].conversation !in conversations {
        answer := NotFound;
      } else {
        var assignee := conversations[transfers[t].conversation].assignee;
        if actor.restricted && assignee != None && assignee != Some(actor.user) {
          answer := Denied;
        } else {
          AcceptTransfer(t, actor);
          answer := Done;
          Commits(before, Step.Accept(actor, t), Now());
        }
      }
      if answer != Done { LeavesAlone(before, Step.Accept(actor, t)); }
      if answer == Done { AcceptLeaves(before, Step.Accept(actor, t)); }
      Record(before, Step.Accept(actor, t));
    }
  }
}
