/**
 Refresh-token families: issuing a session, rotating its refresh token, replay detection, revocation, and
 validation of an access token against its session.

 Digests are injective (a constructor), ids drawn by the service are new, and a refresh string is either
 malformed or an id with a secret.
 */
module Sessions {
  import opened Common

  type UserId = nat
  type TenantId = nat
  type MembershipId = nat
  type SessionId = nat
  type TokenId = nat
  type FamilyId = nat
  type Secret = nat

  datatype Membership = Membership(user: UserId, tenant: TenantId, active: bool)

  datatype AuthSession = AuthSession(
    user: UserId,
    membership: MembershipId,
    tenant: TenantId,
    active: bool,
    expires: Time,
    revokedAt: Option<Time>)

  datatype RefreshToken = RefreshToken(
    session: SessionId,
    family: FamilyId,
    parent: Option<TokenId>,
    secretHash: Digest<Secret>,
    expires: Time,
    consumedAt: Option<Time>,
    revokedAt: Option<Time>)

  datatype RawToken = Malformed | Raw(id: TokenId, secret: Secret)

  datatype Claims = Claims(
    subject: UserId, session: Option<SessionId>, tenant: Option<TenantId>, membership: Option<MembershipId>)

  datatype State = State(
    sessions: map<SessionId, AuthSession>,
    tokens: map<TokenId, RefreshToken>,
    memberships: map<MembershipId, Membership>,
    activeUsers: set<UserId>,
    clock: Time)

  datatype Outcome = Rotated(session: SessionId, token: TokenId) | Invalid | Replay

  datatype Step =
    | Issue(user: UserId, membership: MembershipId, sid: SessionId, tid: TokenId, fid: FamilyId,
            secret: Secret, at: Time)
    | Rotate(raw: RawToken, newId: TokenId, newSecret: Secret, at: Time)
    | Revoke(sid: SessionId, user: UserId, at: Time)
    | RevokeAll(user: UserId, at: Time)
      /** Administration of users and memberships: any change at all. */
    | Administer(users: set<UserId>, members: map<MembershipId, Membership>, at: Time)

  // ---------------------------------------------------------------- one call

  /** `validate_access_session`: the joined query and the expiry test. */
  predicate Validates(s: State, claims: Claims, now: Time) {
    && claims.session.Some? && claims.tenant.Some? && claims.membership.Some?
    && claims.session.value in s.sessions
    && var a := s.sessions[claims.session.value];
    && a.user == claims.subject && a.tenant == claims.tenant.value && a.membership == claims.membership.value
    && a.active
    && a.user in s.activeUsers
    && a.membership in s.memberships
    && var m := s.memberships[a.membership];
    && m.active && m.user == a.user && m.tenant == a.tenant
    && now < a.expires
  }

  function ClaimsOf(id: SessionId, a: AuthSession): Claims {
    Claims(a.user, Some(id), Some(a.tenant), Some(a.membership))
  }

  /** The row a presented string stands for. */
  predicate Presents(s: State, raw: RawToken) {
    raw.Raw? && raw.id in s.tokens && s.tokens[raw.id].secretHash == Sha256(raw.secret)
  }

  function RotateOutcome(s: State, raw: RawToken, newId: TokenId, at: Time): Outcome {
    if !Presents(s, raw) then Invalid
    else
      var t := s.tokens[raw.id];
      if t.consumedAt.Some? then Replay
      else if t.revokedAt.Some? || t.expires <= at then Invalid
      else if t.session !in s.sessions then Invalid
      else if !Validates(s, ClaimsOf(t.session, s.sessions[t.session]), at) then Invalid
      else Rotated(t.session, newId)
  }

  function Killed(a: AuthSession, at: Time): AuthSession {
    a.(active := false, revokedAt := Some(at))
  }

  /** The bulk update of refresh tokens by family. */
  function RevokeFamily(tokens: map<TokenId, RefreshToken>, family: FamilyId, at: Time): map<TokenId, RefreshToken> {
    map t | t in tokens ::
      if tokens[t].family == family then tokens[t].(revokedAt := Some(at)) else tokens[t]
  }

  /** The bulk update of refresh tokens by session. */
  function RevokeSessions(
      tokens: map<TokenId, RefreshToken>, sids: set<SessionId>, at: Time): map<TokenId, RefreshToken>
  {
    map t | t in tokens ::
      if tokens[t].session in sids then tokens[t].(revokedAt := Some(at)) else tokens[t]
  }

  function SessionsOf(s: State, user: UserId): set<SessionId> {
    set sid | sid in s.sessions && s.sessions[sid].user == user
  }

  function Min(a: Time, b: Time): Time {
    if a < b then a else b
  }

  function Next(ttl: Time, s: State, step: Step): State
    requires Admissible(s, step)
  {
    var s := s.(clock := step.at);
    match step
    case Issue(user, membership, sid, tid, fid, secret, at) =>
      s.(sessions := s.sessions[sid :=
           AuthSession(user, membership, s.memberships[membership].tenant, true, at + ttl, None)],
         tokens := s.tokens[tid :=
           RefreshToken(sid, fid, None, Sha256(secret), at + ttl, None, None)])
    case Rotate(raw, newId, newSecret, at) =>
      (match RotateOutcome(s, raw, newId, at)
       case Invalid => s
       case Replay =>
         var t := s.tokens[raw.id];
         s.(sessions := s.sessions[t.session := Killed(s.sessions[t.session], at)],
            tokens := RevokeFamily(s.tokens, t.family, at))
       case Rotated(_, _) =>
         var t := s.tokens[raw.id];
         s.(tokens := s.tokens
              [raw.id := t.(consumedAt := Some(at))]
              [newId := RefreshToken(t.session, t.family, Some(raw.id), Sha256(newSecret),
                                     Min(s.sessions[t.session].expires, at + ttl), None, None)]))
    case Revoke(sid, user, at) =>
      if sid in s.sessions && s.sessions[sid].user == user then
        s.(sessions := s.sessions[sid := Killed(s.sessions[sid], at)],
           tokens := RevokeSessions(s.tokens, {sid}, at))
      else s
    case RevokeAll(user, at) =>
      s.(sessions := map sid | sid in s.sessions ::
           if s.sessions[sid].user == user then Killed(s.sessions[sid], at) else s.sessions[sid],
         tokens := RevokeSessions(s.tokens, SessionsOf(s, user), at))
    case Administer(users, members, at) =>
      s.(activeUsers := users, memberships := members)
  }

  /** Clocks do not run backwards, drawn ids are new, and foreign keys point at rows. */
  ghost predicate Admissible(s: State, step: Step) {
    && s.clock <= step.at
    && (step.Issue? ==>
          && step.sid !in s.sessions && step.tid !in s.tokens && step.membership in s.memberships
          && (forall t | t in s.tokens :: s.tokens[t].family != step.fid))
    && (step.Rotate? ==> step.newId !in s.tokens)
    && (forall t | t in s.tokens :: s.tokens[t].session in s.sessions)
  }

  // ---------------------------------------------------------------- the invariant

  /** `chain` lists the family from its root, each token the parent of the next, only the last unconsumed. */
  ghost predicate IsChain(s: State, family: FamilyId, chain: seq<TokenId>) {
    && chain != []
    && (forall t :: t in chain <==> t in s.tokens && s.tokens[t].family == family)
    && (forall i, j :: 0 <= i < j < |chain| ==> chain[i] != chain[j])
    && s.tokens[chain[0]].parent == None
    && (forall i, j :: 0 <= i && j == i + 1 < |chain| ==> s.tokens[chain[j]].parent == Some(chain[i]))
    && (forall i :: 0 <= i < |chain| ==> (s.tokens[chain[i]].consumedAt.Some? <==> i < |chain| - 1))
  }

  ghost predicate HasChain(s: State, family: FamilyId) {
    exists chain :: IsChain(s, family, chain)
  }

  ghost predicate FamiliesAreChains(s: State) {
    forall t | t in s.tokens :: HasChain(s, s.tokens[t].family)
  }

  ghost predicate HasToken(s: State, sid: SessionId) {
    exists t :: t in s.tokens && s.tokens[t].session == sid
  }

  /** Families and sessions name the same groups of tokens, and no session is without tokens. */
  ghost predicate FamiliesAreSessions(s: State) {
    && (forall t | t in s.tokens :: s.tokens[t].session in s.sessions)
    && (forall t, u | t in s.tokens && u in s.tokens ::
          s.tokens[t].family == s.tokens[u].family <==> s.tokens[t].session == s.tokens[u].session)
    && (forall sid | sid in s.sessions :: HasToken(s, sid))
  }

  /** A session is dead exactly when each of its tokens is revoked. */
  ghost predicate RevokedTogether(s: State) {
    forall t | t in s.tokens && s.tokens[t].session in s.sessions ::
      s.tokens[t].revokedAt.Some? <==> !s.sessions[s.tokens[t].session].active
  }

  ghost predicate ExpireTogether(ttl: Time, s: State) {
    && (forall sid | sid in s.sessions :: s.sessions[sid].expires <= s.clock + ttl)
    && (forall t | t in s.tokens && s.tokens[t].session in s.sessions ::
          s.tokens[t].expires == s.sessions[s.tokens[t].session].expires)
  }

  ghost predicate Inv(ttl: Time, s: State) {
    && FamiliesAreChains(s) && FamiliesAreSessions(s) && RevokedTogether(s) && ExpireTogether(ttl, s)
  }

  // ---------------------------------------------------------------- every step keeps it

  /** Same rows but for the revocation stamps. */
  ghost predicate SameLinks(s: State, s': State) {
    && s'.tokens.Keys == s.tokens.Keys
    && forall t | t in s.tokens ::
         && s'.tokens[t].family == s.tokens[t].family && s'.tokens[t].parent == s.tokens[t].parent
         && s'.tokens[t].session == s.tokens[t].session
         && s'.tokens[t].consumedAt == s.tokens[t].consumedAt && s'.tokens[t].expires == s.tokens[t].expires
  }

  lemma StampsKeepChains(s: State, s': State)
    requires FamiliesAreChains(s) && SameLinks(s, s')
    ensures FamiliesAreChains(s')
  {
    forall t | t in s'.tokens
      ensures HasChain(s', s'.tokens[t].family)
    {
      var chain :| IsChain(s, s.tokens[t].family, chain);
      assert IsChain(s', s'.tokens[t].family, chain);
    }
  }

  lemma IssueStartsChain(ttl: Time, s: State, step: Step)
    requires FamiliesAreChains(s) && Admissible(s, step) && step.Issue?
    ensures FamiliesAreChains(Next(ttl, s, step))
  {
    var s' := Next(ttl, s, step);
    forall t | t in s'.tokens
      ensures HasChain(s', s'.tokens[t].family)
    {
      if t == step.tid {
        assert IsChain(s', step.fid, [step.tid]);
      } else {
        var chain :| IsChain(s, s.tokens[t].family, chain);
        assert IsChain(s', s.tokens[t].family, chain);
      }
    }
  }

  /** The unconsumed token of a chain is its last: a rotation extends that chain at its end. */
  lemma RotatedChain(ttl: Time, s: State, step: Step, chain: seq<TokenId>)
    requires Admissible(s, step) && step.Rotate? && RotateOutcome(s, step.raw, step.newId, step.at).Rotated?
    requires IsChain(s, s.tokens[step.raw.id].family, chain)
    ensures IsChain(Next(ttl, s, step), s.tokens[step.raw.id].family, chain + [step.newId])
  {
    assert chain[|chain| - 1] == step.raw.id;
  }

  lemma OtherChain(ttl: Time, s: State, step: Step, family: FamilyId, chain: seq<TokenId>)
    requires Admissible(s, step) && step.Rotate? && RotateOutcome(s, step.raw, step.newId, step.at).Rotated?
    requires IsChain(s, family, chain) && family != s.tokens[step.raw.id].family
    ensures IsChain(Next(ttl, s, step), family, chain)
  {
  }

  lemma RotationExtendsChain(ttl: Time, s: State, step: Step)
    requires FamiliesAreChains(s) && Admissible(s, step)
    requires step.Rotate? && RotateOutcome(s, step.raw, step.newId, step.at).Rotated?
    ensures FamiliesAreChains(Next(ttl, s, step))
  {
    var s' := Next(ttl, s, step);
    var f := s.tokens[step.raw.id].family;
    forall t | t in s'.tokens
      ensures HasChain(s', s'.tokens[t].family)
    {
      if s'.tokens[t].family == f {
        var chain :| IsChain(s, f, chain);
        hide IsChain;
        RotatedChain(ttl, s, step, chain);
      } else {
        var chain :| IsChain(s, s.tokens[t].family, chain);
        hide IsChain;
        OtherChain(ttl, s, step, s.tokens[t].family, chain);
      }
    }
  }

  predicate Mints(s: State, step: Step) {
    step.Issue? || (step.Rotate? && RotateOutcome(s, step.raw, step.newId, step.at).Rotated?)
  }

  lemma OnlyStamps(ttl: Time, s: State, step: Step)
    requires Admissible(s, step) && !Mints(s, step)
    ensures SameLinks(s, Next(ttl, s, step)) && Next(ttl, s, step).sessions.Keys == s.sessions.Keys
  {
    if step.Rotate? && RotateOutcome(s, step.raw, step.newId, step.at).Replay? {
      assert s.tokens[step.raw.id].session in s.sessions;
    }
  }

  lemma NextKeepsChains(ttl: Time, s: State, step: Step)
    requires FamiliesAreChains(s) && Admissible(s, step)
    ensures FamiliesAreChains(Next(ttl, s, step))
  {
    if step.Issue? {
      IssueStartsChain(ttl, s, step);
    } else if Mints(s, step) {
      RotationExtendsChain(ttl, s, step);
    } else {
      OnlyStamps(ttl, s, step);
      StampsKeepChains(s, Next(ttl, s, step));
    }
  }

  lemma StampsKeepSessions(s: State, s': State)
    requires FamiliesAreSessions(s) && SameLinks(s, s') && s'.sessions.Keys == s.sessions.Keys
    ensures FamiliesAreSessions(s')
  {
    forall sid | sid in s'.sessions
      ensures HasToken(s', sid)
    {
      var t :| t in s.tokens && s.tokens[t].session == sid;
      assert t in s'.tokens && s'.tokens[t].session == sid;
    }
  }

  /** The token a step mints is new and belongs to an old family and its session, or to a new family and session. */
  lemma MintedRow(ttl: Time, s: State, step: Step) returns (t: TokenId)
    requires Admissible(s, step) && Mints(s, step)
    ensures var s' := Next(ttl, s, step);
      && t !in s.tokens && s'.tokens.Keys == s.tokens.Keys + {t}
      && (forall u | u in s.tokens ::
            s'.tokens[u].family == s.tokens[u].family && s'.tokens[u].session == s.tokens[u].session)
      && (if step.Rotate? then
            && s'.sessions == s.sessions && step.raw.Raw? && step.raw.id in s.tokens
            && s'.tokens[t].family == s.tokens[step.raw.id].family
            && s'.tokens[t].session == s.tokens[step.raw.id].session
          else
            && s'.sessions.Keys == s.sessions.Keys + {s'.tokens[t].session} && s'.tokens[t].session !in s.sessions
            && (forall u | u in s.tokens :: s.tokens[u].family != s'.tokens[t].family))
  {
    t := if step.Issue? then step.tid else step.newId;
  }

  lemma MintingKeepsSessions(ttl: Time, s: State, step: Step)
    requires FamiliesAreSessions(s) && Admissible(s, step) && Mints(s, step)
    ensures FamiliesAreSessions(Next(ttl, s, step))
  {
    hide Next, Admissible, Mints;
    var s' := Next(ttl, s, step);
    var t := MintedRow(ttl, s, step);
    forall sid | sid in s'.sessions
      ensures HasToken(s', sid)
    {
      if sid in s.sessions {
        var u :| u in s.tokens && s.tokens[u].session == sid;
        assert u in s'.tokens && s'.tokens[u].session == sid;
      } else {
        assert t in s'.tokens && s'.tokens[t].session == sid;
      }
    }
  }

  lemma NextKeepsSessions(ttl: Time, s: State, step: Step)
    requires FamiliesAreSessions(s) && Admissible(s, step)
    ensures FamiliesAreSessions(Next(ttl, s, step))
  {
    if Mints(s, step) {
      MintingKeepsSessions(ttl, s, step);
    } else {
      OnlyStamps(ttl, s, step);
      StampsKeepSessions(s, Next(ttl, s, step));
    }
  }

  lemma NextKeepsRevocation(ttl: Time, s: State, step: Step)
    requires FamiliesAreSessions(s) && RevokedTogether(s) && Admissible(s, step)
    ensures RevokedTogether(Next(ttl, s, step))
  {
  }

  lemma NextKeepsExpiry(ttl: Time, s: State, step: Step)
    requires ExpireTogether(ttl, s) && Admissible(s, step)
    ensures ExpireTogether(ttl, Next(ttl, s, step))
  {
  }

  // ---------------------------------------------------------------- runs

  ghost predicate IsRun(ttl: Time, states: seq<State>, steps: seq<Step>) {
    && |states| == |steps| + 1
    && states[0].sessions == map[] && states[0].tokens == map[]
    && (forall i :: 0 <= i < |steps| ==>
          && Admissible(states[i], steps[i])
          && states[i + 1] == Next(ttl, states[i], steps[i]))
  }

  lemma NextKeepsInv(ttl: Time, s: State, step: Step)
    requires Inv(ttl, s) && Admissible(s, step)
    ensures Inv(ttl, Next(ttl, s, step))
  {
    hide Next, FamiliesAreChains, FamiliesAreSessions, RevokedTogether, ExpireTogether;
    NextKeepsChains(ttl, s, step);
    NextKeepsSessions(ttl, s, step);
    NextKeepsRevocation(ttl, s, step);
    NextKeepsExpiry(ttl, s, step);
  }

  lemma NothingIssued(ttl: Time, s: State)
    requires s.sessions == map[] && s.tokens == map[]
    ensures Inv(ttl, s)
  {
  }

  /** In every reachable state families are single chains, one per session, revoked and expiring with it. */
  lemma {:induction false} RunKeepsInv(ttl: Time, states: seq<State>, steps: seq<Step>, i: nat)
    requires IsRun(ttl, states, steps) && i < |states|
    ensures Inv(ttl, states[i])
  {
    hide Next, Inv;
    if i == 0 {
      NothingIssued(ttl, states[0]);
    } else {
      RunKeepsInv(ttl, states, steps, i - 1);
      NextKeepsInv(ttl, states[i - 1], steps[i - 1]);
    }
  }

  predicate Rotates(s: State, step: Step, id: TokenId) {
    step.Rotate? && step.raw.Raw? && step.raw.id == id && RotateOutcome(s, step.raw, step.newId, step.at).Rotated?
  }

  lemma RowStep(ttl: Time, s: State, step: Step, t: TokenId)
    requires Admissible(s, step) && t in s.tokens
    ensures var s' := Next(ttl, s, step);
      && t in s'.tokens
      && s'.tokens[t].session == s.tokens[t].session && s'.tokens[t].family == s.tokens[t].family
      && s'.tokens[t].secretHash == s.tokens[t].secretHash
      && (s.tokens[t].consumedAt.Some? ==> s'.tokens[t].consumedAt.Some?)
  {
  }

  lemma {:induction false} RowsPersist(ttl: Time, states: seq<State>, steps: seq<Step>, i: nat, k: nat, t: TokenId)
    requires IsRun(ttl, states, steps) && i <= k < |states| && t in states[i].tokens
    ensures t in states[k].tokens
    ensures states[k].tokens[t].session == states[i].tokens[t].session
    ensures states[k].tokens[t].family == states[i].tokens[t].family
    ensures states[k].tokens[t].secretHash == states[i].tokens[t].secretHash
    ensures states[i].tokens[t].consumedAt.Some? ==> states[k].tokens[t].consumedAt.Some?
  {
    hide Next;
    if i == k {
    } else {
      RowsPersist(ttl, states, steps, i, k - 1, t);
      RowStep(ttl, states[k - 1], steps[k - 1], t);
    }
  }

  /** Of any number of rotations of one token at most one succeeds. */
  lemma RotatesAtMostOnce(ttl: Time, states: seq<State>, steps: seq<Step>, i: nat, j: nat, id: TokenId)
    requires IsRun(ttl, states, steps) && i < |steps| && j < |steps|
    requires Rotates(states[i], steps[i], id) && Rotates(states[j], steps[j], id)
    ensures i == j
  {
    if i != j {
      var a, b := if i < j then i else j, if i < j then j else i;
      assert states[a + 1] == Next(ttl, states[a], steps[a]);
      RowsPersist(ttl, states, steps, a + 1, b, id);
      assert false;
    }
  }

  /** Of all tokens of one session at most one can be redeemed at any time: the last of the chain. */
  lemma OneRedeemableToken(
      ttl: Time, states: seq<State>, steps: seq<Step>, i: nat, r: RawToken, r': RawToken, n: TokenId, now: Time)
    requires IsRun(ttl, states, steps) && i < |states|
    requires RotateOutcome(states[i], r, n, now).Rotated? && RotateOutcome(states[i], r', n, now).Rotated?
    requires states[i].tokens[r.id].session == states[i].tokens[r'.id].session
    ensures r == r'
  {
    RunKeepsInv(ttl, states, steps, i);
    var s := states[i];
    var chain :| IsChain(s, s.tokens[r.id].family, chain);
    assert r'.id in chain;
    assert chain[|chain| - 1] == r.id && chain[|chain| - 1] == r'.id;
  }

  // ---------------------------------------------------------------- revocation

  /** The three ways to end a session: a replay in its family, its logout, a revoke-all of its user. */
  predicate Kills(s: State, step: Step, sid: SessionId) {
    && sid in s.sessions
    && match step
       case Rotate(raw, newId, _, at) =>
         RotateOutcome(s, raw, newId, at).Replay? && s.tokens[raw.id].session == sid
       case Revoke(id, user, _) => id == sid && s.sessions[sid].user == user
       case RevokeAll(user, _) => s.sessions[sid].user == user
       case _ => false
  }

  /** One step ends a session exactly when it is one of the three, and then every token of it is revoked. */
  lemma StepEndsExactlyKilled(ttl: Time, s: State, step: Step, sid: SessionId)
    requires FamiliesAreSessions(s) && Admissible(s, step) && sid in s.sessions && s.sessions[sid].active
    ensures var s' := Next(ttl, s, step);
      && sid in s'.sessions
      && (!s'.sessions[sid].active <==> Kills(s, step, sid))
      && (Kills(s, step, sid) ==>
            && s'.sessions[sid].revokedAt == Some(step.at)
            && forall t | t in s'.tokens && s'.tokens[t].session == sid :: s'.tokens[t].revokedAt == Some(step.at))
  {
  }

  lemma SessionDiesExactlyWhenKilled(ttl: Time, states: seq<State>, steps: seq<Step>, i: nat, sid: SessionId)
    requires IsRun(ttl, states, steps) && i < |steps|
    requires sid in states[i].sessions && states[i].sessions[sid].active
    ensures sid in states[i + 1].sessions
    ensures !states[i + 1].sessions[sid].active <==> Kills(states[i], steps[i], sid)
    ensures Kills(states[i], steps[i], sid) ==>
      var tokens := states[i + 1].tokens;
      && states[i + 1].sessions[sid].revokedAt == Some(steps[i].at)
      && forall t | t in tokens && tokens[t].session == sid :: tokens[t].revokedAt == Some(steps[i].at)
  {
    RunKeepsInv(ttl, states, steps, i);
    StepEndsExactlyKilled(ttl, states[i], steps[i], sid);
  }

  lemma KilledIsDead(ttl: Time, s: State, step: Step, sid: SessionId)
    requires Admissible(s, step) && Kills(s, step, sid)
    ensures var s' := Next(ttl, s, step); sid in s'.sessions && !s'.sessions[sid].active
  {
  }

  lemma DeadStep(ttl: Time, s: State, step: Step, sid: SessionId)
    requires Admissible(s, step) && sid in s.sessions && !s.sessions[sid].active
    ensures var s' := Next(ttl, s, step); sid in s'.sessions && !s'.sessions[sid].active
  {
  }

  lemma {:induction false} DeadStaysDead(
      ttl: Time, states: seq<State>, steps: seq<Step>, i: nat, k: nat, sid: SessionId)
    requires IsRun(ttl, states, steps) && i <= k < |states|
    requires sid in states[i].sessions && !states[i].sessions[sid].active
    ensures sid in states[k].sessions && !states[k].sessions[sid].active
  {
    hide Next;
    if i == k {
    } else {
      DeadStaysDead(ttl, states, steps, i, k - 1, sid);
      DeadStep(ttl, states[k - 1], steps[k - 1], sid);
    }
  }

  /**
   After a replay, a logout or a revoke-all at step i: whatever steps follow, no string whatsoever rotates a
   token of that session, and no claims naming it validate.
   */
  lemma RevocationIsPermanent(
      ttl: Time, states: seq<State>, steps: seq<Step>, i: nat, k: nat, sid: SessionId,
      raw: RawToken, newId: TokenId, claims: Claims, now: Time)
    requires IsRun(ttl, states, steps) && i < k < |states|
    requires Kills(states[i], steps[i], sid)
    ensures Presents(states[k], raw) && states[k].tokens[raw.id].session == sid
      ==> !RotateOutcome(states[k], raw, newId, now).Rotated?
    ensures claims.session == Some(sid) ==> !Validates(states[k], claims, now)
  {
    KilledIsDead(ttl, states[i], steps[i], sid);
    DeadStaysDead(ttl, states, steps, i + 1, k, sid);
  }

  lemma SameRowsRevoked(s: State, t: TokenId, at: Time)
    requires FamiliesAreSessions(s) && t in s.tokens
    ensures RevokeFamily(s.tokens, s.tokens[t].family, at) == RevokeSessions(s.tokens, {s.tokens[t].session}, at)
  {
  }

  /** The bulk update by family and the bulk update by session hit the same rows. */
  lemma FamilyAndSessionRevokeTheSame(ttl: Time, states: seq<State>, steps: seq<Step>, i: nat, t: TokenId, at: Time)
    requires IsRun(ttl, states, steps) && i < |states| && t in states[i].tokens
    ensures var s := states[i];
      RevokeFamily(s.tokens, s.tokens[t].family, at) == RevokeSessions(s.tokens, {s.tokens[t].session}, at)
  {
    hide Next, FamiliesAreChains, FamiliesAreSessions;
    RunKeepsInv(ttl, states, steps, i);
    SameRowsRevoked(states[i], t, at);
  }

  /** A rejected rotation leaves every table as it was; a replay commits exactly what a logout would. */
  lemma RejectionVersusReplay(ttl: Time, states: seq<State>, steps: seq<Step>, i: nat)
    requires IsRun(ttl, states, steps) && i < |steps| && steps[i].Rotate?
    ensures var s, step := states[i], steps[i];
      match RotateOutcome(s, step.raw, step.newId, step.at)
      case Invalid => states[i + 1] == s.(clock := step.at)
      case Replay =>
        var sid := s.tokens[step.raw.id].session;
        sid in s.sessions && states[i + 1] == Next(ttl, s, Revoke(sid, s.sessions[sid].user, step.at))
      case Rotated(_, _) => true
  {
    RunKeepsInv(ttl, states, steps, i);
    assert states[i + 1] == Next(ttl, states[i], steps[i]);
    if RotateOutcome(states[i], steps[i].raw, steps[i].newId, steps[i].at).Replay? {
      FamilyAndSessionRevokeTheSame(ttl, states, steps, i, steps[i].raw.id, steps[i].at);
    }
  }

  /** Theft is detected: whoever presents a rotated token again ends the session, for both parties. */
  lemma SecondPresentationEndsSession(ttl: Time, states: seq<State>, steps: seq<Step>, i: nat, j: nat)
    requires IsRun(ttl, states, steps) && i < j < |steps|
    requires steps[i].Rotate? && steps[i].raw.Raw? && Rotates(states[i], steps[i], steps[i].raw.id)
    requires steps[j].Rotate? && steps[j].raw == steps[i].raw
    ensures RotateOutcome(states[j], steps[j].raw, steps[j].newId, steps[j].at).Replay?
    ensures Kills(states[j], steps[j], states[i].tokens[steps[i].raw.id].session)
  {
    hide FamiliesAreChains, ExpireTogether, RevokedTogether;
    var id := steps[i].raw.id;
    assert states[i + 1] == Next(ttl, states[i], steps[i]);
    hide Next;
    RowsPersist(ttl, states, steps, i + 1, j, id);
    RunKeepsInv(ttl, states, steps, j);
  }

  /** All tokens of a family stand for one user, tenant and membership, and expire exactly with their session. */
  lemma FamilySharesItsSession(
      ttl: Time, states: seq<State>, steps: seq<Step>, i: nat, t: TokenId, u: TokenId)
    requires IsRun(ttl, states, steps) && i < |states|
    requires t in states[i].tokens && u in states[i].tokens && states[i].tokens[t].family == states[i].tokens[u].family
    ensures var s := states[i];
      && s.tokens[t].session == s.tokens[u].session && s.tokens[t].session in s.sessions
      && s.tokens[t].expires == s.tokens[u].expires == s.sessions[s.tokens[t].session].expires
  {
    RunKeepsInv(ttl, states, steps, i);
  }

  /** What a logout and a revoke-all leave: the sessions meant and all their tokens are stamped, whatever they were. */
  lemma RevocationLeaves(ttl: Time, s: State, step: Step, sid: SessionId, t: TokenId)
    requires Admissible(s, step) && (step.Revoke? || step.RevokeAll?) && sid in s.sessions && t in s.tokens
    ensures sid in Next(ttl, s, step).sessions && t in Next(ttl, s, step).tokens
    ensures
      var a, b := s.sessions[sid], Next(ttl, s, step).sessions[sid];
      if a.user == step.user && (step.Revoke? ==> sid == step.sid) then
        b == a.(active := false, revokedAt := Some(step.at))
      else b == a
    ensures s.tokens[t].session == sid ==>
      var a, b := s.tokens[t], Next(ttl, s, step).tokens[t];
      if s.sessions[sid].user == step.user && (step.Revoke? ==> sid == step.sid) then
        b == a.(revokedAt := Some(step.at))
      else b == a
  {
  }

  // ---------------------------------------------------------------- when a rotation succeeds

  /** User and membership of the session are active and belong together. */
  predicate MayAct(s: State, a: AuthSession) {
    && a.user in s.activeUsers && a.membership in s.memberships
    && s.memberships[a.membership].active
    && s.memberships[a.membership].user == a.user && s.memberships[a.membership].tenant == a.tenant
  }

  /** The string fits a row that was not used yet, of a session that was not ended and has not run out. */
  predicate Redeemable(s: State, raw: RawToken, now: Time) {
    && raw.Raw? && raw.id in s.tokens
    && s.tokens[raw.id].secretHash == Sha256(raw.secret) && s.tokens[raw.id].consumedAt == None
    && s.tokens[raw.id].session in s.sessions
    && var a := s.sessions[s.tokens[raw.id].session];
    && a.active && now < a.expires && MayAct(s, a)
  }

  lemma RedeemableStep(ttl: Time, s: State, raw: RawToken, newId: TokenId, now: Time)
    requires FamiliesAreSessions(s) && RevokedTogether(s) && ExpireTogether(ttl, s)
    ensures RotateOutcome(s, raw, newId, now).Rotated? <==> Redeemable(s, raw, now)
    ensures RotateOutcome(s, raw, newId, now).Replay? <==>
      && raw.Raw? && raw.id in s.tokens
      && s.tokens[raw.id].secretHash == Sha256(raw.secret) && s.tokens[raw.id].consumedAt.Some?
  {
  }

  /** In every reachable state a redeemable string and no other is rotated, and a used one and no other a replay. */
  lemma RotatesExactlyIfRedeemable(
      ttl: Time, states: seq<State>, steps: seq<Step>, i: nat, raw: RawToken, newId: TokenId, now: Time)
    requires IsRun(ttl, states, steps) && i < |states|
    ensures
      var s := states[i];
      && (RotateOutcome(s, raw, newId, now).Rotated? <==> Redeemable(s, raw, now))
      && (RotateOutcome(s, raw, newId, now).Replay? <==>
            && raw.Raw? && raw.id in s.tokens
            && s.tokens[raw.id].secretHash == Sha256(raw.secret) && s.tokens[raw.id].consumedAt.Some?)
  {
    hide Next, Admissible, RotateOutcome, FamiliesAreChains, FamiliesAreSessions, RevokedTogether, ExpireTogether;
    RunKeepsInv(ttl, states, steps, i);
    RedeemableStep(ttl, states[i], raw, newId, now);
  }

  // ---------------------------------------------------------------- how long a session lives

  lemma SessionStep(ttl: Time, s: State, step: Step, sid: SessionId)
    requires FamiliesAreSessions(s) && Admissible(s, step) && sid in s.sessions
    ensures
      var s' := Next(ttl, s, step);
      && sid in s'.sessions
      && var a, b := s.sessions[sid], s'.sessions[sid];
      && b.user == a.user && b.membership == a.membership && b.tenant == a.tenant && b.expires == a.expires
      && (b.active <==> a.active && !Kills(s, step, sid))
  {
  }

  /** What an issued session and its first token look like. */
  lemma IssuedRows(ttl: Time, s: State, step: Step)
    requires Admissible(s, step) && step.Issue?
    ensures
      var s' := Next(ttl, s, step);
      && step.sid in s'.sessions && step.tid in s'.tokens && step.membership in s.memberships
      && s'.sessions[step.sid] == AuthSession(
           step.user, step.membership, s.memberships[step.membership].tenant, true, step.at + ttl, None)
      && s'.tokens[step.tid] == RefreshToken(step.sid, step.fid, None, Sha256(step.secret), step.at + ttl, None, None)
  {
  }

  /** The row of a session issued at step i, in every later state: only a killing step ends it. */
  lemma {:induction false} SessionRowIs(ttl: Time, states: seq<State>, steps: seq<Step>, i: nat, k: nat)
    requires IsRun(ttl, states, steps) && i < k < |states| && steps[i].Issue?
    ensures steps[i].membership in states[i].memberships && steps[i].sid in states[k].sessions
    ensures
      var a := states[k].sessions[steps[i].sid];
      && a.user == steps[i].user && a.membership == steps[i].membership
      && a.tenant == states[i].memberships[steps[i].membership].tenant && a.expires == steps[i].at + ttl
      && (a.active <==> forall m :: i < m < k ==> !Kills(states[m], steps[m], steps[i].sid))
  {
    hide Next, Kills, FamiliesAreChains, FamiliesAreSessions;
    if k == i + 1 {
      IssuedRows(ttl, states[i], steps[i]);
    } else {
      SessionRowIs(ttl, states, steps, i, k - 1);
      RunKeepsInv(ttl, states, steps, k - 1);
      SessionStep(ttl, states[k - 1], steps[k - 1], steps[i].sid);
    }
  }

  /**
   Claims naming a session issued at step i validate in a later state exactly if they are the session's, nobody
   ended it, its user and membership still stand, and less than the lifetime has passed since it was issued.
   */
  lemma ValidatesExactlyWhileAlive(
      ttl: Time, states: seq<State>, steps: seq<Step>, i: nat, k: nat, claims: Claims, now: Time)
    requires IsRun(ttl, states, steps) && i < k < |states| && steps[i].Issue?
    requires claims.session == Some(steps[i].sid)
    ensures steps[i].sid in states[k].sessions && steps[i].membership in states[i].memberships
    ensures Validates(states[k], claims, now) <==>
      && claims.subject == steps[i].user && claims.membership == Some(steps[i].membership)
      && claims.tenant == Some(states[i].memberships[steps[i].membership].tenant)
      && (forall m :: i < m < k ==> !Kills(states[m], steps[m], steps[i].sid))
      && MayAct(states[k], states[k].sessions[steps[i].sid])
      && now < steps[i].at + ttl
  {
    SessionRowIs(ttl, states, steps, i, k);
  }

  // ---------------------------------------------------------------- the returned string is good for one rotation

  /** What a successful rotation leaves of the two tokens; every other token and every session stays. */
  lemma RotationLeaves(ttl: Time, s: State, step: Step)
    requires Admissible(s, step) && step.Rotate? && RotateOutcome(s, step.raw, step.newId, step.at).Rotated?
    ensures
      var s' := Next(ttl, s, step);
      && step.raw.Raw? && step.raw.id in s.tokens && step.newId !in s.tokens && step.raw.id in s'.tokens
      && step.newId in s'.tokens && s'.tokens.Keys == s.tokens.Keys + {step.newId} && s'.sessions == s.sessions
      && (forall t | t in s.tokens && t != step.raw.id :: s'.tokens[t] == s.tokens[t])
      && var a, b := s.tokens[step.raw.id], s'.tokens[step.newId];
      && s'.tokens[step.raw.id] == a.(consumedAt := Some(step.at))
      && b.session == a.session && b.family == a.family && b.parent == Some(step.raw.id)
      && b.secretHash == Sha256(step.newSecret) && b.consumedAt == None && b.revokedAt == None
  {
  }

  /** The token a call hands out with its secret. */
  predicate HandsOut(s: State, step: Step, raw: RawToken) {
    || (step.Issue? && raw == Raw(step.tid, step.secret))
    || (step.Rotate? && raw == Raw(step.newId, step.newSecret)
        && RotateOutcome(s, step.raw, step.newId, step.at).Rotated?)
  }

  /** The string handed out stands for the row just minted: unused, and of a live session. */
  lemma HandedOutIsPresented(ttl: Time, s: State, step: Step, raw: RawToken)
    requires Admissible(s, step) && HandsOut(s, step, raw)
    ensures
      var s' := Next(ttl, s, step);
      && Presents(s', raw) && raw.id !in s.tokens && s'.tokens[raw.id].consumedAt == None
      && s'.tokens[raw.id].session in s'.sessions && s'.sessions[s'.tokens[raw.id].session].active
  {
    if step.Issue? {
      IssuedRows(ttl, s, step);
    } else {
      RotationLeaves(ttl, s, step);
    }
  }

  lemma UseStep(ttl: Time, s: State, step: Step, t: TokenId)
    requires Admissible(s, step) && t in s.tokens
    ensures t in Next(ttl, s, step).tokens
    ensures Next(ttl, s, step).tokens[t].consumedAt.Some? <==> s.tokens[t].consumedAt.Some? || Rotates(s, step, t)
  {
  }

  /** The row behind a string handed out at step i: used exactly if it was rotated, its session as it was left. */
  lemma {:induction false} HandedOutRowIs(
      ttl: Time, states: seq<State>, steps: seq<Step>, i: nat, k: nat, raw: RawToken)
    requires IsRun(ttl, states, steps) && i < k < |states| && HandsOut(states[i], steps[i], raw)
    ensures raw.Raw? && raw.id in states[i + 1].tokens && raw.id in states[k].tokens
    ensures
      var t, sid := states[k].tokens[raw.id], states[i + 1].tokens[raw.id].session;
      && t.session == sid && t.secretHash == Sha256(raw.secret) && sid in states[k].sessions
      && (t.consumedAt == None <==> forall m :: i < m < k ==> !Rotates(states[m], steps[m], raw.id))
      && (states[k].sessions[sid].active <==> forall m :: i < m < k ==> !Kills(states[m], steps[m], sid))
  {
    hide Next, Admissible, Kills, Rotates, FamiliesAreChains, FamiliesAreSessions;
    assert Admissible(states[i], steps[i]) && states[i + 1] == Next(ttl, states[i], steps[i]);
    HandedOutIsPresented(ttl, states[i], steps[i], raw);
    if k == i + 1 {
    } else {
      HandedOutRowIs(ttl, states, steps, i, k - 1, raw);
      RunKeepsInv(ttl, states, steps, k - 1);
      SessionStep(ttl, states[k - 1], steps[k - 1], states[i + 1].tokens[raw.id].session);
      RowStep(ttl, states[k - 1], steps[k - 1], raw.id);
      UseStep(ttl, states[k - 1], steps[k - 1], raw.id);
    }
  }

  /**
   Round trip: a string handed out at step i is rotated at a later step exactly if it was not rotated before,
   nobody ended the session, it has not run out, and its user and membership still stand.
   */
  lemma HandedOutRotatesExactlyOnce(
      ttl: Time, states: seq<State>, steps: seq<Step>, i: nat, j: nat, raw: RawToken)
    requires IsRun(ttl, states, steps) && i < j < |steps| && HandsOut(states[i], steps[i], raw)
    requires steps[j].Rotate? && steps[j].raw == raw
    ensures raw.id in states[j].tokens && states[j].tokens[raw.id].session in states[j].sessions
    ensures
      var sid := states[j].tokens[raw.id].session;
      var a := states[j].sessions[sid];
      RotateOutcome(states[j], raw, steps[j].newId, steps[j].at) == Rotated(sid, steps[j].newId) <==>
        && (forall m :: i < m < j ==> !Rotates(states[m], steps[m], raw.id))
        && (forall m :: i < m < j ==> !Kills(states[m], steps[m], sid))
        && steps[j].at < a.expires && MayAct(states[j], a)
  {
    HandedOutRowIs(ttl, states, steps, i, j, raw);
    hide Next, Kills, Rotates, Admissible;
    RotatesExactlyIfRedeemable(ttl, states, steps, j, raw, steps[j].newId, steps[j].at);
    OutcomeNames(states[j], raw, steps[j].newId, steps[j].at);
  }

  lemma OutcomeNames(s: State, raw: RawToken, newId: TokenId, at: Time)
    ensures
      var outcome := RotateOutcome(s, raw, newId, at);
      outcome.Rotated? ==> raw.Raw? && raw.id in s.tokens && outcome == Rotated(s.tokens[raw.id].session, newId)
  {
  }

  /** And it extends the family's chain by exactly the token it hands out, which expires with the session. */
  lemma RotationExtendsTheChainByOne(ttl: Time, states: seq<State>, steps: seq<Step>, j: nat)
    requires IsRun(ttl, states, steps) && j < |steps| && steps[j].Rotate?
    requires RotateOutcome(states[j], steps[j].raw, steps[j].newId, steps[j].at).Rotated?
    ensures steps[j].raw.Raw? && steps[j].raw.id in states[j].tokens
    ensures exists chain ::
      && IsChain(states[j], states[j].tokens[steps[j].raw.id].family, chain)
      && IsChain(states[j + 1], states[j].tokens[steps[j].raw.id].family, chain + [steps[j].newId])
    ensures
      var s' := states[j + 1];
      && steps[j].newId in s'.tokens && s'.tokens[steps[j].newId].session in s'.sessions
      && s'.tokens[steps[j].newId].expires == s'.sessions[s'.tokens[steps[j].newId].session].expires
  {
    hide Next, Admissible, IsChain, FamiliesAreSessions, RevokedTogether;
    RunKeepsInv(ttl, states, steps, j);
    RunKeepsInv(ttl, states, steps, j + 1);
    assert Admissible(states[j], steps[j]) && states[j + 1] == Next(ttl, states[j], steps[j]);
    RotationLeaves(ttl, states[j], steps[j]);
    SessionOfToken(states[j + 1], steps[j].newId);
    var family := states[j].tokens[steps[j].raw.id].family;
    assert HasChain(states[j], family);
    var chain :| IsChain(states[j], family, chain);
    RotatedChain(ttl, states[j], steps[j], chain);
  }

  lemma SessionOfToken(s: State, t: TokenId)
    requires FamiliesAreSessions(s) && t in s.tokens
    ensures s.tokens[t].session in s.sessions
  {
  }

  // ---------------------------------------------------------------- the mutable store

  class SessionStore {
    const ttl: Time
    var sessions: map<SessionId, AuthSession>
    var tokens: map<TokenId, RefreshToken>
    var memberships: map<MembershipId, Membership>
    var activeUsers: set<UserId>
    ghost var clock: Time
    ghost var states: seq<State>
    ghost var steps: seq<Step>

    ghost function Now(): State
      reads this
    {
      State(sessions, tokens, memberships, activeUsers, clock)
    }

    ghost predicate Valid()
      reads this
    {
      IsRun(ttl, states, steps) && states[|steps|] == Now()
    }

    constructor (ttl: Time, memberships: map<MembershipId, Membership>, activeUsers: set<UserId>)
      ensures Valid() && steps == [] && this.ttl == ttl
    {
      this.ttl := ttl;
      sessions, tokens := map[], map[];
      this.memberships, this.activeUsers := memberships, activeUsers;
      clock := 0;
      states, steps := [State(map[], map[], memberships, activeUsers, 0)], [];
    }

    ghost method Record(before: State, step: Step)
      requires IsRun(ttl, states, steps) && states[|steps|] == before && Admissible(before, step)
      requires State(sessions, tokens, memberships, activeUsers, step.at) == Next(ttl, before, step)
      modifies this`clock, this`states, this`steps
      ensures Valid() && Now() == Next(ttl, before, step)
      ensures steps == old(steps) + [step] && states == old(states) + [Now()]
    {
      clock := step.at;
      states, steps := states + [Now()], steps + [step];
    }

    method Issue(user: UserId, membership: MembershipId, sid: SessionId, tid: TokenId, fid: FamilyId,
                 secret: Secret, at: Time)
        returns (refresh: RawToken)
      requires Valid() && Admissible(Now(), Step.Issue(user, membership, sid, tid, fid, secret, at))
      modifies this
      ensures Valid() && Now() == Next(ttl, old(Now()), Step.Issue(user, membership, sid, tid, fid, secret, at))
      ensures steps == old(steps) + [Step.Issue(user, membership, sid, tid, fid, secret, at)]
      ensures refresh == Raw(tid, secret) && Presents(Now(), refresh)
    {
      ghost var before := Now();
      var expires := at + ttl;
      sessions := sessions[sid := AuthSession(user, membership, memberships[membership].tenant, true, expires, None)];
      tokens := tokens[tid := RefreshToken(sid, fid, None, Sha256(secret), expires, None, None)];
      refresh := Raw(tid, secret);
      Record(before, Step.Issue(user, membership, sid, tid, fid, secret, at));
    }

    method Validate(claims: Claims, now: Time) returns (found: Option<AuthSession>)
      ensures found.Some? <==> Validates(Now(), claims, now)
      ensures found.Some? ==> found.value == sessions[claims.session.value]
    {
      found := None;
      if claims.session.None? || claims.tenant.None? || claims.membership.None? {
        return;
      }
      if claims.session.value in sessions {
        var a := sessions[claims.session.value];
        if a.user == claims.subject && a.tenant == claims.tenant.value && a.membership == claims.membership.value
           && a.active && a.user in activeUsers && a.membership in memberships {
          var m := memberships[a.membership];
          if m.active && m.user == a.user && m.tenant == a.tenant && a.expires > now {
            found := Some(a);
          }
        }
      }
    }

    method Rotate(raw: RawToken, newId: TokenId, newSecret: Secret, at: Time)
        returns (outcome: Outcome, refresh: RawToken)
      requires Valid() && Admissible(Now(), Step.Rotate(raw, newId, newSecret, at))
      modifies this
      ensures Valid() && Now() == Next(ttl, old(Now()), Step.Rotate(raw, newId, newSecret, at))
      ensures steps == old(steps) + [Step.Rotate(raw, newId, newSecret, at)]
      ensures outcome == RotateOutcome(old(Now()), raw, newId, at)
      ensures refresh == if outcome.Rotated? then Raw(newId, newSecret) else Malformed
      ensures outcome.Rotated? ==> Presents(Now(), refresh)
    {
      ghost var before := Now();
      outcome, refresh := Invalid, Malformed;
      if raw.Raw? && raw.id in tokens && tokens[raw.id].secretHash == Sha256(raw.secret) {
        var t := tokens[raw.id];
        if t.consumedAt.Some? {
          outcome := Replay;
          sessions := sessions[t.session := sessions[t.session].(active := false, revokedAt := Some(at))];
          tokens := RevokeFamily(tokens, t.family, at);
        } else if t.revokedAt.None? && t.expires > at && t.session in sessions {
          var a := sessions[t.session];
          var valid := Validate(ClaimsOf(t.session, a), at);
          if valid.Some? {
            tokens := tokens[raw.id := t.(consumedAt := Some(at))];
            var replacement := RefreshToken(
              t.session, t.family, Some(raw.id), Sha256(newSecret), Min(a.expires, at + ttl), None, None);
            tokens := tokens[newId := replacement];
            outcome, refresh := Rotated(t.session, newId), Raw(newId, newSecret);
          }
        }
      }
      Record(before, Step.Rotate(raw, newId, newSecret, at));
    }

    method Revoke(sid: SessionId, user: UserId, at: Time)
      requires Valid() && Admissible(Now(), Step.Revoke(sid, user, at))
      modifies this
      ensures Valid() && Now() == Next(ttl, old(Now()), Step.Revoke(sid, user, at))
      ensures steps == old(steps) + [Step.Revoke(sid, user, at)]
    {
      ghost var before := Now();
      if sid in sessions && sessions[sid].user == user {
        sessions := sessions[sid := sessions[sid].(active := false, revokedAt := Some(at))];
        tokens := RevokeSessions(tokens, {sid}, at);
      }
      Record(before, Step.Revoke(sid, user, at));
    }

    method RevokeAll(user: UserId, at: Time)
      requires Valid() && Admissible(Now(), Step.RevokeAll(user, at))
      modifies this
      ensures Valid() && Now() == Next(ttl, old(Now()), Step.RevokeAll(user, at))
      ensures steps == old(steps) + [Step.RevokeAll(user, at)]
    {
      ghost var before := Now();
      var ids := set sid | sid in sessions && sessions[sid].user == user;
      sessions := map sid | sid in sessions :: if sid in ids then Killed(sessions[sid], at) else sessions[sid];
      tokens := RevokeSessions(tokens, ids, at);
      assert ids == SessionsOf(before, user);
      Record(before, Step.RevokeAll(user, at));
    }
  }
}
