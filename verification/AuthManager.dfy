/**
 The App-side authorizer: request, poll, claim, approve, deny and revoke over the pending and token
 maps.  Each manager call is one atomic step.  Random request ids, token ids and token texts are
 parameters that a step may only take when they are fresh; the store's lookup by nonce is a choice
 among the matching entries.  A history log records what was granted, so that whole runs can be judged.
 */
module AuthManager {
  import opened Wrappers
  import opened DebugAuth
  import opened Text

  datatype Status = Pending | Approved | Denied | Expired

  function Wire(status: Status): string
  {
    match status
    case Pending => "pending"
    case Approved => "approved"
    case Denied => "denied"
    case Expired => "expired"
  }

  datatype Request = Request(
    requestId: string,
    nonceHash: Digest,
    clientLabel: Option<string>,
    requestedMethod: Option<string>,
    path: Option<string>,
    pairingCode: string,
    createdAt: Instant,
    expiresAt: Instant,
    status: Status,
    tokenId: Option<string>,
    plaintext: Option<string>,
    claimedAt: Option<Instant>,
    deniedReason: Option<string>)

  datatype Config = Config(pendingTtl: nat, tokenTtl: nat, autoApprove: bool)

  /** The history: what the manager granted, refused and took back, in order. */
  datatype Entry =
    | Requested(requestId: string)
    | Granted(requestId: string, tokenId: string, token: string, expiresAt: Instant)
    | Turned(requestId: string)
    | Claimed(requestId: string, tokenId: string, token: string)
    | Revoked(tokenId: string)
    | RevokedAll

  datatype State = State(
    pending: map<string, Request>,
    tokens: map<string, TokenRecord>,
    log: seq<Entry>,                     // history
    mintedAt: map<string, nat>)          // history: where in the log each token was granted

  const INITIAL := State(map[], map[], [], map[])

  // ---------------------------------------------------------------- store lookups

  predicate HasHash(tokens: map<string, TokenRecord>, h: Digest)
  {
    exists id :: id in tokens && tokens[id].tokenHash == h
  }

  /** `tokenByHash`: the record with this hash; the invariant makes it unique. */
  ghost function ByHash(tokens: map<string, TokenRecord>, h: Digest): Option<TokenRecord>
  {
    if HasHash(tokens, h) then
      var id :| id in tokens && tokens[id].tokenHash == h;
      Some(tokens[id])
    else None
  }

  ghost function Decide(s: State, token: Option<string>, now: Instant): Decision
  {
    ValidateToken(token, if token.Some? then ByHash(s.tokens, TokenHash(token.value)) else None, now)
  }

  /** A legal answer of `pendingByNonceHash`: some match, or none when there is none. */
  predicate NonceLookup(s: State, h: Digest, found: Option<string>)
  {
    if found.Some? then found.value in s.pending && s.pending[found.value].nonceHash == h
    else forall id :: id in s.pending ==> s.pending[id].nonceHash != h
  }

  // ---------------------------------------------------------------- calls

  datatype Approval = Approval(ttl: Option<int>, client: Option<string>, part: string, tokenId: string)

  predicate FreshToken(s: State, a: Approval)
  {
    IsHexText(a.part) && a.tokenId !in s.tokens && !HasHash(s.tokens, TokenHash(MintedText(a.part)))
  }

  function ApproveIn(cfg: Config, s: State, requestId: string, now: Instant, a: Approval): State
    requires requestId in s.pending
  {
    var current := s.pending[requestId];
    var token := MintedText(a.part);
    var ttl := if a.ttl.Some? then a.ttl.value else cfg.tokenTtl;
    var expiresAt := now + if ttl < 1 then 1 else ttl;
    var client := if a.client.Some? then a.client else current.clientLabel;
    State(
      s.pending[requestId := current.(status := Approved, tokenId := Some(a.tokenId),
                                      plaintext := Some(token), expiresAt := expiresAt, clientLabel := client)],
      s.tokens[a.tokenId := TokenRecord(a.tokenId, TokenHash(token), now, expiresAt, None, client)],
      s.log + [Granted(requestId, a.tokenId, token, expiresAt)],
      s.mintedAt[a.tokenId := |s.log|])
  }

  predicate Approvable(s: State, requestId: string)
  {
    requestId in s.pending && s.pending[requestId].status == Pending
  }

  function DenyIn(s: State, requestId: string, reason: Option<string>): State
    requires requestId in s.pending
  {
    s.(pending := s.pending[requestId := s.pending[requestId].(status := Denied, deniedReason := reason)],
       log := s.log + [Turned(requestId)])
  }

  function MarkRevoked(r: TokenRecord, now: Instant): TokenRecord { r.(revokedAt := Some(now)) }

  function RevokeOne(s: State, tokenId: string, now: Instant): State
  {
    s.(tokens := if tokenId in s.tokens then s.tokens[tokenId := MarkRevoked(s.tokens[tokenId], now)] else s.tokens,
       log := s.log + [Revoked(tokenId)])
  }

  function RevokeAll(s: State, now: Instant): State
  {
    s.(tokens := map id | id in s.tokens :: MarkRevoked(s.tokens[id], now), log := s.log + [RevokedAll])
  }

  /** The body of `/auth/request`. */
  datatype Ask = Ask(nonce: string, client: Option<string>, requestedMethod: Option<string>, path: Option<string>)

  function Fresh(cfg: Config, ask: Ask, requestId: string, pairingCode: string, now: Instant): Request
  {
    Request(requestId, TokenHash(ask.nonce), ask.client, ask.requestedMethod, ask.path, pairingCode,
            now, now + cfg.pendingTtl, Pending, None, None, None, None)
  }

  /** The pending request a nonce is answered with: a live match, or a fresh one. */
  function Target(s: State, now: Instant, found: Option<string>, freshId: string): string
  {
    if found.Some? && found.value in s.pending && now < s.pending[found.value].expiresAt then found.value
    else freshId
  }

  function Ensure(cfg: Config, s: State, ask: Ask, now: Instant, found: Option<string>,
                  freshId: string, pairingCode: string): State
  {
    if Target(s, now, found, freshId) == freshId then
      s.(pending := s.pending[freshId := Fresh(cfg, ask, freshId, pairingCode, now)],
         log := s.log + [Requested(freshId)])
    else s
  }

  function AskFor(cfg: Config, s: State, ask: Ask, now: Instant, found: Option<string>,
                  freshId: string, pairingCode: string, auto: Approval): State
  {
    var t := Ensure(cfg, s, ask, now, found, freshId, pairingCode);
    var id := Target(s, now, found, freshId);
    if cfg.autoApprove && Approvable(t, id) then
      ApproveIn(cfg, t, id, now, auto.(ttl := None, client := t.pending[id].clientLabel))
    else t
  }

  /** What a claim answers; only Claimable hands the plaintext out. */
  datatype ClaimCase = Unknown | Late | TurnedDown | Waiting | Spent | Claimable

  function ClaimCaseOf(s: State, requestId: string, nonce: string, now: Instant): ClaimCase
  {
    if requestId !in s.pending || s.pending[requestId].nonceHash != TokenHash(nonce) then Unknown
    else
      var p := s.pending[requestId];
      if now >= p.expiresAt then Late
      else if p.status == Denied then TurnedDown
      else if p.status != Approved then Waiting
      else if p.claimedAt.Some? || p.plaintext.None? || p.tokenId.None? then Spent
      else Claimable
  }

  function Claim(s: State, requestId: string, nonce: string, now: Instant): State
  {
    if ClaimCaseOf(s, requestId, nonce, now) != Claimable then s
    else
      var p := s.pending[requestId];
      s.(pending := s.pending[requestId := p.(claimedAt := Some(now), plaintext := None)],
         log := s.log + [Claimed(requestId, p.tokenId.value, p.plaintext.value)])
  }

  function EffectiveStatus(p: Request, now: Instant): Status
  {
    if p.status == Pending && now >= p.expiresAt then Expired else p.status
  }

  datatype Call =
    | CallRequest(ask: Ask, now: Instant, found: Option<string>, freshId: string, pairingCode: string, auto: Approval)
    | CallClaim(requestId: string, nonce: string, now: Instant)
    | CallApprove(requestId: string, now: Instant, approval: Approval)
    | CallDeny(requestId: string, reason: Option<string>)
    | CallRevoke(tokenId: string, now: Instant)
    | CallRevokeAll(now: Instant)

  /** Fresh randomness, and lookups the store may answer; `approve` and `deny` throw otherwise. */
  predicate Enabled(cfg: Config, s: State, c: Call)
  {
    match c
    case CallRequest(ask, now, found, freshId, _, auto) =>
      NonceLookup(s, TokenHash(ask.nonce), found) && freshId !in s.pending && FreshToken(s, auto)
    case CallClaim(_, _, _) => true
    case CallApprove(requestId, _, approval) => Approvable(s, requestId) && FreshToken(s, approval)
    case CallDeny(requestId, _) => requestId in s.pending
    case CallRevoke(_, _) => true
    case CallRevokeAll(_) => true
  }

  function Take(cfg: Config, s: State, c: Call): State
    requires Enabled(cfg, s, c)
  {
    match c
    case CallRequest(ask, now, found, freshId, code, auto) => AskFor(cfg, s, ask, now, found, freshId, code, auto)
    case CallClaim(requestId, nonce, now) => Claim(s, requestId, nonce, now)
    case CallApprove(requestId, now, approval) => ApproveIn(cfg, s, requestId, now, approval)
    case CallDeny(requestId, reason) => DenyIn(s, requestId, reason)
    case CallRevoke(tokenId, now) => RevokeOne(s, tokenId, now)
    case CallRevokeAll(now) => RevokeAll(s, now)
  }

  function Next(cfg: Config, s: State, c: Call): State { if Enabled(cfg, s, c) then Take(cfg, s, c) else s }

  function Run(cfg: Config, calls: seq<Call>): State
  {
    if calls == [] then INITIAL else Next(cfg, Run(cfg, calls[..|calls| - 1]), calls[|calls| - 1])
  }

  // ---------------------------------------------------------------- invariant

  predicate Revokes(e: Entry, tokenId: string) { e == RevokedAll || e == Revoked(tokenId) }

  predicate RevokedAfter(log: seq<Entry>, i: nat, tokenId: string)
  {
    exists j :: i < j < |log| && Revokes(log[j], tokenId)
  }

  predicate IsGrant(log: seq<Entry>, i: nat, tokenId: string)
  {
    i < |log| && log[i].Granted? && log[i].tokenId == tokenId
  }

  /** One token record against the log entry that granted it. */
  predicate TokenMatchesLog(s: State, id: string)
    requires id in s.tokens && id in s.mintedAt
  {
    var i, r := s.mintedAt[id], s.tokens[id];
    && IsGrant(s.log, i, id)
    && r.tokenId == id && r.tokenHash == TokenHash(s.log[i].token) && r.expiresAt == s.log[i].expiresAt
    && (r.revokedAt.Some? <==> RevokedAfter(s.log, i, id))
  }

  ghost predicate HashesDistinct(tokens: map<string, TokenRecord>)
  {
    forall a, b :: a in tokens && b in tokens && tokens[a].tokenHash == tokens[b].tokenHash ==> a == b
  }

  /** Every grant in the log is the one recorded for its token id, and its text can be sent. */
  ghost predicate GrantsIndexed(s: State)
  {
    forall i :: 0 <= i < |s.log| && s.log[i].Granted? ==>
      s.log[i].tokenId in s.mintedAt && s.mintedAt[s.log[i].tokenId] == i && Sendable(s.log[i].token)
  }

  ghost predicate TokensInv(s: State)
  {
    && s.mintedAt.Keys == s.tokens.Keys
    && (forall id :: id in s.tokens ==> TokenMatchesLog(s, id))
    && GrantsIndexed(s)
    && HashesDistinct(s.tokens)
  }

  predicate ClaimedIn(log: seq<Entry>, requestId: string)
  {
    exists j :: 0 <= j < |log| && log[j].Claimed? && log[j].requestId == requestId
  }

  predicate GrantedIn(log: seq<Entry>, requestId: string)
  {
    exists j :: 0 <= j < |log| && log[j].Granted? && log[j].requestId == requestId
  }

  predicate TurnedIn(log: seq<Entry>, requestId: string)
  {
    exists j :: 0 <= j < |log| && log[j] == Turned(requestId)
  }

  predicate RequestInv(s: State, id: string)
    requires id in s.pending
  {
    var p := s.pending[id];
    && p.requestId == id && p.status != Expired
    && (p.tokenId.Some? <==> GrantedIn(s.log, id))
    && (p.status == Pending ==> p.tokenId.None?)
    && (p.status == Approved ==> p.tokenId.Some?)
    && (p.tokenId.None? ==> p.plaintext.None? && p.claimedAt.None?)
    && (p.tokenId.Some? ==>
          p.tokenId.value in s.mintedAt && IsGrant(s.log, s.mintedAt[p.tokenId.value], p.tokenId.value) &&
          var grant := s.log[s.mintedAt[p.tokenId.value]];
          grant.requestId == id && p.expiresAt == grant.expiresAt &&
          (p.plaintext == if p.claimedAt.Some? then None else Some(grant.token)))
    && (p.claimedAt.Some? <==> ClaimedIn(s.log, id))
    && (p.status == Denied <==> TurnedIn(s.log, id))
  }

  predicate GrantOf(e: Entry, requestId: string, tokenId: string, token: string)
  {
    e.Granted? && e.requestId == requestId && e.tokenId == tokenId && e.token == token
  }

  /** One log entry against the entries before it. */
  predicate EntryInv(log: seq<Entry>, i: nat)
    requires i < |log|
  {
    match log[i]
    case Requested(id) => forall j :: 0 <= j < i && NamesRequest(log[j]) ==> log[j].requestId != id
    case Granted(id, _, _, _) =>
      RequestedIn(log[..i], id) &&
      forall j :: 0 <= j < i && (log[j].Granted? || log[j].Turned?) ==> log[j].requestId != id
    case Claimed(id, tokenId, token) =>
      (exists j :: 0 <= j < i && GrantOf(log[j], id, tokenId, token)) &&
      (forall j :: 0 <= j < i && (log[j].Claimed? || log[j].Turned?) ==> log[j].requestId != id)
    case _ => true
  }

  predicate NamesRequest(e: Entry) { !e.Revoked? && !e.RevokedAll? }

  predicate RequestedIn(log: seq<Entry>, requestId: string)
  {
    exists j :: 0 <= j < |log| && log[j] == Requested(requestId)
  }

  ghost predicate PendingInv(s: State)
  {
    && (forall id :: id in s.pending ==> RequestInv(s, id) && RequestedIn(s.log, id))
    && (forall i :: 0 <= i < |s.log| && NamesRequest(s.log[i]) ==> s.log[i].requestId in s.pending)
  }

  ghost predicate LogInv(s: State) { forall i :: 0 <= i < |s.log| ==> EntryInv(s.log, i) }

  ghost predicate Inv(s: State) { TokensInv(s) && PendingInv(s) && LogInv(s) }

  lemma {:induction false} RevokedAfterGrows(log: seq<Entry>, e: Entry, i: nat, tokenId: string)
    requires i < |log|
    ensures RevokedAfter(log + [e], i, tokenId) <==> RevokedAfter(log, i, tokenId) || Revokes(e, tokenId)
  {
    var longer := log + [e];
    if RevokedAfter(log, i, tokenId) {
      var j :| i < j < |log| && Revokes(log[j], tokenId);
      assert longer[j] == log[j];
    }
    assert longer[|log|] == e;
  }

  lemma LogGrows(log: seq<Entry>, e: Entry)
    requires forall i :: 0 <= i < |log| ==> EntryInv(log, i)
    requires EntryInv(log + [e], |log|)
    ensures forall i :: 0 <= i < |log + [e]| ==> EntryInv(log + [e], i)
  {
    var longer := log + [e];
    forall i | 0 <= i < |log| ensures EntryInv(longer, i) {
      assert EntryInv(log, i);
      assert forall j :: 0 <= j <= i ==> longer[j] == log[j];
      assert longer[..i] == log[..i];
    }
  }

  /** Entries that grant nothing leave every token's story as it was, but for a revocation. */
  lemma TokensKept(s: State, t: State, e: Entry)
    requires TokensInv(s) && t.log == s.log + [e] && t.mintedAt == s.mintedAt && !e.Granted?
    requires t.tokens.Keys == s.tokens.Keys
    requires forall id :: id in s.tokens ==>
      t.tokens[id] == (if Revokes(e, id) then s.tokens[id].(revokedAt := t.tokens[id].revokedAt) else s.tokens[id])
      && (Revokes(e, id) ==> t.tokens[id].revokedAt.Some?)
    ensures TokensInv(t)
  {
    forall id | id in t.tokens ensures TokenMatchesLog(t, id) {
      assert TokenMatchesLog(s, id);
      RevokedAfterGrows(s.log, e, s.mintedAt[id], id);
    }
  }

  lemma FreshHashKeepsDistinct(tokens: map<string, TokenRecord>, id: string, r: TokenRecord)
    requires HashesDistinct(tokens) && !HasHash(tokens, r.tokenHash)
    ensures HashesDistinct(tokens[id := r])
  {
  }

  lemma GrantMatchesLog(cfg: Config, s: State, requestId: string, now: Instant, a: Approval, id: string)
    requires TokensInv(s) && requestId in s.pending && FreshToken(s, a)
    requires id in s.tokens || id == a.tokenId
    ensures var t := ApproveIn(cfg, s, requestId, now, a); TokenMatchesLog(t, id)
  {
    var t := ApproveIn(cfg, s, requestId, now, a);
    if id == a.tokenId {
      assert IsGrant(t.log, |s.log|, id);
      assert !RevokedAfter(t.log, |s.log|, id);
    } else {
      assert TokenMatchesLog(s, id);
      RevokedAfterGrows(s.log, t.log[|s.log|], s.mintedAt[id], id);
    }
  }

  lemma GrantKeepsTokens(cfg: Config, s: State, requestId: string, now: Instant, a: Approval)
    requires TokensInv(s) && requestId in s.pending && FreshToken(s, a)
    ensures TokensInv(ApproveIn(cfg, s, requestId, now, a))
  {
    var t := ApproveIn(cfg, s, requestId, now, a);
    forall id | id in t.tokens ensures TokenMatchesLog(t, id) {
      GrantMatchesLog(cfg, s, requestId, now, a, id);
    }
    BearerRoundTrip(a.part);
    FreshHashKeepsDistinct(s.tokens, a.tokenId, t.tokens[a.tokenId]);
    GrantIndexed(cfg, s, requestId, now, a);
  }

  lemma GrantIndexed(cfg: Config, s: State, requestId: string, now: Instant, a: Approval)
    requires TokensInv(s) && requestId in s.pending && FreshToken(s, a)
    ensures GrantsIndexed(ApproveIn(cfg, s, requestId, now, a))
  {
    BearerRoundTrip(a.part);
  }

  lemma LogQueriesGrow(log: seq<Entry>, e: Entry, id: string)
    ensures GrantedIn(log + [e], id) <==> GrantedIn(log, id) || (e.Granted? && e.requestId == id)
    ensures ClaimedIn(log + [e], id) <==> ClaimedIn(log, id) || (e.Claimed? && e.requestId == id)
    ensures RequestedIn(log + [e], id) <==> RequestedIn(log, id) || e == Requested(id)
    ensures TurnedIn(log + [e], id) <==> TurnedIn(log, id) || e == Turned(id)
  {
    var longer := log + [e];
    assert longer[|log|] == e;
    assert forall j :: 0 <= j < |log| ==> longer[j] == log[j];
  }

  /** A request that an entry neither grants nor claims keeps its story. */
  lemma RequestKept(s: State, t: State, e: Entry, id: string)
    requires id in s.pending && RequestInv(s, id) && id in t.pending && t.pending[id] == s.pending[id]
    requires t.log == s.log + [e] && !((e.Granted? || e.Claimed? || e.Turned?) && e.requestId == id)
    requires forall k :: k in s.mintedAt ==> k in t.mintedAt && (t.mintedAt[k] == s.mintedAt[k] || |s.log| <= s.mintedAt[k])
    ensures RequestInv(t, id)
  {
    LogQueriesGrow(s.log, e, id);
  }

  /** All requests but `touched` keep their story; what the entry names is known. */
  lemma PendingKept(s: State, t: State, e: Entry, touched: string)
    requires PendingInv(s) && t.log == s.log + [e]
    requires s.pending.Keys <= t.pending.Keys <= s.pending.Keys + {touched}
    requires forall id :: id in s.pending && id != touched ==> t.pending[id] == s.pending[id]
    requires forall k :: k in s.mintedAt ==> k in t.mintedAt && (t.mintedAt[k] == s.mintedAt[k] || |s.log| <= s.mintedAt[k])
    requires NamesRequest(e) ==> e.requestId == touched && touched in t.pending
    requires touched in t.pending ==> RequestInv(t, touched) && RequestedIn(t.log, touched)
    ensures PendingInv(t)
  {
    forall id | id in t.pending ensures RequestInv(t, id) && RequestedIn(t.log, id) {
      if id != touched {
        RequestKept(s, t, e, id);
        LogQueriesGrow(s.log, e, id);
      }
    }
  }

  lemma CreateEntry(s: State, freshId: string)
    requires PendingInv(s) && freshId !in s.pending
    ensures EntryInv(s.log + [Requested(freshId)], |s.log|)
  {
    var longer := s.log + [Requested(freshId)];
    forall j | 0 <= j < |s.log| && NamesRequest(longer[j]) ensures longer[j].requestId != freshId {
      assert NamesRequest(s.log[j]);
    }
  }

  lemma CreateRequest(cfg: Config, s: State, t: State, ask: Ask, now: Instant, freshId: string, code: string)
    requires PendingInv(s) && freshId !in s.pending
    requires t == s.(pending := s.pending[freshId := Fresh(cfg, ask, freshId, code, now)],
                     log := s.log + [Requested(freshId)])
    ensures RequestInv(t, freshId) && RequestedIn(t.log, freshId)
  {
    LogQueriesGrow(s.log, Requested(freshId), freshId);
    NeverNamed(s, freshId);
    hide GrantedIn, ClaimedIn, TurnedIn, RequestedIn, PendingInv;
  }

  lemma NeverNamed(s: State, id: string)
    requires PendingInv(s) && id !in s.pending
    ensures !GrantedIn(s.log, id) && !ClaimedIn(s.log, id) && !TurnedIn(s.log, id)
  {
  }

  lemma CreateKeepsInv(cfg: Config, s: State, ask: Ask, now: Instant, freshId: string, code: string)
    requires Inv(s) && freshId !in s.pending
    ensures Inv(s.(pending := s.pending[freshId := Fresh(cfg, ask, freshId, code, now)],
                   log := s.log + [Requested(freshId)]))
  {
    hide TokensInv, PendingInv, EntryInv, RequestInv, RequestedIn;
    var e := Requested(freshId);
    var t := s.(pending := s.pending[freshId := Fresh(cfg, ask, freshId, code, now)], log := s.log + [e]);
    TokensKept(s, t, e);
    CreateRequest(cfg, s, t, ask, now, freshId, code);
    PendingKept(s, t, e, freshId);
    CreateEntry(s, freshId);
    LogGrows(s.log, e);
  }

  lemma GrantKeepsRequest(cfg: Config, s: State, requestId: string, now: Instant, a: Approval)
    requires Inv(s) && Approvable(s, requestId) && FreshToken(s, a)
    ensures var t := ApproveIn(cfg, s, requestId, now, a); RequestInv(t, requestId) && RequestedIn(t.log, requestId)
  {
    var t := ApproveIn(cfg, s, requestId, now, a);
    LogQueriesGrow(s.log, t.log[|s.log|], requestId);
    assert RequestInv(s, requestId);
    assert IsGrant(t.log, |s.log|, a.tokenId);
  }

  lemma GrantKeepsPending(cfg: Config, s: State, requestId: string, now: Instant, a: Approval)
    requires Inv(s) && Approvable(s, requestId) && FreshToken(s, a)
    ensures PendingInv(ApproveIn(cfg, s, requestId, now, a))
  {
    var t := ApproveIn(cfg, s, requestId, now, a);
    GrantKeepsRequest(cfg, s, requestId, now, a);
    hide PendingInv, RequestInv, RequestedIn;
    PendingKept(s, t, t.log[|s.log|], requestId);
  }

  lemma GrantKeepsLog(cfg: Config, s: State, requestId: string, now: Instant, a: Approval)
    requires Inv(s) && Approvable(s, requestId)
    ensures LogInv(ApproveIn(cfg, s, requestId, now, a))
  {
    var t := ApproveIn(cfg, s, requestId, now, a);
    var n := |s.log|;
    assert RequestInv(s, requestId);
    assert t.log[..n] == s.log;
    forall j | 0 <= j < n && (t.log[j].Granted? || t.log[j].Turned?) ensures t.log[j].requestId != requestId {
      assert t.log[j] == s.log[j];
    }
    assert EntryInv(t.log, n);
    LogGrows(s.log, t.log[n]);
  }

  lemma GrantKeepsInv(cfg: Config, s: State, requestId: string, now: Instant, a: Approval)
    requires Inv(s) && Approvable(s, requestId) && FreshToken(s, a)
    ensures Inv(ApproveIn(cfg, s, requestId, now, a))
  {
    GrantKeepsTokens(cfg, s, requestId, now, a);
    GrantKeepsPending(cfg, s, requestId, now, a);
    GrantKeepsLog(cfg, s, requestId, now, a);
  }

  lemma DenyKeepsInv(s: State, requestId: string, reason: Option<string>)
    requires Inv(s) && requestId in s.pending
    ensures Inv(DenyIn(s, requestId, reason))
  {
    var t := DenyIn(s, requestId, reason);
    var e := Turned(requestId);
    TokensKept(s, t, e);
    LogQueriesGrow(s.log, e, requestId);
    assert RequestInv(s, requestId);
    PendingKept(s, t, e, requestId);
    LogGrows(s.log, e);
  }

  lemma ClaimEntry(log: seq<Entry>, i: nat, id: string, tokenId: string, token: string)
    requires i < |log| && GrantOf(log[i], id, tokenId, token) && !ClaimedIn(log, id) && !TurnedIn(log, id)
    ensures EntryInv(log + [Claimed(id, tokenId, token)], |log|)
  {
    var longer := log + [Claimed(id, tokenId, token)];
    assert GrantOf(longer[i], id, tokenId, token);
    forall j | 0 <= j < |log| && (longer[j].Claimed? || longer[j].Turned?) ensures longer[j].requestId != id {
      assert longer[j] == log[j];
    }
  }

  lemma ClaimRequest(s: State, requestId: string, nonce: string, now: Instant)
    requires PendingInv(s) && ClaimCaseOf(s, requestId, nonce, now) == Claimable
    ensures var t := Claim(s, requestId, nonce, now); RequestInv(t, requestId) && RequestedIn(t.log, requestId)
    ensures var p := s.pending[requestId];
      && p.tokenId.value in s.mintedAt && s.mintedAt[p.tokenId.value] < |s.log|
      && GrantOf(s.log[s.mintedAt[p.tokenId.value]], requestId, p.tokenId.value, p.plaintext.value)
      && !ClaimedIn(s.log, requestId) && !TurnedIn(s.log, requestId)
  {
    var t := Claim(s, requestId, nonce, now);
    assert RequestInv(s, requestId);
    LogQueriesGrow(s.log, t.log[|s.log|], requestId);
    hide GrantedIn, ClaimedIn, TurnedIn, RequestedIn, PendingInv;
    assert t.log[s.mintedAt[s.pending[requestId].tokenId.value]] == s.log[s.mintedAt[s.pending[requestId].tokenId.value]];
  }

  lemma ClaimTokens(s: State, requestId: string, nonce: string, now: Instant)
    requires TokensInv(s) && ClaimCaseOf(s, requestId, nonce, now) == Claimable
    ensures TokensInv(Claim(s, requestId, nonce, now))
  {
    var t := Claim(s, requestId, nonce, now);
    assert !Revokes(t.log[|s.log|], "");
    hide TokensInv, ClaimCaseOf;
    TokensKept(s, t, t.log[|s.log|]);
  }

  lemma ClaimPending(s: State, requestId: string, nonce: string, now: Instant)
    requires PendingInv(s) && ClaimCaseOf(s, requestId, nonce, now) == Claimable
    ensures PendingInv(Claim(s, requestId, nonce, now))
  {
    var t := Claim(s, requestId, nonce, now);
    hide PendingInv, RequestInv, RequestedIn, ClaimCaseOf, ClaimedIn, TurnedIn;
    ClaimRequest(s, requestId, nonce, now);
    PendingKept(s, t, t.log[|s.log|], requestId);
  }

  lemma ClaimLog(s: State, requestId: string, nonce: string, now: Instant)
    requires PendingInv(s) && LogInv(s) && ClaimCaseOf(s, requestId, nonce, now) == Claimable
    ensures LogInv(Claim(s, requestId, nonce, now))
  {
    var p := s.pending[requestId];
    hide PendingInv, RequestInv, RequestedIn, EntryInv, ClaimedIn, TurnedIn, GrantOf;
    ClaimRequest(s, requestId, nonce, now);
    ClaimEntry(s.log, s.mintedAt[p.tokenId.value], requestId, p.tokenId.value, p.plaintext.value);
    LogGrows(s.log, Claimed(requestId, p.tokenId.value, p.plaintext.value));
  }

  lemma ClaimKeepsInv(s: State, requestId: string, nonce: string, now: Instant)
    requires Inv(s)
    ensures Inv(Claim(s, requestId, nonce, now))
  {
    if ClaimCaseOf(s, requestId, nonce, now) == Claimable {
      hide TokensInv, PendingInv, LogInv, Claim, ClaimCaseOf;
      ClaimTokens(s, requestId, nonce, now);
      ClaimPending(s, requestId, nonce, now);
      ClaimLog(s, requestId, nonce, now);
    }
  }

  lemma RevokeKeepsInv(s: State, t: State, e: Entry)
    requires Inv(s) && (e.Revoked? || e.RevokedAll?) && t.log == s.log + [e]
    requires t.pending == s.pending && t.mintedAt == s.mintedAt && t.tokens.Keys == s.tokens.Keys
    requires forall id :: id in s.tokens ==>
      t.tokens[id] == (if Revokes(e, id) then s.tokens[id].(revokedAt := t.tokens[id].revokedAt) else s.tokens[id])
      && (Revokes(e, id) ==> t.tokens[id].revokedAt.Some?)
    ensures Inv(t)
  {
    TokensKept(s, t, e);
    forall id | id in t.pending ensures RequestInv(t, id) && RequestedIn(t.log, id) {
      RequestKept(s, t, e, id);
      LogQueriesGrow(s.log, e, id);
    }
    LogGrows(s.log, e);
  }

  lemma StepKeepsInv(cfg: Config, s: State, c: Call)
    requires Inv(s) && Enabled(cfg, s, c)
    ensures Inv(Take(cfg, s, c))
  {
    hide Inv, ApproveIn, RevokeOne, RevokeAll, DenyIn, Claim, AskFor, FreshToken, Approvable;
    match c
    case CallRequest(ask, now, found, freshId, code, auto) =>
      AskKeepsInv(cfg, s, ask, now, found, freshId, code, auto);
    case CallClaim(requestId, nonce, now) => ClaimKeepsInv(s, requestId, nonce, now);
    case CallApprove(requestId, now, approval) => GrantKeepsInv(cfg, s, requestId, now, approval);
    case CallDeny(requestId, reason) => DenyKeepsInv(s, requestId, reason);
    case CallRevoke(tokenId, now) => RevokeOneKeepsInv(s, tokenId, now);
    case CallRevokeAll(now) => RevokeAllKeepsInv(s, now);
  }

  lemma RevokeOneKeepsInv(s: State, tokenId: string, now: Instant)
    requires Inv(s)
    ensures Inv(RevokeOne(s, tokenId, now))
  {
    RevokeKeepsInv(s, RevokeOne(s, tokenId, now), Revoked(tokenId));
  }

  lemma RevokeAllKeepsInv(s: State, now: Instant)
    requires Inv(s)
    ensures Inv(RevokeAll(s, now))
  {
    RevokeKeepsInv(s, RevokeAll(s, now), RevokedAll);
  }

  lemma AskKeepsInv(cfg: Config, s: State, ask: Ask, now: Instant, found: Option<string>,
                    freshId: string, code: string, auto: Approval)
    requires Inv(s) && freshId !in s.pending && FreshToken(s, auto)
    ensures Inv(AskFor(cfg, s, ask, now, found, freshId, code, auto))
  {
    var t := Ensure(cfg, s, ask, now, found, freshId, code);
    var id := Target(s, now, found, freshId);
    CreateKeepsInv(cfg, s, ask, now, freshId, code);
    if cfg.autoApprove && Approvable(t, id) {
      GrantKeepsInv(cfg, t, id, now, auto.(ttl := None, client := t.pending[id].clientLabel));
    }
  }

  lemma {:induction false} InvAlways(cfg: Config, calls: seq<Call>)
    ensures Inv(Run(cfg, calls))
  {
    if calls != [] {
      var n := |calls| - 1;
      InvAlways(cfg, calls[..n]);
      var s := Run(cfg, calls[..n]);
      if Enabled(cfg, s, calls[n]) {
        StepKeepsInv(cfg, s, calls[n]);
      }
    }
  }

  // ---------------------------------------------------------------- whole runs

  /** The log entry at `i` granted `token`, no later entry took it back, and it has not expired. */
  ghost predicate ValidGrant(log: seq<Entry>, i: nat, token: string, now: Instant)
  {
    i < |log| && log[i].Granted? && log[i].token == token && now < log[i].expiresAt &&
    !RevokedAfter(log, i, log[i].tokenId)
  }

  /**
   Bearer validity: a token is accepted exactly when some approve granted it, nothing after that
   approve revoked it or everything, and it has not expired.
   */
  lemma {:induction false} AcceptedIffGranted(cfg: Config, calls: seq<Call>, token: string, now: Instant)
    ensures Decide(Run(cfg, calls), Some(token), now) == Authorized <==>
            exists i: nat :: ValidGrant(Run(cfg, calls).log, i, token, now)
  {
    InvAlways(cfg, calls);
    AcceptedInv(Run(cfg, calls), token, now);
  }

  lemma AcceptedInv(s: State, token: string, now: Instant)
    requires TokensInv(s)
    ensures Decide(s, Some(token), now) == Authorized <==> exists i: nat :: ValidGrant(s.log, i, token, now)
  {
    var h := TokenHash(token);
    if Decide(s, Some(token), now) == Authorized {
      var id :| id in s.tokens && s.tokens[id] == ByHash(s.tokens, h).value;
      assert TokenMatchesLog(s, id);
      assert ValidGrant(s.log, s.mintedAt[id], token, now);
    }
    if i: nat :| ValidGrant(s.log, i, token, now) {
      var id := s.log[i].tokenId;
      assert TokenMatchesLog(s, id);
      assert s.tokens[id].tokenHash == h;
      assert ByHash(s.tokens, h) == Some(s.tokens[id]);
    }
  }

  /** The token text was granted at `i` in the log. */
  predicate GrantedAt(log: seq<Entry>, i: nat, token: string)
  {
    i < |log| && log[i].Granted? && log[i].token == token
  }

  /** What the history says about a bearer token: a revocation counts before an expiry. */
  ghost predicate Judged(log: seq<Entry>, token: string, now: Instant, d: Decision)
  {
    && (IsBlank(token) ==> d == Refused(AuthorizationRequired))
    && (!IsBlank(token) && (forall i: nat :: !GrantedAt(log, i, token)) ==> d == Refused(InvalidToken))
    && (forall i: nat :: GrantedAt(log, i, token) ==>
          if RevokedAfter(log, i, log[i].tokenId) then d == Refused(TokenRevoked)
          else if now >= log[i].expiresAt then d == Refused(TokenExpired)
          else d == Authorized)
  }

  /** Every answer to a bearer token, over every run: accepted, or refused for the reason the history gives. */
  lemma {:induction false} RefusalTellsWhy(cfg: Config, calls: seq<Call>, token: string, now: Instant)
    ensures Judged(Run(cfg, calls).log, token, now, Decide(Run(cfg, calls), Some(token), now))
    ensures Decide(Run(cfg, calls), None, now) == Refused(AuthorizationRequired)
  {
    InvAlways(cfg, calls);
    var s := Run(cfg, calls);
    hide Run;
    JudgedInv(s, token, now);
  }

  lemma JudgedInv(s: State, token: string, now: Instant)
    requires TokensInv(s)
    ensures Judged(s.log, token, now, Decide(s, Some(token), now))
  {
    forall i: nat | GrantedAt(s.log, i, token)
      ensures var d := Decide(s, Some(token), now);
        !IsBlank(token) &&
        if RevokedAfter(s.log, i, s.log[i].tokenId) then d == Refused(TokenRevoked)
        else if now >= s.log[i].expiresAt then d == Refused(TokenExpired)
        else d == Authorized
    {
      JudgedGrant(s, i, token, now);
    }
    if forall i: nat :: !GrantedAt(s.log, i, token) {
      NoGrantNoRecord(s, token);
    }
    hide TokensInv, RevokedAfter, HasHash;
  }

  lemma JudgedGrant(s: State, i: nat, token: string, now: Instant)
    requires TokensInv(s) && GrantedAt(s.log, i, token)
    ensures var d := Decide(s, Some(token), now);
      !IsBlank(token) &&
      if RevokedAfter(s.log, i, s.log[i].tokenId) then d == Refused(TokenRevoked)
      else if now >= s.log[i].expiresAt then d == Refused(TokenExpired)
      else d == Authorized
  {
    GrantIsStored(s, i, token);
    assert TokenMatchesLog(s, s.log[i].tokenId);
    hide TokensInv, RevokedAfter, HasHash, IsBlank;
  }

  lemma NoGrantNoRecord(s: State, token: string)
    requires TokensInv(s) && forall i: nat :: !GrantedAt(s.log, i, token)
    ensures !HasHash(s.tokens, TokenHash(token))
  {
    if id :| id in s.tokens && s.tokens[id].tokenHash == TokenHash(token) {
      assert TokenMatchesLog(s, id);
      assert GrantedAt(s.log, s.mintedAt[id], token);
    }
  }

  lemma GrantIsStored(s: State, i: nat, token: string)
    requires TokensInv(s) && GrantedAt(s.log, i, token)
    ensures !IsBlank(token) && s.log[i].tokenId in s.tokens && s.mintedAt[s.log[i].tokenId] == i
    ensures ByHash(s.tokens, TokenHash(token)) == Some(s.tokens[s.log[i].tokenId])
  {
    var id := s.log[i].tokenId;
    assert TokenMatchesLog(s, id) && Sendable(s.log[i].token);
    assert s.tokens[id].tokenHash == TokenHash(token);
  }

  /**
   Each request hands its plaintext out at most once, only after it was approved and was not denied,
   and the digest of what it hands out is stored under the returned token id.
   */
  lemma {:induction false} ClaimedOnceAfterGrant(cfg: Config, calls: seq<Call>, i: nat)
    requires i < |Run(cfg, calls).log| && Run(cfg, calls).log[i].Claimed?
    ensures var s := Run(cfg, calls); var c := s.log[i];
      && (forall j :: 0 <= j < i && (s.log[j].Claimed? || s.log[j].Turned?) ==> s.log[j].requestId != c.requestId)
      && (exists j :: 0 <= j < i && GrantOf(s.log[j], c.requestId, c.tokenId, c.token))
      && c.tokenId in s.tokens && s.tokens[c.tokenId].tokenHash == TokenHash(c.token)
  {
    InvAlways(cfg, calls);
    var s := Run(cfg, calls);
    assert EntryInv(s.log, i);
    var c := s.log[i];
    var j :| 0 <= j < i && GrantOf(s.log[j], c.requestId, c.tokenId, c.token);
    assert TokenMatchesLog(s, c.tokenId);
  }

  /** A request is approved at most once, never after a denial, and only once it was made. */
  lemma {:induction false} GrantedOncePerRequest(cfg: Config, calls: seq<Call>, i: nat)
    requires i < |Run(cfg, calls).log| && Run(cfg, calls).log[i].Granted?
    ensures var log := Run(cfg, calls).log; var id := log[i].requestId;
      && RequestedIn(log[..i], id)
      && forall j :: 0 <= j < i && (log[j].Granted? || log[j].Turned?) ==> log[j].requestId != id
  {
    InvAlways(cfg, calls);
    assert EntryInv(Run(cfg, calls).log, i);
  }

  // ---------------------------------------------------------------- the object with its maps

  /** A value in a response body; an instant is printed as text the client can read back. */
  datatype Field = TextField(text: string) | Time(time: Instant)

  type Body = map<string, Field>

  datatype RouteResult = Ok(statusCode: nat, body: Body) | Error(statusCode: nat, code: AuthCode)

  function StatusBody(p: Request, status: Status): Body
  {
    map["requestId" := TextField(p.requestId), "pairingCode" := TextField(p.pairingCode),
        "status" := TextField(Wire(status)), "expiresAt" := Time(p.expiresAt)]
    + if p.clientLabel.Some? then map["clientLabel" := TextField(p.clientLabel.value)] else map[]
  }

  function ClaimBody(token: string, tokenId: string, expiresAt: Instant): Body
  {
    map["token" := TextField(token), "tokenId" := TextField(tokenId), "expiresAt" := Time(expiresAt),
        "status" := TextField("authorized")]
  }

  function ClaimError(c: ClaimCase): RouteResult
  {
    match c
    case Late => Error(401, TokenExpired)
    case TurnedDown => Error(403, AuthorizationDenied)
    case Waiting => Error(401, AuthorizationRequired)
    case _ => Error(401, InvalidToken)
  }

  function ClaimReply(s: State, requestId: string, nonce: string, now: Instant): RouteResult
  {
    var c := ClaimCaseOf(s, requestId, nonce, now);
    if c != Claimable then ClaimError(c)
    else
      var p := s.pending[requestId];
      var tokenId := p.tokenId.value;
      Ok(200, ClaimBody(p.plaintext.value, tokenId, if tokenId in s.tokens then s.tokens[tokenId].expiresAt else now))
  }

  function StatusReply(s: State, requestId: string, nonce: string, now: Instant): RouteResult
  {
    if requestId !in s.pending || s.pending[requestId].nonceHash != TokenHash(nonce) then Error(401, InvalidToken)
    else Ok(200, StatusBody(s.pending[requestId], EffectiveStatus(s.pending[requestId], now)))
  }

  function MatchIn(s: State, requestId: Option<string>, nonce: Option<string>): Option<Request>
  {
    if requestId.Some? && nonce.Some? && requestId.value in s.pending &&
       s.pending[requestId.value].nonceHash == TokenHash(nonce.value)
    then Some(s.pending[requestId.value]) else None
  }

  /** What a reply about a request tells, field by field, and nothing else. */
  predicate Tells(body: Body, requestId: string, pairingCode: string, status: string, expiresAt: Instant, client: Option<string>)
  {
    && "requestId" in body && body["requestId"] == TextField(requestId)
    && "pairingCode" in body && body["pairingCode"] == TextField(pairingCode)
    && "status" in body && body["status"] == TextField(status)
    && "expiresAt" in body && body["expiresAt"] == Time(expiresAt)
    && ("clientLabel" in body <==> client.Some?) && (client.Some? ==> body["clientLabel"] == TextField(client.value))
    && body.Keys <= {"requestId", "pairingCode", "status", "expiresAt", "clientLabel"}
  }

  lemma StatusBodyTells(p: Request, status: Status)
    ensures Tells(StatusBody(p, status), p.requestId, p.pairingCode, Wire(status), p.expiresAt, p.clientLabel)
  {
    var a, b, c, d, e := "requestId", "pairingCode", "status", "expiresAt", "clientLabel";
    assert a[0] == 'r' && b[0] == 'p' && c[0] == 's' && d[0] == 'e' && e[0] == 'c';
    hide Wire;
  }

  /** What the holder of the nonce is told: the decision, or that the time to decide is still running or over. */
  function StatusText(p: Request, now: Instant): string
  {
    match p.status
    case Approved => "approved"
    case Denied => "denied"
    case Expired => "expired"
    case Pending => if now < p.expiresAt then "pending" else "expired"
  }

  lemma StatusReplyTells(s: State, requestId: string, nonce: string, now: Instant)
    requires requestId in s.pending
    ensures var p := s.pending[requestId];
      var r := StatusReply(s, requestId, nonce, now);
      if p.nonceHash == TokenHash(nonce) then
        r.Ok? && r.statusCode == 200 &&
        Tells(r.body, p.requestId, p.pairingCode, StatusText(p, now), p.expiresAt, p.clientLabel)
      else r == Error(401, InvalidToken)
  {
    var p := s.pending[requestId];
    StatusBodyTells(p, EffectiveStatus(p, now));
    hide StatusBody, Tells;
  }

  /** No request of this nonce can still be claimed or decided. */
  predicate NoneLive(s: State, nonce: string, now: Instant)
  {
    forall id :: id in s.pending && s.pending[id].nonceHash == TokenHash(nonce) ==> now >= s.pending[id].expiresAt
  }

  /** A request with such a nonce opens a fresh one, to be decided until the pending time is over. */
  lemma AskOpens(cfg: Config, s: State, ask: Ask, now: Instant, found: Option<string>, freshId: string, code: string, auto: Approval)
    requires NonceLookup(s, TokenHash(ask.nonce), found) && NoneLive(s, ask.nonce, now) && freshId !in s.pending
    ensures Target(s, now, found, freshId) == freshId
    ensures !cfg.autoApprove ==>
      AskFor(cfg, s, ask, now, found, freshId, code, auto) == Opens(cfg, s, ask, freshId, code, now, now + cfg.pendingTtl)
    ensures cfg.autoApprove ==>
      var t := AskFor(cfg, s, ask, now, found, freshId, code, auto);
      && freshId in t.pending && t.pending[freshId].status == Approved && t.pending[freshId].clientLabel == ask.client
      && t.pending[freshId].expiresAt == now + (if cfg.tokenTtl == 0 then 1 else cfg.tokenTtl)
      && t.pending[freshId].plaintext == Some("dcp_" + auto.part)
  {
  }

  /** A request of a nonce whose request is live is answered with that one; nothing is opened. */
  lemma AskRepeats(cfg: Config, s: State, ask: Ask, now: Instant, id: string, freshId: string, code: string, auto: Approval)
    requires id in s.pending && now < s.pending[id].expiresAt && id != freshId
    requires !cfg.autoApprove || s.pending[id].status != Pending
    ensures Target(s, now, Some(id), freshId) == id && AskFor(cfg, s, ask, now, Some(id), freshId, code, auto) == s
  {
  }

  /** The state with one request more, of these data, undecided. */
  function Opens(cfg: Config, s: State, ask: Ask, id: string, code: string, from: Instant, until: Instant): State
  {
    s.(pending := s.pending[id := Request(id, TokenHash(ask.nonce), ask.client, ask.requestedMethod, ask.path, code,
                                          from, until, Pending, None, None, None, None)],
       log := s.log + [Requested(id)])
  }

  /** What a decision leaves as it is. */
  function Undecided(p: Request): (string, Digest, Option<string>, Option<string>, string, Instant)
  {
    (p.requestId, p.nonceHash, p.requestedMethod, p.path, p.pairingCode, p.createdAt)
  }

  predicate Decided(p: Request, status: Status, tokenId: Option<string>, plaintext: Option<string>, until: Instant, client: Option<string>)
  {
    p.status == status && p.tokenId == tokenId && p.plaintext == plaintext && p.expiresAt == until && p.clientLabel == client
  }

  /**
   What an approval changes: the request is approved with its token, the token's record is stored, and both
   expire at the same time, at least one second from now.
   */
  ghost predicate Approves(cfg: Config, s: State, t: State, id: string, now: Instant, a: Approval)
    requires id in s.pending
  {
    var until := now + (match a.ttl case Some(n) => if n >= 1 then n else 1 case None => if cfg.tokenTtl >= 1 then cfg.tokenTtl else 1);
    var client := match a.client case Some(c) => Some(c) case None => s.pending[id].clientLabel;
    && id in t.pending && t.pending == s.pending[id := t.pending[id]] && Undecided(t.pending[id]) == Undecided(s.pending[id])
    && Decided(t.pending[id], Approved, Some(a.tokenId), Some("dcp_" + a.part), until, client)
    && t.tokens == s.tokens[a.tokenId := TokenRecord(a.tokenId, TokenHash("dcp_" + a.part), now, until, None, client)]
    && t.log == s.log + [Granted(id, a.tokenId, "dcp_" + a.part, until)]
  }

  lemma ApproveInApproves(cfg: Config, s: State, id: string, now: Instant, a: Approval)
    requires id in s.pending
    ensures Approves(cfg, s, ApproveIn(cfg, s, id, now, a), id, now, a)
  {
  }

  /** The answers to a claim, in the order in which they are tried. */
  ghost predicate ClaimAnswer(s: State, requestId: Option<string>, nonce: Option<string>, now: Instant, r: RouteResult)
  {
    match (requestId, nonce)
    case (Some(id), Some(text)) =>
      if id !in s.pending || s.pending[id].nonceHash != TokenHash(text) then r == Error(401, InvalidToken)
      else
        var p := s.pending[id];
        if !(now < p.expiresAt) then r == Error(401, TokenExpired)
        else (match p.status
              case Denied => r == Error(403, AuthorizationDenied)
              case Pending => r == Error(401, AuthorizationRequired)
              case Expired => r == Error(401, AuthorizationRequired)
              case Approved =>
                if p.claimedAt.None? && p.plaintext.Some? && p.tokenId.Some? then Hands(s, p, now, r)
                else r == Error(401, InvalidToken))
    case _ => r == Error(401, InvalidToken)
  }

  /** The token is handed out, with its id and the expiry on record. */
  ghost predicate Hands(s: State, p: Request, now: Instant, r: RouteResult)
    requires p.plaintext.Some? && p.tokenId.Some?
  {
    && r.Ok? && r.statusCode == 200
    && r.body.Keys == {"token", "tokenId", "expiresAt", "status"}
    && r.body["token"] == TextField(p.plaintext.value) && r.body["tokenId"] == TextField(p.tokenId.value)
    && r.body["status"] == TextField("authorized")
    && r.body["expiresAt"] == Time(if p.tokenId.value in s.tokens then s.tokens[p.tokenId.value].expiresAt else now)
  }

  lemma ClaimReplyAnswers(s: State, requestId: string, nonce: string, now: Instant)
    ensures ClaimAnswer(s, Some(requestId), Some(nonce), now, ClaimReply(s, requestId, nonce, now))
  {
    if ClaimCaseOf(s, requestId, nonce, now) == Claimable {
      ClaimHands(s, s.pending[requestId], now);
    }
    hide Hands, ClaimBody;
  }

  lemma ClaimHands(s: State, p: Request, now: Instant)
    requires p.plaintext.Some? && p.tokenId.Some?
    ensures var tokenId := p.tokenId.value;
      Hands(s, p, now, Ok(200, ClaimBody(p.plaintext.value, tokenId, if tokenId in s.tokens then s.tokens[tokenId].expiresAt else now)))
  {
    var a, b, c, d := "token", "tokenId", "expiresAt", "status";
    assert a[0] == 't' && |a| == 5 && |b| == 7 && c[0] == 'e' && d[0] == 's';
    assert {a, b, c, d} == {"token", "tokenId", "expiresAt", "status"};
  }

  class PluginDebugAuthManager {
    const cfg: Config
    var pending: map<string, Request>
    var tokens: map<string, TokenRecord>
    var log: seq<Entry>
    var mintedAt: map<string, nat>

    function Abs(): State
      reads this
    {
      State(pending, tokens, log, mintedAt)
    }

    ghost predicate Valid()
      reads this
    {
      Inv(Abs())
    }

    constructor (cfg: Config)
      ensures this.cfg == cfg && Abs() == INITIAL && Valid()
    {
      this.cfg := cfg;
      pending, tokens, log, mintedAt := map[], map[], [], map[];
    }

    method TokenByHash(h: Digest) returns (record: Option<TokenRecord>)
      requires Valid()
      ensures record == ByHash(tokens, h)
    {
      if HasHash(tokens, h) {
        var id :| id in tokens && tokens[id].tokenHash == h;
        record := Some(tokens[id]);
      } else {
        record := None;
      }
    }

    method PendingByNonceHash(h: Digest) returns (found: Option<string>)
      ensures NonceLookup(Abs(), h, found)
    {
      if exists id :: id in pending && pending[id].nonceHash == h {
        var id :| id in pending && pending[id].nonceHash == h;
        found := Some(id);
      } else {
        found := None;
      }
    }

    /** The gate of every sensitive route. */
    method Authorize(token: Option<string>, now: Instant) returns (d: Decision)
      requires Valid()
      ensures d == Decide(Abs(), token, now)
    {
      var record: Option<TokenRecord> := None;
      if token.Some? {
        record := TokenByHash(TokenHash(token.value));
      }
      d := ValidateToken(token, record, now);
    }

    /** The body of `/auth/request`: without a nonce text it is refused and changes nothing. */
    method RequestAuthorization(body: Option<Ask>, now: Instant, freshId: string, code: string, auto: Approval)
      returns (r: RouteResult, ghost found: Option<string>)
      requires Valid() && freshId !in pending && FreshToken(Abs(), auto)
      modifies this
      ensures Valid()
      ensures body.None? ==> r == Error(401, InvalidToken) && Abs() == old(Abs())
      ensures body.Some? ==> NonceLookup(old(Abs()), TokenHash(body.value.nonce), found)
      ensures body.Some? ==> Abs() == AskFor(cfg, old(Abs()), body.value, now, found, freshId, code, auto)
      ensures body.Some? ==> Enabled(cfg, old(Abs()), CallRequest(body.value, now, found, freshId, code, auto))
      ensures body.Some? ==> var id := Target(old(Abs()), now, found, freshId);
        id in pending && r == Ok(202, StatusBody(pending[id], pending[id].status))
      ensures body.Some? && NoneLive(old(Abs()), body.value.nonce, now) && !cfg.autoApprove ==>
        && Abs() == Opens(cfg, old(Abs()), body.value, freshId, code, now, now + cfg.pendingTtl)
        && r.Ok? && r.statusCode == 202
        && Tells(r.body, freshId, code, "pending", now + cfg.pendingTtl, body.value.client)
      ensures body.Some? && found.Some? && found.value in old(pending) && now < old(pending)[found.value].expiresAt &&
              (!cfg.autoApprove || old(pending)[found.value].status != Pending) ==>
        var p := old(pending)[found.value];
        && Abs() == old(Abs()) && r.Ok? && r.statusCode == 202
        && Tells(r.body, p.requestId, p.pairingCode, Wire(p.status), p.expiresAt, p.clientLabel)
    {
      found := None;
      if body.None? {
        return Error(401, InvalidToken), None;
      }
      hide Inv;
      ghost var s := Abs();
      r, found := EnsureRequest(body.value, now, freshId, code, auto);
      if NoneLive(s, body.value.nonce, now) {
        AskOpens(cfg, s, body.value, now, found, freshId, code, auto);
        StatusBodyTells(pending[freshId], pending[freshId].status);
      }
      if found.Some? && found.value in s.pending && now < s.pending[found.value].expiresAt &&
         (!cfg.autoApprove || s.pending[found.value].status != Pending) {
        AskRepeats(cfg, s, body.value, now, found.value, freshId, code, auto);
        StatusBodyTells(s.pending[found.value], s.pending[found.value].status);
      }
      hide AskFor, StatusBody, Target, Tells;
    }

    /** Answer a live nonce again or open a request, then approve it under the auto policy. */
    method EnsureRequest(ask: Ask, now: Instant, freshId: string, code: string, auto: Approval)
      returns (r: RouteResult, ghost found: Option<string>)
      requires Valid() && freshId !in pending && FreshToken(Abs(), auto)
      modifies this
      ensures Valid() && NonceLookup(old(Abs()), TokenHash(ask.nonce), found)
      ensures Abs() == AskFor(cfg, old(Abs()), ask, now, found, freshId, code, auto)
      ensures var id := Target(old(Abs()), now, found, freshId);
        id in pending && r == Ok(202, StatusBody(pending[id], pending[id].status))
    {
      hide Inv;
      var existing := PendingByNonceHash(TokenHash(ask.nonce));
      found := existing;
      AskKeepsInv(cfg, Abs(), ask, now, found, freshId, code, auto);
      var id := freshId;
      if existing.Some? && now < pending[existing.value].expiresAt {
        id := existing.value;
      } else {
        pending := pending[freshId := Fresh(cfg, ask, freshId, code, now)];
        log := log + [Requested(freshId)];
      }
      if cfg.autoApprove && pending[id].status == Pending {
        Grant(id, now, auto.(ttl := None, client := pending[id].clientLabel));
      }
      r := Ok(202, StatusBody(pending[id], pending[id].status));
    }

    /** Mint a token for a request: the record is stored, the request carries the plaintext. */
    method Grant(requestId: string, now: Instant, a: Approval)
      requires requestId in pending && pending[requestId].status == Pending
      modifies this
      ensures Abs() == ApproveIn(cfg, old(Abs()), requestId, now, a)
    {
      var current := pending[requestId];
      var token := MintedText(a.part);
      var ttl := if a.ttl.Some? then a.ttl.value else cfg.tokenTtl;
      var expiresAt := now + if ttl < 1 then 1 else ttl;
      var client := if a.client.Some? then a.client else current.clientLabel;
      tokens := tokens[a.tokenId := TokenRecord(a.tokenId, TokenHash(token), now, expiresAt, None, client)];
      mintedAt := mintedAt[a.tokenId := |log|];
      pending := pending[requestId := current.(status := Approved, tokenId := Some(a.tokenId),
        plaintext := Some(token), expiresAt := expiresAt, clientLabel := client)];
      log := log + [Granted(requestId, a.tokenId, token, expiresAt)];
    }

    /** Host approval; false where the source throws. */
    method Approve(requestId: string, now: Instant, a: Approval) returns (ok: bool)
      requires Valid() && FreshToken(Abs(), a)
      modifies this
      ensures Valid() && ok == Approvable(old(Abs()), requestId)
      ensures ok ==> Approves(cfg, old(Abs()), Abs(), requestId, now, a)
      ensures ok <==> Enabled(cfg, old(Abs()), CallApprove(requestId, now, a))
      ensures Abs() == Next(cfg, old(Abs()), CallApprove(requestId, now, a))
    {
      ok := requestId in pending && pending[requestId].status == Pending;
      if ok {
        GrantKeepsInv(cfg, Abs(), requestId, now, a);
        ApproveInApproves(cfg, Abs(), requestId, now, a);
        hide Inv, Approves, FreshToken, ApproveIn;
        Grant(requestId, now, a);
      }
    }

    /** `matchingPending`: the request of that id, if the body names both and the nonce is its own. */
    method MatchingPending(requestId: Option<string>, nonce: Option<string>) returns (p: Option<Request>)
      ensures p == MatchIn(Abs(), requestId, nonce)
    {
      if requestId.None? || nonce.None? || requestId.value !in pending {
        return None;
      }
      var request := pending[requestId.value];
      return if request.nonceHash == TokenHash(nonce.value) then Some(request) else None;
    }

    /** `/auth/status`. */
    method AuthorizationStatus(requestId: Option<string>, nonce: Option<string>, now: Instant) returns (r: RouteResult)
      ensures r == if requestId.Some? && nonce.Some? then StatusReply(Abs(), requestId.value, nonce.value, now)
                   else Error(401, InvalidToken)
      ensures requestId.Some? && nonce.Some? && requestId.value in pending &&
              pending[requestId.value].nonceHash == TokenHash(nonce.value) ==>
        var p := pending[requestId.value];
        r.Ok? && r.statusCode == 200 &&
        Tells(r.body, p.requestId, p.pairingCode, StatusText(p, now), p.expiresAt, p.clientLabel)
    {
      if requestId.Some? && nonce.Some? && requestId.value in pending {
        StatusReplyTells(Abs(), requestId.value, nonce.value, now);
      }
      hide Tells, StatusText;
      var matching := MatchingPending(requestId, nonce);
      if matching.None? {
        return Error(401, InvalidToken);
      }
      var p := matching.value;
      r := Ok(200, StatusBody(p, EffectiveStatus(p, now)));
    }

    /** `/auth/claim`: the plaintext leaves the request as it is handed out. */
    method ClaimAuthorization(requestId: Option<string>, nonce: Option<string>, now: Instant) returns (r: RouteResult)
      requires Valid()
      modifies this
      ensures Valid()
      ensures Abs() == if requestId.Some? && nonce.Some? then Claim(old(Abs()), requestId.value, nonce.value, now)
                       else old(Abs())
      ensures requestId.Some? && nonce.Some? ==> Abs() == Next(cfg, old(Abs()), CallClaim(requestId.value, nonce.value, now))
      ensures ClaimAnswer(old(Abs()), requestId, nonce, now, r)
      ensures r.Ok? ==>
        && requestId.Some? && requestId.value in pending && pending == old(pending)[requestId.value := pending[requestId.value]]
        && pending[requestId.value].claimedAt == Some(now) && pending[requestId.value].plaintext.None?
        && pending[requestId.value].status == Approved && tokens == old(tokens)
      ensures r.Error? ==> Abs() == old(Abs())
      ensures r == if requestId.Some? && nonce.Some? then ClaimReply(old(Abs()), requestId.value, nonce.value, now)
                   else Error(401, InvalidToken)
    {
      hide Inv;
      if requestId.Some? && nonce.Some? {
        ClaimReplyAnswers(Abs(), requestId.value, nonce.value, now);
      }
      hide Hands;
      var matching := MatchingPending(requestId, nonce);
      if matching.None? {
        return Error(401, InvalidToken);
      }
      ClaimKeepsInv(Abs(), requestId.value, nonce.value, now);
      var p := matching.value;
      if now >= p.expiresAt { return Error(401, TokenExpired); }
      if p.status == Denied { return Error(403, AuthorizationDenied); }
      if p.status != Approved { return Error(401, AuthorizationRequired); }
      if p.claimedAt.Some? || p.plaintext.None? || p.tokenId.None? { return Error(401, InvalidToken); }
      pending := pending[requestId.value := p.(claimedAt := Some(now), plaintext := None)];
      log := log + [Claimed(requestId.value, p.tokenId.value, p.plaintext.value)];
      var expiresAt := if p.tokenId.value in tokens then tokens[p.tokenId.value].expiresAt else now;
      r := Ok(200, ClaimBody(p.plaintext.value, p.tokenId.value, expiresAt));
    }

    /** Host denial, whatever the request's status; false where the source throws. */
    method Deny(requestId: string, reason: Option<string>) returns (ok: bool)
      requires Valid()
      modifies this
      ensures Valid() && ok == (requestId in old(pending))
      ensures ok ==>
        && requestId in pending && pending == old(pending)[requestId := pending[requestId]]
        && Undecided(pending[requestId]) == Undecided(old(pending)[requestId])
        && pending[requestId].status == Denied && pending[requestId].deniedReason == reason
        && pending[requestId].tokenId == old(pending)[requestId].tokenId && tokens == old(tokens)
      ensures ok <==> Enabled(cfg, old(Abs()), CallDeny(requestId, reason))
      ensures Abs() == Next(cfg, old(Abs()), CallDeny(requestId, reason))
    {
      hide Inv;
      ok := requestId in pending;
      if ok {
        DenyKeepsInv(Abs(), requestId, reason);
        pending := pending[requestId := pending[requestId].(status := Denied, deniedReason := reason)];
        log := log + [Turned(requestId)];
      }
    }

    /** Host revocation of one token or of all; false where the source throws. */
    method Revoke(tokenId: Option<string>, all: bool, now: Instant) returns (ok: bool)
      requires Valid()
      modifies this
      ensures Valid() && ok == (tokenId.Some? || all)
      ensures Abs() == if all then Next(cfg, old(Abs()), CallRevokeAll(now))
                       else if tokenId.Some? then Next(cfg, old(Abs()), CallRevoke(tokenId.value, now))
                       else old(Abs())
      ensures pending == old(pending) && tokens.Keys == old(tokens).Keys
      ensures forall id :: id in old(tokens) ==>
        var was, r := old(tokens)[id], tokens[id];
        && r.tokenId == was.tokenId && r.tokenHash == was.tokenHash && r.createdAt == was.createdAt
        && r.expiresAt == was.expiresAt && r.clientLabel == was.clientLabel
        && r.revokedAt == if all || tokenId == Some(id) then Some(now) else was.revokedAt
    {
      hide Inv;
      ok := tokenId.Some? || all;
      if all {
        RevokeAllKeepsInv(Abs(), now);
        tokens := map id | id in tokens :: MarkRevoked(tokens[id], now);
        log := log + [RevokedAll];
      } else if tokenId.Some? {
        RevokeOneKeepsInv(Abs(), tokenId.value, now);
        if tokenId.value in tokens {
          tokens := tokens[tokenId.value := MarkRevoked(tokens[tokenId.value], now)];
        }
        log := log + [Revoked(tokenId.value)];
      }
    }
  }
}
