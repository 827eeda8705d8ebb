/**
 The Python side of authorization: the token provider, the request, poll, claim loop of the
 coordinator, and the protected call that retries once after it.  The client runs against the App's
 own manager object.  Before each client call the world takes a turn: the host and other clients
 call the manager, and both clocks move.  Nobody else knows this transaction's nonce.
 */
module Coordinator {
  import Text
  import opened Wrappers
  import opened DebugAuth
  import opened AuthManager

  // ---------------------------------------------------------------- the world between two calls

  /**
   What happens around one client call: the calls others make before it, the server's clock, how long
   the client's clock moves, and, when the reply is lost or comes from elsewhere, what arrives instead.
   */
  datatype Turn = Turn(host: seq<Call>, serverNow: Instant, elapsed: nat, instead: Option<RouteResult>)

  function Received(turn: Turn, reply: RouteResult): RouteResult
  {
    if turn.instead.Some? then turn.instead.value else reply
  }

  predicate Foreign(c: Call, nonce: string)
  {
    match c
    case CallRequest(ask, _, _, _, _, _) => ask.nonce != nonce
    case CallClaim(_, theirs, _) => theirs != nonce
    case _ => true
  }

  predicate AllForeign(host: seq<Call>, nonce: string)
  {
    forall k :: 0 <= k < |host| ==> Foreign(host[k], nonce)
  }

  function After(cfg: Config, s: State, host: seq<Call>): State
    decreases host
  {
    if host == [] then s else After(cfg, Next(cfg, s, host[0]), host[1..])
  }

  predicate Extends(longer: seq<Entry>, log: seq<Entry>) { log <= longer }

  /** Our request as the manager knows it: ours by nonce, known to the log, not yet claimed. */
  ghost predicate Ours(s: State, id: string, nonce: string)
  {
    Inv(s) && id in s.pending && s.pending[id].nonceHash == TokenHash(nonce) && s.pending[id].claimedAt.None?
  }

  lemma ExtendsOn(longest: seq<Entry>, longer: seq<Entry>, log: seq<Entry>)
    requires Extends(longest, longer) && Extends(longer, log)
    ensures Extends(longest, log)
  {
  }

  lemma TakeExtends(cfg: Config, s: State, c: Call)
    requires Enabled(cfg, s, c)
    ensures Extends(Take(cfg, s, c).log, s.log)
  {
    hide FreshToken, NonceLookup;
  }

  lemma NextExtends(cfg: Config, s: State, c: Call)
    requires Inv(s)
    ensures Inv(Next(cfg, s, c)) && Extends(Next(cfg, s, c).log, s.log)
  {
    hide Inv, Enabled, Take;
    if Enabled(cfg, s, c) {
      StepKeepsInv(cfg, s, c);
      TakeExtends(cfg, s, c);
    }
  }

  /** Another client's request, even one approved at once, does not touch ours. */
  lemma ForeignAskKeepsOurs(cfg: Config, s: State, ask: Ask, now: Instant, found: Option<string>,
                            freshId: string, code: string, auto: Approval, id: string, nonce: string)
    requires id in s.pending && s.pending[id].nonceHash == TokenHash(nonce) && ask.nonce != nonce
    requires NonceLookup(s, TokenHash(ask.nonce), found) && freshId !in s.pending
    ensures var t := AskFor(cfg, s, ask, now, found, freshId, code, auto);
      id in t.pending && t.pending[id] == s.pending[id]
  {
    assert Target(s, now, found, freshId) != id;
  }

  /** Request `id` keeps its nonce and stays unclaimed; once approved it can only become denied. */
  predicate Kept(s: State, t: State, id: string)
  {
    id in s.pending && id in t.pending &&
    t.pending[id].nonceHash == s.pending[id].nonceHash && t.pending[id].claimedAt == s.pending[id].claimedAt &&
    (s.pending[id].status != Pending ==> t.pending[id].status == s.pending[id].status || t.pending[id].status == Denied)
  }

  lemma ForeignClaimKeeps(s: State, theirs: string, claimed: string, now: Instant, id: string, nonce: string)
    requires id in s.pending && s.pending[id].nonceHash == TokenHash(nonce) && theirs != nonce
    ensures Kept(s, Claim(s, claimed, theirs, now), id)
  {
  }

  lemma HostCallKeeps(cfg: Config, s: State, c: Call, id: string)
    requires Enabled(cfg, s, c) && id in s.pending && !c.CallRequest? && !c.CallClaim?
    ensures Kept(s, Take(cfg, s, c), id)
  {
    hide FreshToken, NonceLookup;
  }

  /** A foreign call leaves our request ours; an approved one stays approved or becomes denied. */
  lemma ForeignKeepsOurs(cfg: Config, s: State, c: Call, id: string, nonce: string)
    requires Ours(s, id, nonce) && Foreign(c, nonce)
    ensures Ours(Next(cfg, s, c), id, nonce) && Kept(s, Next(cfg, s, c), id)
  {
    NextExtends(cfg, s, c);
    hide Inv, AskFor, NonceLookup, FreshToken, Claim, ApproveIn, RevokeOne, RevokeAll, DenyIn, Approvable;
    if Enabled(cfg, s, c) {
      match c
      case CallRequest(ask, now, found, freshId, code, auto) =>
        ForeignAskKeepsOurs(cfg, s, ask, now, found, freshId, code, auto, id, nonce);
      case CallClaim(claimed, theirs, now) => ForeignClaimKeeps(s, theirs, claimed, now, id, nonce);
      case _ => HostCallKeeps(cfg, s, c, id);
    }
  }

  lemma {:induction false} TurnKeepsOurs(cfg: Config, s: State, host: seq<Call>, id: string, nonce: string)
    requires Ours(s, id, nonce) && AllForeign(host, nonce)
    ensures Ours(After(cfg, s, host), id, nonce) && Kept(s, After(cfg, s, host), id)
    decreases host
  {
    if host != [] {
      hide Inv, Next, Foreign;
      ForeignKeepsOurs(cfg, s, host[0], id, nonce);
      TurnKeepsOurs(cfg, Next(cfg, s, host[0]), host[1..], id, nonce);
    }
  }

  lemma {:induction false} TurnKeepsInv(cfg: Config, s: State, host: seq<Call>)
    requires Inv(s)
    ensures Inv(After(cfg, s, host)) && Extends(After(cfg, s, host).log, s.log)
    decreases host
  {
    if host != [] {
      hide Inv, Next;
      NextExtends(cfg, s, host[0]);
      TurnKeepsInv(cfg, Next(cfg, s, host[0]), host[1..]);
    }
  }

  /** The world's turn, call by call on the manager object. */
  method TakeTurn(server: PluginDebugAuthManager, host: seq<Call>)
    requires server.Valid()
    modifies server
    ensures server.Valid() && server.Abs() == After(server.cfg, old(server.Abs()), host)
    ensures Extends(server.log, old(server.log))
  {
    TurnKeepsInv(server.cfg, server.Abs(), host);
    hide Inv, Next;
    for k := 0 to |host|
      invariant server.Valid()
      invariant After(server.cfg, server.Abs(), host[k..]) == After(server.cfg, old(server.Abs()), host)
    {
      assert host[k..][0] == host[k] && host[k..][1..] == host[k + 1..];
      Serve(server, host[k]);
    }
  }

  /** One call of the host or of another client; a call the manager would refuse by throwing does nothing. */
  method Serve(server: PluginDebugAuthManager, c: Call)
    requires server.Valid()
    modifies server
    ensures server.Valid() && server.Abs() == Next(server.cfg, old(server.Abs()), c)
  {
    NextExtends(server.cfg, server.Abs(), c);
    hide Inv;
    if Enabled(server.cfg, server.Abs(), c) {
      var t := Take(server.cfg, server.Abs(), c);
      server.pending, server.tokens, server.log, server.mintedAt := t.pending, t.tokens, t.log, t.mintedAt;
    }
  }

  // ---------------------------------------------------------------- token provider

  /** A row without a readable expiry counts as unexpired, so a text that is no instant is kept as none. */
  datatype Row = Row(token: string, tokenId: Option<string>, expiresAt: Option<Instant>)

  class FileTokenProvider {
    var rows: map<string, Row>

    constructor ()
      ensures rows == map[]
    {
      rows := map[];
    }

    function GetToken(device: string, now: Instant): Option<string>
      reads this
    {
      if device !in rows then None
      else if rows[device].expiresAt.Some? && rows[device].expiresAt.value <= now then None
      else Some(rows[device].token)
    }

    method SaveToken(device: string, row: Row)
      modifies this
      ensures rows == old(rows)[device := row]
    {
      rows := rows[device := row];
    }

    method ClearToken(device: string)
      modifies this
      ensures rows == old(rows) - {device}
    {
      rows := rows - {device};
    }
  }

  /** `_auth_error_code`: an error counts as one of authorization only with these statuses. */
  predicate IsAuthStatus(statusCode: nat) { statusCode == 401 || statusCode == 403 }

  /** The codes on which the client forgets its token. */
  predicate Clears(code: AuthCode) { code == InvalidToken || code == TokenExpired || code == TokenRevoked }

  /** The codes on which a protected call authorizes again. */
  predicate Reauthorizes(code: AuthCode) { code != AuthorizationDenied }

  // ---------------------------------------------------------------- authorize

  datatype Reason =
    | InvalidRequestResponse
    | InvalidStatusResponse
    | InvalidClaimResponse
    | FlowDenied
    | FlowExpired
    | FlowTimeout

  datatype Outcome =
    | TokenGranted(token: string, tokenId: string)
    | FlowError(reason: Reason)
    | AuthError(code: AuthCode)
    | HttpError(statusCode: nat)

  function OutcomeOfError(statusCode: nat, code: AuthCode): Outcome
  {
    if IsAuthStatus(statusCode) then AuthError(code) else HttpError(statusCode)
  }

  function TextOf(body: Body, key: string): Option<string>
  {
    if key in body && body[key].TextField? then Some(body[key].text) else None
  }

  function TimeOf(body: Body, key: string): Option<Instant>
  {
    if key in body && body[key].Time? then Some(body[key].time) else None
  }

  /** What one client has spent. */
  datatype Effort = Effort(requests: nat, polls: nat, claims: nat)

  lemma StatusBodyReads(p: Request, status: Status)
    ensures TextOf(StatusBody(p, status), "requestId") == Some(p.requestId)
    ensures TextOf(StatusBody(p, status), "status") == Some(Wire(status))
  {
    StatusBodyTells(p, status);
    hide StatusBody;
  }

  lemma ClaimBodyReads(token: string, tokenId: string, expiresAt: Instant)
    ensures var b := ClaimBody(token, tokenId, expiresAt);
      TextOf(b, "token") == Some(token) && TextOf(b, "tokenId") == Some(tokenId) &&
      TimeOf(b, "expiresAt") == Some(expiresAt)
  {
    var a, b, c, d := "token", "tokenId", "expiresAt", "status";
    assert a[0] == 't' && |a| == 5 && |b| == 7 && c[0] == 'e' && d[0] == 's';
  }

  lemma WireDistinct(s: Status)
    ensures Wire(s) == "approved" <==> s == Approved
    ensures Wire(s) == "denied" <==> s == Denied
    ensures Wire(s) == "expired" <==> s == Expired
    ensures Wire(s) == "pending" <==> s == Pending
  {
    var a, b, c, d := "pending", "approved", "denied", "expired";
    assert a[0] == 'p' && b[0] == 'a' && c[0] == 'd' && d[0] == 'e';
  }

  /** `int` division rounded up. */
  function CeilDiv(a: nat, b: nat): nat
    requires b > 0
  {
    (a + b - 1) / b
  }

  /** The least number of intervals that cover the time. */
  lemma CeilDivCovers(a: nat, b: nat)
    requires b > 0
    ensures CeilDiv(a, b) * b >= a && (a > 0 ==> CeilDiv(a, b) >= 1 && (CeilDiv(a, b) - 1) * b < a)
  {
    var q := CeilDiv(a, b);
    assert (a + b - 1) == q * b + (a + b - 1) % b;
    assert (q - 1) * b == q * b - b;
    assert (a + b - 1) % b < b;
  }

  lemma CeilDivAbove(a: nat, b: nat, k: nat)
    requires b > 0 && k * b < a
    ensures k + 1 <= CeilDiv(a, b)
  {
    assert (k + 1) * b <= a + b - 1;
    if CeilDiv(a, b) < k + 1 {
      MulMono(CeilDiv(a, b) + 1, k + 1, b);
    }
  }

  lemma MulMono(x: nat, y: nat, b: nat)
    requires x <= y
    ensures x * b <= y * b
  {
  }

  /** What the log shows of a transaction whose request was made at log position `from`. */
  ghost predicate Proven(log: seq<Entry>, from: nat, id: string, token: string, tokenId: string)
  {
    exists i, j :: from < i < j < |log| && GrantOf(log[i], id, tokenId, token) && log[j] == Claimed(id, tokenId, token)
  }

  /** What the request call needs of its fresh randomness, once the world has taken its turn. */
  ghost predicate Fortunate(s: State, nonce: string, freshId: string, auto: Approval)
  {
    && freshId != "" && freshId !in s.pending && FreshToken(s, auto)
    && forall id :: id in s.pending ==> s.pending[id].nonceHash != TokenHash(nonce)
  }

  /** The client's rows after a reply: an error may clear the row, a claimed token replaces it. */
  function RowsAfter(rows: map<string, Row>, device: string, r: RouteResult): map<string, Row>
  {
    match r
    case Error(status, code) => if IsAuthStatus(status) && Clears(code) then rows - {device} else rows
    case Ok(_, body) =>
      if TextOf(body, "token").None? then rows
      else rows[device := Row(TextOf(body, "token").value, TextOf(body, "tokenId"), TimeOf(body, "expiresAt"))]
  }

  function RequestIdOf(r: RouteResult): Option<string>
  {
    if r.Ok? && TextOf(r.body, "requestId").Some? && TextOf(r.body, "requestId").value != "" then TextOf(r.body, "requestId")
    else None
  }

  lemma RequestIdIff(r: RouteResult, id: string)
    ensures RequestIdOf(r) == Some(id) <==> r.Ok? && Says(r.body, "requestId", id) && id != ""
  {
  }

  lemma NoRequestIdIff(r: RouteResult)
    requires r.Ok?
    ensures RequestIdOf(r).None? <==> forall id :: Says(r.body, "requestId", id) ==> id == ""
  {
    if RequestIdOf(r).Some? {
      RequestIdIff(r, RequestIdOf(r).value);
    }
  }

  datatype Verdict = ToClaim | Again | Stop(outcome: Outcome)

  /** What the client makes of a status reply. */
  function OnStatus(r: RouteResult): Verdict
  {
    match r
    case Error(status, code) => Stop(OutcomeOfError(status, code))
    case Ok(_, body) =>
      var status := TextOf(body, "status");
      if status == Some("approved") then ToClaim
      else if status == Some("denied") then Stop(FlowError(FlowDenied))
      else if status == Some("expired") then Stop(FlowError(FlowExpired))
      else if status == Some("pending") then Again
      else Stop(FlowError(InvalidStatusResponse))
  }

  /** A status reply that came in place of the App's decided this turn, like any other. */
  predicate Heeded(turn: Turn, v: Verdict) { turn.instead.Some? ==> v == OnStatus(turn.instead.value) }

  /** What the client makes of a claim reply. */
  function OnClaim(r: RouteResult): Outcome
  {
    match r
    case Error(status, code) => OutcomeOfError(status, code)
    case Ok(_, body) =>
      var token := TextOf(body, "token");
      if token.None? || token.value == "" then FlowError(InvalidClaimResponse)
      else TokenGranted(token.value, if TextOf(body, "tokenId").Some? then TextOf(body, "tokenId").value else "")
  }

  /** The text the body holds under a key, if it is a text. */
  predicate Says(body: Body, key: string, text: string) { key in body && body[key] == TextField(text) }

  /** What the client makes of any reply to a poll, wherever it comes from. */
  lemma StatusVerdicts(r: RouteResult)
    ensures r.Error? && r.statusCode in {401, 403} ==> OnStatus(r) == Stop(AuthError(r.code))
    ensures r.Error? && r.statusCode !in {401, 403} ==> OnStatus(r) == Stop(HttpError(r.statusCode))
    ensures r.Ok? ==> (OnStatus(r) == ToClaim <==> Says(r.body, "status", "approved"))
    ensures r.Ok? ==> (OnStatus(r) == Again <==> Says(r.body, "status", "pending"))
    ensures r.Ok? ==> (OnStatus(r) == Stop(FlowError(FlowDenied)) <==> Says(r.body, "status", "denied"))
    ensures r.Ok? ==> (OnStatus(r) == Stop(FlowError(FlowExpired)) <==> Says(r.body, "status", "expired"))
    ensures r.Ok? && (forall t :: t in {"approved", "pending", "denied", "expired"} ==> !Says(r.body, "status", t)) ==>
      OnStatus(r) == Stop(FlowError(InvalidStatusResponse))
  {
    var a, b, c, d := "pending", "approved", "denied", "expired";
    assert a[0] == 'p' && b[0] == 'a' && c[0] == 'd' && d[0] == 'e';
  }

  /** What the client makes of any reply to a claim, and what it keeps. */
  lemma ClaimOutcomes(r: RouteResult, rows: map<string, Row>, device: string)
    ensures r.Error? && r.statusCode in {401, 403} ==> OnClaim(r) == AuthError(r.code)
    ensures r.Error? && r.statusCode !in {401, 403} ==> OnClaim(r) == HttpError(r.statusCode) && RowsAfter(rows, device, r) == rows
    ensures r.Error? && r.statusCode in {401, 403} ==>
      RowsAfter(rows, device, r) == if r.code in {InvalidToken, TokenExpired, TokenRevoked} then rows - {device} else rows
    ensures forall token :: r.Ok? && Says(r.body, "token", token) ==>
      && (token == "" ==> OnClaim(r) == FlowError(InvalidClaimResponse))
      && (token != "" ==> OnClaim(r).TokenGranted? && OnClaim(r).token == token &&
                          (forall id :: Says(r.body, "tokenId", id) ==> OnClaim(r).tokenId == id) &&
                          ((forall id :: !Says(r.body, "tokenId", id)) ==> OnClaim(r).tokenId == ""))
      && device in RowsAfter(rows, device, r) && RowsAfter(rows, device, r)[device].token == token
      && (forall d :: d != device ==> (d in RowsAfter(rows, device, r) <==> d in rows))
      && (forall d :: d != device && d in rows ==> RowsAfter(rows, device, r)[d] == rows[d])
      && (forall id :: Says(r.body, "tokenId", id) ==> RowsAfter(rows, device, r)[device].tokenId == Some(id))
      && (forall t :: "expiresAt" in r.body && r.body["expiresAt"] == Time(t) ==> RowsAfter(rows, device, r)[device].expiresAt == Some(t))
    ensures r.Ok? && (forall token :: !Says(r.body, "token", token)) ==>
      OnClaim(r) == FlowError(InvalidClaimResponse) && RowsAfter(rows, device, r) == rows
  {
    if r.Ok? && TextOf(r.body, "token").Some? {
      assert Says(r.body, "token", TextOf(r.body, "token").value);
      var id := TextOf(r.body, "tokenId");
      assert id.Some? ==> Says(r.body, "tokenId", id.value);
    }
  }

  lemma OnStatusOfOurs(s: State, id: string, nonce: string, now: Instant)
    requires Ours(s, id, nonce)
    ensures OnStatus(StatusReply(s, id, nonce, now)) ==
      match EffectiveStatus(s.pending[id], now)
      case Approved => ToClaim
      case Denied => Stop(FlowError(FlowDenied))
      case Expired => Stop(FlowError(FlowExpired))
      case Pending => Again
  {
    hide TextOf, Wire, StatusBody, Inv;
    var p, status := s.pending[id], EffectiveStatus(s.pending[id], now);
    StatusBodyReads(p, status);
    WireDistinct(status);
  }

  /** Our request, once approved, can be claimed until it expires or is denied. */
  lemma ApprovedIsClaimable(s: State, id: string, nonce: string, now: Instant)
    requires Ours(s, id, nonce) && (s.pending[id].status == Approved || s.pending[id].status == Denied)
    ensures ClaimCaseOf(s, id, nonce, now) ==
      (if now >= s.pending[id].expiresAt then Late else if s.pending[id].status == Denied then TurnedDown else Claimable)
    ensures ClaimCaseOf(s, id, nonce, now) == Claimable ==>
      s.pending[id].tokenId.value in s.tokens && s.pending[id].plaintext.value != ""
  {
    assert RequestInv(s, id);
    if ClaimCaseOf(s, id, nonce, now) == Claimable {
      assert Sendable(s.pending[id].plaintext.value);
    }
  }

  /** A grant that names our request comes after it. */
  lemma GrantComesLater(s: State, from: nat, id: string, i: nat)
    requires LogInv(s) && from < |s.log| && s.log[from] == Requested(id)
    requires i < |s.log| && s.log[i].Granted? && s.log[i].requestId == id
    ensures from < i
  {
    assert EntryInv(s.log, from) && NamesRequest(s.log[i]);
    assert i != from;
  }

  lemma ProvenByClaim(log: seq<Entry>, from: nat, i: nat, id: string, token: string, tokenId: string)
    requires from < i < |log| && GrantOf(log[i], id, tokenId, token)
    ensures Proven(log + [Claimed(id, tokenId, token)], from, id, token, tokenId)
  {
    var longer := log + [Claimed(id, tokenId, token)];
    assert longer[i] == log[i] && longer[|log|] == Claimed(id, tokenId, token);
  }

  /** A token handed out for our request was granted after the request was made. */
  lemma HandedOutIsProven(s: State, from: nat, id: string, nonce: string, now: Instant)
    requires Ours(s, id, nonce) && from < |s.log| && s.log[from] == Requested(id)
    requires ClaimCaseOf(s, id, nonce, now) == Claimable
    ensures Proven(Claim(s, id, nonce, now).log, from, id, s.pending[id].plaintext.value, s.pending[id].tokenId.value)
  {
    hide TokensInv, PendingInv, LogInv, RequestInv, Proven, RequestedIn, ClaimedIn, TurnedIn;
    var p := s.pending[id];
    ClaimRequest(s, id, nonce, now);
    var i := s.mintedAt[p.tokenId.value];
    GrantComesLater(s, from, id, i);
    ProvenByClaim(s.log, from, i, id, p.plaintext.value, p.tokenId.value);
  }

  lemma OnClaimBody(token: string, tokenId: string, expiresAt: Instant, rows: map<string, Row>, device: string)
    requires token != ""
    ensures var r := Ok(200, ClaimBody(token, tokenId, expiresAt));
      OnClaim(r) == TokenGranted(token, tokenId) &&
      RowsAfter(rows, device, r) == rows[device := Row(token, Some(tokenId), Some(expiresAt))]
  {
    ClaimBodyReads(token, tokenId, expiresAt);
    hide TextOf, TimeOf, ClaimBody;
  }

  lemma OnClaimError(c: ClaimCase)
    requires c == Late || c == TurnedDown
    ensures OnClaim(ClaimError(c)) == AuthError(if c == Late then TokenExpired else AuthorizationDenied)
  {
  }

  lemma ClaimedTokenStored(s: State, id: string, nonce: string, now: Instant)
    requires Ours(s, id, nonce) && ClaimCaseOf(s, id, nonce, now) == Claimable
    ensures var p := s.pending[id];
      p.tokenId.value in s.tokens && s.tokens[p.tokenId.value].tokenHash == TokenHash(p.plaintext.value)
  {
    var p := s.pending[id];
    assert RequestInv(s, id);
    assert TokenMatchesLog(s, p.tokenId.value);
  }

  // ---------------------------------------------------------------- how a transaction ends

  /** Our request is open: made at log position `from`, ours by nonce, unclaimed. */
  ghost predicate Opened(s: State, from: nat, id: string, nonce: string)
  {
    Ours(s, id, nonce) && from < |s.log| && s.log[from] == Requested(id)
  }

  lemma TurnKeepsOpened(cfg: Config, s: State, host: seq<Call>, from: nat, id: string, nonce: string)
    requires Opened(s, from, id, nonce) && AllForeign(host, nonce)
    ensures Opened(After(cfg, s, host), from, id, nonce) && Kept(s, After(cfg, s, host), id)
  {
    hide Inv, After;
    TurnKeepsOurs(cfg, s, host, id, nonce);
    TurnKeepsInv(cfg, s, host);
    assert After(cfg, s, host).log[from] == s.log[from];
  }

  /** Request `id`, made at log position `from`, unclaimed. */
  predicate Standing(s: State, from: nat, id: string, nonce: string)
  {
    && from < |s.log| && s.log[from] == Requested(id)
    && id in s.pending && s.pending[id].requestId == id
    && s.pending[id].nonceHash == TokenHash(nonce) && s.pending[id].claimedAt.None?
  }

  lemma CreatedStands(cfg: Config, s: State, ask: Ask, now: Instant, found: Option<string>, freshId: string, code: string)
    requires found.None?
    ensures var t := Ensure(cfg, s, ask, now, found, freshId, code);
      Standing(t, |s.log|, freshId, ask.nonce) && Extends(t.log, s.log)
    ensures Target(s, now, found, freshId) == freshId
  {
  }

  lemma ApprovedStands(cfg: Config, s: State, from: nat, id: string, nonce: string, now: Instant, a: Approval)
    requires Standing(s, from, id, nonce)
    ensures var t := ApproveIn(cfg, s, id, now, a); Standing(t, from, id, nonce) && Extends(t.log, s.log)
  {
  }

  /** With a nonce nobody used, the App opens the fresh request, approved at once under the auto policy. */
  lemma RequestOpens(cfg: Config, s: State, ask: Ask, now: Instant, found: Option<string>,
                     freshId: string, code: string, auto: Approval)
    requires Inv(s) && Fortunate(s, ask.nonce, freshId, auto) && NonceLookup(s, TokenHash(ask.nonce), found)
    ensures var t := AskFor(cfg, s, ask, now, found, freshId, code, auto);
      Opened(t, |s.log|, freshId, ask.nonce) && t.pending[freshId].requestId == freshId && Extends(t.log, s.log)
      && Target(s, now, found, freshId) == freshId
  {
    AskKeepsInv(cfg, s, ask, now, found, freshId, code, auto);
    assert found.None?;
    hide Inv, NonceLookup, Fortunate, FreshToken, Ensure, ApproveIn, Target;
    CreatedStands(cfg, s, ask, now, found, freshId, code);
    var t := Ensure(cfg, s, ask, now, found, freshId, code);
    if cfg.autoApprove && Approvable(t, freshId) {
      ApprovedStands(cfg, t, |s.log|, freshId, ask.nonce, now, auto.(ttl := None, client := t.pending[freshId].clientLabel));
    }
  }

  lemma RequestReplyReads(p: Request)
    requires p.requestId != ""
    ensures RequestIdOf(Ok(202, StatusBody(p, p.status))) == Some(p.requestId)
  {
    StatusBodyReads(p, p.status);
    hide StatusBody, TextOf;
  }

  /** How a transaction against the App itself may end, and what each ending shows; the App last answered at `seen`. */
  ghost predicate Settled(s: State, rows: map<string, Row>, device: string, from: nat, id: string, outcome: Outcome,
                          seen: Instant)
  {
    match outcome
    case TokenGranted(token, tokenId) =>
      && Proven(s.log, from, id, token, tokenId)
      && tokenId in s.tokens && s.tokens[tokenId].tokenHash == TokenHash(token)
      && device in rows && rows[device] == Row(token, Some(tokenId), Some(s.tokens[tokenId].expiresAt))
    case FlowError(FlowDenied) => TurnedIn(s.log, id)
    case FlowError(FlowExpired) => Approvable(s, id) && seen >= s.pending[id].expiresAt
    case FlowError(FlowTimeout) => Approvable(s, id) && seen < s.pending[id].expiresAt
    case AuthError(TokenExpired) => id in s.pending && seen >= s.pending[id].expiresAt
    case AuthError(AuthorizationDenied) => TurnedIn(s.log, id)
    case _ => false
  }

  lemma ClaimableSettles(s: State, from: nat, id: string, nonce: string, now: Instant, rows: map<string, Row>, device: string)
    requires Opened(s, from, id, nonce) && ClaimCaseOf(s, id, nonce, now) == Claimable
    requires s.pending[id].status == Approved || s.pending[id].status == Denied
    ensures var r := ClaimReply(s, id, nonce, now);
      Settled(Claim(s, id, nonce, now), RowsAfter(rows, device, r), device, from, id, OnClaim(r), now)
  {
    ApprovedIsClaimable(s, id, nonce, now);
    HandedOutIsProven(s, from, id, nonce, now);
    ClaimedTokenStored(s, id, nonce, now);
    hide Inv, Proven, RequestInv;
    var p := s.pending[id];
    OnClaimBody(p.plaintext.value, p.tokenId.value, s.tokens[p.tokenId.value].expiresAt, rows, device);
    hide RowsAfter, OnClaim, ClaimBody, ClaimCaseOf;
  }

  lemma RefusalSettles(s: State, rows: map<string, Row>, device: string, from: nat, id: string, c: ClaimCase, now: Instant)
    requires id in s.pending
    requires (c == Late && now >= s.pending[id].expiresAt) || (c == TurnedDown && TurnedIn(s.log, id))
    ensures Settled(s, rows, device, from, id, OnClaim(ClaimError(c)), now)
  {
    OnClaimError(c);
    hide OnClaim, Proven, TurnedIn;
  }

  lemma RefusedSettles(s: State, from: nat, id: string, nonce: string, now: Instant, rows: map<string, Row>, device: string)
    requires Opened(s, from, id, nonce) && ClaimCaseOf(s, id, nonce, now) != Claimable
    requires s.pending[id].status == Approved || s.pending[id].status == Denied
    ensures var r := ClaimReply(s, id, nonce, now);
      Settled(Claim(s, id, nonce, now), RowsAfter(rows, device, r), device, from, id, OnClaim(r), now)
  {
    var c := ClaimCaseOf(s, id, nonce, now);
    ApprovedIsClaimable(s, id, nonce, now);
    assert s.pending[id].status == Denied ==> TurnedIn(s.log, id) by {
      assert RequestInv(s, id);
    }
    hide RowsAfter, OnClaim, Proven, ClaimCaseOf, Inv, TurnedIn, Settled, ClaimError;
    RefusalSettles(s, RowsAfter(rows, device, ClaimError(c)), device, from, id, c, now);
  }

  /** A claim of our own approved or denied request settles the transaction. */
  lemma ClaimSettles(s: State, from: nat, id: string, nonce: string, now: Instant, rows: map<string, Row>, device: string)
    requires Opened(s, from, id, nonce) && (s.pending[id].status == Approved || s.pending[id].status == Denied)
    ensures var r := ClaimReply(s, id, nonce, now);
      Settled(Claim(s, id, nonce, now), RowsAfter(rows, device, r), device, from, id, OnClaim(r), now)
  {
    hide Opened, Settled, RowsAfter, OnClaim, ClaimReply, Claim;
    if ClaimCaseOf(s, id, nonce, now) == Claimable {
      ClaimableSettles(s, from, id, nonce, now, rows, device);
    } else {
      RefusedSettles(s, from, id, nonce, now, rows, device);
    }
  }

  /** A status reply about our request either lets us claim, ends the transaction, or says to wait. */
  lemma StatusSettles(s: State, from: nat, id: string, nonce: string, now: Instant, rows: map<string, Row>, device: string)
    requires Opened(s, from, id, nonce)
    ensures var v := OnStatus(StatusReply(s, id, nonce, now));
      (v.ToClaim? ==> s.pending[id].status == Approved) &&
      (v.Stop? ==> Settled(s, rows, device, from, id, v.outcome, now))
  {
    OnStatusOfOurs(s, id, nonce, now);
    hide OnStatus, StatusReply;
    assert RequestInv(s, id);
  }

  /** The token the App reads from the client's header. */
  function HeaderToken(rows: map<string, Row>, device: string, now: Instant): Option<string>
  {
    if device !in rows || (rows[device].expiresAt.Some? && rows[device].expiresAt.value <= now) || rows[device].token == "" then None
    else BearerToken(Some("Bearer " + rows[device].token))
  }

  /** The App reads a token exactly if it is the stored one, not expired by the client's clock, and fit for a header. */
  lemma HeaderCarries(rows: map<string, Row>, device: string, now: Instant, token: string)
    ensures HeaderToken(rows, device, now) == Some(token) <==>
      && device in rows && rows[device].token == token
      && (rows[device].expiresAt.None? || now < rows[device].expiresAt.value)
      && token != "" && forall k :: 0 <= k < |token| ==> !Text.IsWhitespace(token[k])
  {
    if device in rows {
      var header := "Bearer " + rows[device].token;
      BearerIff(header, token);
      assert header == "Bearer " + token <==> rows[device].token == token by {
        assert header[7..] == rows[device].token && ("Bearer " + token)[7..] == token;
      }
    }
    hide BearerToken;
  }

  lemma ProvenGrows(log: seq<Entry>, longer: seq<Entry>, from: nat, id: string, token: string, tokenId: string)
    requires Proven(log, from, id, token, tokenId) && Extends(longer, log)
    ensures Proven(longer, from, id, token, tokenId)
  {
    var i, j :| from < i < j < |log| && GrantOf(log[i], id, tokenId, token) && log[j] == Claimed(id, tokenId, token);
    assert longer[i] == log[i] && longer[j] == log[j];
  }

  lemma GrantStored(s: State, from: nat, id: string, token: string, tokenId: string)
    requires Inv(s) && Proven(s.log, from, id, token, tokenId)
    ensures Sendable(token) && tokenId in s.tokens && tokenId in s.mintedAt
    ensures IsGrant(s.log, s.mintedAt[tokenId], tokenId) && s.tokens[tokenId].expiresAt == s.log[s.mintedAt[tokenId]].expiresAt
  {
    var i :| from < i < |s.log| && GrantOf(s.log[i], id, tokenId, token);
    assert TokenMatchesLog(s, tokenId);
  }

  lemma AcceptedUnderInv(t: State, token: string, now: Instant)
    requires Inv(t)
    ensures Decide(t, Some(token), now) == Authorized <==> exists i: nat :: ValidGrant(t.log, i, token, now)
  {
    AcceptedInv(t, token, now);
  }

  /** After a granted transaction and one more turn, the stored token is what the header carries. */
  lemma RetryCarriesGrant(cfg: Config, s: State, t: State, rows: map<string, Row>, device: string, from: nat,
                          id: string, outcome: Outcome, seen: Instant, again: Turn, now: Instant)
    requires Inv(s) && outcome.TokenGranted? && Settled(s, rows, device, from, id, outcome, seen)
    requires t == After(cfg, s, again.host)
    ensures Proven(t.log, from, id, outcome.token, outcome.tokenId) && outcome.tokenId in t.tokens
    ensures now < t.tokens[outcome.tokenId].expiresAt ==> HeaderToken(rows, device, now) == Some(outcome.token)
    ensures now >= t.tokens[outcome.tokenId].expiresAt ==> HeaderToken(rows, device, now) == None
    ensures Decide(t, Some(outcome.token), again.serverNow) == Authorized <==>
            exists i: nat :: ValidGrant(t.log, i, outcome.token, again.serverNow)
  {
    hide Inv, Proven, After, Decide, ValidGrant, IsGrant;
    TurnKeepsInv(cfg, s, again.host);
    ProvenGrows(s.log, t.log, from, id, outcome.token, outcome.tokenId);
    GrantStored(s, from, id, outcome.token, outcome.tokenId);
    GrantStored(t, from, id, outcome.token, outcome.tokenId);
    SameGrant(s, t, outcome.tokenId);
    AcceptedUnderInv(t, outcome.token, again.serverNow);
  }

  lemma SameGrant(s: State, t: State, tokenId: string)
    requires Inv(s) && Inv(t) && Extends(t.log, s.log) && tokenId in s.mintedAt && tokenId in t.mintedAt
    ensures s.mintedAt[tokenId] == t.mintedAt[tokenId]
    ensures IsGrant(s.log, s.mintedAt[tokenId], tokenId) && s.log[s.mintedAt[tokenId]] == t.log[t.mintedAt[tokenId]]
  {
    assert TokenMatchesLog(s, tokenId);
    var i := s.mintedAt[tokenId];
    assert t.log[i] == s.log[i];
  }

  // ---------------------------------------------------------------- when a flow ends with a token

  /** The App after the world's turns before the first `k` polls. */
  function Hosted(cfg: Config, s: State, turns: nat -> Turn, k: nat): State
  {
    if k == 0 then s else After(cfg, Hosted(cfg, s, turns, k - 1), turns(k).host)
  }

  /** The client's time for `k` polls and the sleeps after them. */
  function TimeSpent(turns: nat -> Turn, interval: nat, k: nat): nat
  {
    if k == 0 then 0 else TimeSpent(turns, interval, k - 1) + turns(k).elapsed + interval
  }

  function StatusOf(s: State, id: string, now: Instant): Option<Status>
  {
    if id in s.pending then Some(EffectiveStatus(s.pending[id], now)) else None
  }

  ghost predicate AllPending(cfg: Config, s: State, turns: nat -> Turn, id: string, k: nat)
  {
    forall i :: 1 <= i <= k ==> StatusOf(Hosted(cfg, s, turns, i), id, turns(i).serverNow) == Some(Pending)
  }

  /** Poll `k` starts before the deadline, every poll before it found the request pending, and it finds it approved. */
  ghost predicate SeenApproved(cfg: Config, s: State, turns: nat -> Turn, timeout: nat, interval: nat, id: string, k: nat)
  {
    && k >= 1 && TimeSpent(turns, interval, k - 1) < timeout && AllPending(cfg, s, turns, id, k - 1)
    && StatusOf(Hosted(cfg, s, turns, k), id, turns(k).serverNow) == Some(Approved)
  }

  /** Poll `k` sees the approval, and when the claim arrives it has not been taken back or expired. */
  ghost predicate GrantsAt(cfg: Config, s: State, turns: nat -> Turn, timeout: nat, interval: nat,
                           id: string, nonce: string, k: nat)
  {
    && SeenApproved(cfg, s, turns, timeout, interval, id, k)
    && ClaimCaseOf(Hosted(cfg, s, turns, k + 1), id, nonce, turns(k + 1).serverNow) == Claimable
  }

  /** Some poll grants a token. */
  ghost predicate Grants(cfg: Config, s: State, turns: nat -> Turn, timeout: nat, interval: nat, id: string, nonce: string)
  {
    exists k :: GrantsAt(cfg, s, turns, timeout, interval, id, nonce, k)
  }

  lemma {:induction false} TimeGrows(turns: nat -> Turn, interval: nat, i: nat, k: nat)
    requires i <= k
    ensures TimeSpent(turns, interval, i) <= TimeSpent(turns, interval, k)
  {
    if i < k {
      TimeGrows(turns, interval, i, k - 1);
    }
  }

  lemma HostedStep(cfg: Config, s: State, turns: nat -> Turn, interval: nat, id: string, k: nat)
    ensures Hosted(cfg, s, turns, k + 1) == After(cfg, Hosted(cfg, s, turns, k), turns(k + 1).host)
    ensures TimeSpent(turns, interval, k + 1) == TimeSpent(turns, interval, k) + turns(k + 1).elapsed + interval
    ensures AllPending(cfg, s, turns, id, k + 1) <==>
            AllPending(cfg, s, turns, id, k) &&
            StatusOf(Hosted(cfg, s, turns, k + 1), id, turns(k + 1).serverNow) == Some(Pending)
  {
    hide After, StatusOf;
  }

  /** The poll that found the request approved, in time and after pending ones only. */
  lemma GrantedAtIff(cfg: Config, s: State, turns: nat -> Turn, timeout: nat, interval: nat, id: string, nonce: string, k: nat)
    requires SeenApproved(cfg, s, turns, timeout, interval, id, k)
    ensures Grants(cfg, s, turns, timeout, interval, id, nonce) <==>
            ClaimCaseOf(After(cfg, Hosted(cfg, s, turns, k), turns(k + 1).host), id, nonce, turns(k + 1).serverNow) == Claimable
  {
    hide StatusOf, ClaimCaseOf, After;
    assert Hosted(cfg, s, turns, k + 1) == After(cfg, Hosted(cfg, s, turns, k), turns(k + 1).host);
    hide Hosted;
    assert ClaimCaseOf(Hosted(cfg, s, turns, k + 1), id, nonce, turns(k + 1).serverNow) == Claimable ==>
      GrantsAt(cfg, s, turns, timeout, interval, id, nonce, k);
    forall j | GrantsAt(cfg, s, turns, timeout, interval, id, nonce, j) ensures j == k {
      GrantsOnlyAt(cfg, s, turns, timeout, interval, id, nonce, k, j);
    }
  }

  lemma NotGrantedAt(cfg: Config, s: State, turns: nat -> Turn, timeout: nat, interval: nat, id: string, nonce: string, k: nat)
    requires k >= 1 && AllPending(cfg, s, turns, id, k - 1)
    requires StatusOf(Hosted(cfg, s, turns, k), id, turns(k).serverNow) !in {Some(Approved), Some(Pending)}
    ensures !Grants(cfg, s, turns, timeout, interval, id, nonce)
  {
    hide StatusOf, ClaimCaseOf, Hosted;
    forall j: nat ensures !GrantsAt(cfg, s, turns, timeout, interval, id, nonce, j) {
      if GrantsAt(cfg, s, turns, timeout, interval, id, nonce, j) {
        GrantsOnlyAt(cfg, s, turns, timeout, interval, id, nonce, k, j);
      }
    }
  }

  lemma NotGrantedInTime(cfg: Config, s: State, turns: nat -> Turn, timeout: nat, interval: nat, id: string, nonce: string, k: nat)
    requires AllPending(cfg, s, turns, id, k) && TimeSpent(turns, interval, k) >= timeout
    ensures !Grants(cfg, s, turns, timeout, interval, id, nonce)
  {
    hide StatusOf, ClaimCaseOf, Hosted, TimeSpent;
    forall j: nat ensures !GrantsAt(cfg, s, turns, timeout, interval, id, nonce, j) {
      if j > k {
        TimeGrows(turns, interval, k, j - 1);
      }
    }
  }

  /** Only the first verdict counts: no other poll can grant. */
  lemma GrantsOnlyAt(cfg: Config, s: State, turns: nat -> Turn, timeout: nat, interval: nat, id: string, nonce: string,
                     k: nat, j: nat)
    requires k >= 1 && GrantsAt(cfg, s, turns, timeout, interval, id, nonce, j)
    requires AllPending(cfg, s, turns, id, k - 1)
    requires StatusOf(Hosted(cfg, s, turns, k), id, turns(k).serverNow) != Some(Pending)
    ensures j == k
  {
    hide Hosted, StatusOf;
  }

  /** The call neither denies the request nor, while it is pending, approves it. */
  predicate LeavesAlone(s: State, c: Call, id: string)
  {
    match c
    case CallDeny(denied, _) => denied != id
    case CallApprove(approved, _, _) => approved != id || !Approvable(s, id)
    case _ => true
  }

  predicate Denies(c: Call, id: string) { c.CallDeny? && c.requestId == id }

  predicate Approves(c: Call, id: string) { c.CallApprove? && c.requestId == id }

  predicate NoneDenies(host: seq<Call>, id: string) { forall k :: 0 <= k < |host| ==> !Denies(host[k], id) }

  predicate NoneApproves(host: seq<Call>, id: string) { forall k :: 0 <= k < |host| ==> !Approves(host[k], id) }

  /** Such a call of somebody else leaves our request exactly as it is. */
  lemma UnchangedByForeign(cfg: Config, s: State, c: Call, id: string, nonce: string)
    requires Ours(s, id, nonce) && Foreign(c, nonce) && LeavesAlone(s, c, id)
    ensures Ours(Next(cfg, s, c), id, nonce) && Next(cfg, s, c).pending[id] == s.pending[id]
  {
    ForeignKeepsOurs(cfg, s, c, id, nonce);
    hide Inv, AskFor, NonceLookup, FreshToken, Claim, ApproveIn, RevokeOne, RevokeAll, DenyIn, Approvable, LeavesAlone;
    if Enabled(cfg, s, c) {
      match c
      case CallRequest(ask, now, found, freshId, code, auto) =>
        ForeignAskKeepsOurs(cfg, s, ask, now, found, freshId, code, auto, id, nonce);
      case _ => UnchangedByHost(cfg, s, c, id, nonce);
    }
  }

  lemma UnchangedByHost(cfg: Config, s: State, c: Call, id: string, nonce: string)
    requires id in s.pending && s.pending[id].nonceHash == TokenHash(nonce) && Enabled(cfg, s, c) && !c.CallRequest?
    requires Foreign(c, nonce) && LeavesAlone(s, c, id)
    ensures id in Take(cfg, s, c).pending && Take(cfg, s, c).pending[id] == s.pending[id]
  {
    hide FreshToken, NonceLookup;
  }

  /** Neither does a whole turn without a denial, if the request is decided or nobody approves it. */
  lemma {:induction false} UnchangedByTurn(cfg: Config, s: State, host: seq<Call>, id: string, nonce: string)
    requires Ours(s, id, nonce) && AllForeign(host, nonce) && NoneDenies(host, id)
    requires Approvable(s, id) ==> NoneApproves(host, id)
    ensures Ours(After(cfg, s, host), id, nonce) && After(cfg, s, host).pending[id] == s.pending[id]
    decreases host
  {
    if host != [] {
      assert Foreign(host[0], nonce) && !Denies(host[0], id) && (Approvable(s, id) ==> !Approves(host[0], id));
      hide Inv, Next, Foreign;
      UnchangedByForeign(cfg, s, host[0], id, nonce);
      UnchangedByTurn(cfg, Next(cfg, s, host[0]), host[1..], id, nonce);
    }
  }

  lemma {:induction false} AfterConcat(cfg: Config, s: State, a: seq<Call>, b: seq<Call>)
    ensures After(cfg, s, a + b) == After(cfg, After(cfg, s, a), b)
    decreases a
  {
    if a == [] {
      assert a + b == b;
    } else {
      assert (a + b)[1..] == a[1..] + b;
      AfterConcat(cfg, Next(cfg, s, a[0]), a[1..], b);
    }
  }

  /**
   A request opened with fresh randomness waits for a decision, whatever the host and other clients call
   meanwhile short of deciding it: its holder is told pending until the pending time is over, and expired
   from then on.
   */
  lemma OpenedWaits(cfg: Config, s: State, ask: Ask, now: Instant, freshId: string, code: string, auto: Approval,
                    host: seq<Call>, later: Instant)
    requires Inv(s) && !cfg.autoApprove && Fortunate(s, ask.nonce, freshId, auto)
    requires AllForeign(host, ask.nonce) && NoneDenies(host, freshId) && NoneApproves(host, freshId)
    ensures var asked := Next(cfg, s, CallRequest(ask, now, None, freshId, code, auto));
      var r := StatusReply(After(cfg, asked, host), freshId, ask.nonce, later);
      r.Ok? && r.statusCode == 200 &&
      Tells(r.body, freshId, code, if later < now + cfg.pendingTtl then "pending" else "expired", now + cfg.pendingTtl, ask.client)
  {
    var asked := Next(cfg, s, CallRequest(ask, now, None, freshId, code, auto));
    AskOpens(cfg, s, ask, now, None, freshId, code, auto);
    RequestOpens(cfg, s, ask, now, None, freshId, code, auto);
    assert asked == Opens(cfg, s, ask, freshId, code, now, now + cfg.pendingTtl);
    hide Inv, Next, AskFor, Fortunate, After, NoneDenies, NoneApproves, AllForeign, Tells, StatusReply;
    UnchangedByTurn(cfg, asked, host, freshId, ask.nonce);
    StatusReplyTells(After(cfg, asked, host), freshId, ask.nonce, later);
  }

  /** Before the approval nothing happens to the request. */
  lemma {:induction false} UnchangedUntil(cfg: Config, s: State, turns: nat -> Turn, id: string, nonce: string, k: nat)
    requires Ours(s, id, nonce) && Approvable(s, id) && forall i :: AllForeign(turns(i).host, nonce)
    requires forall i :: 1 <= i <= k ==> NoneDenies(turns(i).host, id) && NoneApproves(turns(i).host, id)
    ensures Ours(Hosted(cfg, s, turns, k), id, nonce) && Hosted(cfg, s, turns, k).pending[id] == s.pending[id]
  {
    if k > 0 {
      hide Inv, After, NoneDenies, NoneApproves, AllForeign;
      UnchangedUntil(cfg, s, turns, id, nonce, k - 1);
      UnchangedByTurn(cfg, Hosted(cfg, s, turns, k - 1), turns(k).host, id, nonce);
    }
  }

  /** The turn with the approval: `before` it nobody decided, `after` it nobody denies. */
  predicate ApprovalTurn(host: seq<Call>, before: seq<Call>, approval: Call, after: seq<Call>, id: string)
  {
    && host == before + [approval] + after && Approves(approval, id)
    && NoneDenies(before, id) && NoneApproves(before, id) && NoneDenies(after, id)
  }

  /** Where the App stands when the approval of this turn arrives. */
  function AtApproval(cfg: Config, s: State, turns: nat -> Turn, k: nat, before: seq<Call>): State
    requires k >= 1
  {
    After(cfg, Hosted(cfg, s, turns, k - 1), before)
  }

  /** When an approval given now expires. */
  function ApprovalEnds(cfg: Config, now: Instant, a: Approval): Instant
  {
    var ttl := if a.ttl.Some? then a.ttl.value else cfg.tokenTtl;
    now + if ttl < 1 then 1 else ttl
  }

  lemma ForeignParts(host: seq<Call>, before: seq<Call>, approval: Call, after: seq<Call>, nonce: string)
    requires AllForeign(host, nonce) && host == before + [approval] + after
    ensures AllForeign(before, nonce) && AllForeign(after, nonce)
  {
    forall i | 0 <= i < |before| ensures Foreign(before[i], nonce) {
      assert host[i] == before[i];
    }
    forall i | 0 <= i < |after| ensures Foreign(after[i], nonce) {
      assert host[|before| + 1 + i] == after[i];
    }
  }

  lemma ApproveOurs(cfg: Config, s: State, id: string, nonce: string, now: Instant, a: Approval)
    requires Ours(s, id, nonce) && Approvable(s, id) && FreshToken(s, a)
    ensures var t := Next(cfg, s, CallApprove(id, now, a));
      && Ours(t, id, nonce) && t.pending[id].status == Approved && t.pending[id].expiresAt == ApprovalEnds(cfg, now, a)
  {
    ForeignKeepsOurs(cfg, s, CallApprove(id, now, a), id, nonce);
    hide Inv, FreshToken;
  }

  /** From the approval on the request stays as the approval left it, over the rest of this turn and the next. */
  lemma ApprovedStays(cfg: Config, s: State, host: seq<Call>, before: seq<Call>, after: seq<Call>, next: seq<Call>,
                      id: string, nonce: string, now: Instant, a: Approval)
    requires Ours(s, id, nonce) && Approvable(s, id) && AllForeign(host, nonce) && AllForeign(next, nonce)
    requires ApprovalTurn(host, before, CallApprove(id, now, a), after, id) && NoneDenies(next, id)
    requires FreshToken(After(cfg, s, before), a)
    ensures var t, u := After(cfg, s, host), After(cfg, After(cfg, s, host), next);
      && Ours(t, id, nonce) && Ours(u, id, nonce) && t.pending[id] == u.pending[id]
      && u.pending[id].status == Approved && u.pending[id].expiresAt == ApprovalEnds(cfg, now, a)
  {
    var call := CallApprove(id, now, a);
    ForeignParts(host, before, call, after, nonce);
    hide Inv, FreshToken, AllForeign, NoneDenies, NoneApproves, Next;
    UnchangedByTurn(cfg, s, before, id, nonce);
    var t := After(cfg, s, before);
    ApproveOurs(cfg, t, id, nonce, now, a);
    var u := Next(cfg, t, call);
    AfterConcat(cfg, s, before + [call], after);
    AfterConcat(cfg, s, before, [call]);
    AfterOne(cfg, t, call);
    hide After;
    UnchangedByTurn(cfg, u, after, id, nonce);
    UnchangedByTurn(cfg, After(cfg, u, after), next, id, nonce);
  }

  lemma AfterOne(cfg: Config, s: State, c: Call)
    ensures After(cfg, s, [c]) == Next(cfg, s, c)
  {
    hide Next;
    assert [c][1..] == [];
  }

  lemma ApprovedIsGranted(s: State, t: State, id: string, nonce: string, seen: Instant, claimed: Instant)
    requires Ours(s, id, nonce) && Ours(t, id, nonce) && s.pending[id] == t.pending[id] && t.pending[id].status == Approved
    requires claimed < t.pending[id].expiresAt
    ensures StatusOf(s, id, seen) == Some(Approved) && ClaimCaseOf(t, id, nonce, claimed) == Claimable
  {
    ApprovedIsClaimable(t, id, nonce, claimed);
    hide Inv;
  }

  /**
   Progress, whatever else the host and other clients call: the turn before poll `k`, which is in time, holds
   the first decision on the request, an approval; nobody denies it before the claim, the polls before found
   it unexpired, and the claim comes before the approval expires.  Then this poll grants the token.
   */
  lemma ApprovedInTimeIsGranted(cfg: Config, s: State, turns: nat -> Turn, timeout: nat, interval: nat, from: nat, id: string,
                                nonce: string, k: nat, before: seq<Call>, now: Instant, a: Approval, after: seq<Call>)
    requires Opened(s, from, id, nonce) && Approvable(s, id) && forall i :: AllForeign(turns(i).host, nonce)
    requires k >= 1 && TimeSpent(turns, interval, k - 1) < timeout
    requires forall i :: 1 <= i < k ==>
      NoneDenies(turns(i).host, id) && NoneApproves(turns(i).host, id) && turns(i).serverNow < s.pending[id].expiresAt
    requires ApprovalTurn(turns(k).host, before, CallApprove(id, now, a), after, id) && NoneDenies(turns(k + 1).host, id)
    requires FreshToken(AtApproval(cfg, s, turns, k, before), a)
    requires turns(k + 1).serverNow < ApprovalEnds(cfg, now, a)
    ensures GrantsAt(cfg, s, turns, timeout, interval, id, nonce, k)
  {
    hide Inv, FreshToken, NoneDenies, NoneApproves, AllForeign, TimeSpent, ApprovalTurn;
    UnchangedUntil(cfg, s, turns, id, nonce, k - 1);
    PendingUntil(cfg, s, turns, id, nonce, k);
    hide AllPending;
    var t := Hosted(cfg, s, turns, k - 1);
    ApprovedStays(cfg, t, turns(k).host, before, after, turns(k + 1).host, id, nonce, now, a);
    assert Hosted(cfg, s, turns, k) == After(cfg, t, turns(k).host);
    assert Hosted(cfg, s, turns, k + 1) == After(cfg, Hosted(cfg, s, turns, k), turns(k + 1).host);
    hide Hosted, After, StatusOf, ClaimCaseOf;
    ApprovedIsGranted(Hosted(cfg, s, turns, k), Hosted(cfg, s, turns, k + 1), id, nonce, turns(k).serverNow, turns(k + 1).serverNow);
  }

  lemma PendingUntil(cfg: Config, s: State, turns: nat -> Turn, id: string, nonce: string, k: nat)
    requires k >= 1 && Ours(s, id, nonce) && Approvable(s, id) && forall i :: AllForeign(turns(i).host, nonce)
    requires forall i :: 1 <= i < k ==>
      NoneDenies(turns(i).host, id) && NoneApproves(turns(i).host, id) && turns(i).serverNow < s.pending[id].expiresAt
    ensures AllPending(cfg, s, turns, id, k - 1)
  {
    hide Hosted, NoneDenies, NoneApproves, AllForeign, Inv;
    forall i | 1 <= i < k ensures StatusOf(Hosted(cfg, s, turns, i), id, turns(i).serverNow) == Some(Pending) {
      UnchangedUntil(cfg, s, turns, id, nonce, i);
    }
  }

  lemma ClaimGrantsIff(s: State, id: string, nonce: string, now: Instant)
    requires Ours(s, id, nonce)
    ensures OnClaim(ClaimReply(s, id, nonce, now)).TokenGranted? <==> ClaimCaseOf(s, id, nonce, now) == Claimable
  {
    if ClaimCaseOf(s, id, nonce, now) == Claimable {
      ApprovedOrDenied(s, id, nonce, now);
      ApprovedIsClaimable(s, id, nonce, now);
      var p := s.pending[id];
      OnClaimBody(p.plaintext.value, p.tokenId.value, s.tokens[p.tokenId.value].expiresAt, map[], "");
    }
    hide ClaimBody, Inv, ClaimCaseOf;
  }

  lemma ApprovedOrDenied(s: State, id: string, nonce: string, now: Instant)
    requires ClaimCaseOf(s, id, nonce, now) == Claimable
    ensures s.pending[id].status == Approved
  {
  }

  lemma VerdictOfOurs(s: State, id: string, nonce: string, now: Instant)
    requires Ours(s, id, nonce)
    ensures var v := OnStatus(StatusReply(s, id, nonce, now));
      && (v.ToClaim? <==> StatusOf(s, id, now) == Some(Approved))
      && (v.Again? <==> StatusOf(s, id, now) == Some(Pending))
      && (v.Stop? ==> !v.outcome.TokenGranted?)
  {
    OnStatusOfOurs(s, id, nonce, now);
    hide OnStatus, StatusReply, Inv, EffectiveStatus;
  }

  lemma {:induction false} PollsTakeTime(turns: nat -> Turn, interval: nat, k: nat)
    ensures k * interval <= TimeSpent(turns, interval, k)
  {
    if k > 0 {
      PollsTakeTime(turns, interval, k - 1);
      assert k * interval == (k - 1) * interval + interval;
    }
  }

  lemma PollBound(turns: nat -> Turn, timeout: nat, interval: nat, k: nat)
    requires interval > 0 && TimeSpent(turns, interval, k) < timeout
    ensures k + 1 <= CeilDiv(timeout, interval)
  {
    PollsTakeTime(turns, interval, k);
    CeilDivAbove(timeout, interval, k);
  }

  /** When the time is up, the request was still pending and unexpired when last polled. */
  lemma TimedOutSettles(cfg: Config, s: State, t: State, turns: nat -> Turn, interval: nat, id: string, k: nat, spent: nat,
                        rows: map<string, Row>, device: string, from: nat)
    requires Polled(cfg, s, t, turns, interval, id, k, spent, true) && k >= 1
    ensures Settled(t, rows, device, from, id, FlowError(FlowTimeout), turns(k).serverNow)
  {
    hide Hosted;
    assert StatusOf(t, id, turns(k).serverNow) == Some(Pending);
  }

  /** No reply, whatever it says, makes the client report a timeout. */
  lemma NeverTimeout(r: RouteResult)
    ensures OnStatus(r) != Stop(FlowError(FlowTimeout)) && OnClaim(r) != FlowError(FlowTimeout)
  {
    hide TextOf;
  }

  lemma NothingPolled(cfg: Config, s: State, turns: nat -> Turn, interval: nat, id: string)
    ensures Polled(cfg, s, s, turns, interval, id, 0, 0, true) && Polled(cfg, s, s, turns, interval, id, 0, 0, false)
  {
  }

  /** After `k` polls, none of which gave a verdict: where the App and the client's clock are. */
  ghost predicate Polled(cfg: Config, s: State, t: State, turns: nat -> Turn, interval: nat, id: string,
                         k: nat, spent: nat, honest: bool)
  {
    t == Hosted(cfg, s, turns, k) && spent == TimeSpent(turns, interval, k) && (honest ==> AllPending(cfg, s, turns, id, k))
  }

  /** One poll more: a verdict decides whether a token can still come, and without one the wait goes on. */
  lemma PolledNext(cfg: Config, s: State, t: State, u: State, turns: nat -> Turn, timeout: nat, interval: nat,
                   id: string, nonce: string, k: nat, spent: nat, honest: bool)
    requires Polled(cfg, s, t, turns, interval, id, k, spent, honest) && u == After(cfg, t, turns(k + 1).host)
    requires spent < timeout && interval > 0
    ensures k + 1 <= CeilDiv(timeout, interval) && u == Hosted(cfg, s, turns, k + 1)
    ensures var status := StatusOf(u, id, turns(k + 1).serverNow);
      && (honest ==> status == Some(Pending)) ==>
            Polled(cfg, s, u, turns, interval, id, k + 1, spent + turns(k + 1).elapsed + interval, honest)
    ensures var status := StatusOf(u, id, turns(k + 1).serverNow);
      && (honest && status == Some(Approved) ==> SeenApproved(cfg, s, turns, timeout, interval, id, k + 1))
      && (honest && status !in {Some(Pending), Some(Approved)} ==> !Grants(cfg, s, turns, timeout, interval, id, nonce))
  {
    PollBound(turns, timeout, interval, k);
    HostedStep(cfg, s, turns, interval, id, k);
    hide StatusOf, After, Grants, AllPending, Hosted, TimeSpent, CeilDiv;
    if honest && StatusOf(u, id, turns(k + 1).serverNow) !in {Some(Pending), Some(Approved)} {
      NotGrantedAt(cfg, s, turns, timeout, interval, id, nonce, k + 1);
    }
  }

  lemma NotPolledInTime(cfg: Config, s: State, t: State, turns: nat -> Turn, timeout: nat, interval: nat,
                        id: string, nonce: string, k: nat, spent: nat)
    requires Polled(cfg, s, t, turns, interval, id, k, spent, true) && spent >= timeout
    ensures !Grants(cfg, s, turns, timeout, interval, id, nonce)
  {
    NotGrantedInTime(cfg, s, turns, timeout, interval, id, nonce, k);
  }

  lemma VerdictOfOpened(s: State, from: nat, id: string, nonce: string, now: Instant)
    requires Opened(s, from, id, nonce)
    ensures var v := OnStatus(StatusReply(s, id, nonce, now));
      && (v.ToClaim? <==> StatusOf(s, id, now) == Some(Approved))
      && (v.Again? <==> StatusOf(s, id, now) == Some(Pending))
      && (v.Stop? ==> !v.outcome.TokenGranted?)
  {
    VerdictOfOurs(s, id, nonce, now);
  }

  // ---------------------------------------------------------------- the coordinator object

  class AuthorizationCoordinator {
    const server: PluginDebugAuthManager
    const provider: FileTokenProvider
    const device: string
    const timeout: nat
    const interval: nat
    var monotonic: nat

    ghost predicate Valid()
      reads server
    {
      server.Valid() && timeout > 0 && interval > 0
    }

    constructor (server: PluginDebugAuthManager, provider: FileTokenProvider, device: string,
                 timeout: nat, interval: nat)
      requires server.Valid() && timeout > 0 && interval > 0
      ensures this.server == server && this.provider == provider && this.device == device
      ensures this.timeout == timeout && this.interval == interval && monotonic == 0 && Valid()
    {
      this.server, this.provider, this.device := server, provider, device;
      this.timeout, this.interval, this.monotonic := timeout, interval, 0;
    }

    /** The client's bookkeeping of a reply: save a claimed token, forget one on a clearing error. */
    method Absorb(r: RouteResult)
      modifies provider
      ensures provider.rows == RowsAfter(old(provider.rows), device, r)
    {
      match r
      case Error(status, code) =>
        if IsAuthStatus(status) && Clears(code) {
          provider.ClearToken(device);
        }
      case Ok(_, body) =>
        var token := TextOf(body, "token");
        if token.Some? {
          provider.SaveToken(device, Row(token.value, TextOf(body, "tokenId"), TimeOf(body, "expiresAt")));
        }
    }

    /** The world's turn before a call, and the time the call takes. */
    method Await(turn: Turn)
      requires Valid()
      modifies server, this`monotonic
      ensures Valid() && server.Abs() == After(server.cfg, old(server.Abs()), turn.host)
      ensures Extends(server.log, old(server.log)) && monotonic == old(monotonic) + turn.elapsed
    {
      TakeTurn(server, turn.host);
      monotonic := monotonic + turn.elapsed;
    }

    /** `auth_request`: what arrives is the App's reply unless the turn replaces it. */
    method AuthRequest(ask: Ask, turn: Turn, freshId: string, code: string, auto: Approval) returns (r: RouteResult)
      requires Valid() && Fortunate(server.Abs(), ask.nonce, freshId, auto)
      modifies server, provider
      ensures Valid() && Extends(server.log, old(server.log))
      ensures if turn.instead.None? then RequestIdOf(r) == Some(freshId) else r == turn.instead.value
      ensures server.Abs() == AskFor(server.cfg, old(server.Abs()), ask, turn.serverNow, None, freshId, code, auto)
      ensures Opened(server.Abs(), |old(server.log)|, freshId, ask.nonce)
    {
      ghost var s := server.Abs();
      var reply, found := server.RequestAuthorization(Some(ask), turn.serverNow, freshId, code, auto);
      RequestOpens(server.cfg, s, ask, turn.serverNow, found, freshId, code, auto);
      RequestReplyReads(server.pending[freshId]);
      assert found == None;
      hide Inv, AskFor, FreshToken, StatusBody, RequestIdOf;
      r := Received(turn, reply);
      if r.Error? {
        Absorb(r);
      }
    }

    /** `auth_status`. */
    method AuthStatus(id: string, nonce: string, turn: Turn) returns (r: RouteResult)
      modifies provider
      ensures r == Received(turn, StatusReply(server.Abs(), id, nonce, turn.serverNow))
      ensures provider.rows == if r.Error? then RowsAfter(old(provider.rows), device, r) else old(provider.rows)
    {
      var reply := server.AuthorizationStatus(Some(id), Some(nonce), turn.serverNow);
      r := Received(turn, reply);
      if r.Error? {
        Absorb(r);
      }
    }

    /** `auth_claim`: claim, and save the token when one came back. */
    method AuthClaim(id: string, nonce: string, turn: Turn) returns (r: RouteResult)
      requires Valid()
      modifies server, provider
      ensures Valid() && Extends(server.log, old(server.log))
      ensures server.Abs() == Claim(old(server.Abs()), id, nonce, turn.serverNow)
      ensures r == Received(turn, ClaimReply(old(server.Abs()), id, nonce, turn.serverNow))
      ensures provider.rows == RowsAfter(old(provider.rows), device, r)
    {
      hide Inv, ClaimReply, RowsAfter;
      var reply := server.ClaimAuthorization(Some(id), Some(nonce), turn.serverNow);
      r := Received(turn, reply);
      Absorb(r);
    }

    /** The world's turn and the claim; our request was approved when last polled. */
    method ClaimNow(id: string, nonce: string, turn: Turn, ghost from: nat, ghost honest: bool) returns (outcome: Outcome)
      requires Valid()
      requires honest ==> Opened(server.Abs(), from, id, nonce) && server.pending[id].status == Approved
      requires honest ==> turn.instead.None? && AllForeign(turn.host, nonce)
      modifies this`monotonic, server, provider
      ensures Valid() && Extends(server.log, old(server.log))
      ensures honest ==> Settled(server.Abs(), provider.rows, device, from, id, outcome, turn.serverNow)
      ensures outcome != FlowError(FlowTimeout)
      ensures turn.instead.Some? ==> outcome == OnClaim(turn.instead.value)
      ensures honest ==>
        (outcome.TokenGranted? <==>
         ClaimCaseOf(After(server.cfg, old(server.Abs()), turn.host), id, nonce, turn.serverNow) == Claimable)
    {
      hide Inv, OnClaim, RowsAfter, After, ClaimReply, Claim, Settled, ClaimCaseOf;
      if honest {
        TurnKeepsOpened(server.cfg, server.Abs(), turn.host, from, id, nonce);
      }
      Await(turn);
      if honest {
        ClaimSettles(server.Abs(), from, id, nonce, turn.serverNow, provider.rows, device);
        ClaimGrantsIff(server.Abs(), id, nonce, turn.serverNow);
      }
      var r := AuthClaim(id, nonce, turn);
      outcome := OnClaim(r);
      NeverTimeout(r);
    }

    /** The world's turn and one poll. */
    method PollOnce(id: string, nonce: string, turn: Turn, ghost from: nat, ghost honest: bool) returns (v: Verdict)
      requires Valid()
      requires honest ==> Opened(server.Abs(), from, id, nonce) && turn.instead.None? && AllForeign(turn.host, nonce)
      modifies this`monotonic, server, provider
      ensures Valid() && Extends(server.log, old(server.log)) && monotonic == old(monotonic) + turn.elapsed
      ensures server.Abs() == After(server.cfg, old(server.Abs()), turn.host)
      ensures honest ==> Opened(server.Abs(), from, id, nonce)
      ensures honest && v.ToClaim? ==> server.pending[id].status == Approved
      ensures honest && v.Stop? ==>
        Settled(server.Abs(), provider.rows, device, from, id, v.outcome, turn.serverNow) && !v.outcome.TokenGranted?
      ensures v != Stop(FlowError(FlowTimeout)) && Heeded(turn, v)
      ensures honest ==> (v.ToClaim? <==> StatusOf(server.Abs(), id, turn.serverNow) == Some(Approved))
      ensures honest ==> (v.Again? <==> StatusOf(server.Abs(), id, turn.serverNow) == Some(Pending))
    {
      hide Inv, OnStatus, RowsAfter, After, StatusReply, Settled, StatusOf;
      if honest {
        TurnKeepsOpened(server.cfg, server.Abs(), turn.host, from, id, nonce);
      }
      Await(turn);
      var r := AuthStatus(id, nonce, turn);
      v := OnStatus(r);
      NeverTimeout(r);
      if honest {
        VerdictOfOpened(server.Abs(), from, id, nonce, turn.serverNow);
        StatusSettles(server.Abs(), from, id, nonce, turn.serverNow, provider.rows, device);
      }
    }

    /** The poll loop: until a status reply lets the client claim or ends the flow, or the deadline does. */
    method PollUntilVerdict(id: string, nonce: string, turns: nat -> Turn, ghost from: nat, ghost honest: bool)
      returns (v: Verdict, polls: nat)
      requires Valid()
      requires honest ==> Opened(server.Abs(), from, id, nonce)
      requires honest ==> forall k :: turns(k).instead.None? && AllForeign(turns(k).host, nonce)
      modifies this`monotonic, server, provider
      ensures Valid() && Extends(server.log, old(server.log))
      ensures !v.Again? && polls <= CeilDiv(timeout, interval)
      ensures server.Abs() == Hosted(server.cfg, old(server.Abs()), turns, polls)
      ensures honest ==> Opened(server.Abs(), from, id, nonce)
      ensures honest && v.ToClaim? ==>
        SeenApproved(server.cfg, old(server.Abs()), turns, timeout, interval, id, polls) && server.pending[id].status == Approved
      ensures v == Stop(FlowError(FlowTimeout)) ==> monotonic >= old(monotonic) + timeout
      ensures v != Stop(FlowError(FlowTimeout)) ==> polls >= 1 && Heeded(turns(polls), v)
      ensures forall k :: 1 <= k <= polls && (k < polls || v == Stop(FlowError(FlowTimeout))) ==> Heeded(turns(k), Again)
      ensures honest && v.Stop? ==>
        Settled(server.Abs(), provider.rows, device, from, id, v.outcome, turns(polls).serverNow) && !v.outcome.TokenGranted? &&
        !Grants(server.cfg, old(server.Abs()), turns, timeout, interval, id, nonce)
    {
      ghost var s := server.Abs();
      NothingPolled(server.cfg, s, turns, interval, id);
      assert interval > 0 && timeout > 0 && Extends(server.log, server.log);
      hide *;
      var start := monotonic;
      var deadline := start + timeout;
      polls := 0;
      while monotonic < deadline
        invariant Valid() && Extends(server.log, old(server.log)) && polls <= CeilDiv(timeout, interval)
        invariant monotonic >= start && Polled(server.cfg, s, server.Abs(), turns, interval, id, polls, monotonic - start, honest)
        invariant honest ==> Opened(server.Abs(), from, id, nonce)
        invariant polls == 0 ==> monotonic == start
        invariant forall k :: 1 <= k <= polls ==> Heeded(turns(k), Again)
        decreases deadline - monotonic
      {
        ghost var t, log, spent := server.Abs(), server.log, monotonic - start;
        polls := polls + 1;
        v := PollOnce(id, nonce, turns(polls), from, honest);
        ExtendsOn(server.log, log, old(server.log));
        PolledNext(server.cfg, s, t, server.Abs(), turns, timeout, interval, id, nonce, polls - 1, spent, honest);
        if !v.Again? {
          return;
        }
        monotonic := monotonic + interval;
      }
      v := Stop(FlowError(FlowTimeout));
      if honest {
        NotPolledInTime(server.cfg, s, server.Abs(), turns, timeout, interval, id, nonce, polls, monotonic - start);
        TimedOutSettles(server.cfg, s, server.Abs(), turns, interval, id, polls, monotonic - start, provider.rows, device, from);
      }
    }

    /**
     The poll loop and the claim that may end it.  Against the App's own manager it returns a token exactly
     if some poll grants it.
     */
    method PollAndClaim(id: string, nonce: string, turns: nat -> Turn, ghost from: nat, ghost honest: bool)
      returns (outcome: Outcome, effort: Effort)
      requires Valid()
      requires honest ==> Opened(server.Abs(), from, id, nonce)
      requires honest ==> forall k :: turns(k).instead.None? && AllForeign(turns(k).host, nonce)
      modifies this`monotonic, server, provider
      ensures Valid() && Extends(server.log, old(server.log))
      ensures effort.requests == 1 && effort.polls <= CeilDiv(timeout, interval) && effort.claims <= 1
      ensures outcome == FlowError(FlowTimeout) ==> monotonic >= old(monotonic) + timeout
      ensures forall k :: 1 <= k < effort.polls ==> Heeded(turns(k), Again)
      ensures effort.claims == 1 ==>
        && effort.polls >= 1 && Heeded(turns(effort.polls), ToClaim)
        && (var x := turns(effort.polls + 1).instead; x.Some? ==> outcome == OnClaim(x.value))
      ensures effort.claims == 0 ==>
        && (outcome != FlowError(FlowTimeout) ==> effort.polls >= 1 && Heeded(turns(effort.polls), Stop(outcome)))
        && (outcome == FlowError(FlowTimeout) && effort.polls >= 1 ==> Heeded(turns(effort.polls), Again))
      ensures honest ==>
        Settled(server.Abs(), provider.rows, device, from, id, outcome, turns(effort.polls + effort.claims).serverNow)
      ensures honest ==>
        (outcome.TokenGranted? <==> Grants(server.cfg, old(server.Abs()), turns, timeout, interval, id, nonce))
    {
      hide Grants, SeenApproved, ClaimCaseOf, Settled, Hosted, Opened, Inv, CeilDiv, After, AllForeign;
      var v, polls := PollUntilVerdict(id, nonce, turns, from, honest);
      if v.Stop? {
        outcome, effort := v.outcome, Effort(1, polls, 0);
      } else {
        if honest {
          GrantedAtIff(server.cfg, old(server.Abs()), turns, timeout, interval, id, nonce, polls);
        }
        outcome := ClaimNow(id, nonce, turns(polls + 1), from, honest);
        effort := Effort(1, polls, 1);
      }
    }

    /**
     `authorize`: request, poll until a verdict or the deadline, claim.  The effort bounds hold whatever
     replies arrive.  When all replies are the App's own, the transaction settles: the three
     invalid-response errors cannot happen, a returned token was approved for this very request between
     its request and its claim, and a token is returned exactly if some poll grants it.
     */
    method Authorize(ask: Ask, turns: nat -> Turn, freshId: string, code: string, auto: Approval)
      returns (outcome: Outcome, effort: Effort, ghost from: nat)
      requires Valid()
      requires forall k :: AllForeign(turns(k).host, ask.nonce)
      requires Fortunate(After(server.cfg, server.Abs(), turns(0).host), ask.nonce, freshId, auto)
      modifies this`monotonic, server, provider
      ensures Valid() && Extends(server.log, old(server.log)) && |old(server.log)| <= from
      ensures effort.requests == 1 && effort.polls <= CeilDiv(timeout, interval) && effort.claims <= 1
      ensures outcome == FlowError(FlowTimeout) ==> monotonic >= old(monotonic) + turns(0).elapsed + timeout
      ensures turns(0).instead.Some? && turns(0).instead.value.Error? ==>
        var x := turns(0).instead.value;
        effort == Effort(1, 0, 0) && outcome == if x.statusCode in {401, 403} then AuthError(x.code) else HttpError(x.statusCode)
      ensures turns(0).instead.Some? && turns(0).instead.value.Ok? ==>
        var body := turns(0).instead.value.body;
        ((forall id :: Says(body, "requestId", id) ==> id == "") <==> effort.polls == 0 && outcome == FlowError(InvalidRequestResponse))
      ensures forall k :: 1 <= k < effort.polls ==> Heeded(turns(k), Again)
      ensures effort.claims == 1 ==>
        && effort.polls >= 1 && Heeded(turns(effort.polls), ToClaim)
        && (var x := turns(effort.polls + 1).instead; x.Some? ==> outcome == OnClaim(x.value))
      ensures effort.claims == 0 && effort.polls >= 1 ==>
        Heeded(turns(effort.polls), if outcome == FlowError(FlowTimeout) then Again else Stop(outcome))
      ensures (forall k :: turns(k).instead.None?) ==>
        Settled(server.Abs(), provider.rows, device, from, freshId, outcome, turns(effort.polls + effort.claims).serverNow)
      ensures (forall k :: turns(k).instead.None?) ==>
        var requested := AskFor(server.cfg, After(server.cfg, old(server.Abs()), turns(0).host), ask, turns(0).serverNow,
                             None, freshId, code, auto);
        outcome.TokenGranted? <==>
        Grants(server.cfg, requested, turns, timeout, interval, freshId, ask.nonce)
    {
      hide AskFor, Grants;
      hide Inv, After, Fortunate, Settled, CeilDiv;
      Await(turns(0));
      from := |server.log|;
      var r := AuthRequest(ask, turns(0), freshId, code, auto);
      var requestId := RequestIdOf(r);
      if r.Ok? {
        NoRequestIdIff(r);
      }
      if requestId.None? {
        outcome := if r.Error? then OutcomeOfError(r.statusCode, r.code) else FlowError(InvalidRequestResponse);
        effort := Effort(1, 0, 0);
      } else {
        outcome, effort := PollAndClaim(requestId.value, ask.nonce, turns, from, forall k :: turns(k).instead.None?);
      }
    }

    /** One protected call: the stored token goes out as a bearer header, a refusal may clear it. */
    method ProtectedCall(turn: Turn, clientNow: Instant) returns (sent: Option<string>, d: Decision)
      requires Valid()
      modifies this`monotonic, server, provider
      ensures Valid() && server.Abs() == After(server.cfg, old(server.Abs()), turn.host) && Extends(server.log, old(server.log))
      ensures sent == HeaderToken(old(provider.rows), device, clientNow)
      ensures d == Decide(server.Abs(), sent, turn.serverNow)
      ensures provider.rows ==
        if d in {Refused(InvalidToken), Refused(TokenExpired), Refused(TokenRevoked)} then old(provider.rows) - {device}
        else old(provider.rows)
      ensures device !in old(provider.rows) ==> sent == None && d == Refused(AuthorizationRequired)
    {
      hide Inv, After;
      Await(turn);
      var token := provider.GetToken(device, clientNow);
      sent := if token.None? || token.value == "" then None else BearerToken(Some("Bearer " + token.value));
      d := server.Authorize(sent, turn.serverNow);
      if d.Refused? && Clears(d.code) {
        provider.ClearToken(device);
      }
    }

    /**
     `_run_protected`: the operation, and exactly on a refusal that authorization can cure one authorization
     and, if that gives a token, one retry.  Against the App itself the retry carries the token just claimed, unless the client's own
     clock already has it expired, and is accepted exactly when that grant is still valid.
     */
    method RunProtected(first: Turn, firstNow: Instant, ask: Ask, turns: nat -> Turn, again: Turn, againNow: Instant,
                        freshId: string, code: string, auto: Approval)
      returns (d: Decision, firstAnswer: Decision, authorized: Option<Outcome>, runs: nat, ghost from: nat)
      requires Valid()
      requires forall k :: AllForeign(turns(k).host, ask.nonce)
      requires Fortunate(After(server.cfg, After(server.cfg, server.Abs(), first.host), turns(0).host), ask.nonce, freshId, auto)
      modifies this`monotonic, server, provider
      ensures Valid() && Extends(server.log, old(server.log))
      ensures 1 <= runs <= 2 && (runs == 2 <==> authorized.Some? && authorized.value.TokenGranted?)
      ensures var reached := After(server.cfg, old(server.Abs()), first.host);
        firstAnswer == Decide(reached, HeaderToken(old(provider.rows), device, firstNow), first.serverNow)
      ensures authorized.Some? <==>
        firstAnswer in {Refused(AuthorizationRequired), Refused(InvalidToken), Refused(TokenExpired), Refused(TokenRevoked)}
      ensures device !in old(provider.rows) ==> authorized.Some? && firstAnswer == Refused(AuthorizationRequired)
      ensures runs == 1 ==> d == firstAnswer
      ensures runs == 2 && (forall k :: turns(k).instead.None?) ==>
        var token, tokenId := authorized.value.token, authorized.value.tokenId;
        && Proven(server.log, from, freshId, token, tokenId)
        && tokenId in server.tokens
        && (againNow < server.tokens[tokenId].expiresAt ==>
              (d == Authorized <==> exists i: nat :: ValidGrant(server.log, i, token, again.serverNow)))
        && (againNow >= server.tokens[tokenId].expiresAt ==> d == Refused(AuthorizationRequired))
    {
      hide Inv, After, Fortunate, Proven;
      authorized, runs, from := None, 1, 0;
      var sent: Option<string>;
      sent, d := ProtectedCall(first, firstNow);
      firstAnswer := d;
      if d.Refused? && Reauthorizes(d.code) {
        var outcome, effort, requestedAt := Authorize(ask, turns, freshId, code, auto);
        authorized, from := Some(outcome), requestedAt;
        if outcome.TokenGranted? {
          ghost var s, rows := server.Abs(), provider.rows;
          sent, d := ProtectedCall(again, againNow);
          runs := 2;
          if forall k :: turns(k).instead.None? {
            RetryCarriesGrant(server.cfg, s, server.Abs(), rows, device, from, freshId, outcome,
                             turns(effort.polls + effort.claims).serverNow, again, againNow);
          }
        }
      }
    }
  }
}
