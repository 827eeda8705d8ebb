/**
 The authorizer over a store that is mirrored to a file: manager calls whose write may fail, and restarts
 that read the file back.  A restart loses the pending requests, whatever was not written, and what has
 expired; the history is cut back with it, so that `live.log` is at any time what the process in memory
 still stands for, and `saved.log` what the file stands for.
 */
module AuthRestart {
  import opened Wrappers
  import opened DebugAuth
  import opened AuthManager
  import opened AuthStore

  /** `saved` is the manager's state at the last write that reached the file. */
  datatype World = World(live: State, file: File, saved: State, horizon: Option<Instant>)

  const START := World(INITIAL, Absent, INITIAL, None)

  /** A call with the file it wrote, if its write succeeded; a restart with the file it rewrote, if any. */
  datatype Move = Call(call: AuthManager.Call, written: Option<File>) | Restart(now: Instant, rewritten: Option<File>)

  /** The calls that write the token group: a grant, and any revocation, even of an unknown token. */
  predicate Writes(cfg: Config, s: State, c: AuthManager.Call)
    requires AuthManager.Enabled(cfg, s, c)
  {
    match c
    case CallApprove(_, _, _) => true
    case CallRevoke(_, _) => true
    case CallRevokeAll(_) => true
    case CallRequest(ask, now, found, freshId, code, auto) => Grants(cfg, s, ask, now, found, freshId, code)
    case _ => false
  }

  /** A request that the auto policy approves at once. */
  predicate Grants(cfg: Config, s: State, ask: Ask, now: Instant, found: Option<string>, freshId: string, code: string)
  {
    cfg.autoApprove && Approvable(Ensure(cfg, s, ask, now, found, freshId, code), Target(s, now, found, freshId))
  }

  /** Token ids are fresh in the whole history, also where their records have expired. */
  predicate FreshId(s: State, c: AuthManager.Call)
  {
    match c
    case CallApprove(_, _, a) => a.tokenId !in s.mintedAt
    case CallRequest(_, _, _, _, _, a) => a.tokenId !in s.mintedAt
    case _ => true
  }

  function Loaded(file: File, now: Instant): TokenMap { LoadInto(map[], ReadBack(file), now) }

  ghost predicate Enabled(cfg: Config, w: World, m: Move)
  {
    match m
    case Call(c, written) =>
      && AuthManager.Enabled(cfg, w.live, c) && FreshId(w.live, c)
      && (written.Some? ==> Writes(cfg, w.live, c) && Holds(written.value, AuthManager.Take(cfg, w.live, c).tokens))
    case Restart(now, rewritten) =>
      rewritten.Some? ==> Drops(w.file, now) && Holds(rewritten.value, Loaded(w.file, now))
  }

  function Later(h: Option<Instant>, now: Instant): Option<Instant>
  {
    Some(if h.Some? && h.value > now then h.value else now)
  }

  function Restarted(w: World, now: Instant): State
  {
    State(map[], Loaded(w.file, now), w.saved.log, w.saved.mintedAt)
  }

  ghost function Take(cfg: Config, w: World, m: Move): World
    requires Enabled(cfg, w, m)
  {
    match m
    case Call(c, written) =>
      var t := AuthManager.Take(cfg, w.live, c);
      if written.Some? then World(t, written.value, t, w.horizon) else w.(live := t)
    case Restart(now, rewritten) =>
      var t := Restarted(w, now);
      if rewritten.Some? then World(t, rewritten.value, t, Later(w.horizon, now))
      else w.(live := t, horizon := Later(w.horizon, now))
  }

  ghost function Next(cfg: Config, w: World, m: Move): World { if Enabled(cfg, w, m) then Take(cfg, w, m) else w }

  ghost function Run(cfg: Config, moves: seq<Move>): World
  {
    if moves == [] then START else Next(cfg, Run(cfg, moves[..|moves| - 1]), moves[|moves| - 1])
  }

  // ---------------------------------------------------------------- tokens against the history

  predicate Since(h: Option<Instant>, now: Instant) { h.None? || h.value <= now }

  /** As in a process that never stopped, but that a record is gone if it had expired at some restart. */
  ghost predicate TokensHold(s: State, h: Option<Instant>)
  {
    && s.tokens.Keys <= s.mintedAt.Keys
    && (forall id :: id in s.mintedAt ==> IsGrant(s.log, s.mintedAt[id], id))
    && (forall id :: id in s.tokens ==> TokenMatchesLog(s, id))
    && (forall id :: id in s.mintedAt && id !in s.tokens ==> h.Some? && s.log[s.mintedAt[id]].expiresAt < h.value)
    && GrantsIndexed(s)
    && HashesDistinct(s.tokens)
  }

  ghost predicate Inv(w: World)
  {
    && TokensHold(w.live, w.horizon) && TokensHold(w.saved, w.horizon)
    && Holds(w.file, w.saved.tokens) && w.saved.log <= w.live.log
  }

  lemma IdsAgree(s: State, h: Option<Instant>)
    requires TokensHold(s, h)
    ensures TokenIdsAgree(s.tokens)
  {
    forall id | id in s.tokens ensures s.tokens[id].tokenId == id {
      assert TokenMatchesLog(s, id);
    }
  }

  /** Entries that grant nothing leave every token's story as it was, but for a revocation. */
  lemma QuietKeeps(s: State, t: State, e: Entry, h: Option<Instant>)
    requires TokensHold(s, h) && t.log == s.log + [e] && t.mintedAt == s.mintedAt && !e.Granted?
    requires t.tokens.Keys == s.tokens.Keys
    requires forall id :: id in s.tokens ==>
      t.tokens[id] == (if Revokes(e, id) then s.tokens[id].(revokedAt := t.tokens[id].revokedAt) else s.tokens[id])
      && (Revokes(e, id) ==> t.tokens[id].revokedAt.Some?)
    ensures TokensHold(t, h) && s.log <= t.log
  {
    hide TokenMatchesLog, HashesDistinct, GrantsIndexed, IsGrant, RevokedAfter;
    QuietIndexes(s, t, e, h);
    HashesKept(s.tokens, t.tokens);
    forall id | id in t.tokens ensures TokenMatchesLog(t, id) {
      assert TokenMatchesLog(s, id);
      QuietMatches(s, t, e, id);
    }
  }

  lemma HashesKept(a: TokenMap, b: TokenMap)
    requires HashesDistinct(a) && a.Keys == b.Keys && forall id :: id in a ==> b[id].tokenHash == a[id].tokenHash
    ensures HashesDistinct(b)
  {
  }

  lemma QuietMatches(s: State, t: State, e: Entry, id: string)
    requires t.log == s.log + [e] && t.mintedAt == s.mintedAt
    requires id in s.tokens && id in t.tokens && id in s.mintedAt && TokenMatchesLog(s, id)
    requires t.tokens[id] == if Revokes(e, id) then s.tokens[id].(revokedAt := t.tokens[id].revokedAt) else s.tokens[id]
    requires Revokes(e, id) ==> t.tokens[id].revokedAt.Some?
    ensures TokenMatchesLog(t, id)
  {
    RevokedAfterGrows(s.log, e, s.mintedAt[id], id);
  }

  lemma QuietIndexes(s: State, t: State, e: Entry, h: Option<Instant>)
    requires TokensHold(s, h) && t.log == s.log + [e] && t.mintedAt == s.mintedAt && !e.Granted?
    requires t.tokens.Keys == s.tokens.Keys
    ensures GrantsIndexed(t)
    ensures forall id :: id in t.mintedAt ==> IsGrant(t.log, t.mintedAt[id], id)
    ensures forall id :: id in t.mintedAt && id !in t.tokens ==> h.Some? && t.log[t.mintedAt[id]].expiresAt < h.value
  {
    hide TokenMatchesLog, HashesDistinct, Sendable;
  }

  lemma GrantMatches(cfg: Config, s: State, requestId: string, now: Instant, a: Approval, id: string)
    requires requestId in s.pending && a.tokenId !in s.mintedAt
    requires id == a.tokenId || (id in s.tokens && id in s.mintedAt && TokenMatchesLog(s, id))
    ensures var t := ApproveIn(cfg, s, requestId, now, a);
      id in t.tokens && id in t.mintedAt && TokenMatchesLog(t, id)
  {
    var t := ApproveIn(cfg, s, requestId, now, a);
    if id == a.tokenId {
      assert IsGrant(t.log, |s.log|, id) && !RevokedAfter(t.log, |s.log|, id);
    } else {
      RevokedAfterGrows(s.log, t.log[|s.log|], s.mintedAt[id], id);
    }
  }

  lemma GrantIndexes(cfg: Config, s: State, requestId: string, now: Instant, a: Approval, h: Option<Instant>)
    requires TokensHold(s, h) && requestId in s.pending && FreshToken(s, a) && a.tokenId !in s.mintedAt
    ensures var t := ApproveIn(cfg, s, requestId, now, a);
      && GrantsIndexed(t) && t.tokens.Keys <= t.mintedAt.Keys
      && (forall id :: id in t.mintedAt ==> IsGrant(t.log, t.mintedAt[id], id))
      && (forall id :: id in t.mintedAt && id !in t.tokens ==> h.Some? && t.log[t.mintedAt[id]].expiresAt < h.value)
  {
    hide TokenMatchesLog, HashesDistinct, Sendable, HasHash;
    BearerRoundTrip(a.part);
  }

  lemma GrantKeeps(cfg: Config, s: State, requestId: string, now: Instant, a: Approval, h: Option<Instant>)
    requires TokensHold(s, h) && requestId in s.pending && FreshToken(s, a) && a.tokenId !in s.mintedAt
    ensures var t := ApproveIn(cfg, s, requestId, now, a); TokensHold(t, h) && s.log <= t.log
  {
    var t := ApproveIn(cfg, s, requestId, now, a);
    GrantIndexes(cfg, s, requestId, now, a, h);
    FreshHashKeepsDistinct(s.tokens, a.tokenId, t.tokens[a.tokenId]);
    hide TokenMatchesLog, HashesDistinct, HasHash, GrantsIndexed, IsGrant;
    forall id | id in t.tokens ensures TokenMatchesLog(t, id) {
      GrantMatches(cfg, s, requestId, now, a, id);
    }
  }

  lemma AskKeeps(cfg: Config, s: State, ask: Ask, now: Instant, found: Option<string>, freshId: string, code: string,
                 auto: Approval, h: Option<Instant>)
    requires TokensHold(s, h) && FreshToken(s, auto) && auto.tokenId !in s.mintedAt
    ensures var t := AskFor(cfg, s, ask, now, found, freshId, code, auto);
      TokensHold(t, h) && s.log <= t.log && (!Grants(cfg, s, ask, now, found, freshId, code) ==> t.tokens == s.tokens)
  {
    var t := Ensure(cfg, s, ask, now, found, freshId, code);
    if Target(s, now, found, freshId) == freshId {
      QuietKeeps(s, t, Requested(freshId), h);
    }
    var id := Target(s, now, found, freshId);
    if cfg.autoApprove && Approvable(t, id) {
      hide TokensHold;
      GrantKeeps(cfg, t, id, now, auto.(ttl := None, client := t.pending[id].clientLabel), h);
    }
  }

  lemma ClaimKeeps(s: State, requestId: string, nonce: string, now: Instant, h: Option<Instant>)
    requires TokensHold(s, h)
    ensures var t := Claim(s, requestId, nonce, now); TokensHold(t, h) && s.log <= t.log && t.tokens == s.tokens
  {
    if ClaimCaseOf(s, requestId, nonce, now) == Claimable {
      var t := Claim(s, requestId, nonce, now);
      QuietKeeps(s, t, t.log[|s.log|], h);
    }
  }

  lemma ApproveKeeps(cfg: Config, s: State, requestId: string, now: Instant, a: Approval, h: Option<Instant>)
    requires TokensHold(s, h) && Approvable(s, requestId) && FreshToken(s, a) && a.tokenId !in s.mintedAt
    ensures var t := ApproveIn(cfg, s, requestId, now, a); TokensHold(t, h) && s.log <= t.log
  {
    GrantKeeps(cfg, s, requestId, now, a, h);
  }

  lemma DenyKeeps(s: State, requestId: string, reason: Option<string>, h: Option<Instant>)
    requires TokensHold(s, h) && requestId in s.pending
    ensures var t := DenyIn(s, requestId, reason); TokensHold(t, h) && s.log <= t.log && t.tokens == s.tokens
  {
    hide TokensHold;
    QuietKeeps(s, DenyIn(s, requestId, reason), Turned(requestId), h);
  }

  lemma RevokeOneKeeps(s: State, tokenId: string, now: Instant, h: Option<Instant>)
    requires TokensHold(s, h)
    ensures var t := RevokeOne(s, tokenId, now); TokensHold(t, h) && s.log <= t.log
  {
    hide TokensHold;
    QuietKeeps(s, RevokeOne(s, tokenId, now), Revoked(tokenId), h);
  }

  lemma RevokeAllKeeps(s: State, now: Instant, h: Option<Instant>)
    requires TokensHold(s, h)
    ensures var t := RevokeAll(s, now); TokensHold(t, h) && s.log <= t.log
  {
    hide TokensHold;
    QuietKeeps(s, RevokeAll(s, now), RevokedAll, h);
  }

  /** A manager call keeps the history true; one that writes nothing leaves the tokens as they are. */
  lemma CallKeeps(cfg: Config, s: State, c: AuthManager.Call, h: Option<Instant>)
    requires TokensHold(s, h) && AuthManager.Enabled(cfg, s, c) && FreshId(s, c)
    ensures var t := AuthManager.Take(cfg, s, c);
      TokensHold(t, h) && s.log <= t.log && (!Writes(cfg, s, c) ==> t.tokens == s.tokens)
  {
    hide TokensHold, FreshToken, NonceLookup, AskFor, Grants, Claim, ApproveIn, DenyIn, RevokeOne, RevokeAll, Approvable;
    match c
    case CallRequest(ask, now, found, freshId, code, auto) => AskKeeps(cfg, s, ask, now, found, freshId, code, auto, h);
    case CallClaim(requestId, nonce, now) => ClaimKeeps(s, requestId, nonce, now, h);
    case CallApprove(requestId, now, a) => ApproveKeeps(cfg, s, requestId, now, a, h);
    case CallDeny(requestId, reason) => DenyKeeps(s, requestId, reason, h);
    case CallRevoke(tokenId, now) => RevokeOneKeeps(s, tokenId, now, h);
    case CallRevokeAll(now) => RevokeAllKeeps(s, now, h);
  }

  lemma HoldsLater(s: State, h: Option<Instant>, now: Instant)
    requires TokensHold(s, h)
    ensures TokensHold(s, Later(h, now))
  {
  }

  /** The tokens of a restarted process are the saved ones that had not expired. */
  lemma RestartKeeps(w: World, now: Instant)
    requires Inv(w)
    ensures Restarted(w, now).tokens == Unexpired(w.saved.tokens, now)
    ensures TokensHold(Restarted(w, now), Later(w.horizon, now))
  {
    IdsAgree(w.saved, w.horizon);
    RestartRebuilds(w.file, w.saved.tokens, now);
    var s, t := w.saved, Restarted(w, now);
    forall id | id in t.tokens ensures TokenMatchesLog(t, id) {
      assert TokenMatchesLog(s, id);
    }
    forall id | id in t.mintedAt && id !in t.tokens
      ensures t.log[t.mintedAt[id]].expiresAt < Later(w.horizon, now).value
    {
      if id in s.tokens {
        assert TokenMatchesLog(s, id);
      }
    }
  }

  lemma MoveKeepsInv(cfg: Config, w: World, m: Move)
    requires Inv(w) && Enabled(cfg, w, m)
    ensures Inv(Take(cfg, w, m))
  {
    match m
    case Call(c, written) =>
      CallKeeps(cfg, w.live, c, w.horizon);
      hide TokensHold, Holds, AuthManager.Take, AuthManager.Enabled;
    case Restart(now, rewritten) =>
      RestartKeeps(w, now);
      HoldsLater(w.saved, w.horizon, now);
      hide TokensHold, Holds, Drops;
  }

  lemma {:induction false} InvAlways(cfg: Config, moves: seq<Move>)
    ensures Inv(Run(cfg, moves))
  {
    if moves != [] {
      var n := |moves| - 1;
      InvAlways(cfg, moves[..n]);
      if Enabled(cfg, Run(cfg, moves[..n]), moves[n]) {
        MoveKeepsInv(cfg, Run(cfg, moves[..n]), moves[n]);
      }
    } else {
      assert ReadBack(Absent) == [];
    }
  }

  // ---------------------------------------------------------------- who is accepted

  /** A grant that has not expired since the last restart still has its record. */
  lemma ValidHasRecord(s: State, h: Option<Instant>, i: nat, now: Instant)
    requires TokensHold(s, h) && Since(h, now) && i < |s.log| && s.log[i].Granted? && now < s.log[i].expiresAt
    ensures var id := s.log[i].tokenId;
      && id in s.tokens && id in s.mintedAt && s.mintedAt[id] == i && TokenMatchesLog(s, id)
      && s.tokens[id].tokenHash == TokenHash(s.log[i].token)
  {
  }

  lemma AcceptedHere(s: State, h: Option<Instant>, token: string, now: Instant)
    requires TokensHold(s, h) && Since(h, now)
    ensures Decide(s, Some(token), now) == Authorized <==> exists i: nat :: ValidGrant(s.log, i, token, now)
  {
    var hash := TokenHash(token);
    if Decide(s, Some(token), now) == Authorized {
      var id :| id in s.tokens && s.tokens[id] == ByHash(s.tokens, hash).value;
      assert TokenMatchesLog(s, id);
      assert ValidGrant(s.log, s.mintedAt[id], token, now);
    }
    if i: nat :| ValidGrant(s.log, i, token, now) {
      ValidHasRecord(s, h, i, now);
      var id := s.log[i].tokenId;
      assert Sendable(token);
      assert ByHash(s.tokens, hash) == Some(s.tokens[id]);
    }
  }

  /**
   Bearer validity over runs with failing writes and any number of restarts: a token is accepted exactly
   when the history the process stands for grants it, does not revoke it, and it has not expired.
   */
  lemma {:induction false} AcceptedIffGranted(cfg: Config, moves: seq<Move>, token: string, now: Instant)
    requires Since(Run(cfg, moves).horizon, now)
    ensures Decide(Run(cfg, moves).live, Some(token), now) == Authorized <==>
            exists i: nat :: ValidGrant(Run(cfg, moves).live.log, i, token, now)
  {
    InvAlways(cfg, moves);
    var w := Run(cfg, moves);
    hide Run, TokensHold;
    AcceptedHere(w.live, w.horizon, token, now);
  }

  /** A restart after any run accepts exactly what the history up to the last successful write grants. */
  lemma {:induction false} RestartAcceptsSaved(cfg: Config, moves: seq<Move>, restart: Instant, token: string, now: Instant)
    requires Since(Run(cfg, moves).horizon, now) && restart <= now
    ensures var w := Run(cfg, moves);
      Decide(Restarted(w, restart), Some(token), now) == Authorized <==>
      exists i: nat :: ValidGrant(w.saved.log, i, token, now)
  {
    InvAlways(cfg, moves);
    var w := Run(cfg, moves);
    hide Run, TokensHold;
    RestartKeeps(w, restart);
    AcceptedHere(Restarted(w, restart), Later(w.horizon, restart), token, now);
  }

  // ---------------------------------------------------------------- what the file holds

  /** The move writes the token group only if the write reaches the file. */
  ghost predicate Written(cfg: Config, w: World, m: Move)
  {
    Enabled(cfg, w, m) ==>
      match m
      case Call(c, written) => Writes(cfg, w.live, c) ==> written.Some?
      case Restart(now, rewritten) => Drops(w.file, now) ==> rewritten.Some?
  }

  lemma NothingDropped(w: World, now: Instant)
    requires Inv(w) && !Drops(w.file, now)
    ensures Restarted(w, now).tokens == w.saved.tokens
  {
    RestartKeeps(w, now);
    forall id | id in w.saved.tokens ensures !(w.saved.tokens[id].expiresAt < now) {
      assert w.saved.tokens[id] in ReadBack(w.file);
    }
  }

  lemma WrittenMove(cfg: Config, w: World, m: Move)
    requires Inv(w) && Enabled(cfg, w, m) && Written(cfg, w, m) && w.live.tokens == w.saved.tokens
    ensures Take(cfg, w, m).live.tokens == Take(cfg, w, m).saved.tokens
  {
    match m
    case Call(c, written) =>
      CallKeeps(cfg, w.live, c, w.horizon);
    case Restart(now, rewritten) =>
      if rewritten.None? {
        NothingDropped(w, now);
      }
  }

  ghost predicate AllWritten(cfg: Config, moves: seq<Move>)
  {
    forall k :: 0 <= k < |moves| ==> Written(cfg, Run(cfg, moves[..k]), moves[k])
  }

  lemma AllWrittenPrefix(cfg: Config, moves: seq<Move>, n: nat)
    requires AllWritten(cfg, moves) && n <= |moves|
    ensures AllWritten(cfg, moves[..n])
  {
    forall k | 0 <= k < n ensures Written(cfg, Run(cfg, moves[..n][..k]), moves[..n][k]) {
      assert moves[..n][..k] == moves[..k];
    }
  }

  /** With every write reaching the file, the file decodes to the token map in memory after any run. */
  lemma {:induction false} FileHoldsMemory(cfg: Config, moves: seq<Move>)
    requires AllWritten(cfg, moves)
    ensures var w := Run(cfg, moves); w.live.tokens == w.saved.tokens && Holds(w.file, w.live.tokens)
  {
    InvAlways(cfg, moves);
    MemoryIsSaved(cfg, moves);
    hide Run, AllWritten, Holds, TokensHold;
  }

  lemma {:induction false} MemoryIsSaved(cfg: Config, moves: seq<Move>)
    requires AllWritten(cfg, moves)
    ensures Run(cfg, moves).live.tokens == Run(cfg, moves).saved.tokens
  {
    hide Inv, Enabled, Written, Take;
    if moves != [] {
      var n := |moves| - 1;
      assert Written(cfg, Run(cfg, moves[..n]), moves[n]);
      AllWrittenPrefix(cfg, moves, n);
      MemoryIsSaved(cfg, moves[..n]);
      InvAlways(cfg, moves[..n]);
      if Enabled(cfg, Run(cfg, moves[..n]), moves[n]) {
        WrittenMove(cfg, Run(cfg, moves[..n]), moves[n]);
      }
    }
  }

  /** With every write reaching the file, a restart changes for no token whether it is accepted. */
  lemma {:induction false} RestartKeepsWhoIsAccepted(cfg: Config, moves: seq<Move>, restart: Instant, token: string, now: Instant)
    requires AllWritten(cfg, moves) && Since(Run(cfg, moves).horizon, now) && restart <= now
    ensures var w := Run(cfg, moves);
      Decide(Restarted(w, restart), Some(token), now) == Authorized <==> Decide(w.live, Some(token), now) == Authorized
  {
    InvAlways(cfg, moves);
    MemoryIsSaved(cfg, moves);
    RestartAcceptsSaved(cfg, moves, restart, token, now);
    var w := Run(cfg, moves);
    hide Run, AllWritten, TokensHold, Holds;
    AcceptedHere(w.saved, w.horizon, token, now);
  }

  /** The file was written by this move. */
  predicate Wrote(m: Move)
  {
    match m
    case Call(_, written) => written.Some?
    case Restart(_, rewritten) => rewritten.Some?
  }

  /** The `k`-th move took place and wrote the file. */
  ghost predicate WroteAt(cfg: Config, moves: seq<Move>, k: nat)
    requires k < |moves|
  {
    Enabled(cfg, Run(cfg, moves[..k]), moves[k]) && Wrote(moves[k])
  }

  lemma WroteAtPrefix(cfg: Config, moves: seq<Move>, n: nat, k: nat)
    requires k < n <= |moves|
    ensures WroteAt(cfg, moves[..n], k) <==> WroteAt(cfg, moves, k)
  {
    assert moves[..n][..k] == moves[..k] && moves[..n][k] == moves[k];
  }

  lemma SavedByWrites(cfg: Config, moves: seq<Move>)
    requires moves != []
    ensures var n := |moves| - 1;
      Run(cfg, moves).saved == if WroteAt(cfg, moves, n) then Run(cfg, moves).live else Run(cfg, moves[..n]).saved
  {
    hide Enabled;
  }

  /** How many moves it took up to the last one that wrote the file. */
  ghost function LastWrite(cfg: Config, moves: seq<Move>): (j: nat)
    ensures j <= |moves|
  {
    if moves == [] then 0
    else if WroteAt(cfg, moves, |moves| - 1) then |moves|
    else LastWrite(cfg, moves[..|moves| - 1])
  }

  lemma {:induction false} NoWriteSince(cfg: Config, moves: seq<Move>, k: nat)
    requires LastWrite(cfg, moves) <= k < |moves|
    ensures !WroteAt(cfg, moves, k)
  {
    hide WroteAt;
    var n := |moves| - 1;
    if k < n {
      NoWriteSince(cfg, moves[..n], k);
      WroteAtPrefix(cfg, moves, n, k);
    }
  }

  lemma {:induction false} SavedAtLastWrite(cfg: Config, moves: seq<Move>)
    ensures Run(cfg, moves).saved == Run(cfg, moves[..LastWrite(cfg, moves)]).live
  {
    NothingRun(cfg);
    hide Run, WroteAt;
    if moves == [] {
      assert moves[..0] == [];
    } else {
      var n, j := |moves| - 1, LastWrite(cfg, moves);
      SavedByWrites(cfg, moves);
      if WroteAt(cfg, moves, n) {
        assert moves[..j] == moves;
      } else {
        SavedAtLastWrite(cfg, moves[..n]);
        assert moves[..n][..j] == moves[..j];
      }
    }
  }

  lemma NothingRun(cfg: Config)
    ensures Run(cfg, []).saved == Run(cfg, []).live
  {
  }

  /** After any run the file decodes to the tokens of the state right after the last move that wrote it. */
  lemma {:induction false} FileHoldsLastWrite(cfg: Config, moves: seq<Move>)
    ensures var j := LastWrite(cfg, moves);
      && Run(cfg, moves).saved == Run(cfg, moves[..j]).live && Holds(Run(cfg, moves).file, Run(cfg, moves[..j]).live.tokens)
      && forall k :: j <= k < |moves| ==> !WroteAt(cfg, moves, k)
  {
    InvAlways(cfg, moves);
    SavedAtLastWrite(cfg, moves);
    hide Run, Holds, TokensHold, WroteAt, LastWrite;
    forall k | LastWrite(cfg, moves) <= k < |moves| ensures !WroteAt(cfg, moves, k) {
      NoWriteSince(cfg, moves, k);
    }
  }

  // ---------------------------------------------------------------- what a restart changes

  lemma RevokedInPrefix(log: seq<Entry>, longer: seq<Entry>, i: nat)
    requires log <= longer && i < |log|
    ensures log[i].Granted? ==>
      (RevokedAfter(longer, i, log[i].tokenId) <==>
       RevokedAfter(log, i, log[i].tokenId) || RevokedSince(longer, |log|, log[i].tokenId))
  {
    if log[i].Granted? {
      var id := log[i].tokenId;
      if RevokedAfter(longer, i, id) {
        var j :| i < j < |longer| && Revokes(longer[j], id);
        assert j < |log| ==> Revokes(log[j], id);
      }
      if RevokedAfter(log, i, id) {
        var j :| i < j < |log| && Revokes(log[j], id);
        assert Revokes(longer[j], id);
      }
    }
  }

  predicate RevokedSince(log: seq<Entry>, n: nat, tokenId: string)
  {
    exists j :: n <= j < |log| && Revokes(log[j], tokenId)
  }

  /** Two unexpired grants of one token text are one grant. */
  lemma OneGrant(s: State, h: Option<Instant>, i: nat, j: nat, now: Instant)
    requires TokensHold(s, h) && Since(h, now) && i < |s.log| && j < |s.log| && s.log[i].Granted? && s.log[j].Granted?
    requires s.log[i].token == s.log[j].token && now < s.log[i].expiresAt && now < s.log[j].expiresAt
    ensures i == j
  {
    ValidHasRecord(s, h, i, now);
    ValidHasRecord(s, h, j, now);
  }

  /** A restart brings a refused token back exactly if a saved grant of it was revoked and no write since succeeded. */
  lemma {:induction false} RevivedIff(cfg: Config, moves: seq<Move>, restart: Instant, token: string, now: Instant)
    requires Since(Run(cfg, moves).horizon, now) && restart <= now
    ensures var w := Run(cfg, moves);
      Decide(w.live, Some(token), now) != Authorized && Decide(Restarted(w, restart), Some(token), now) == Authorized <==>
      exists i: nat :: ValidGrant(w.saved.log, i, token, now) && RevokedSince(w.live.log, |w.saved.log|, w.saved.log[i].tokenId)
  {
    InvAlways(cfg, moves);
    AcceptedIffGranted(cfg, moves, token, now);
    RestartAcceptsSaved(cfg, moves, restart, token, now);
    RevivedLogs(Run(cfg, moves), token, now);
  }

  lemma RevivedLogs(w: World, token: string, now: Instant)
    requires Inv(w) && Since(w.horizon, now)
    ensures !(exists i: nat :: ValidGrant(w.live.log, i, token, now)) && (exists i: nat :: ValidGrant(w.saved.log, i, token, now))
       <==> exists i: nat :: ValidGrant(w.saved.log, i, token, now) &&
                             RevokedSince(w.live.log, |w.saved.log|, w.saved.log[i].tokenId)
  {
    hide TokensHold, Holds;
    forall i: nat | ValidGrant(w.saved.log, i, token, now)
      ensures ValidGrant(w.live.log, i, token, now) <==> !RevokedSince(w.live.log, |w.saved.log|, w.saved.log[i].tokenId)
      ensures forall j: nat :: ValidGrant(w.live.log, j, token, now) ==> j == i
    {
      RevokedInPrefix(w.saved.log, w.live.log, i);
      forall j: nat | ValidGrant(w.live.log, j, token, now) ensures j == i {
        OneGrant(w.live, w.horizon, i, j, now);
      }
    }
  }

  /** A restart refuses an accepted token exactly if it was granted after the last successful write. */
  lemma {:induction false} ForgottenIff(cfg: Config, moves: seq<Move>, restart: Instant, token: string, now: Instant)
    requires Since(Run(cfg, moves).horizon, now) && restart <= now
    ensures var w := Run(cfg, moves);
      Decide(w.live, Some(token), now) == Authorized && Decide(Restarted(w, restart), Some(token), now) != Authorized <==>
      exists i: nat :: i >= |w.saved.log| && ValidGrant(w.live.log, i, token, now)
  {
    InvAlways(cfg, moves);
    AcceptedIffGranted(cfg, moves, token, now);
    RestartAcceptsSaved(cfg, moves, restart, token, now);
    ForgottenLogs(Run(cfg, moves), token, now);
  }

  lemma ForgottenLogs(w: World, token: string, now: Instant)
    requires Inv(w) && Since(w.horizon, now)
    ensures (exists i: nat :: ValidGrant(w.live.log, i, token, now)) && !(exists i: nat :: ValidGrant(w.saved.log, i, token, now))
       <==> exists i: nat :: i >= |w.saved.log| && ValidGrant(w.live.log, i, token, now)
  {
    hide TokensHold, Holds;
    forall i: nat | ValidGrant(w.live.log, i, token, now)
      ensures i < |w.saved.log| ==> ValidGrant(w.saved.log, i, token, now)
      ensures forall j: nat :: ValidGrant(w.saved.log, j, token, now) ==> j == i
    {
      if i < |w.saved.log| {
        RevokedInPrefix(w.saved.log, w.live.log, i);
      }
      forall j: nat | ValidGrant(w.saved.log, j, token, now) ensures j == i {
        OneGrant(w.live, w.horizon, j, i, now);
      }
    }
  }

  // ---------------------------------------------------------------- a run that revives a token

  lemma Then(cfg: Config, moves: seq<Move>, m: Move) returns (longer: seq<Move>)
    ensures longer == moves + [m] && Run(cfg, longer) == Next(cfg, Run(cfg, moves), m)
  {
    longer := moves + [m];
    assert longer[..|longer| - 1] == moves;
  }

  const PLAIN := Config(300, 604800, false)

  const GRANT := Approval(None, None, "", "t")

  lemma OneRecord(id: string, r: TokenRecord)
    requires r.tokenId == id
    ensures Holds(Document(EncodeTokens([r])), map[id := r])
  {
    TokensRoundTrip([r]);
  }

  /** Request and approve, both well. */
  lemma GrantedAndSaved() returns (moves: seq<Move>)
    ensures var w := Run(PLAIN, moves);
      && w.live == w.saved && w.horizon == None
      && w.live.log == [Requested("r"), Granted("r", "t", "dcp_", 604801)] && "t" in w.live.tokens
  {
    var ask := Ask("n", None, None, None);
    moves := Then(PLAIN, [], Call(CallRequest(ask, 0, None, "r", "p", GRANT), None));
    var s := Run(PLAIN, moves).live;
    assert s.pending == map["r" := Fresh(PLAIN, ask, "r", "p", 0)] && s.log == [Requested("r")] && s.tokens == map[];
    var r := TokenRecord("t", TokenHash("dcp_"), 1, 604801, None, None);
    OneRecord("t", r);
    assert MintedText("") == "dcp_";
    assert ApproveIn(PLAIN, s, "r", 1, GRANT).tokens == map["t" := r];
    moves := Then(PLAIN, moves, Call(CallApprove("r", 1, GRANT), Some(Document(EncodeTokens([r])))));
  }

  /** One write that fails is enough: the revoked token is refused, and accepted again after a restart. */
  lemma FailedWriteRevivesToken() returns (moves: seq<Move>)
    ensures Decide(Run(PLAIN, moves).live, Some("dcp_"), 3) != Authorized
    ensures Decide(Restarted(Run(PLAIN, moves), 3), Some("dcp_"), 3) == Authorized
  {
    moves := GrantedAndSaved();
    var before := Run(PLAIN, moves);
    moves := Then(PLAIN, moves, Call(CallRevoke("t", 2), None));
    var w := Run(PLAIN, moves);
    assert w.saved == before.saved && w.live.log == before.live.log + [Revoked("t")];
    assert ValidGrant(w.saved.log, 1, "dcp_", 3);
    assert Revokes(w.live.log[2], "t");
    RevivedIff(PLAIN, moves, 3, "dcp_", 3);
  }

  // ---------------------------------------------------------------- the store object in such a run

  /** The record a call grants, if any. */
  ghost function GrantedBy(cfg: Config, s: State, c: AuthManager.Call): Option<TokenRecord>
    requires AuthManager.Enabled(cfg, s, c)
  {
    var t := AuthManager.Take(cfg, s, c);
    match c
    case CallApprove(_, _, a) => Some(t.tokens[a.tokenId])
    case CallRequest(_, _, _, _, _, a) => if Writes(cfg, s, c) && a.tokenId in t.tokens then Some(t.tokens[a.tokenId]) else None
    case _ => None
  }

  /** The store's part of a manager call: what it writes, and whether it reached the file. */
  method ServeThroughStore(store: FileBackedPluginDebugAuthStore, ghost cfg: Config, ghost w: World, c: AuthManager.Call,
                           granted: Option<TokenRecord>, diskOk: bool)
    returns (ghost written: Option<File>)
    requires Inv(w) && AuthManager.Enabled(cfg, w.live, c) && FreshId(w.live, c)
    requires store.tokens == w.live.tokens && store.file == w.file
    requires granted == GrantedBy(cfg, w.live, c)
    modifies store
    ensures Enabled(cfg, w, Call(c, written)) && (written.Some? <==> diskOk && Writes(cfg, w.live, c))
    ensures var next := Take(cfg, w, Call(c, written)); store.tokens == next.live.tokens && store.file == next.file
  {
    IdsAgree(w.live, w.horizon);
    CallKeeps(cfg, w.live, c, w.horizon);
    hide Inv, TokensHold, Holds, FreshToken, NonceLookup, Approvable, Grants, AskFor, ApproveIn, GrantedBy;
    if granted.Some? {
      store.PutToken(granted.value, diskOk);
    } else {
      match c
      case CallRevoke(tokenId, now) => store.MarkRevoked(tokenId, now, diskOk);
      case CallRevokeAll(now) => store.MarkAllRevoked(now, diskOk);
      case _ =>
    }
    written := if diskOk && Writes(cfg, w.live, c) then Some(store.file) else None;
  }

  /** A new store over the file is the restarted process. */
  method Reopen(file: File, now: Instant, diskOk: bool, ghost cfg: Config, ghost w: World)
    returns (store: FileBackedPluginDebugAuthStore, ghost rewritten: Option<File>)
    requires Inv(w) && file == w.file
    ensures Enabled(cfg, w, Restart(now, rewritten)) && (rewritten.Some? <==> diskOk && Drops(w.file, now))
    ensures var next := Take(cfg, w, Restart(now, rewritten)); store.tokens == next.live.tokens && store.file == next.file
  {
    store := new FileBackedPluginDebugAuthStore(map[], file, now, diskOk);
    rewritten := if diskOk && Drops(file, now) then Some(store.file) else None;
  }
}
