/**
 The pure part of debug authorization: token records, token validation, bearer parsing and route
 classes.  The SHA-256 digest is an injective constructor, and an instant is an integer.
 */
module DebugAuth {
  import opened Wrappers
  import opened Text

  type Instant = int

  datatype Digest = Digest(text: string)

  function TokenHash(token: string): Digest { Digest(token) }

  datatype TokenRecord = TokenRecord(
    tokenId: string,
    tokenHash: Digest,
    createdAt: Instant,
    expiresAt: Instant,
    revokedAt: Option<Instant>,
    clientLabel: Option<string>)

  datatype AuthCode =
    | AuthorizationRequired
    | InvalidToken
    | TokenExpired
    | TokenRevoked
    | AuthorizationDenied

  datatype Decision = Authorized | Refused(code: AuthCode)

  function ValidateToken(token: Option<string>, record: Option<TokenRecord>, now: Instant): Decision
  {
    if token.None? || IsBlank(token.value) then Refused(AuthorizationRequired)
    else if record.None? then Refused(InvalidToken)
    else if record.value.revokedAt.Some? then Refused(TokenRevoked)
    else if now >= record.value.expiresAt then Refused(TokenExpired)
    else if TokenHash(token.value) != record.value.tokenHash then Refused(InvalidToken)
    else Authorized
  }

  // ---------------------------------------------------------------- bearer header

  function BearerToken(headerValue: Option<string>): Option<string>
  {
    if headerValue.None? || !("Bearer " <= headerValue.value) then None
    else
      var token := headerValue.value[7..];
      if IsBlank(token) || exists k :: 0 <= k < |token| && IsWhitespace(token[k]) then None
      else Some(token)
  }

  /** A header carries a token exactly if it is the scheme, one space, and a text without any white space. */
  lemma BearerIff(header: string, token: string)
    ensures BearerToken(Some(header)) == Some(token) <==>
      header == "Bearer " + token && token != "" && forall k :: 0 <= k < |token| ==> !IsWhitespace(token[k])
    ensures BearerToken(None) == None
  {
    var scheme := "Bearer ";
    if scheme <= header {
      assert header == scheme + header[7..];
      assert header[7..] != "" ==> (IsBlank(header[7..]) ==> IsWhitespace(header[7..][0]));
    }
    assert (scheme + token)[7..] == token && scheme <= scheme + token;
    assert token != "" && IsBlank(token) ==> IsWhitespace(token[0]);
    hide IsWhitespace;
  }

  /** A token the manager can mint: the fixed prefix and hexadecimal digits. */
  predicate IsHexText(s: string) { forall k :: 0 <= k < |s| ==> HexValue(s[k]).Some? }

  function MintedText(part: string): string { "dcp_" + part }

  /** The token text survives the Authorization header unchanged. */
  predicate Sendable(token: string) { token != "" && BearerToken(Some("Bearer " + token)) == Some(token) && !IsBlank(token) }

  lemma BearerRoundTrip(part: string)
    requires IsHexText(part)
    ensures Sendable(MintedText(part))
  {
    var token := MintedText(part);
    assert ("Bearer " + token)[7..] == token;
    assert !IsWhitespace(token[0]);
    forall k | 0 <= k < |token| ensures !IsWhitespace(token[k]) {
      assert k >= 4 ==> HexValue(token[k]) == HexValue(part[k - 4]);
    }
  }
}
