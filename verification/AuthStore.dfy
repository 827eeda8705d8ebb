/**
 The persistent token store: every token write is mirrored to one JSON document, which a restart
 reads back, dropping what has expired.  Pending requests are never written.  The file is kept as the JSON
 tree org.json makes of its text; rename is atomic, and a write may fail, leaving the file as it was.
 */
module AuthStore {
  import opened Wrappers
  import opened Text
  import opened OrderedJson
  import opened DebugAuth
  import AuthManager

  type TokenMap = map<string, TokenRecord>

  datatype File = Absent | Blank | Garbage | Document(root: Json)

  // ---------------------------------------------------------------- text of an instant

  /** Stands for the ISO text of an instant: any text that can be read back. */
  function InstantText(t: Instant): string { DecimalInt(t) }

  function ParseInstant(s: string): Option<Instant>
  {
    match ParseInt(s) case Ok(Int(i), "") => Some(i) case _ => None
  }

  lemma InstantRoundTrip(t: Instant)
    ensures ParseInstant(InstantText(t)) == Some(t)
  {
    var n := if t < 0 then -t else t;
    NatReadsBack(n, "");
    DecimalRoundTrip(n);
    assert Decimal(n) + "" == Decimal(n);
    if t < 0 {
      assert ("-" + Decimal(n))[1..] == Decimal(n);
    } else {
      assert IsDigit(Decimal(n)[0]);
    }
  }

  // ---------------------------------------------------------------- encode and parse

  function Optional(o: Option<string>): Json { if o.Some? then Str(o.value) else Null }

  function EncodeRecord(r: TokenRecord): Json
  {
    Map([Member("tokenId", Str(r.tokenId)),
         Member("tokenHash", Str(r.tokenHash.text)),
         Member("createdAt", Str(InstantText(r.createdAt))),
         Member("expiresAt", Str(InstantText(r.expiresAt))),
         Member("revokedAt", if r.revokedAt.Some? then Str(InstantText(r.revokedAt.value)) else Null),
         Member("clientLabel", Optional(r.clientLabel))])
  }

  function EncodeTokens(records: seq<TokenRecord>): Json
  {
    Map([Member("version", Int(1)),
         Member("tokens", List(EncodeRecords(records)))])
  }

  function Get(members: seq<Member>, key: string): Option<Json>
  {
    if members == [] then None
    else if members[0].key == key then Some(members[0].value)
    else Get(members[1..], key)
  }

  function GetString(members: seq<Member>, key: string): Option<string>
  {
    match Get(members, key) case Some(Str(s)) => Some(s) case _ => None
  }

  /** A string field that may be absent or null: the outer option is the thrown error. */
  function GetOptional(members: seq<Member>, key: string): Option<Option<string>>
  {
    match Get(members, key)
    case None => Some(None)
    case Some(Null) => Some(None)
    case Some(Str(s)) => Some(Some(s))
    case _ => None
  }

  function GetInstant(members: seq<Member>, key: string): Option<Instant>
  {
    match GetString(members, key) case Some(s) => ParseInstant(s) case None => None
  }

  function GetOptionalInstant(members: seq<Member>, key: string): Option<Option<Instant>>
  {
    match GetOptional(members, key)
    case None => None
    case Some(None) => Some(None)
    case Some(Some(s)) => if ParseInstant(s).Some? then Some(ParseInstant(s)) else None
  }

  function ParseRecord(entry: Json): Option<TokenRecord>
  {
    match entry
    case Map(ms) =>
      var id, hash := GetString(ms, "tokenId"), GetString(ms, "tokenHash");
      var created, expires := GetInstant(ms, "createdAt"), GetInstant(ms, "expiresAt");
      var revoked, client := GetOptionalInstant(ms, "revokedAt"), GetOptional(ms, "clientLabel");
      if id.Some? && hash.Some? && created.Some? && expires.Some? && revoked.Some? && client.Some? then
        Some(TokenRecord(id.value, Digest(hash.value), created.value, expires.value, revoked.value, client.value))
      else None
    case _ => None
  }

  function ParseRecords(items: seq<Json>): Option<seq<TokenRecord>>
  {
    if items == [] then Some([])
    else
      match (ParseRecord(items[0]), ParseRecords(items[1..]))
      case (Some(r), Some(rs)) => Some([r] + rs)
      case _ => None
  }

  /** `parseTokens`; None where it throws. */
  function ParseTokens(root: Json): Option<seq<TokenRecord>>
  {
    match root
    case Map(ms) =>
      if Get(ms, "version") != Some(Int(1)) then None
      else (match Get(ms, "tokens") case Some(List(items)) => ParseRecords(items) case _ => Some([]))
    case _ => None
  }

  // ---------------------------------------------------------------- files others wrote

  /** The entry holds this text under the key. */
  predicate HoldsText(members: seq<Member>, key: string, text: string) { Get(members, key) == Some(Str(text)) }

  /** The entry holds an instant as text under the key. */
  ghost predicate HoldsInstant(members: seq<Member>, key: string, t: Instant)
  {
    exists text :: HoldsText(members, key, text) && ParseInstant(text) == Some(t)
  }

  /** The key is absent or null. */
  predicate HoldsNothing(members: seq<Member>, key: string) { Get(members, key) in {None, Some(Null)} }

  /**
   Whatever the file holds: an entry is read as this record exactly if it is an object with these two texts
   and two instants, and with the other two fields as given or absent.
   */
  lemma RecordReadIff(entry: Json, r: TokenRecord)
    ensures ParseRecord(entry) == Some(r) <==>
      && entry.Map?
      && HoldsText(entry.members, "tokenId", r.tokenId) && HoldsText(entry.members, "tokenHash", r.tokenHash.text)
      && HoldsInstant(entry.members, "createdAt", r.createdAt) && HoldsInstant(entry.members, "expiresAt", r.expiresAt)
      && (match r.revokedAt
          case Some(t) => HoldsInstant(entry.members, "revokedAt", t)
          case None => HoldsNothing(entry.members, "revokedAt"))
      && (match r.clientLabel
          case Some(text) => HoldsText(entry.members, "clientLabel", text)
          case None => HoldsNothing(entry.members, "clientLabel"))
  {
    if entry.Map? {
      var ms := entry.members;
      InstantFieldIff(ms, "createdAt", r.createdAt);
      InstantFieldIff(ms, "expiresAt", r.expiresAt);
      OptionalFieldIff(ms, "clientLabel");
      OptionalInstantIff(ms, "revokedAt", if r.revokedAt.Some? then r.revokedAt.value else 0);
      hide ParseInstant, Get, GetInstant, GetOptional, GetOptionalInstant, HoldsInstant, HoldsNothing;
    }
  }

  lemma InstantFieldIff(members: seq<Member>, key: string, t: Instant)
    ensures GetInstant(members, key) == Some(t) <==> HoldsInstant(members, key, t)
  {
    hide ParseInstant, Get;
    if GetInstant(members, key).Some? {
      assert HoldsText(members, key, GetString(members, key).value);
    }
  }

  lemma OptionalFieldIff(members: seq<Member>, key: string)
    ensures GetOptional(members, key) == Some(None) <==> HoldsNothing(members, key)
    ensures forall text :: GetOptional(members, key) == Some(Some(text)) <==> HoldsText(members, key, text)
  {
    hide Get;
  }

  lemma OptionalInstantIff(members: seq<Member>, key: string, t: Instant)
    ensures GetOptionalInstant(members, key) == Some(None) <==> HoldsNothing(members, key)
    ensures GetOptionalInstant(members, key) == Some(Some(t)) <==> HoldsInstant(members, key, t)
  {
    OptionalFieldIff(members, key);
    hide ParseInstant, Get, GetOptional, HoldsNothing;
    if GetOptional(members, key).Some? && GetOptional(members, key).value.Some? {
      assert HoldsText(members, key, GetOptional(members, key).value.value);
    }
  }

  /** A list of entries is read completely or not at all. */
  lemma {:induction false} EntriesReadIff(items: seq<Json>, records: seq<TokenRecord>)
    ensures ParseRecords(items) == Some(records) <==>
      |items| == |records| && forall k :: 0 <= k < |items| ==> ParseRecord(items[k]) == Some(records[k])
  {
    hide ParseRecord;
    if items != [] {
      if records != [] {
        EntriesReadIff(items[1..], records[1..]);
        assert items[1..] == items[1..] && records == [records[0]] + records[1..];
        assert forall k :: 1 <= k < |items| ==> items[1..][k - 1] == items[k];
        assert forall k :: 1 <= k < |records| ==> records[1..][k - 1] == records[k];
      }
    }
  }

  /** A document of another version is refused, one without a list of entries holds none. */
  lemma DocumentRead(root: Json)
    ensures ParseTokens(root).Some? ==> root.Map? && Get(root.members, "version") == Some(Int(1))
    ensures root.Map? && Get(root.members, "version") == Some(Int(1)) ==>
      match Get(root.members, "tokens")
      case Some(List(items)) => ParseTokens(root) == ParseRecords(items)
      case _ => ParseTokens(root) == Some([])
  {
    hide Get, ParseRecords;
  }

  /** What a load makes of a file: the records of a document that can be read, else nothing. */
  lemma FileRead(file: File)
    ensures file.Document? && ParseTokens(file.root).Some? ==> ReadBack(file) == ParseTokens(file.root).value
    ensures !file.Document? || ParseTokens(file.root).None? ==> ReadBack(file) == []
  {
  }

  lemma GetAt(members: seq<Member>, k: nat)
    requires k < |members| && forall i :: 0 <= i < k ==> members[i].key != members[k].key
    ensures Get(members, members[k].key) == Some(members[k].value)
  {
    if k > 0 {
      GetAt(members[1..], k - 1);
    }
  }

  lemma RecordFields(r: TokenRecord)
    ensures var ms := EncodeRecord(r).members;
      && Get(ms, "tokenId") == Some(Str(r.tokenId)) && Get(ms, "tokenHash") == Some(Str(r.tokenHash.text))
      && Get(ms, "createdAt") == Some(Str(InstantText(r.createdAt)))
      && Get(ms, "expiresAt") == Some(Str(InstantText(r.expiresAt)))
      && Get(ms, "revokedAt") == Some(if r.revokedAt.Some? then Str(InstantText(r.revokedAt.value)) else Null)
      && Get(ms, "clientLabel") == Some(Optional(r.clientLabel))
  {
    hide Get, InstantText;
    var ms := EncodeRecord(r).members;
    var id, hash, created, expires := "tokenId", "tokenHash", "createdAt", "expiresAt";
    var revoked := "revokedAt";
    assert hash[0] == 't' && created[0] == 'c' && expires[0] == 'e' && revoked[0] == 'r';
    GetAt(ms, 0);
    GetAt(ms, 1);
    GetAt(ms, 2);
    GetAt(ms, 3);
    GetAt(ms, 4);
    GetAt(ms, 5);
  }

  lemma RecordRoundTrip(r: TokenRecord)
    ensures ParseRecord(EncodeRecord(r)) == Some(r)
  {
    hide Get, InstantText, ParseInstant;
    RecordFields(r);
    InstantRoundTrip(r.createdAt);
    InstantRoundTrip(r.expiresAt);
    if r.revokedAt.Some? {
      InstantRoundTrip(r.revokedAt.value);
    }
  }

  function EncodeRecords(records: seq<TokenRecord>): seq<Json>
  {
    seq(|records|, k requires 0 <= k < |records| => EncodeRecord(records[k]))
  }

  lemma EncodeRecordsCons(records: seq<TokenRecord>)
    requires records != []
    ensures EncodeRecords(records) == [EncodeRecord(records[0])] + EncodeRecords(records[1..])
  {
  }

  lemma ParseRecordsCons(item: Json, items: seq<Json>, r: TokenRecord, rs: seq<TokenRecord>)
    requires ParseRecord(item) == Some(r) && ParseRecords(items) == Some(rs)
    ensures ParseRecords([item] + items) == Some([r] + rs)
  {
    hide ParseRecord;
    assert ([item] + items)[1..] == items;
  }

  lemma {:induction false} RecordsRoundTrip(records: seq<TokenRecord>)
    ensures ParseRecords(EncodeRecords(records)) == Some(records)
  {
    if records != [] {
      hide EncodeRecord, ParseRecord, EncodeRecords, ParseRecords;
      var r, rest := records[0], records[1..];
      assert records == [r] + rest;
      EncodeRecordsCons(records);
      RecordRoundTrip(r);
      RecordsRoundTrip(rest);
      ParseRecordsCons(EncodeRecord(r), EncodeRecords(rest), r, rest);
    } else {
      assert EncodeRecords(records) == [];
    }
  }

  lemma TokensRoundTrip(records: seq<TokenRecord>)
    ensures ParseTokens(EncodeTokens(records)) == Some(records)
  {
    var ms := EncodeTokens(records).members;
    assert ms[0].key == "version" && ms[1].key == "tokens";
    GetAt(ms, 0);
    GetAt(ms, 1);
    RecordsRoundTrip(records);
  }

  /** The text of a token file, quoted by either org.json, is one JSON value that parses back to the records written. */
  lemma TokenFileReadsBack(lib: OrgJson, records: seq<TokenRecord>)
    ensures match OrderedJson.Parse(Encode(lib, EncodeTokens(records)))
      case Ok(root, rest) => rest == "" && ParseTokens(root) == Some(records)
      case _ => false
  {
    DocumentReadsBack(lib, EncodeTokens(records));
    TokensRoundTrip(records);
  }

  // ---------------------------------------------------------------- load

  /** What `load` adds to a working set: the records that are not expired, in file order. */
  function LoadInto(working: TokenMap, records: seq<TokenRecord>, now: Instant): TokenMap
    decreases records
  {
    if records == [] then working
    else
      var r := records[0];
      LoadInto(if r.expiresAt < now then working else working[r.tokenId := r], records[1..], now)
  }

  /** Some record of the file has expired, so that a load drops it and writes the rest back. */
  predicate Drops(file: File, now: Instant)
  {
    exists j :: 0 <= j < |ReadBack(file)| && ReadBack(file)[j].expiresAt < now
  }

  function ReadBack(file: File): seq<TokenRecord>
  {
    match file
    case Document(root) => (match ParseTokens(root) case Some(rs) => rs case None => [])
    case _ => []
  }

  /** A snapshot lists exactly the records of the map, each once, in some order. */
  ghost predicate IsSnapshot(tokens: TokenMap, records: seq<TokenRecord>)
  {
    && (forall k :: 0 <= k < |records| ==> records[k].tokenId in tokens && tokens[records[k].tokenId] == records[k])
    && (forall i, j :: 0 <= i < j < |records| ==> records[i].tokenId != records[j].tokenId)
    && (forall id :: id in tokens ==> tokens[id] in records)
  }

  /** The file decodes to this token map. */
  ghost predicate Holds(file: File, tokens: TokenMap) { IsSnapshot(tokens, ReadBack(file)) }

  lemma {:induction false} LoadSelects(working: TokenMap, records: seq<TokenRecord>, now: Instant, id: string)
    requires forall i, j :: 0 <= i < j < |records| ==> records[i].tokenId != records[j].tokenId
    ensures var loaded := LoadInto(working, records, now);
      && (forall k :: 0 <= k < |records| && records[k].tokenId == id && !(records[k].expiresAt < now) ==>
            id in loaded && loaded[id] == records[k])
      && ((forall k :: 0 <= k < |records| && records[k].tokenId == id ==> records[k].expiresAt < now) ==>
            (id in loaded <==> id in working) && (id in working ==> loaded[id] == working[id]))
    decreases records
  {
    if records != [] {
      var r := records[0];
      var next := if r.expiresAt < now then working else working[r.tokenId := r];
      LoadSelects(next, records[1..], now, id);
      assert forall k :: 0 <= k < |records[1..]| ==> records[1..][k] == records[k + 1];
    }
  }

  lemma RestartRebuildsOne(file: File, tokens: TokenMap, now: Instant, id: string)
    requires Holds(file, tokens) && TokenIdsAgree(tokens)
    ensures var loaded := LoadInto(map[], ReadBack(file), now);
      (id in loaded <==> id in tokens && !(tokens[id].expiresAt < now)) && (id in loaded ==> loaded[id] == tokens[id])
  {
    var records := ReadBack(file);
    hide LoadInto, ReadBack;
    LoadSelects(map[], records, now, id);
    if id in tokens {
      var k :| 0 <= k < |records| && records[k] == tokens[id];
      assert records[k].tokenId in tokens && tokens[records[k].tokenId] == records[k];
    }
  }

  function Unexpired(tokens: TokenMap, now: Instant): TokenMap
  {
    map id | id in tokens && !(tokens[id].expiresAt < now) :: tokens[id]
  }

  /** A restart at `now` rebuilds the persisted map without its expired records. */
  lemma RestartRebuilds(file: File, tokens: TokenMap, now: Instant)
    requires Holds(file, tokens) && TokenIdsAgree(tokens)
    ensures LoadInto(map[], ReadBack(file), now) == Unexpired(tokens, now)
  {
    var loaded := LoadInto(map[], ReadBack(file), now);
    forall id ensures (id in loaded <==> id in Unexpired(tokens, now)) && (id in loaded ==> loaded[id] == tokens[id]) {
      RestartRebuildsOne(file, tokens, now, id);
    }
  }

  ghost predicate TokenIdsAgree(tokens: TokenMap) { forall id :: id in tokens ==> tokens[id].tokenId == id }

  /**
   From the restart on, the reloaded store accepts exactly the bearer tokens the persisted map
   accepts; only the refusal of a dropped token changes its name, to invalid_token.
   */
  lemma RestartAcceptsTheSame(file: File, tokens: TokenMap, restart: Instant, token: string, now: Instant)
    requires Holds(file, tokens) && TokenIdsAgree(tokens) && AuthManager.HashesDistinct(tokens) && restart <= now
    ensures var loaded := LoadInto(map[], ReadBack(file), restart);
      var h := TokenHash(token);
      var before := ValidateToken(Some(token), AuthManager.ByHash(tokens, h), now);
      var after := ValidateToken(Some(token), AuthManager.ByHash(loaded, h), now);
      && (after == Authorized <==> before == Authorized)
      && (after != before ==> after == Refused(InvalidToken) && before in {Refused(TokenExpired), Refused(TokenRevoked)})
  {
    RestartRebuilds(file, tokens, restart);
    var loaded := LoadInto(map[], ReadBack(file), restart);
    var h := TokenHash(token);
    if AuthManager.HasHash(tokens, h) {
      var id :| id in tokens && tokens[id].tokenHash == h;
      assert AuthManager.ByHash(tokens, h) == Some(tokens[id]);
      if id in loaded {
        assert AuthManager.HasHash(loaded, h);
        assert AuthManager.ByHash(loaded, h) == Some(tokens[id]);
      } else {
        assert !AuthManager.HasHash(loaded, h);
      }
    } else {
      assert !AuthManager.HasHash(loaded, h);
    }
  }

  // ---------------------------------------------------------------- the store object

  class FileBackedPluginDebugAuthStore {
    var tokens: TokenMap
    var file: File

    /** Attach over a working set: load the file, drop what expired, and write the rest back if any was dropped. */
    constructor (working: TokenMap, file: File, now: Instant, diskOk: bool)
      requires TokenIdsAgree(working)
      ensures tokens == LoadInto(working, ReadBack(file), now) && TokenIdsAgree(tokens)
      ensures if diskOk && Drops(file, now) then Holds(this.file, tokens) else this.file == file
    {
      this.tokens := working;
      this.file := file;
      new;
      var records := ReadBack(file);
      var anyExpired := false;
      for k := 0 to |records|
        invariant this.file == file && TokenIdsAgree(tokens)
        invariant LoadInto(tokens, records[k..], now) == LoadInto(working, records, now)
        invariant anyExpired <==> exists j :: 0 <= j < k && records[j].expiresAt < now
      {
        assert records[k..][1..] == records[k + 1..];
        if records[k].expiresAt < now {
          anyExpired := true;
        } else {
          tokens := tokens[records[k].tokenId := records[k]];
        }
      }
      if anyExpired {
        var _ := Persist(diskOk);
      }
    }

    method Snapshot() returns (records: seq<TokenRecord>)
      requires TokenIdsAgree(tokens)
      ensures IsSnapshot(tokens, records)
    {
      records := [];
      var left := tokens.Keys;
      while left != {}
        invariant left <= tokens.Keys
        invariant forall k :: 0 <= k < |records| ==>
          records[k].tokenId in tokens && tokens[records[k].tokenId] == records[k] && records[k].tokenId !in left
        invariant forall i, j :: 0 <= i < j < |records| ==> records[i].tokenId != records[j].tokenId
        invariant forall id :: id in tokens && id !in left ==> tokens[id] in records
        decreases |left|
      {
        var id :| id in left;
        records := records + [tokens[id]];
        left := left - {id};
      }
    }

    /** Write the whole token set; a failed write changes nothing. */
    method Persist(diskOk: bool) returns (ghost records: seq<TokenRecord>)
      requires TokenIdsAgree(tokens)
      modifies this`file
      ensures if diskOk then Holds(file, tokens) else file == old(file)
    {
      var snapshot := Snapshot();
      records := snapshot;
      if diskOk {
        file := Document(EncodeTokens(snapshot));
        TokensRoundTrip(snapshot);
      }
    }

    method PutToken(record: TokenRecord, diskOk: bool)
      requires TokenIdsAgree(tokens)
      modifies this
      ensures tokens == old(tokens)[record.tokenId := record] && TokenIdsAgree(tokens)
      ensures if diskOk then Holds(file, tokens) else file == old(file)
    {
      tokens := tokens[record.tokenId := record];
      var _ := Persist(diskOk);
    }

    method MarkRevoked(tokenId: string, at: Instant, diskOk: bool)
      requires TokenIdsAgree(tokens)
      modifies this
      ensures tokens == if tokenId in old(tokens)
                        then old(tokens)[tokenId := AuthManager.MarkRevoked(old(tokens)[tokenId], at)]
                        else old(tokens)
      ensures TokenIdsAgree(tokens)
      ensures if diskOk then Holds(file, tokens) else file == old(file)
    {
      if tokenId in tokens {
        tokens := tokens[tokenId := AuthManager.MarkRevoked(tokens[tokenId], at)];
      }
      var _ := Persist(diskOk);
    }

    method MarkAllRevoked(at: Instant, diskOk: bool)
      requires TokenIdsAgree(tokens)
      modifies this
      ensures tokens == (map id | id in old(tokens) :: AuthManager.MarkRevoked(old(tokens)[id], at)) && TokenIdsAgree(tokens)
      ensures if diskOk then Holds(file, tokens) else file == old(file)
    {
      tokens := map id | id in tokens :: AuthManager.MarkRevoked(tokens[id], at);
      var _ := Persist(diskOk);
    }
  }
}
