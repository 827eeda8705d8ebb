/**
 The order-preserving JSON printer, and an independent reader written from RFC 8259 to read it back.
 `JSONObject.quote` belongs to org.json, which differs between Android and the JVM artifact, so its
 escaping rule is a parameter and every theorem holds for both.
 */
module OrderedJson {
  import opened Wrappers
  import opened Text

  datatype Json =
    | Null
    | Bool(b: bool)
    | Int(i: int)
    | Str(s: string)
    | List(items: seq<Json>)
    | Map(members: seq<Member>)

  datatype Member = Member(key: string, value: Json)

  /** Which org.json quotes: the one bundled with Android, or the JVM artifact. */
  datatype OrgJson = Android | Reference

  // ---------------------------------------------------------------- printer

  function ShortEscape(c: char): Option<char>
  {
    match c as int
    case 0x08 => Some('b')
    case 0x09 => Some('t')
    case 0x0A => Some('n')
    case 0x0C => Some('f')
    case 0x0D => Some('r')
    case 0x22 => Some('"')
    case 0x5C => Some('\\')
    case _ => None
  }

  predicate HexEscaped(lib: OrgJson, c: char)
  {
    var n := c as int;
    n < 0x20 || (lib.Reference? && (0x80 <= n < 0xA0 || 0x2000 <= n < 0x2100))
  }

  predicate SlashEscaped(lib: OrgJson, previous: char) { lib.Android? || previous == '<' }

  function Escape(lib: OrgJson, previous: char, c: char): string
  {
    if ShortEscape(c).Some? then ['\\', ShortEscape(c).value]
    else if c == '/' && SlashEscaped(lib, previous) then "\\/"
    else if HexEscaped(lib, c) then "\\u" + Hex4(c as int)
    else [c]
  }

  function Escapes(lib: OrgJson, previous: char, s: string): string
    decreases s
  {
    if s == [] then "" else Escape(lib, previous, s[0]) + Escapes(lib, s[0], s[1..])
  }

  function Quote(lib: OrgJson, s: string): string { "\"" + Escapes(lib, '\0', s) + "\"" }

  /** A character neither org.json has a reason to escape, whatever stands before it, a slash aside. */
  predicate Plain(lib: OrgJson, c: char)
  {
    && c != '"' && c != '\\' && 0x20 <= c as int
    && match lib
       case Android => true
       case Reference => !(0x80 <= c as int <= 0x9F) && !(0x2000 <= c as int <= 0x20FF)
  }

  /** Android escapes every slash, the JVM artifact one that follows a `<`. */
  predicate PlainAt(lib: OrgJson, previous: char, c: char)
  {
    && Plain(lib, c)
    && match lib
       case Android => c != '/'
       case Reference => !(previous == '<' && c == '/')
  }

  /** The character that stands before position `i`, a given one at the start. */
  function Before(first: char, s: string, i: nat): char
    requires i <= |s|
  {
    if i == 0 then first else s[i - 1]
  }

  predicate AllPlain(lib: OrgJson, first: char, s: string)
  {
    forall i: nat :: i < |s| ==> PlainAt(lib, Before(first, s, i), s[i])
  }

  lemma EscapeIff(lib: OrgJson, previous: char, c: char)
    ensures PlainAt(lib, previous, c) ==> Escape(lib, previous, c) == [c]
    ensures !PlainAt(lib, previous, c) ==> |Escape(lib, previous, c)| > 1
  {
  }

  lemma AllPlainCons(lib: OrgJson, first: char, s: string)
    requires s != []
    ensures AllPlain(lib, first, s) <==> PlainAt(lib, first, s[0]) && AllPlain(lib, s[0], s[1..])
  {
    hide PlainAt;
    assert forall i: nat :: i < |s[1..]| ==> Before(s[0], s[1..], i) == Before(first, s, i + 1) && s[1..][i] == s[i + 1];
    if AllPlain(lib, first, s) {
      assert PlainAt(lib, Before(first, s, 0), s[0]);
    }
    if PlainAt(lib, first, s[0]) && AllPlain(lib, s[0], s[1..]) {
      forall i: nat | i < |s| ensures PlainAt(lib, Before(first, s, i), s[i]) {
        if i > 0 {
          assert PlainAt(lib, Before(s[0], s[1..], i - 1), s[1..][i - 1]);
        }
      }
    }
  }

  /** Escaping keeps a text exactly if all of it is plain, and lengthens it otherwise. */
  lemma {:induction false} EscapesIff(lib: OrgJson, previous: char, s: string)
    ensures if AllPlain(lib, previous, s) then Escapes(lib, previous, s) == s else |Escapes(lib, previous, s)| > |s|
    decreases s
  {
    if s != [] {
      EscapeIff(lib, previous, s[0]);
      EscapesIff(lib, s[0], s[1..]);
      AllPlainCons(lib, previous, s);
      hide Escape, AllPlain, PlainAt;
    }
  }

  /**
   A text is quoted by putting quotation marks around it, and nothing else, exactly if each of its
   characters is plain for the org.json in use and none is a slash that one escapes.
   */
  lemma QuotedAsItIsIff(lib: OrgJson, s: string)
    ensures Quote(lib, s) == "\"" + s + "\""
            <==> forall i: nat :: i < |s| ==> Plain(lib, s[i]) && (s[i] == '/' ==> SlashStays(lib, s, i))
  {
    EscapesIff(lib, '\0', s);
    Framed(Escapes(lib, '\0', s), s);
    hide Escapes, Plain;
    if forall i: nat :: i < |s| ==> Plain(lib, s[i]) && (s[i] == '/' ==> SlashStays(lib, s, i)) {
      forall i: nat | i < |s| ensures PlainAt(lib, Before('\0', s, i), s[i]) {
      }
    }
    if AllPlain(lib, '\0', s) {
      forall i: nat | i < |s| ensures Plain(lib, s[i]) && (s[i] == '/' ==> SlashStays(lib, s, i)) {
        assert PlainAt(lib, Before('\0', s, i), s[i]);
      }
    }
  }

  predicate SlashStays(lib: OrgJson, s: string, i: nat)
    requires i < |s|
  {
    lib.Reference? && (i == 0 || s[i - 1] != '<')
  }

  lemma Framed(a: string, b: string)
    ensures "\"" + a + "\"" == "\"" + b + "\"" <==> a == b
  {
    if "\"" + a + "\"" == "\"" + b + "\"" {
      assert a == ("\"" + a + "\"")[1..|"\"" + a + "\""| - 1];
      assert b == ("\"" + b + "\"")[1..|"\"" + b + "\""| - 1];
    }
  }

  /** The text `encodeOrdered` produces. */
  function Encode(lib: OrgJson, v: Json): string
    decreases v, 1
  {
    match v
    case Null => "null"
    case Bool(b) => if b then "true" else "false"
    case Int(i) => DecimalInt(i)
    case Str(s) => Quote(lib, s)
    case List(items) => "[" + EncodeItems(lib, items) + "]"
    case Map(members) => "{" + EncodeMembers(lib, members) + "}"
  }

  function EncodeItems(lib: OrgJson, items: seq<Json>): string
    decreases items, 0
  {
    if items == [] then ""
    else if |items| == 1 then Encode(lib, items[0])
    else Encode(lib, items[0]) + "," + EncodeItems(lib, items[1..])
  }

  function EncodeMember(lib: OrgJson, m: Member): string
    decreases m, 2
  {
    Quote(lib, m.key) + ":" + Encode(lib, m.value)
  }

  function EncodeMembers(lib: OrgJson, members: seq<Member>): string
    decreases members, 0
  {
    if members == [] then ""
    else if |members| == 1 then EncodeMember(lib, members[0])
    else EncodeMember(lib, members[0]) + "," + EncodeMembers(lib, members[1..])
  }

  lemma EncodeNonEmpty(lib: OrgJson, v: Json)
    ensures Encode(lib, v) != ""
  {
    if v.Int? {
      DecimalRoundTrip(if v.i < 0 then -v.i else v.i);
    }
  }

  lemma Associative(a: string, b: string, c: string)
    ensures (a + b) + c == a + (b + c)
  {
  }

  /** What the builder still has to receive once the first `k` items are in. */
  function ItemsTail(lib: OrgJson, items: seq<Json>, k: nat): string
    requires k <= |items|
  {
    if k == 0 then EncodeItems(lib, items)
    else if k < |items| then "," + EncodeItems(lib, items[k..])
    else ""
  }

  function MembersTail(lib: OrgJson, members: seq<Member>, k: nat): string
    requires k <= |members|
  {
    if k == 0 then EncodeMembers(lib, members)
    else if k < |members| then "," + EncodeMembers(lib, members[k..])
    else ""
  }

  lemma EncodeMemberIs(lib: OrgJson, m: Member)
    ensures EncodeMember(lib, m) == Quote(lib, m.key) + ":" + Encode(lib, m.value)
  {
  }

  lemma EncodeItemsCons(lib: OrgJson, items: seq<Json>)
    requires items != []
    ensures EncodeItems(lib, items)
            == Encode(lib, items[0]) + if |items| == 1 then "" else "," + EncodeItems(lib, items[1..])
  {
    if |items| > 1 {
      Associative(Encode(lib, items[0]), ",", EncodeItems(lib, items[1..]));
    }
  }

  lemma EncodeMembersCons(lib: OrgJson, members: seq<Member>)
    requires members != []
    ensures EncodeMembers(lib, members)
            == EncodeMember(lib, members[0]) + if |members| == 1 then "" else "," + EncodeMembers(lib, members[1..])
  {
    if |members| > 1 {
      Associative(EncodeMember(lib, members[0]), ",", EncodeMembers(lib, members[1..]));
    }
  }

  lemma ItemsTailStep(lib: OrgJson, items: seq<Json>, k: nat)
    requires k < |items|
    ensures ItemsTail(lib, items, k)
            == (if k > 0 then "," else "") + Encode(lib, items[k]) + ItemsTail(lib, items, k + 1)
  {
    EncodeItemsCons(lib, items[k..]);
    assert items[k..][1..] == items[k + 1..] && items[0..] == items;
    Associative(if k > 0 then "," else "", Encode(lib, items[k]), ItemsTail(lib, items, k + 1));
  }

  lemma MembersTailStep(lib: OrgJson, members: seq<Member>, k: nat)
    requires k < |members|
    ensures MembersTail(lib, members, k)
            == (if k > 0 then "," else "") + EncodeMember(lib, members[k]) + MembersTail(lib, members, k + 1)
  {
    EncodeMembersCons(lib, members[k..]);
    assert members[k..][1..] == members[k + 1..] && members[0..] == members;
    Associative(if k > 0 then "," else "", EncodeMember(lib, members[k]), MembersTail(lib, members, k + 1));
  }

  lemma Regroup(sb: string, comma: string, item: string, more: string)
    ensures sb + (comma + item + more) == ((sb + comma) + item) + more
  {
  }

  lemma ItemsTailStart(lib: OrgJson, items: seq<Json>)
    ensures ItemsTail(lib, items, 0) == EncodeItems(lib, items)
  {
  }

  lemma ItemsTailEnd(lib: OrgJson, items: seq<Json>)
    ensures ItemsTail(lib, items, |items|) == ""
  {
  }

  lemma MembersTailStart(lib: OrgJson, members: seq<Member>)
    ensures MembersTail(lib, members, 0) == EncodeMembers(lib, members)
  {
  }

  lemma MembersTailEnd(lib: OrgJson, members: seq<Member>)
    ensures MembersTail(lib, members, |members|) == ""
  {
  }

  /** `AnyToJson.encodeOrdered`: recursion by case, appending to a builder. */
  method EncodeOrdered(lib: OrgJson, v: Json) returns (text: string)
    ensures text == Encode(lib, v)
    decreases v, 1
  {
    match v
    case Null => text := "null";
    case Bool(b) => text := if b then "true" else "false";
    case Int(i) => text := DecimalInt(i);
    case Str(s) => text := Quote(lib, s);
    case List(items) => text := EncodeCollection(lib, items);
    case Map(members) => text := EncodeMap(lib, members);
  }

  method EncodeCollection(lib: OrgJson, items: seq<Json>) returns (text: string)
    ensures text == "[" + EncodeItems(lib, items) + "]"
    decreases items, 0
  {
    hide Encode, EncodeItems, ItemsTail;
    var sb := "[";
    ItemsTailStart(lib, items);
    for k := 0 to |items|
      invariant |sb| >= 1 && (|sb| > 1 <==> k > 0)
      invariant sb + ItemsTail(lib, items, k) == "[" + EncodeItems(lib, items)
    {
      var item := EncodeOrdered(lib, items[k]);
      EncodeNonEmpty(lib, items[k]);
      ItemsTailStep(lib, items, k);
      Regroup(sb, if k > 0 then "," else "", item, ItemsTail(lib, items, k + 1));
      if |sb| > 1 {
        sb := sb + ",";
      }
      sb := sb + item;
    }
    ItemsTailEnd(lib, items);
    assert sb + "" == sb;
    text := sb + "]";
  }

  method EncodeMap(lib: OrgJson, members: seq<Member>) returns (text: string)
    ensures text == "{" + EncodeMembers(lib, members) + "}"
    decreases members, 0
  {
    hide Encode, EncodeMembers, EncodeMember, MembersTail, Quote;
    var sb := "{";
    MembersTailStart(lib, members);
    for k := 0 to |members|
      invariant |sb| >= 1 && (|sb| > 1 <==> k > 0)
      invariant sb + MembersTail(lib, members, k) == "{" + EncodeMembers(lib, members)
    {
      assert members[k].value < members[k];
      var value := EncodeOrdered(lib, members[k].value);
      var member := Quote(lib, members[k].key) + ":" + value;
      EncodeMemberIs(lib, members[k]);
      MembersTailStep(lib, members, k);
      Regroup(sb, if k > 0 then "," else "", member, MembersTail(lib, members, k + 1));
      if |sb| > 1 {
        sb := sb + ",";
      }
      sb := sb + member;
    }
    MembersTailEnd(lib, members);
    assert sb + "" == sb;
    text := sb + "}";
  }

  // ---------------------------------------------------------------- reader

  datatype Parsed<+T> = Fail | Ok(value: T, rest: string)

  predicate IsJsonSpace(c: char) { c == ' ' || c == '\t' || c == '\n' || c == '\r' }

  function SkipSpace(s: string): (t: string)
    ensures |t| <= |s|
  {
    if s != [] && IsJsonSpace(s[0]) then SkipSpace(s[1..]) else s
  }

  function DigitRun(s: string): (n: nat)
    ensures n <= |s| && AllDigits(s[..n])
  {
    if s != [] && IsDigit(s[0]) then
      assert s[..1 + DigitRun(s[1..])] == [s[0]] + s[1..][..DigitRun(s[1..])];
      1 + DigitRun(s[1..])
    else 0
  }

  /** An integer of section 6 of RFC 8259; a fraction or an exponent is refused. */
  function ParseInt(s: string): (r: Parsed<Json>)
    ensures r.Ok? ==> |r.rest| < |s|
  {
    if s != [] && s[0] == '-' then
      match ParseNat(s[1..]) case Fail => Fail case Ok(n, rest) => Ok(Int(-(n as int)), rest)
    else
      match ParseNat(s) case Fail => Fail case Ok(n, rest) => Ok(Int(n), rest)
  }

  function ParseNat(s: string): (r: Parsed<nat>)
    ensures r.Ok? ==> |r.rest| < |s|
  {
    var n := DigitRun(s);
    if n == 0 || (n > 1 && s[0] == '0') then Fail
    else if n < |s| && (s[n] == '.' || s[n] == 'e' || s[n] == 'E') then Fail
    else Ok(DecimalValue(s[..n]), s[n..])
  }

  predicate IsHighSurrogate(n: nat) { 0xD800 <= n < 0xDC00 }
  predicate IsLowSurrogate(n: nat) { 0xDC00 <= n < 0xE000 }

  /** What follows a backslash inside a string, section 7 of RFC 8259. */
  function ParseEscape(s: string): (r: Parsed<char>)
    ensures r.Ok? ==> |r.rest| < |s|
  {
    if s == [] then Fail
    else match s[0]
      case '"' => Ok('"', s[1..])
      case '\\' => Ok('\\', s[1..])
      case '/' => Ok('/', s[1..])
      case 'b' => Ok(0x08 as char, s[1..])
      case 'f' => Ok(0x0C as char, s[1..])
      case 'n' => Ok('\n', s[1..])
      case 'r' => Ok('\r', s[1..])
      case 't' => Ok('\t', s[1..])
      case 'u' => ParseUnicodeEscape(s[1..])
      case _ => Fail
  }

  function ParseUnicodeEscape(s: string): (r: Parsed<char>)
    ensures r.Ok? ==> |r.rest| < |s|
  {
    if |s| < 4 || Hex4Value(s[..4]).None? then Fail
    else
      var unit := Hex4Value(s[..4]).value;
      if IsLowSurrogate(unit) || unit >= 0x10000 then Fail
      else if !IsHighSurrogate(unit) then Ok(unit as char, s[4..])
      else if |s| < 10 || s[4] != '\\' || s[5] != 'u' || Hex4Value(s[6..10]).None? then Fail
      else
        var low := Hex4Value(s[6..10]).value;
        if !IsLowSurrogate(low) then Fail
        else Ok((0x10000 + (unit - 0xD800) * 0x400 + (low - 0xDC00)) as char, s[10..])
  }

  /** The rest of a string after its opening quotation mark. */
  function ParseChars(s: string): (r: Parsed<string>)
    ensures r.Ok? ==> |r.rest| < |s|
    decreases |s|
  {
    if s == [] then Fail
    else if s[0] == '"' then Ok("", s[1..])
    else if s[0] == '\\' then
      match ParseEscape(s[1..])
      case Fail => Fail
      case Ok(c, rest) => Prepend(c, ParseChars(rest))
    else if s[0] as int < 0x20 then Fail
    else Prepend(s[0], ParseChars(s[1..]))
  }

  function Prepend(c: char, r: Parsed<string>): Parsed<string>
  {
    if r.Ok? then Ok([c] + r.value, r.rest) else Fail
  }

  function Parse(s: string): (r: Parsed<Json>)
    ensures r.Ok? ==> |r.rest| < |s|
    decreases |s|, 2
  {
    var t := SkipSpace(s);
    if t == [] then Fail
    else match t[0]
      case 'n' => if "null" <= t then Ok(Null, t[4..]) else Fail
      case 't' => if "true" <= t then Ok(Bool(true), t[4..]) else Fail
      case 'f' => if "false" <= t then Ok(Bool(false), t[5..]) else Fail
      case '"' => (match ParseChars(t[1..]) case Fail => Fail case Ok(text, rest) => Ok(Str(text), rest))
      case '[' =>
        var u := SkipSpace(t[1..]);
        if u != [] && u[0] == ']' then Ok(List([]), u[1..])
        else (match ParseItems(u) case Fail => Fail case Ok(items, rest) => Ok(List(items), rest))
      case '{' =>
        var u := SkipSpace(t[1..]);
        if u != [] && u[0] == '}' then Ok(Map([]), u[1..])
        else (match ParseMembers(u) case Fail => Fail case Ok(members, rest) => Ok(Map(members), rest))
      case _ => ParseInt(t)
  }

  function ParseItems(s: string): (r: Parsed<seq<Json>>)
    ensures r.Ok? ==> |r.rest| < |s|
    decreases |s|, 3
  {
    match Parse(s)
    case Fail => Fail
    case Ok(v, rest) =>
      var t := SkipSpace(rest);
      if t != [] && t[0] == ']' then Ok([v], t[1..])
      else if t != [] && t[0] == ',' then
        match ParseItems(t[1..]) case Fail => Fail case Ok(vs, more) => Ok([v] + vs, more)
      else Fail
  }

  /** A member name with its colon. */
  function ParseKey(s: string): (r: Parsed<string>)
    ensures r.Ok? ==> |r.rest| < |s|
  {
    var t := SkipSpace(s);
    if t == [] || t[0] != '"' then Fail
    else match ParseChars(t[1..])
      case Fail => Fail
      case Ok(key, rest) =>
        var u := SkipSpace(rest);
        if u != [] && u[0] == ':' then Ok(key, u[1..]) else Fail
  }

  function ParseMembers(s: string): (r: Parsed<seq<Member>>)
    ensures r.Ok? ==> |r.rest| < |s|
    decreases |s|, 3
  {
    match ParseKey(s)
    case Fail => Fail
    case Ok(key, afterKey) =>
      match Parse(afterKey)
      case Fail => Fail
      case Ok(v, rest) =>
        var t := SkipSpace(rest);
        if t != [] && t[0] == '}' then Ok([Member(key, v)], t[1..])
        else if t != [] && t[0] == ',' then
          match ParseMembers(t[1..]) case Fail => Fail case Ok(es, more) => Ok([Member(key, v)] + es, more)
        else Fail
  }

  // ---------------------------------------------------------------- round trip

  lemma PlainCharReadsBack(c: char, t: string)
    requires c != '"' && c != '\\' && c as int >= 0x20
    ensures ParseChars([c] + t) == Prepend(c, ParseChars(t))
  {
    assert ([c] + t)[1..] == t;
  }

  lemma EscapedCharReadsBack(e: string, c: char, t: string)
    requires ParseEscape(e + t) == Ok(c, t)
    ensures ParseChars(['\\'] + e + t) == Prepend(c, ParseChars(t))
  {
    assert (['\\'] + e + t)[1..] == e + t;
  }

  lemma HexEscapeReadsBack(c: char, t: string)
    requires c as int < 0xD800
    ensures ParseEscape("u" + Hex4(c as int) + t) == Ok(c, t)
  {
    Hex4RoundTrip(c as int);
    var u := Hex4(c as int) + t;
    assert ("u" + Hex4(c as int) + t)[1..] == u;
    assert u[..4] == Hex4(c as int) && u[4..] == t;
  }

  lemma ShortEscapeReadsBack(c: char, t: string)
    requires ShortEscape(c).Some?
    ensures ParseEscape([ShortEscape(c).value] + t) == Ok(c, t)
  {
    assert ([ShortEscape(c).value] + t)[1..] == t;
  }

  lemma SlashReadsBack(t: string)
    ensures ParseEscape("/" + t) == Ok('/', t)
  {
    assert ("/" + t)[1..] == t;
  }

  lemma EscapeReadsBack(lib: OrgJson, previous: char, c: char, t: string)
    ensures ParseChars(Escape(lib, previous, c) + t) == Prepend(c, ParseChars(t))
  {
    hide ParseChars, Prepend, Hex4, ParseEscape;
    var e := Escape(lib, previous, c);
    if ShortEscape(c).Some? {
      ShortEscapeReadsBack(c, t);
      EscapedCharReadsBack([ShortEscape(c).value], c, t);
      assert e == ['\\'] + [ShortEscape(c).value];
    } else if c == '/' && SlashEscaped(lib, previous) {
      SlashReadsBack(t);
      EscapedCharReadsBack("/", c, t);
      assert e == ['\\'] + "/";
    } else if HexEscaped(lib, c) {
      HexEscapeReadsBack(c, t);
      EscapedCharReadsBack("u" + Hex4(c as int), c, t);
      assert e == ['\\'] + ("u" + Hex4(c as int));
    } else {
      PlainCharReadsBack(c, t);
    }
  }

  lemma {:induction false} CharsReadBack(lib: OrgJson, previous: char, s: string, rest: string)
    ensures ParseChars(Escapes(lib, previous, s) + ("\"" + rest)) == Ok(s, rest)
    decreases s
  {
    var tail := "\"" + rest;
    if s == [] {
      assert Escapes(lib, previous, s) + tail == tail && tail[1..] == rest;
    } else {
      var more := Escapes(lib, s[0], s[1..]);
      CharsReadBack(lib, s[0], s[1..], rest);
      EscapeReadsBack(lib, previous, s[0], more + tail);
      Associative(Escape(lib, previous, s[0]), more, tail);
      assert [s[0]] + s[1..] == s;
    }
  }

  lemma QuoteReadsBack(lib: OrgJson, s: string, rest: string)
    ensures var t := Quote(lib, s) + rest;
            t != [] && t[0] == '"' && ParseChars(t[1..]) == Ok(s, rest)
  {
    CharsReadBack(lib, '\0', s, rest);
    assert (Quote(lib, s) + rest)[1..] == Escapes(lib, '\0', s) + ("\"" + rest);
  }

  lemma {:induction false} DigitRunOf(digits: string, rest: string)
    requires AllDigits(digits) && (rest == [] || !IsDigit(rest[0]))
    ensures DigitRun(digits + rest) == |digits|
  {
    if digits == [] {
      assert digits + rest == rest;
    } else {
      DigitRunOf(digits[1..], rest);
      assert (digits + rest)[1..] == digits[1..] + rest;
    }
  }

  /** What may follow a printed value: nothing, or a structural character. */
  predicate Stops(rest: string) { rest == [] || rest[0] == ',' || rest[0] == ']' || rest[0] == '}' }

  lemma NatReadsBack(n: nat, rest: string)
    requires Stops(rest)
    ensures ParseNat(Decimal(n) + rest) == Ok(n, rest)
  {
    var digits, s := Decimal(n), Decimal(n) + rest;
    DecimalRoundTrip(n);
    DigitRunOf(digits, rest);
    assert s[..|digits|] == digits && s[|digits|..] == rest && s[0] == digits[0];
  }

  lemma ParseNegative(t: string, n: nat, rest: string)
    requires ParseNat(t) == Ok(n, rest)
    ensures Parse("-" + t) == Ok(Int(-(n as int)), rest)
  {
    assert ("-" + t)[1..] == t && SkipSpace("-" + t) == "-" + t;
  }

  lemma ParsePositive(t: string, n: nat, rest: string)
    requires ParseNat(t) == Ok(n, rest) && t != [] && IsDigit(t[0])
    ensures Parse(t) == Ok(Int(n), rest)
  {
    assert SkipSpace(t) == t;
  }

  lemma IntReadsBack(i: int, rest: string)
    requires Stops(rest)
    ensures Parse(DecimalInt(i) + rest) == Ok(Int(i), rest)
  {
    var n := if i < 0 then -i else i;
    NatReadsBack(n, rest);
    if i < 0 {
      ParseNegative(Decimal(n) + rest, n, rest);
      Associative("-", Decimal(n), rest);
    } else {
      DecimalRoundTrip(n);
      assert IsDigit(Decimal(n)[0]);
      ParsePositive(Decimal(n) + rest, n, rest);
    }
  }

  // One unfolding of each reader, on abstract text.

  lemma ParseList(u: string, items: seq<Json>, rest: string)
    requires u != [] && !IsJsonSpace(u[0])
    requires if items == [] then u == "]" + rest else u[0] != ']' && ParseItems(u) == Ok(items, rest)
    ensures Parse("[" + u) == Ok(List(items), rest)
  {
    assert ("[" + u)[1..] == u && SkipSpace("[" + u) == "[" + u;
    if items == [] {
      assert u[1..] == rest;
    }
  }

  lemma ParseMap(u: string, members: seq<Member>, rest: string)
    requires u != [] && !IsJsonSpace(u[0])
    requires if members == [] then u == "}" + rest else u[0] != '}' && ParseMembers(u) == Ok(members, rest)
    ensures Parse("{" + u) == Ok(Map(members), rest)
  {
    assert ("{" + u)[1..] == u && SkipSpace("{" + u) == "{" + u;
    if members == [] {
      assert u[1..] == rest;
    }
  }

  lemma ParseLastItem(s: string, v: Json, rest: string)
    requires Parse(s) == Ok(v, "]" + rest)
    ensures ParseItems(s) == Ok([v], rest)
  {
    assert ("]" + rest)[1..] == rest;
  }

  lemma ParseMoreItems(s: string, v: Json, more: string, vs: seq<Json>, rest: string)
    requires Parse(s) == Ok(v, "," + more) && ParseItems(more) == Ok(vs, rest)
    ensures ParseItems(s) == Ok([v] + vs, rest)
  {
    assert ("," + more)[1..] == more;
  }

  lemma ParseLastMember(s: string, key: string, t: string, v: Json, rest: string)
    requires ParseKey(s) == Ok(key, t) && Parse(t) == Ok(v, "}" + rest)
    ensures ParseMembers(s) == Ok([Member(key, v)], rest)
  {
    assert ("}" + rest)[1..] == rest;
  }

  lemma ParseMoreMembers(s: string, key: string, t: string, v: Json, more: string, ms: seq<Member>, rest: string)
    requires ParseKey(s) == Ok(key, t) && Parse(t) == Ok(v, "," + more) && ParseMembers(more) == Ok(ms, rest)
    ensures ParseMembers(s) == Ok([Member(key, v)] + ms, rest)
  {
    assert ("," + more)[1..] == more;
  }

  lemma LiteralsReadBack(rest: string)
    ensures Parse("null" + rest) == Ok(Null, rest)
    ensures Parse("true" + rest) == Ok(Bool(true), rest)
    ensures Parse("false" + rest) == Ok(Bool(false), rest)
  {
    var a, b, c := "null" + rest, "true" + rest, "false" + rest;
    assert a[..4] == "null" && a[4..] == rest && SkipSpace(a) == a;
    assert b[..4] == "true" && b[4..] == rest && SkipSpace(b) == b;
    assert c[..5] == "false" && c[5..] == rest && SkipSpace(c) == c;
  }

  lemma StringReadsBack(lib: OrgJson, s: string, rest: string)
    ensures Parse(Quote(lib, s) + rest) == Ok(Str(s), rest)
  {
    QuoteReadsBack(lib, s, rest);
    var t := Quote(lib, s) + rest;
    assert SkipSpace(t) == t;
  }

  /** Every printed value is read back, with the order of keys kept. */
  lemma {:induction false} ValueReadsBack(lib: OrgJson, v: Json, rest: string)
    requires Stops(rest)
    ensures Parse(Encode(lib, v) + rest) == Ok(v, rest)
    decreases v, 1
  {
    match v
    case Null => LiteralsReadBack(rest);
    case Bool(_) => LiteralsReadBack(rest);
    case Int(i) => IntReadsBack(i, rest);
    case Str(s) => StringReadsBack(lib, s, rest);
    case List(items) =>
      if items != [] {
        ItemsReadBack(lib, items, rest);
      }
      ListReadsBack(lib, items, rest);
    case Map(members) =>
      if members != [] {
        MembersReadBack(lib, members, rest);
      }
      MapReadsBack(lib, members, rest);
  }

  lemma Bracketed(open: string, body: string, close: string, rest: string)
    ensures (open + body + close) + rest == open + (body + (close + rest))
  {
  }

  lemma ListReadsBack(lib: OrgJson, items: seq<Json>, rest: string)
    requires items != [] ==> ParseItems(EncodeItems(lib, items) + ("]" + rest)) == Ok(items, rest)
    ensures Parse(Encode(lib, List(items)) + rest) == Ok(List(items), rest)
  {
    var u := EncodeItems(lib, items) + ("]" + rest);
    if items != [] {
      ItemsStart(lib, items, "]" + rest);
    }
    ParseList(u, items, rest);
    Bracketed("[", EncodeItems(lib, items), "]", rest);
  }

  lemma MapReadsBack(lib: OrgJson, members: seq<Member>, rest: string)
    requires members != [] ==> ParseMembers(EncodeMembers(lib, members) + ("}" + rest)) == Ok(members, rest)
    ensures Parse(Encode(lib, Map(members)) + rest) == Ok(Map(members), rest)
  {
    var u := EncodeMembers(lib, members) + ("}" + rest);
    if members != [] {
      MembersStart(lib, members, "}" + rest);
    }
    assert Encode(lib, Map(members)) == "{" + EncodeMembers(lib, members) + "}";
    hide Encode, EncodeMembers, Parse, ParseMembers;
    ParseMap(u, members, rest);
    Bracketed("{", EncodeMembers(lib, members), "}", rest);
  }

  /** A printed value starts with neither white space nor a closing bracket. */
  lemma EncodeStart(lib: OrgJson, v: Json)
    ensures var t := Encode(lib, v); t != [] && !IsJsonSpace(t[0]) && t[0] != ']'
  {
    EncodeNonEmpty(lib, v);
    if v.Int? {
      DecimalRoundTrip(if v.i < 0 then -v.i else v.i);
      assert v.i >= 0 ==> IsDigit(Decimal(v.i)[0]);
    }
  }

  lemma ItemsStart(lib: OrgJson, items: seq<Json>, rest: string)
    requires items != []
    ensures var u := EncodeItems(lib, items) + rest; u != [] && !IsJsonSpace(u[0]) && u[0] != ']'
  {
    EncodeStart(lib, items[0]);
    assert EncodeItems(lib, items)[0] == Encode(lib, items[0])[0];
  }

  lemma MembersStart(lib: OrgJson, members: seq<Member>, rest: string)
    requires members != []
    ensures var u := EncodeMembers(lib, members) + rest; u != [] && u[0] == '"'
  {
    assert Quote(lib, members[0].key)[0] == '"';
    assert EncodeMember(lib, members[0])[0] == '"';
    assert |EncodeMembers(lib, members)| > 0;
  }

  lemma {:induction false} ItemsReadBack(lib: OrgJson, items: seq<Json>, rest: string)
    requires items != []
    ensures ParseItems(EncodeItems(lib, items) + ("]" + rest)) == Ok(items, rest)
    decreases items, 0
  {
    var first := Encode(lib, items[0]);
    var close := "]" + rest;
    if |items| == 1 {
      ValueReadsBack(lib, items[0], close);
      ParseLastItem(first + close, items[0], rest);
      assert items == [items[0]];
    } else {
      var more := EncodeItems(lib, items[1..]) + close;
      ValueReadsBack(lib, items[0], "," + more);
      ItemsReadBack(lib, items[1..], rest);
      ParseMoreItems(first + ("," + more), items[0], more, items[1..], rest);
      Associative(first, ",", more);
      Associative(first + ",", EncodeItems(lib, items[1..]), close);
      assert items == [items[0]] + items[1..];
    }
  }

  lemma KeyReadsBack(lib: OrgJson, key: string, rest: string)
    ensures ParseKey(Quote(lib, key) + (":" + rest)) == Ok(key, rest)
  {
    var t := Quote(lib, key) + (":" + rest);
    QuoteReadsBack(lib, key, ":" + rest);
    assert SkipSpace(t) == t;
    assert SkipSpace(":" + rest) == ":" + rest && (":" + rest)[1..] == rest;
  }

  lemma {:induction false} MembersReadBack(lib: OrgJson, members: seq<Member>, rest: string)
    requires members != []
    ensures ParseMembers(EncodeMembers(lib, members) + ("}" + rest)) == Ok(members, rest)
    decreases members, 0
  {
    var m := members[0];
    var value := Encode(lib, m.value);
    var close := "}" + rest;
    if |members| == 1 {
      KeyReadsBack(lib, m.key, value + close);
      ValueReadsBack(lib, m.value, close);
      ParseLastMember(Quote(lib, m.key) + (":" + (value + close)), m.key, value + close, m.value, rest);
      MemberText(Quote(lib, m.key), value, close);
      assert members == [m];
    } else {
      var more := EncodeMembers(lib, members[1..]) + close;
      var tail := "," + more;
      KeyReadsBack(lib, m.key, value + tail);
      ValueReadsBack(lib, m.value, tail);
      MembersReadBack(lib, members[1..], rest);
      ParseMoreMembers(Quote(lib, m.key) + (":" + (value + tail)), m.key, value + tail, m.value, more, members[1..], rest);
      MemberText(Quote(lib, m.key), value, tail);
      Associative(EncodeMember(lib, m), ",", more);
      Associative(EncodeMember(lib, m) + ",", EncodeMembers(lib, members[1..]), close);
      assert members == [m] + members[1..];
    }
  }

  lemma MemberText(key: string, value: string, tail: string)
    ensures key + (":" + (value + tail)) == (key + ":" + value) + tail
  {
  }

  /** The whole text is one JSON value and reads back as the value printed. */
  lemma DocumentReadsBack(lib: OrgJson, v: Json)
    ensures Parse(Encode(lib, v)) == Ok(v, "")
  {
    ValueReadsBack(lib, v, "");
    assert Encode(lib, v) + "" == Encode(lib, v);
  }
}
