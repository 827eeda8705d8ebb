/**
 The event stream on the wire: `DebugEvent.toJson`, the frame `broadcast` writes, and the Python
 client's line reader.  Two ways of splitting lines are kept apart: the standard's (section 9.2.6 of
 the WHATWG HTML standard) and that of httpx `iter_lines`, which also splits at the other Unicode
 line boundaries of Python's `splitlines`.
 */
module Sse {
  import opened Wrappers
  import opened Text
  import opened OrderedJson

  datatype LineReader = Standard | Httpx

  /** Line boundaries that Android's quoting lets through unescaped. */
  predicate IsWideBreak(c: char)
  {
    c as int == 0x85 || c as int == 0x2028 || c as int == 0x2029
  }

  predicate IsBreak(r: LineReader, c: char)
  {
    var n := c as int;
    n == 0x0A || n == 0x0D ||
    (r.Httpx? && (n == 0x0B || n == 0x0C || 0x1C <= n <= 0x1E || IsWideBreak(c)))
  }

  /** `s` stays on one line. */
  predicate Clean(r: LineReader, s: string)
  {
    forall k :: 0 <= k < |s| ==> !IsBreak(r, s[k])
  }

  // ---------------------------------------------------------------- printed JSON is one line

  predicate Exposed(r: LineReader, lib: OrgJson, c: char) { r.Httpx? && lib.Android? && IsWideBreak(c) }

  predicate TextExposed(r: LineReader, lib: OrgJson, s: string)
  {
    exists k :: 0 <= k < |s| && Exposed(r, lib, s[k])
  }

  /** Some key or string of `v` carries a line boundary that the printer leaves as it is. */
  predicate JsonExposed(r: LineReader, lib: OrgJson, v: Json)
    decreases v
  {
    match v
    case Str(s) => TextExposed(r, lib, s)
    case List(items) => exists k :: 0 <= k < |items| && JsonExposed(r, lib, items[k])
    case Map(members) => exists k :: 0 <= k < |members| && MemberExposed(r, lib, members[k])
    case _ => false
  }

  predicate MemberExposed(r: LineReader, lib: OrgJson, m: Member)
    decreases m
  {
    TextExposed(r, lib, m.key) || JsonExposed(r, lib, m.value)
  }

  lemma CleanConcat(r: LineReader, a: string, b: string)
    ensures Clean(r, a + b) <==> Clean(r, a) && Clean(r, b)
  {
    if Clean(r, a + b) {
      forall k | 0 <= k < |a| ensures !IsBreak(r, a[k]) { assert (a + b)[k] == a[k]; }
      forall k | 0 <= k < |b| ensures !IsBreak(r, b[k]) { assert (a + b)[|a| + k] == b[k]; }
    }
  }

  lemma BracketClean(r: LineReader, open: string, body: string, close: string)
    requires Clean(r, open) && Clean(r, close)
    ensures Clean(r, open + body + close) <==> Clean(r, body)
  {
    CleanConcat(r, open + body, close);
    CleanConcat(r, open, body);
  }

  lemma HexClean(r: LineReader, n: nat)
    requires n < 0x10000
    ensures Clean(r, "\\u" + Hex4(n))
  {
  }

  lemma EscapeClean(r: LineReader, lib: OrgJson, previous: char, c: char)
    ensures Clean(r, Escape(lib, previous, c)) <==> !Exposed(r, lib, c)
  {
    var e := Escape(lib, previous, c);
    if |e| == 1 {
      assert e[0] == c;
    } else if HexEscaped(lib, c) && ShortEscape(c).None? {
      HexClean(r, c as int);
    }
  }

  lemma {:induction false} EscapesClean(r: LineReader, lib: OrgJson, previous: char, s: string)
    ensures Clean(r, Escapes(lib, previous, s)) <==> !TextExposed(r, lib, s)
    decreases s
  {
    if s != [] {
      EscapeClean(r, lib, previous, s[0]);
      EscapesClean(r, lib, s[0], s[1..]);
      CleanConcat(r, Escape(lib, previous, s[0]), Escapes(lib, s[0], s[1..]));
      if TextExposed(r, lib, s) && !Exposed(r, lib, s[0]) {
        var k :| 0 <= k < |s| && Exposed(r, lib, s[k]);
        assert s[1..][k - 1] == s[k];
      }
      if TextExposed(r, lib, s[1..]) {
        var k :| 0 <= k < |s[1..]| && Exposed(r, lib, s[1..][k]);
        assert s[k + 1] == s[1..][k];
      }
    }
  }

  lemma QuoteClean(r: LineReader, lib: OrgJson, s: string)
    ensures Clean(r, Quote(lib, s)) <==> !TextExposed(r, lib, s)
  {
    EscapesClean(r, lib, '\0', s);
    BracketClean(r, "\"", Escapes(lib, '\0', s), "\"");
  }

  lemma IntClean(r: LineReader, i: int)
    ensures Clean(r, DecimalInt(i))
  {
    DecimalRoundTrip(if i < 0 then -i else i);
    forall k | 0 <= k < |DecimalInt(i)| ensures !IsBreak(r, DecimalInt(i)[k]) {
      assert DecimalInt(i)[k] == '-' || IsDigit(DecimalInt(i)[k]);
    }
  }

  /** Printed JSON is one line exactly when it exposes no line boundary. */
  lemma {:induction false} EncodeClean(r: LineReader, lib: OrgJson, v: Json)
    ensures Clean(r, Encode(lib, v)) <==> !JsonExposed(r, lib, v)
    decreases v, 1
  {
    match v
    case Null =>
    case Bool(_) =>
    case Int(i) => IntClean(r, i);
    case Str(s) => QuoteClean(r, lib, s);
    case List(items) =>
      ItemsClean(r, lib, items);
      BracketClean(r, "[", EncodeItems(lib, items), "]");
    case Map(members) =>
      MembersClean(r, lib, members);
      BracketClean(r, "{", EncodeMembers(lib, members), "}");
  }

  lemma {:induction false} ItemsClean(r: LineReader, lib: OrgJson, items: seq<Json>)
    ensures Clean(r, EncodeItems(lib, items)) <==>
            forall k :: 0 <= k < |items| ==> !JsonExposed(r, lib, items[k])
    decreases items, 0
  {
    if items != [] {
      var first := Encode(lib, items[0]);
      var tail := if |items| == 1 then "" else "," + EncodeItems(lib, items[1..]);
      EncodeItemsCons(lib, items);
      EncodeClean(r, lib, items[0]);
      ItemsClean(r, lib, items[1..]);
      CleanConcat(r, first, tail);
      CleanConcat(r, ",", EncodeItems(lib, items[1..]));
      assert forall k :: 1 <= k < |items| ==> items[1..][k - 1] == items[k];
    }
  }

  lemma MemberClean(r: LineReader, lib: OrgJson, m: Member)
    requires Clean(r, Encode(lib, m.value)) <==> !JsonExposed(r, lib, m.value)
    ensures Clean(r, EncodeMember(lib, m)) <==> !MemberExposed(r, lib, m)
  {
    QuoteClean(r, lib, m.key);
    CleanConcat(r, Quote(lib, m.key) + ":", Encode(lib, m.value));
    CleanConcat(r, Quote(lib, m.key), ":");
  }

  lemma {:induction false} MembersClean(r: LineReader, lib: OrgJson, members: seq<Member>)
    ensures Clean(r, EncodeMembers(lib, members)) <==>
            forall k :: 0 <= k < |members| ==> !MemberExposed(r, lib, members[k])
    decreases members, 0
  {
    if members != [] {
      var first := EncodeMember(lib, members[0]);
      var tail := if |members| == 1 then "" else "," + EncodeMembers(lib, members[1..]);
      EncodeMembersCons(lib, members);
      EncodeClean(r, lib, members[0].value);
      MemberClean(r, lib, members[0]);
      MembersClean(r, lib, members[1..]);
      CleanConcat(r, first, tail);
      CleanConcat(r, ",", EncodeMembers(lib, members[1..]));
      assert forall k :: 1 <= k < |members| ==> members[1..][k - 1] == members[k];
    }
  }

  // ---------------------------------------------------------------- lines and the client's reader

  function FirstBreak(r: LineReader, s: string): (n: nat)
    ensures n <= |s| && (n < |s| ==> IsBreak(r, s[n]))
    ensures forall k :: 0 <= k < n ==> !IsBreak(r, s[k])
  {
    if s == [] || IsBreak(r, s[0]) then 0 else 1 + FirstBreak(r, s[1..])
  }

  /** The lines of a text; a carriage return with its line feed is one boundary. */
  function Lines(r: LineReader, s: string): seq<string>
    decreases |s|
  {
    var n := FirstBreak(r, s);
    if n == |s| then (if s == [] then [] else [s])
    else if s[n] == '\r' && n + 1 < |s| && s[n + 1] == '\n' then [s[..n]] + Lines(r, s[n + 2..])
    else [s[..n]] + Lines(r, s[n + 1..])
  }

  /** A line boundary as the reader takes it; the two-character one is a single boundary. */
  predicate IsBoundary(r: LineReader, b: string)
  {
    || b in {"\n", "\r", "\r\n"}
    || (r.Httpx? && b in {"\U{000B}", "\U{000C}", "\U{001C}", "\U{001D}", "\U{001E}", "\U{0085}", "\U{2028}", "\U{2029}"})
  }

  lemma BreakIff(r: LineReader, c: char)
    ensures IsBreak(r, c) <==> IsBoundary(r, [c])
  {
    assert [c][0] == c;
    var two := "\r\n";
    assert |two| == 2;
    if IsBreak(r, c) {
      var n := c as int;
      assert [c] in {"\n", "\r"} || [c] == [n as char];
    }
  }

  /** A text up to its first boundary is its first line, and the lines of what follows are the others. */
  lemma LinesSplit(r: LineReader, line: string, boundary: string, rest: string)
    requires (forall k :: 0 <= k < |line| ==> !IsBoundary(r, [line[k]])) && IsBoundary(r, boundary)
    requires boundary == "\r" && rest != "" ==> rest[0] != '\n'
    ensures Lines(r, line + boundary + rest) == [line] + Lines(r, rest)
    ensures Lines(r, line) == if line == "" then [] else [line]
  {
    forall k | 0 <= k < |line| ensures !IsBreak(r, line[k]) {
      BreakIff(r, line[k]);
    }
    BreakIff(r, boundary[0]);
    assert |boundary| == 2 ==> boundary == "\r\n";
    assert |boundary| == 1 ==> boundary == [boundary[0]];
    assert IsBreak(r, '\r');
    hide IsBoundary, IsBreak, Lines;
    var s := line + boundary + rest;
    FirstBreakIs(r, s, |line|);
    FirstBreakIs(r, line, |line|);
    LinesAt(r, line, |line|);
    LinesAt(r, s, |line|);
    assert s[..|line|] == line && s[|line|] == boundary[0];
    assert s[|line| + |boundary|..] == rest;
    if |boundary| == 1 && rest != "" {
      assert s[|line| + 1] == rest[0];
    }
  }

  lemma LinesAt(r: LineReader, s: string, n: nat)
    requires n == FirstBreak(r, s)
    ensures n == |s| ==> Lines(r, s) == if s == "" then [] else [s]
    ensures n < |s| && s[n] == '\r' && n + 1 < |s| && s[n + 1] == '\n' ==> Lines(r, s) == [s[..n]] + Lines(r, s[n + 2..])
    ensures n < |s| && !(s[n] == '\r' && n + 1 < |s| && s[n + 1] == '\n') ==> Lines(r, s) == [s[..n]] + Lines(r, s[n + 1..])
  {
    hide IsBreak, FirstBreak;
  }

  lemma {:induction false} FirstBreakIs(r: LineReader, s: string, n: nat)
    requires n <= |s| && (forall k :: 0 <= k < n ==> !IsBreak(r, s[k])) && (n < |s| ==> IsBreak(r, s[n]))
    ensures FirstBreak(r, s) == n
  {
    hide IsBreak;
    if n > 0 {
      FirstBreakIs(r, s[1..], n - 1);
    }
  }

  function IndexOfColon(s: string): (n: nat)
    ensures n <= |s|
  {
    if s == [] || s[0] == ':' then 0 else 1 + IndexOfColon(s[1..])
  }

  function StripCr(s: string): string
  {
    if s != [] && s[|s| - 1] == '\r' then StripCr(s[..|s| - 1]) else s
  }

  /** `(field, value)` of a line: split at the first colon, one leading space dropped. */
  function Field(line: string): (string, string)
  {
    var n := IndexOfColon(line);
    if n == |line| then (line, "")
    else
      var value := line[n + 1..];
      (line[..n], if value != [] && value[0] == ' ' then value[1..] else value)
  }

  function JoinLines(lines: seq<string>): string
  {
    if lines == [] then "" else if |lines| == 1 then lines[0] else lines[0] + "\n" + JoinLines(lines[1..])
  }

  type Event = (string, Option<string>)

  datatype Buffer = Buffer(data: seq<string>, event: Option<string>)

  const EMPTY := Buffer([], None)

  function Dispatched(b: Buffer): seq<Event>
  {
    if b.data == [] then [] else [(JoinLines(b.data), b.event)]
  }

  function AfterLine(b: Buffer, rawLine: string): Buffer
  {
    var line := StripCr(rawLine);
    if line == "" then (if b.data == [] then b else EMPTY)
    else if line[0] == ':' then b
    else
      var (field, value) := Field(line);
      if field == "data" then b.(data := b.data + [value])
      else if field == "event" then b.(event := if value == "" then None else Some(value))
      else b
  }

  function EmittedBy(b: Buffer, rawLine: string): seq<Event>
  {
    if StripCr(rawLine) == "" then Dispatched(b) else []
  }

  /** Everything the reader yields for these lines, starting from buffer `b`. */
  function ReadLines(lines: seq<string>, b: Buffer): seq<Event>
  {
    if lines == [] then Dispatched(b)
    else EmittedBy(b, lines[0]) + ReadLines(lines[1..], AfterLine(b, lines[0]))
  }

  lemma ReadNext(events: seq<Event>, lines: seq<string>, k: nat, b: Buffer)
    requires k < |lines|
    ensures events + ReadLines(lines[k..], b)
            == (events + EmittedBy(b, lines[k])) + ReadLines(lines[k + 1..], AfterLine(b, lines[k]))
  {
    hide AfterLine, EmittedBy;
    assert lines[k..][0] == lines[k] && lines[k..][1..] == lines[k + 1..];
  }

  lemma NothingLeft(b: Buffer)
    ensures ReadLines([], b) == if b.data == [] then [] else [(JoinLines(b.data), b.event)]
  {
  }

  /** `_iter_sse`: the loop over the response's lines. */
  method IterSse(lines: seq<string>) returns (events: seq<Event>)
    ensures events == ReadLines(lines, EMPTY)
  {
    NothingLeft(EMPTY);
    hide ReadLines, JoinLines, StripCr, Field;
    events := [];
    var dataLines: seq<string>, eventField: Option<string> := [], None;
    assert lines[0..] == lines && events + ReadLines(lines, EMPTY) == ReadLines(lines, EMPTY);
    for k := 0 to |lines|
      invariant events + ReadLines(lines[k..], Buffer(dataLines, eventField)) == ReadLines(lines, EMPTY)
    {
      ReadNext(events, lines, k, Buffer(dataLines, eventField));
      var line := StripCr(lines[k]);
      if line == "" {
        if dataLines != [] {
          events := events + [(JoinLines(dataLines), eventField)];
          dataLines := [];
          eventField := None;
        }
      } else if line[0] != ':' {
        var (field, value) := Field(line);
        if field == "data" {
          dataLines := dataLines + [value];
        } else if field == "event" {
          eventField := if value == "" then None else Some(value);
        }
      }
    }
    NothingLeft(Buffer(dataLines, eventField));
    assert lines[|lines|..] == [];
    if dataLines != [] {
      events := events + [(JoinLines(dataLines), eventField)];
    } else {
      assert events + [] == events;
    }
  }

  // ---------------------------------------------------------------- what the reader makes of any lines

  /** The value a line gives to this field, if the line is about it: after the colon and one space, or nothing. */
  function ValueFor(line: string, field: string): Option<string>
  {
    if line == field then Some("")
    else if field + ": " <= line then Some(line[|field| + 2..])
    else if field + ":" <= line then Some(line[|field| + 1..])
    else None
  }

  /** The data values of a block of lines, in order. */
  function DataOf(block: seq<string>): seq<string>
  {
    if block == [] then []
    else
      var n := |block| - 1;
      DataOf(block[..n]) + match ValueFor(StripCr(block[n]), "data") case Some(v) => [v] case None => []
  }

  /** The last event name a block gives, an empty one standing for none; `before` if it gives none. */
  function NameOf(block: seq<string>, before: Option<string>): Option<string>
  {
    if block == [] then before
    else
      var n := |block| - 1;
      match ValueFor(StripCr(block[n]), "event")
      case Some(v) => if |v| == 0 then None else Some(v)
      case None => NameOf(block[..n], before)
  }

  /** Lines of one block: none of them blank. */
  predicate IsBlock(block: seq<string>) { forall k :: 0 <= k < |block| ==> StripCr(block[k]) != "" }

  lemma ReadCons(line: string, lines: seq<string>, b: Buffer)
    ensures ReadLines([line] + lines, b) == EmittedBy(b, line) + ReadLines(lines, AfterLine(b, line))
  {
    assert ([line] + lines)[1..] == lines;
  }

  lemma {:induction false} NoColon(s: string)
    ensures IndexOfColon(s) < |s| ==> s[IndexOfColon(s)] == ':'
    ensures forall k :: 0 <= k < IndexOfColon(s) ==> s[k] != ':'
  {
    if s != "" && s[0] != ':' {
      NoColon(s[1..]);
    }
  }

  /** The field is the part before the first colon; both readings of a line agree. */
  lemma FieldIs(line: string, field: string)
    requires field != "" && forall k :: 0 <= k < |field| ==> field[k] != ':'
    ensures ValueFor(line, field) == if Field(line).0 == field then Some(Field(line).1) else None
  {
    NoColon(line);
    var n := IndexOfColon(line);
    if n < |line| && line[..n] == field {
      assert line[..n + 1] == field + ":";
    }
    if field + ":" <= line {
      assert line[|field|] == (field + ":")[|field|] == ':' && forall k :: 0 <= k < |field| ==> line[k] == field[k];
      assert n == |field| && line[..n] == field;
      assert field + ": " <= line <==> line[n + 1..] != [] && line[n + 1..][0] == ' ' by {
        if line[n + 1..] != [] && line[n + 1..][0] == ' ' {
          assert line[..n + 2] == field + ": ";
        }
        if field + ": " <= line {
          assert line[n + 1] == (field + ": ")[n + 1];
        }
      }
    }
    assert field + ": " <= line ==> field + ":" <= line by {
      if field + ": " <= line {
        assert line[..|field| + 1] == (field + ": ")[..|field| + 1] == field + ":";
      }
    }
  }

  /** A line of a block adds what it says about data and event, whatever else is in the block. */
  lemma LineAdds(b: Buffer, rawLine: string)
    requires StripCr(rawLine) != ""
    ensures var line := StripCr(rawLine);
      && EmittedBy(b, rawLine) == []
      && AfterLine(b, rawLine) == Buffer(
           b.data + (match ValueFor(line, "data") case Some(v) => [v] case None => []),
           match ValueFor(line, "event") case Some(v) => (if |v| == 0 then None else Some(v)) case None => b.event)
  {
    var line := StripCr(rawLine);
    var data, event := "data", "event";
    assert |data| == 4 && |event| == 5 && data[0] == 'd' && data[1] == 'a' && data[2] == 't' && data[3] == 'a';
    assert event[0] == 'e' && event[1] == 'v' && event[2] == 'e' && event[3] == 'n' && event[4] == 't';
    FieldIs(line, data);
    FieldIs(line, event);
    NoColon(line);
    if line[0] == ':' {
      assert IndexOfColon(line) == 0 && Field(line).0 == "";
    }
    hide ValueFor, Field, StripCr;
  }

  /** The buffer after a block that started with `b`. */
  lemma {:induction false} BlockAdds(block: seq<string>, rest: seq<string>, b: Buffer)
    requires IsBlock(block)
    ensures ReadLines(block + rest, b) == ReadLines(rest, Buffer(b.data + DataOf(block), NameOf(block, b.event)))
  {
    if block == [] {
      assert block + rest == rest && b.data + [] == b.data;
    } else {
      var n := |block| - 1;
      var mid := Buffer(b.data + DataOf(block[..n]), NameOf(block[..n], b.event));
      assert block + rest == block[..n] + ([block[n]] + rest);
      BlockAdds(block[..n], [block[n]] + rest, b);
      ReadCons(block[n], rest, mid);
      LineAdds(mid, block[n]);
      hide ValueFor, StripCr, ReadLines, AfterLine, EmittedBy;
      var last := match ValueFor(StripCr(block[n]), "data") case Some(v) => [v] case None => [];
      assert b.data + DataOf(block[..n]) + last == b.data + (DataOf(block[..n]) + last);
    }
  }

  /** Lines joined by line feeds: `text` is the lines with a single one between any two. */
  lemma {:induction false} JoinsBy(lines: seq<string>, last: string)
    ensures JoinLines([last]) == last
    ensures lines != [] ==> JoinLines(lines + [last]) == JoinLines(lines) + ['\n'] + last
  {
    if |lines| == 1 {
      assert (lines + [last])[1..] == [last];
    } else if lines != [] {
      JoinsBy(lines[1..], last);
      assert (lines + [last])[1..] == lines[1..] + [last];
      assert lines[0] + "\n" + (JoinLines(lines[1..]) + ['\n'] + last) == lines[0] + "\n" + JoinLines(lines[1..]) + ['\n'] + last;
    }
  }

  /**
   The reader over any lines: a block up to a blank line yields one event if it has data, its data lines
   joined and its last event name; without data it yields nothing, and a name it gave stays for the next
   block.  At the end of the stream data still pending is yielded too.
   */
  lemma BlockReads(block: seq<string>, blank: string, rest: seq<string>, name: Option<string>)
    requires IsBlock(block) && StripCr(blank) == ""
    ensures ReadLines(block + [blank] + rest, Buffer([], name)) ==
      if DataOf(block) == [] then ReadLines(rest, Buffer([], NameOf(block, name)))
      else [(JoinLines(DataOf(block)), NameOf(block, name))] + ReadLines(rest, EMPTY)
    ensures ReadLines(block, Buffer([], name)) ==
      if DataOf(block) == [] then [] else [(JoinLines(DataOf(block)), NameOf(block, name))]
  {
    var b := Buffer(DataOf(block), NameOf(block, name));
    BlockAdds(block, [blank] + rest, Buffer([], name));
    BlockAdds(block, [], Buffer([], name));
    assert block + [blank] + rest == block + ([blank] + rest) && block + [] == block;
    assert [] + DataOf(block) == DataOf(block);
    ReadCons(blank, rest, b);
    hide DataOf, NameOf, StripCr, JoinLines;
  }

  // ---------------------------------------------------------------- frames read back

  /** One frame as `broadcast` writes it. */
  function Frame(kind: string, data: string): string { "event: " + kind + "\ndata: " + data + "\n\n" }

  function Frames(events: seq<(string, string)>): string
  {
    if events == [] then "" else Frame(events[0].0, events[0].1) + Frames(events[1..])
  }

  /** What one subscriber receives: the fixed first frame, then the broadcasts. */
  function Stream(events: seq<(string, string)>): string { ": connected\n\n" + Frames(events) }

  function Expected(events: seq<(string, string)>): seq<Event>
  {
    seq(|events|, k requires 0 <= k < |events| => (events[k].1, Some(events[k].0)))
  }

  lemma FirstBreakAt(r: LineReader, a: string, c: char, rest: string)
    requires Clean(r, a) && IsBreak(r, c)
    ensures FirstBreak(r, a + [c] + rest) == |a|
  {
    var s := a + [c] + rest;
    var n := FirstBreak(r, s);
    assert s[|a|] == c && forall k :: 0 <= k < |a| ==> s[k] == a[k];
  }

  /** `a` as a whole line in front of `rest`. */
  function OnLine(a: string, rest: string): string { a + "\n" + rest }

  lemma LineOff(r: LineReader, a: string, rest: string)
    requires Clean(r, a)
    ensures Lines(r, OnLine(a, rest)) == [a] + Lines(r, rest)
  {
    FirstBreakAt(r, a, '\n', rest);
    var s := a + "\n" + rest;
    assert s[..|a|] == a && s[|a| + 1..] == rest;
  }

  lemma ReadOff(r: LineReader, a: string, rest: string, b: Buffer)
    requires Clean(r, a)
    ensures ReadLines(Lines(r, OnLine(a, rest)), b)
            == EmittedBy(b, a) + ReadLines(Lines(r, rest), AfterLine(b, a))
  {
    LineOff(r, a, rest);
    ReadCons(a, Lines(r, rest), b);
  }

  lemma {:induction false} ColonAt(field: string, value: string)
    requires forall k :: 0 <= k < |field| ==> field[k] != ':'
    ensures IndexOfColon(field + ":" + value) == |field|
  {
    if field != "" {
      ColonAt(field[1..], value);
      assert (field + ":" + value)[1..] == field[1..] + ":" + value;
    }
  }

  lemma FieldOf(field: string, value: string)
    requires forall k :: 0 <= k < |field| ==> field[k] != ':'
    ensures Field(field + ": " + value) == (field, value)
  {
    ColonAt(field, " " + value);
    var line := field + ":" + (" " + value);
    assert line == field + ": " + value;
    assert line[..|field|] == field && line[|field| + 1..] == " " + value && (" " + value)[1..] == value;
  }

  lemma StripClean(r: LineReader, s: string)
    requires Clean(r, s)
    ensures StripCr(s) == s
  {
  }

  lemma DataLine(r: LineReader, b: Buffer, d: string)
    requires Clean(r, d)
    ensures AfterLine(b, "data: " + d) == b.(data := b.data + [d]) && EmittedBy(b, "data: " + d) == []
  {
    CleanConcat(r, "data: ", d);
    StripClean(r, "data: " + d);
    FieldOf("data", d);
    assert "data" + ": " + d == "data: " + d;
  }

  lemma EventLine(r: LineReader, b: Buffer, kind: string)
    requires Clean(r, kind) && kind != ""
    ensures AfterLine(b, "event: " + kind) == b.(event := Some(kind)) && EmittedBy(b, "event: " + kind) == []
  {
    CleanConcat(r, "event: ", kind);
    StripClean(r, "event: " + kind);
    FieldOf("event", kind);
    assert "event" + ": " + kind == "event: " + kind;
  }

  /** The fixed parts of a frame hold no line boundary. */
  lemma LabelsClean(r: LineReader)
    ensures Clean(r, "") && Clean(r, "event: ") && Clean(r, "data: ") && Clean(r, ": connected")
  {
  }

  lemma FrameText(kind: string, data: string, rest: string)
    ensures Frame(kind, data) + rest == OnLine("event: " + kind, "data: " + data + "\n\n" + rest)
    ensures "data: " + data + "\n\n" + rest == OnLine("data: " + data, OnLine("", rest))
  {
    assert OnLine("", rest) == "\n" + rest;
  }

  /** A frame whose data is one line yields that data with its type. */
  lemma CleanFrameReads(r: LineReader, kind: string, data: string, rest: string)
    requires Clean(r, kind) && kind != "" && Clean(r, data)
    ensures ReadLines(Lines(r, Frame(kind, data) + rest), EMPTY)
            == [(data, Some(kind))] + ReadLines(Lines(r, rest), EMPTY)
  {
    hide Lines, ReadLines, Clean, Frame, OnLine;
    var b1 := Buffer([], Some(kind));
    var b2 := Buffer([data], Some(kind));
    FrameText(kind, data, rest);
    LabelsClean(r);
    CleanConcat(r, "event: ", kind);
    CleanConcat(r, "data: ", data);
    EventLine(r, EMPTY, kind);
    DataLine(r, b1, data);
    assert [] + [data] == [data];
    ReadOff(r, "event: " + kind, OnLine("data: " + data, OnLine("", rest)), EMPTY);
    ReadOff(r, "data: " + data, OnLine("", rest), b1);
    ReadOff(r, "", rest, b2);
  }

  /** Once a data line is buffered, the next event starts with it, alone or followed by a line feed. */
  lemma {:induction false} FirstEventStartsWith(lines: seq<string>, b: Buffer, d: string)
    requires b.data != [] && b.data[0] == d
    ensures var out := ReadLines(lines, b);
      out != [] && d <= out[0].0 && (|out[0].0| > |d| ==> out[0].0[|d|] == '\n')
  {
    if lines == [] || StripCr(lines[0]) == "" {
      assert Dispatched(b)[0].0 == JoinLines(b.data);
    } else {
      FirstEventStartsWith(lines[1..], AfterLine(b, lines[0]), d);
    }
  }

  lemma BrokenDataLine(r: LineReader, data: string, rest: string) returns (d: string, more: string)
    requires !Clean(r, data) && Clean(Standard, data)
    ensures Clean(r, d) && d < data && data[|d|] != '\n'
    ensures Lines(r, "data: " + data + "\n\n" + rest) == ["data: " + d] + Lines(r, more)
  {
    var n := FirstBreak(r, data);
    d := data[..n];
    more := data[n + 1..] + "\n\n" + rest;
    var text := "data: " + data + "\n\n" + rest;
    CleanConcat(r, "data: ", d);
    assert text == ("data: " + d) + [data[n]] + more;
    FirstBreakAt(r, "data: " + d, data[n], more);
    assert text[..|d| + 6] == "data: " + d && text[|d| + 7..] == more;
    assert !IsBreak(Standard, data[n]);
  }

  /** A frame whose data is broken into lines never yields that data as its first event. */
  lemma BrokenFrameReads(r: LineReader, kind: string, data: string, rest: string)
    requires Clean(r, kind) && kind != "" && !Clean(r, data) && Clean(Standard, data)
    ensures var out := ReadLines(Lines(r, Frame(kind, data) + rest), EMPTY);
      out != [] && out[0].0 != data
  {
    hide Lines, ReadLines, Clean, Frame, OnLine;
    var d, more := BrokenDataLine(r, data, rest);
    var b1 := Buffer([], Some(kind));
    var b2 := Buffer([d], Some(kind));
    FrameText(kind, data, rest);
    LabelsClean(r);
    CleanConcat(r, "event: ", kind);
    EventLine(r, EMPTY, kind);
    DataLine(r, b1, d);
    assert [] + [d] == [d];
    var text := "data: " + data + "\n\n" + rest;
    ReadOff(r, "event: " + kind, text, EMPTY);
    ReadCons("data: " + d, Lines(r, more), b1);
    FirstEventStartsWith(Lines(r, more), b2, d);
  }

  predicate WellTyped(r: LineReader, events: seq<(string, string)>)
  {
    forall k :: 0 <= k < |events| ==>
      Clean(r, events[k].0) && events[k].0 != "" && Clean(Standard, events[k].1)
  }

  lemma NothingToRead(r: LineReader)
    ensures ReadLines(Lines(r, ""), EMPTY) == []
  {
  }

  lemma {:induction false} FramesReadBack(r: LineReader, events: seq<(string, string)>)
    requires WellTyped(r, events)
    ensures ReadLines(Lines(r, Frames(events)), EMPTY) == Expected(events) <==>
            forall k :: 0 <= k < |events| ==> Clean(r, events[k].1)
  {
    hide Lines, ReadLines, Clean, Frame;
    if events == [] {
      NothingToRead(r);
    } else {
      var (kind, data) := events[0];
      var rest := events[1..];
      assert forall k :: 1 <= k < |events| ==> rest[k - 1] == events[k];
      if Clean(r, data) {
        FramesReadBack(r, rest);
        CleanFrameReads(r, kind, data, Frames(rest));
        var tail := ReadLines(Lines(r, Frames(rest)), EMPTY);
        assert Expected(events) == [(data, Some(kind))] + Expected(rest);
        SameTail((data, Some(kind)), tail, Expected(rest));
        assert forall k :: 0 <= k < |rest| ==> rest[k] == events[k + 1];
      } else {
        BrokenFrameReads(r, kind, data, Frames(rest));
        assert Expected(events)[0].0 == data;
      }
    }
  }

  lemma SameTail(e: Event, a: seq<Event>, b: seq<Event>)
    ensures [e] + a == [e] + b <==> a == b
  {
    assert ([e] + a)[1..] == a && ([e] + b)[1..] == b;
  }

  lemma ConnectedIgnored(r: LineReader, rest: string)
    ensures ReadLines(Lines(r, ": connected\n\n" + rest), EMPTY) == ReadLines(Lines(r, rest), EMPTY)
  {
    hide Lines, ReadLines, Clean;
    LabelsClean(r);
    StripClean(r, ": connected");
    ReadOff(r, ": connected", OnLine("", rest), EMPTY);
    ReadOff(r, "", rest, EMPTY);
    assert ": connected\n\n" + rest == OnLine(": connected", OnLine("", rest));
  }

  // ---------------------------------------------------------------- events

  /** A plane event; the payload is an insertion-ordered map. */
  datatype DebugEvent = DebugEvent(kind: string, sequence: int, payload: seq<Member>)

  /** `put` on an insertion-ordered map: an existing key keeps its place and takes the new value. */
  function Put(members: seq<Member>, m: Member): seq<Member>
  {
    if members == [] then [m]
    else if members[0].key == m.key then [m] + members[1..]
    else [members[0]] + Put(members[1..], m)
  }

  function PutAll(members: seq<Member>, more: seq<Member>): seq<Member>
    decreases more
  {
    if more == [] then members else PutAll(Put(members, more[0]), more[1..])
  }

  function ToJson(e: DebugEvent): Json
  {
    Map(PutAll([Member("type", Str(e.kind)), Member("sequence", Int(e.sequence))], e.payload))
  }

  predicate HasKey(members: seq<Member>, key: string)
  {
    exists k :: 0 <= k < |members| && members[k].key == key
  }

  predicate DistinctKeys(members: seq<Member>)
  {
    forall i, j :: 0 <= i < j < |members| ==> members[i].key != members[j].key
  }

  lemma {:induction false} PutFresh(members: seq<Member>, m: Member)
    requires !HasKey(members, m.key)
    ensures Put(members, m) == members + [m]
  {
    if members != [] {
      assert members[0].key != m.key;
      forall k | 0 <= k < |members[1..]| ensures members[1..][k].key != m.key {
        assert members[1..][k] == members[k + 1];
      }
      PutFresh(members[1..], m);
    }
  }

  lemma {:induction false} PutAllFresh(members: seq<Member>, more: seq<Member>)
    requires DistinctKeys(more)
    requires forall k :: 0 <= k < |more| ==> !HasKey(members, more[k].key)
    ensures PutAll(members, more) == members + more
    decreases more
  {
    if more != [] {
      var next := members + [more[0]];
      PutFresh(members, more[0]);
      forall k | 0 <= k < |more[1..]| ensures !HasKey(next, more[1..][k].key) {
        var key := more[k + 1].key;
        assert !HasKey(members, key);
        forall i | 0 <= i < |next| ensures next[i].key != key {
          assert i < |members| ==> next[i] == members[i];
        }
      }
      PutAllFresh(next, more[1..]);
    }
  }

  /** Type first, sequence second, then the payload in its own order. */
  lemma EventLayout(e: DebugEvent)
    requires DistinctKeys(e.payload) && !HasKey(e.payload, "type") && !HasKey(e.payload, "sequence")
    ensures ToJson(e) ==
            Map([Member("type", Str(e.kind)), Member("sequence", Int(e.sequence))] + e.payload)
  {
    var head := [Member("type", Str(e.kind)), Member("sequence", Int(e.sequence))];
    forall k | 0 <= k < |e.payload| ensures !HasKey(head, e.payload[k].key) {
    }
    PutAllFresh(head, e.payload);
  }

  function Wire(lib: OrgJson, events: seq<DebugEvent>): seq<(string, string)>
  {
    seq(|events|, k requires 0 <= k < |events| => (events[k].kind, Encode(lib, ToJson(events[k]))))
  }

  /**
   The wire round trip.  The client yields exactly the printed data with their types, in order, if
   and only if no event exposes a line boundary the printer leaves unescaped; and each such data text
   reads back as the event's own JSON with its key order.
   */
  lemma WireRoundTrip(r: LineReader, lib: OrgJson, events: seq<DebugEvent>)
    requires forall k :: 0 <= k < |events| ==> events[k].kind != "" && Clean(r, events[k].kind)
    ensures ReadLines(Lines(r, Stream(Wire(lib, events))), EMPTY) == Expected(Wire(lib, events)) <==>
            forall k :: 0 <= k < |events| ==> !JsonExposed(r, lib, ToJson(events[k]))
    ensures forall k :: 0 <= k < |events| ==>
              Parse(Encode(lib, ToJson(events[k]))) == Ok(ToJson(events[k]), "")
  {
    var wire := Wire(lib, events);
    forall k | 0 <= k < |events|
      ensures Parse(wire[k].1) == Ok(ToJson(events[k]), "")
      ensures Clean(Standard, wire[k].1)
      ensures Clean(r, wire[k].1) <==> !JsonExposed(r, lib, ToJson(events[k]))
    {
      DocumentReadsBack(lib, ToJson(events[k]));
      NeverExposed(Standard, lib, ToJson(events[k]));
      EncodeClean(Standard, lib, ToJson(events[k]));
      EncodeClean(r, lib, ToJson(events[k]));
    }
    FramesReadBack(r, wire);
    ConnectedIgnored(r, Frames(wire));
  }

  /** A standard reader, or the JVM's quoting, exposes nothing: there the round trip always holds. */
  lemma {:induction false} NeverExposed(r: LineReader, lib: OrgJson, v: Json)
    requires r.Standard? || lib.Reference?
    ensures !JsonExposed(r, lib, v)
    decreases v
  {
    match v
    case List(items) =>
      forall k | 0 <= k < |items| ensures !JsonExposed(r, lib, items[k]) {
        NeverExposed(r, lib, items[k]);
      }
    case Map(members) =>
      forall k | 0 <= k < |members| ensures !MemberExposed(r, lib, members[k]) {
        assert members[k].value < members[k];
        NeverExposed(r, lib, members[k].value);
      }
    case _ =>
  }

  /** On Android with httpx, one event holding a line separator is not delivered as sent. */
  lemma SeparatorBreaksTheStream()
    ensures var e := DebugEvent("note", 0, [Member("text", Str([0x2028 as char]))]);
      ReadLines(Lines(Httpx, Stream(Wire(Android, [e]))), EMPTY) != Expected(Wire(Android, [e]))
  {
    var m := Member("text", Str([0x2028 as char]));
    var e := DebugEvent("note", 0, [m]);
    EventLayout(e);
    assert Exposed(Httpx, Android, [0x2028 as char][0]);
    assert TextExposed(Httpx, Android, [0x2028 as char]);
    assert MemberExposed(Httpx, Android, m);
    assert ToJson(e).members[2] == m;
    WireRoundTrip(Httpx, Android, [e]);
  }
}
