/**
 The capability selector across the two languages: the `/hello` entry printed by the app, the schema
 Python parses from it, the selector arguments and headers Python sends, and the selector the app parses.
 */
module Selector {
  import opened Scopes
  import opened Wrappers
  import opened Text
  import opened OrderedJson
  import Registry

  // ---------------------------------------------------------------- the /hello entry

  function Optional(key: string, value: Option<string>): seq<Member>
  {
    if value.Some? then [Member(key, Str(value.value))] else []
  }

  function PathJson(path: seq<string>): Json { List(seq(|path|, i requires 0 <= i < |path| => Str(path[i]))) }

  function DeclMap(d: Registry.Decl): Json
  {
    Map([Member("method", Str(d.verb)), Member("path", PathJson(d.path))] + Optional("description", d.description))
  }

  function DeclMaps(decls: seq<Registry.Decl>): Json
  {
    List(seq(|decls|, i requires 0 <= i < |decls| => DeclMap(decls[i])))
  }

  /** `toCapabilityMap`. */
  function HelloEntry(e: Registry.Entry): Json
  {
    var c := e.capability;
    Map([Member("id", Str(c.id)), Member("scope", Str(Wire(c.scope.kind)))] +
        Optional("pageId", if c.scope.kind.Page? then c.scope.pageId else None) +
        Optional("pageName", c.scope.pageName) +
        [Member("scopeRevision", Int(e.revision)),
         Member("resources", DeclMaps(c.resources)), Member("commands", DeclMaps(c.commands))])
  }

  // ---------------------------------------------------------------- Python's view of it

  /** `dict.get` on a decoded object: the last member of a name wins, a missing one is null. */
  function Get(members: seq<Member>, key: string): Json
  {
    if members == [] then Null
    else if members[|members| - 1].key == key then members[|members| - 1].value
    else Get(members[..|members| - 1], key)
  }

  predicate Has(members: seq<Member>, key: string) { exists k :: 0 <= k < |members| && members[k].key == key }

  datatype DeclSchema = DeclSchema(verb: string, path: seq<string>, description: Option<string>)

  datatype Schema = Schema(
    capabilityId: string,
    resources: seq<DeclSchema>,
    commands: seq<DeclSchema>,
    description: Option<string>,
    scope: string,
    pageId: Option<string>,
    pageName: Option<string>,
    scopeRevision: Option<int>)

  function NonEmptyString(raw: Json): Option<string> { if raw.Str? && raw.s != "" then Some(raw.s) else None }

  function ParseScope(raw: Json): string { if raw == Str("app") || raw == Str("page") then raw.s else "app" }

  /** `str` is Python's conversion of a path element; on a string it is the identity. */
  function ParseDecl(str: Json -> string, item: Json): Option<DeclSchema>
  {
    if !item.Map? then None
    else
      var verb, path := Get(item.members, "method"), Get(item.members, "path");
      if !verb.Str? || !path.List? then None
      else
        var items := path.items;
        Some(DeclSchema(verb.s, seq(|items|, i requires 0 <= i < |items| => str(items[i])),
                        NonEmptyString(Get(item.members, "description"))))
  }

  function ParseDeclItems(str: Json -> string, items: seq<Json>): seq<DeclSchema>
  {
    if items == [] then []
    else
      var n := |items| - 1;
      var d := ParseDecl(str, items[n]);
      ParseDeclItems(str, items[..n]) + if d.Some? then [d.value] else []
  }

  /** `_parse_decls`: malformed entries are skipped one by one. */
  method ParseDecls(str: Json -> string, raw: Json) returns (out: seq<DeclSchema>)
    ensures out == if raw.List? then ParseDeclItems(str, raw.items) else []
  {
    out := [];
    if !raw.List? {
      return;
    }
    for i := 0 to |raw.items|
      invariant out == ParseDeclItems(str, raw.items[..i])
    {
      assert raw.items[..i + 1][..i] == raw.items[..i];
      var d := ParseDecl(str, raw.items[i]);
      if d.None? {
        continue;
      }
      out := out + [d.value];
    }
    assert raw.items[..|raw.items|] == raw.items;
  }

  function DeclsOf(str: Json -> string, raw: Json): seq<DeclSchema>
  {
    if raw.List? then ParseDeclItems(str, raw.items) else []
  }

  /** `_parse_one`, for an entry that is an object. */
  function ParseOne(str: Json -> string, cap: seq<Member>): Schema
  {
    var id := NonEmptyString(Get(cap, "id"));
    var revision := Get(cap, "scopeRevision");
    Schema(if id.Some? then id.value else "",
           DeclsOf(str, Get(cap, "resources")), DeclsOf(str, Get(cap, "commands")),
           NonEmptyString(Get(cap, "description")), ParseScope(Get(cap, "scope")),
           NonEmptyString(Get(cap, "pageId")), NonEmptyString(Get(cap, "pageName")),
           if revision.Int? then Some(revision.i) else None)
  }

  // ---------------------------------------------------------------- arguments and headers

  datatype Kwargs = Kwargs(capabilityId: Option<string>, scope: Option<string>, pageId: Option<string>, revision: Option<int>)

  datatype Outcome = Accepted(kwargs: Kwargs) | ValueError

  /** `_selector_from_meta_args`. */
  function FromMetaArgs(args: seq<Member>): Outcome
  {
    var id, scope, page, revision :=
      Get(args, "capability_id"), Get(args, "scope"), Get(args, "page_id"), Get(args, "scope_revision");
    if !Has(args, "scope") && !Has(args, "page_id") && !Has(args, "scope_revision") then
      Accepted(Kwargs(None, None, None, None))
    else if NonEmptyString(id).None? then ValueError
    else if scope != Str("app") && scope != Str("page") then ValueError
    else if !page.Null? && NonEmptyString(page).None? then ValueError
    else if scope == Str("page") && page.Null? then ValueError
    else if scope != Str("page") && !page.Null? then ValueError
    else if !revision.Null? && !revision.Int? then ValueError
    else Accepted(Kwargs(Some(id.s), Some(scope.s), NonEmptyString(page), if revision.Int? then Some(revision.i) else None))
  }

  datatype Header = Header(name: string, value: string)

  const CAPABILITY_ID := "X-DCP-Capability-Id"
  const CAPABILITY_SCOPE := "X-DCP-Capability-Scope"
  const PAGE_ID := "X-DCP-Page-Id"
  const SCOPE_REVISION := "X-DCP-Scope-Revision"

  /** `selector_headers`. */
  function SelectorHeaders(k: Kwargs): seq<Header>
  {
    (if k.capabilityId.Some? && k.capabilityId.value != "" then [Header(CAPABILITY_ID, k.capabilityId.value)] else []) +
    (if k.scope == Some("app") || k.scope == Some("page") then [Header(CAPABILITY_SCOPE, k.scope.value)] else []) +
    (if k.pageId.Some? && k.pageId.value != "" then [Header(PAGE_ID, k.pageId.value)] else []) +
    (if k.revision.Some? then [Header(SCOPE_REVISION, DecimalInt(k.revision.value))] else [])
  }

  /** None of the three selector arguments is given. */
  predicate Unscoped(args: seq<Member>)
  {
    forall k :: 0 <= k < |args| ==> args[k].key !in {"scope", "page_id", "scope_revision"}
  }

  /** A full selector: an id, a scope in words, a page id exactly for a page, a number or nothing as revision. */
  predicate FullSelector(args: seq<Member>)
  {
    var id, scope, page := Get(args, "capability_id"), Get(args, "scope"), Get(args, "page_id");
    && id.Str? && id.s != ""
    && scope.Str? && (scope.s == "app" || scope.s == "page")
    && (scope.s == "app" ==> page.Null?) && (scope.s == "page" ==> page.Str? && page.s != "")
    && (Get(args, "scope_revision").Null? || Get(args, "scope_revision").Int?)
  }

  /**
   All arguments a caller may pass: without a selector argument the call goes out without a selector, else
   exactly a full selector is accepted, with just its values.
   */
  lemma ArgsDecide(args: seq<Member>)
    ensures Unscoped(args) ==>
      var out := FromMetaArgs(args);
      && out.Accepted? && SelectorHeaders(out.kwargs) == []
      && out.kwargs.capabilityId.None? && out.kwargs.scope.None? && out.kwargs.pageId.None? && out.kwargs.revision.None?
    ensures !Unscoped(args) ==> (FromMetaArgs(args).Accepted? <==> FullSelector(args))
    ensures !Unscoped(args) && FullSelector(args) ==>
      var kwargs := FromMetaArgs(args).kwargs;
      && kwargs.capabilityId == Some(Get(args, "capability_id").s) && kwargs.scope == Some(Get(args, "scope").s)
      && (if Get(args, "page_id").Null? then kwargs.pageId.None? else kwargs.pageId == Some(Get(args, "page_id").s))
      && (if Get(args, "scope_revision").Null? then kwargs.revision.None? else kwargs.revision == Some(Get(args, "scope_revision").i))
  {
    var app, page := "app", "page";
    assert app[0] == 'a' && page[0] == 'p';
    var a, b, c := "scope", "page_id", "scope_revision";
    assert Unscoped(args) <==> !Has(args, a) && !Has(args, b) && !Has(args, c);
    hide Get, Has, Unscoped;
    var none := Kwargs(None, None, None, None);
    assert SelectorHeaders(none) == [];
  }

  /** `dict.get` is the value of the last member of that name, null without one. */
  lemma {:induction false} GetIsLast(members: seq<Member>, key: string, k: nat)
    ensures (forall i :: 0 <= i < |members| ==> members[i].key != key) ==> Get(members, key) == Null
    ensures k < |members| && members[k].key == key && (forall i :: k < i < |members| ==> members[i].key != key) ==>
      Get(members, key) == members[k].value
  {
    if members != [] {
      var n := |members| - 1;
      GetIsLast(members[..n], key, k);
    }
  }

  // ---------------------------------------------------------------- the app parses the headers

  datatype CapabilitySelector = CapabilitySelector(isPresent: bool, key: Option<Registry.Key>, scopeRevision: Option<int>)

  /** First header of that name, compared in lower case; `lower` is the library's lower-casing. */
  function Raw(lower: string -> string, headers: seq<Header>, name: string): Option<string>
  {
    if headers == [] then None
    else if lower(headers[0].name) == lower(name) then Some(headers[0].value)
    else Raw(lower, headers[1..], name)
  }

  /** The value trimmed, nothing when that is empty. */
  function Value(lower: string -> string, headers: seq<Header>, name: string): Option<string>
  {
    var raw := Raw(lower, headers, name);
    if raw.None? || Trim(raw.value) == "" then None else Some(Trim(raw.value))
  }

  /** `CapabilitySelector.parse`. */
  function Parse(lower: string -> string, headers: seq<Header>): CapabilitySelector
  {
    var id, scopeValue := Value(lower, headers, CAPABILITY_ID), Value(lower, headers, CAPABILITY_SCOPE);
    var page, revision := Value(lower, headers, PAGE_ID), Value(lower, headers, SCOPE_REVISION);
    if id.None? && scopeValue.None? && page.None? && revision.None? then CapabilitySelector(false, None, None)
    else
      var kind := if scopeValue == Some("app") then Some(App)
                  else if scopeValue == Some("page") then Some(Page) else None;
      var complete := id.Some? && kind.Some? && (kind.value.App? || page.Some?);
      CapabilitySelector(true,
        if complete then Some(Registry.Key(kind.value, if kind.value.Page? then page else None, id.value)) else None,
        if revision.Some? then ToLongOrNull(revision.value) else None)
  }

  /** `CapabilitySelector.header`: the loop over the header map. */
  method FindHeader(lower: string -> string, headers: seq<Header>, name: string) returns (value: Option<string>)
    ensures value == Value(lower, headers, name)
  {
    for i := 0 to |headers|
      invariant Raw(lower, headers, name) == Raw(lower, headers[i..], name)
    {
      if lower(headers[i].name) != lower(name) {
        continue;
      }
      var trimmed := Trim(headers[i].value);
      return if trimmed == "" then None else Some(trimmed);
    }
    return None;
  }

  // ---------------------------------------------------------------- round trip

  lemma {:induction false} GetAppend(a: seq<Member>, b: seq<Member>, key: string)
    ensures Get(a + b, key) == if Has(b, key) then Get(b, key) else Get(a, key)
  {
    if b == [] {
      assert a + b == a;
    } else {
      var n := |b| - 1;
      assert (a + b)[..|a + b| - 1] == a + b[..n];
      GetAppend(a, b[..n], key);
      if b[n].key != key {
        assert Has(b, key) <==> Has(b[..n], key);
      }
    }
  }

  lemma GetOne(m: Member, key: string)
    ensures Has([m], key) <==> m.key == key
    ensures m.key == key ==> Get([m], key) == m.value
    ensures m.key != key ==> Get([m], key) == Null
  {
    assert [m][..0] == [] && [m][0] == m;
  }

  lemma OptionalGet(name: string, value: Option<string>, key: string)
    ensures Has(Optional(name, value), key) <==> name == key && value.Some?
    ensures name == key && value.Some? ==> Get(Optional(name, value), key) == Str(value.value)
  {
    if value.Some? {
      GetOne(Member(name, Str(value.value)), key);
    }
  }

  /** The member names of an entry, told apart. */
  lemma NamesDiffer()
    ensures "scopeRevision" != "resources" && "scopeRevision" != "commands" && "resources" != "commands"
    ensures "pageName" != "scopeRevision" && "pageName" != "resources" && "pageName" != "commands"
    ensures "pageId" != "scopeRevision" && "pageId" != "resources" && "pageId" != "commands" && "pageId" != "pageName"
    ensures "scope" != "scopeRevision" && "scope" != "resources" && "scope" != "commands"
    ensures "scope" != "pageName" && "scope" != "pageId" && "scope" != "id"
    ensures "id" != "scopeRevision" && "id" != "resources" && "id" != "commands" && "id" != "pageName" && "id" != "pageId"
    ensures "description" != "scopeRevision" && "description" != "resources" && "description" != "commands"
    ensures "description" != "pageName" && "description" != "pageId" && "description" != "scope" && "description" != "id"
  {
    assert |"scopeRevision"| == 13 && |"resources"| == 9 && |"commands"| == 8 && |"pageName"| == 8;
    assert |"pageId"| == 6 && |"scope"| == 5 && |"id"| == 2 && |"description"| == 11;
    assert "pageName"[0] == 'p' && "commands"[0] == 'c';
  }

  lemma GetTail(e: Registry.Entry, key: string)
    ensures var c := e.capability;
      var tail := [Member("scopeRevision", Int(e.revision)), Member("resources", DeclMaps(c.resources)),
                   Member("commands", DeclMaps(c.commands))];
      && (key == "scopeRevision" ==> Has(tail, key) && Get(tail, key) == Int(e.revision))
      && (key == "resources" ==> Has(tail, key) && Get(tail, key) == DeclMaps(c.resources))
      && (key == "commands" ==> Has(tail, key) && Get(tail, key) == DeclMaps(c.commands))
      && (key != "scopeRevision" && key != "resources" && key != "commands" ==> !Has(tail, key))
  {
    NamesDiffer();
    var c := e.capability;
    var a, b, d := Member("scopeRevision", Int(e.revision)), Member("resources", DeclMaps(c.resources)),
      Member("commands", DeclMaps(c.commands));
    ThreeMembers(a, b, d, key);
  }

  lemma ThreeMembers(a: Member, b: Member, d: Member, key: string)
    requires a.key != b.key && a.key != d.key && b.key != d.key
    ensures var s := [a, b, d];
      && (key == a.key ==> Has(s, key) && Get(s, key) == a.value)
      && (key == b.key ==> Has(s, key) && Get(s, key) == b.value)
      && (key == d.key ==> Has(s, key) && Get(s, key) == d.value)
      && (Has(s, key) ==> key == a.key || key == b.key || key == d.key)
  {
    var s := [a, b, d];
    assert s[0] == a && s[1] == b && s[2] == d;
    assert s[..2] == [a, b] && [a, b][..1] == [a];
    GetOne(a, key);
    assert Get([a, b], key) == if b.key == key then b.value else Get([a], key);
    assert Get(s, key) == if d.key == key then d.value else Get([a, b], key);
  }

  lemma TwoMembers(a: Member, b: Member, key: string)
    requires a.key != b.key
    ensures var s := [a, b];
      && (key == a.key ==> Has(s, key) && Get(s, key) == a.value)
      && (key == b.key ==> Has(s, key) && Get(s, key) == b.value)
      && (key != a.key && key != b.key ==> !Has(s, key) && Get(s, key) == Null)
  {
    var s := [a, b];
    assert s[0] == a && s[1] == b && s[..1] == [a];
    GetOne(a, key);
  }

  function Shown(value: Option<string>): Json { if value.Some? then Str(value.value) else Null }

  function PageOf(e: Registry.Entry): Option<string>
  {
    if e.capability.scope.kind.Page? then e.capability.scope.pageId else None
  }

  function Answer(e: Registry.Entry, key: string): Json
  {
    var c := e.capability;
    if key == "scopeRevision" then Int(e.revision)
    else if key == "resources" then DeclMaps(c.resources)
    else if key == "commands" then DeclMaps(c.commands)
    else if key == "pageName" then Shown(c.scope.pageName)
    else if key == "pageId" then Shown(PageOf(e))
    else if key == "scope" then Str(Wire(c.scope.kind))
    else if key == "id" then Str(c.id)
    else Null
  }

  /** What Python's dictionary of an entry answers. */
  lemma GetHello(e: Registry.Entry, key: string)
    ensures Get(HelloEntry(e).members, key) == Answer(e, key)
  {
    var c := e.capability;
    var id, scope := Member("id", Str(c.id)), Member("scope", Str(Wire(c.scope.kind)));
    var head := [id, scope];
    var page, name := Optional("pageId", PageOf(e)), Optional("pageName", c.scope.pageName);
    var tail := [Member("scopeRevision", Int(e.revision)), Member("resources", DeclMaps(c.resources)),
                 Member("commands", DeclMaps(c.commands))];
    NamesDiffer();
    hide Get, Has, DeclMaps, Optional;
    GetAppend(head, page, key);
    GetAppend(head + page, name, key);
    GetAppend(head + page + name, tail, key);
    OptionalGet("pageId", PageOf(e), key);
    OptionalGet("pageName", c.scope.pageName, key);
    GetTail(e, key);
    TwoMembers(id, scope, key);
  }

  // ---------------------------------------------------------------- declarations read back

  /** Python drops an empty description. */
  function SchemaOf(d: Registry.Decl): DeclSchema
  {
    DeclSchema(d.verb, d.path, if d.description == Some("") then None else d.description)
  }

  lemma DeclReadsBack(str: Json -> string, d: Registry.Decl)
    requires forall s :: str(Str(s)) == s
    ensures ParseDecl(str, DeclMap(d)) == Some(SchemaOf(d))
  {
    var a, b := Member("method", Str(d.verb)), Member("path", PathJson(d.path));
    var tail := Optional("description", d.description);
    assert |"method"| == 6 && |"path"| == 4 && |"description"| == 11;
    forall key: string
      ensures Get(DeclMap(d).members, key) ==
        if key == "description" then Shown(d.description) else if key == "path" then b.value
        else if key == "method" then a.value else Null
    {
      GetAppend([a, b], tail, key);
      OptionalGet("description", d.description, key);
      TwoMembers(a, b, key);
    }
    var items := PathJson(d.path).items;
    assert seq(|items|, i requires 0 <= i < |items| => str(items[i])) == d.path;
  }

  lemma {:induction false} DeclsReadBack(str: Json -> string, decls: seq<Registry.Decl>)
    requires forall s :: str(Str(s)) == s
    ensures DeclsOf(str, DeclMaps(decls)) == seq(|decls|, i requires 0 <= i < |decls| => SchemaOf(decls[i]))
  {
    if decls != [] {
      var n := |decls| - 1;
      DeclsReadBack(str, decls[..n]);
      DeclReadsBack(str, decls[n]);
      assert DeclMaps(decls).items[..n] == DeclMaps(decls[..n]).items;
    }
  }

  /** Printed by the app, read as JSON and parsed by Python, an entry yields its own id, scope and revision. */
  lemma EntryReadsBack(lib: OrgJson, str: Json -> string, e: Registry.Entry)
    requires forall s :: str(Str(s)) == s
    ensures OrderedJson.Parse(Encode(lib, HelloEntry(e))) == Ok(HelloEntry(e), "")
    ensures var c := e.capability;
      ParseOne(str, HelloEntry(e).members) ==
        Schema(c.id, seq(|c.resources|, i requires 0 <= i < |c.resources| => SchemaOf(c.resources[i])),
               seq(|c.commands|, i requires 0 <= i < |c.commands| => SchemaOf(c.commands[i])),
               None, Wire(c.scope.kind), NonEmptyString(Shown(PageOf(e))), NonEmptyString(Shown(c.scope.pageName)),
               Some(e.revision))
  {
    DocumentReadsBack(lib, HelloEntry(e));
    NamesDiffer();
    GetHello(e, "id");
    GetHello(e, "resources");
    GetHello(e, "commands");
    GetHello(e, "description");
    GetHello(e, "scope");
    GetHello(e, "pageId");
    GetHello(e, "pageName");
    GetHello(e, "scopeRevision");
    hide Get, HelloEntry, DeclMaps, DeclsOf, Encode, OrderedJson.Parse;
    DeclsReadBack(str, e.capability.resources);
    DeclsReadBack(str, e.capability.commands);
  }

  // ---------------------------------------------------------------- arguments and headers of a schema

  /** The selector arguments a client copies from a listed schema; absent fields are left out. */
  function ArgsOf(s: Schema): seq<Member>
  {
    [Member("capability_id", Str(s.capabilityId)), Member("scope", Str(s.scope))] +
    Optional("page_id", s.pageId) +
    (if s.scopeRevision.Some? then [Member("scope_revision", Int(s.scopeRevision.value))] else [])
  }

  lemma ArgKeysDiffer()
    ensures "capability_id" != "scope" && "capability_id" != "page_id" && "capability_id" != "scope_revision"
    ensures "scope" != "page_id" && "scope" != "scope_revision" && "page_id" != "scope_revision"
  {
    assert |"capability_id"| == 13 && |"scope"| == 5 && |"page_id"| == 7 && |"scope_revision"| == 14;
  }

  function ArgAnswer(s: Schema, key: string): Json
  {
    if key == "scope_revision" then (if s.scopeRevision.Some? then Int(s.scopeRevision.value) else Null)
    else if key == "page_id" then Shown(s.pageId)
    else if key == "scope" then Str(s.scope)
    else if key == "capability_id" then Str(s.capabilityId)
    else Null
  }

  lemma ArgGet(s: Schema, key: string)
    ensures Get(ArgsOf(s), key) == ArgAnswer(s, key)
  {
    var a, b := Member("capability_id", Str(s.capabilityId)), Member("scope", Str(s.scope));
    var page := Optional("page_id", s.pageId);
    var tail := if s.scopeRevision.Some? then [Member("scope_revision", Int(s.scopeRevision.value))] else [];
    ArgKeysDiffer();
    GetAppend([a, b], page, key);
    GetAppend([a, b] + page, tail, key);
    OptionalGet("page_id", s.pageId, key);
    TwoMembers(a, b, key);
    if tail != [] {
      GetOne(tail[0], key);
    }
    hide Get, Optional;
  }

  lemma ArgsRead(s: Schema)
    ensures var args := ArgsOf(s);
      && Get(args, "capability_id") == Str(s.capabilityId) && Get(args, "scope") == Str(s.scope)
      && Get(args, "page_id") == Shown(s.pageId) && Has(args, "scope")
      && Get(args, "scope_revision") == if s.scopeRevision.Some? then Int(s.scopeRevision.value) else Null
  {
    assert ArgsOf(s)[1].key == "scope";
    hide ArgsOf, Get;
    ArgKeysDiffer();
    ArgGet(s, "capability_id");
    ArgGet(s, "scope");
    ArgGet(s, "page_id");
    ArgGet(s, "scope_revision");
  }

  /** The four header names stay different in lower case. */
  predicate NamesApart(lower: string -> string)
  {
    && lower(CAPABILITY_ID) != lower(CAPABILITY_SCOPE) && lower(CAPABILITY_ID) != lower(PAGE_ID)
    && lower(CAPABILITY_ID) != lower(SCOPE_REVISION) && lower(CAPABILITY_SCOPE) != lower(PAGE_ID)
    && lower(CAPABILITY_SCOPE) != lower(SCOPE_REVISION) && lower(PAGE_ID) != lower(SCOPE_REVISION)
  }

  /** Whatever else was added and however names were respelled, the four values arrived. */
  predicate Delivers(lower: string -> string, sent: seq<Header>, got: seq<Header>)
  {
    && Raw(lower, got, CAPABILITY_ID) == Raw(lower, sent, CAPABILITY_ID)
    && Raw(lower, got, CAPABILITY_SCOPE) == Raw(lower, sent, CAPABILITY_SCOPE)
    && Raw(lower, got, PAGE_ID) == Raw(lower, sent, PAGE_ID)
    && Raw(lower, got, SCOPE_REVISION) == Raw(lower, sent, SCOPE_REVISION)
  }

  lemma {:induction false} RawAppend(lower: string -> string, a: seq<Header>, b: seq<Header>, name: string)
    ensures Raw(lower, a + b, name) == if Raw(lower, a, name).Some? then Raw(lower, a, name) else Raw(lower, b, name)
  {
    if a == [] {
      assert a + b == b;
    } else {
      assert (a + b)[1..] == a[1..] + b;
      RawAppend(lower, a[1..], b, name);
    }
  }

  /** The headers of a full selector, by name. */
  lemma HeadersRead(lower: string -> string, id: string, kind: ScopeType, page: Option<string>, revision: int)
    requires NamesApart(lower) && id != "" && page != Some("")
    ensures var sent := SelectorHeaders(Kwargs(Some(id), Some(Wire(kind)), page, Some(revision)));
      && Raw(lower, sent, CAPABILITY_ID) == Some(id) && Raw(lower, sent, CAPABILITY_SCOPE) == Some(Wire(kind))
      && Raw(lower, sent, PAGE_ID) == page && Raw(lower, sent, SCOPE_REVISION) == Some(DecimalInt(revision))
  {
    var a, b := [Header(CAPABILITY_ID, id)], [Header(CAPABILITY_SCOPE, Wire(kind))];
    var c := if page.Some? then [Header(PAGE_ID, page.value)] else [];
    var d := [Header(SCOPE_REVISION, DecimalInt(revision))];
    forall name: string
      ensures Raw(lower, a + b + c + d, name) ==
        if lower(CAPABILITY_ID) == lower(name) then Some(id)
        else if lower(CAPABILITY_SCOPE) == lower(name) then Some(Wire(kind))
        else if lower(PAGE_ID) == lower(name) && page.Some? then page
        else if lower(SCOPE_REVISION) == lower(name) then Some(DecimalInt(revision)) else None
    {
      RawAppend(lower, a, b, name);
      RawAppend(lower, a + b, c, name);
      RawAppend(lower, a + b + c, d, name);
      assert a[1..] == [] && b[1..] == [] && d[1..] == [] && (page.Some? ==> c[1..] == []);
    }
  }

  // ---------------------------------------------------------------- trimming

  lemma TrimPlain(s: string)
    requires s != "" && !IsWhitespace(s[0]) && !IsWhitespace(s[|s| - 1])
    ensures Trim(s) == s
  {
  }

  lemma TrimDecimal(n: nat)
    ensures Trim(DecimalInt(n)) == DecimalInt(n) != ""
  {
    DecimalRoundTrip(n);
    var s := Decimal(n);
    assert IsDigit(s[0]) && IsDigit(s[|s| - 1]);
    TrimPlain(s);
  }

  lemma TrimWire(kind: ScopeType)
    ensures Trim(Wire(kind)) == Wire(kind) != ""
    ensures Wire(kind) == "app" <==> kind.App?
    ensures Wire(kind) == "page" <==> kind.Page?
  {
    assert |"app"| == 3 && |"page"| == 4;
    TrimPlain(Wire(kind));
  }

  // ---------------------------------------------------------------- the whole way round

  /** `CapabilityScope`: a page scope has a page id that is not blank. */
  predicate ValidScope(scope: Registry.Scope)
  {
    scope.kind.Page? ==> scope.pageId.Some? && !IsBlank(scope.pageId.value)
  }

  /** Neither identifier changes when a header value is trimmed. */
  predicate Survives(e: Registry.Entry)
  {
    Trim(e.capability.id) == e.capability.id && (PageOf(e).Some? ==> Trim(PageOf(e).value) == PageOf(e).value)
  }

  /** From a valid entry Python gets a full selector, unless the capability id is empty. */
  lemma ArgsAccepted(e: Registry.Entry, s: Schema)
    requires ValidScope(e.capability.scope)
    requires s.capabilityId == e.capability.id && s.scope == Wire(e.capability.scope.kind)
    requires s.pageId == NonEmptyString(Shown(PageOf(e))) && s.scopeRevision == Some(e.revision)
    ensures FromMetaArgs(ArgsOf(s)) ==
      if e.capability.id == "" then ValueError
      else Accepted(Kwargs(Some(e.capability.id), Some(Wire(e.capability.scope.kind)), PageOf(e), Some(e.revision)))
    ensures PageOf(e) != Some("")
  {
    ArgsRead(s);
    TrimWire(e.capability.scope.kind);
    hide Get, Has, ArgsOf;
    if e.capability.scope.kind.Page? {
      assert PageOf(e).value != "";
    }
  }

  /** What the app parses from the headers of a full selector. */
  lemma ParsedSelector(lower: string -> string, e: Registry.Entry, got: seq<Header>)
    requires NamesApart(lower) && e.capability.id != "" && PageOf(e) != Some("")
    requires Delivers(lower, SelectorHeaders(Kwargs(Some(e.capability.id), Some(Wire(e.capability.scope.kind)),
                                                    PageOf(e), Some(e.revision))), got)
    ensures var sel := Parse(lower, got);
      var id, kind := Trim(e.capability.id), e.capability.scope.kind;
      && sel.isPresent && sel.scopeRevision == (if IsLong(e.revision) then Some(e.revision) else None)
      && (sel.key == if id != "" && (kind.App? || (PageOf(e).Some? && Trim(PageOf(e).value) != ""))
                     then Some(Registry.Key(kind, if kind.Page? then Some(Trim(PageOf(e).value)) else None, id)) else None)
  {
    HeadersRead(lower, e.capability.id, e.capability.scope.kind, PageOf(e), e.revision);
    TrimWire(e.capability.scope.kind);
    TrimDecimal(e.revision);
    LongRoundTrip(e.revision);
    hide Trim, Raw, SelectorHeaders, NamesApart, ToLongOrNull, DecimalInt;
  }

  /** An entry is found under its key, and only there. */
  lemma FoundUnderKey(entries: seq<Registry.Entry>, e: Registry.Entry, key: Registry.Key)
    requires e in entries
    requires forall i, j :: 0 <= i < j < |entries| ==> Registry.KeyOf(entries[i]) != Registry.KeyOf(entries[j])
    ensures Registry.Lookup(entries, key) == Some(e) <==> key == Registry.KeyOf(e)
  {
    var i :| 0 <= i < |entries| && entries[i] == e;
    var k := Registry.Find(entries, key);
    if key == Registry.KeyOf(e) {
      assert k == i;
    }
  }

  /**
   The selector a client builds from an advertised entry reaches exactly that entry while it is registered,
   if and only if trimming leaves the capability id and the page id as they are; an empty id is refused on
   the Python side.  The revision arrives whenever it is a Long.
   */
  lemma SelectorRoundTrip(lower: string -> string, str: Json -> string, lib: OrgJson,
                          steps: seq<Registry.Step>, e: Registry.Entry, got: seq<Header>)
    requires NamesApart(lower) && forall s :: str(Str(s)) == s
    requires e in Registry.Run(steps).entries && ValidScope(e.capability.scope)
    ensures OrderedJson.Parse(Encode(lib, HelloEntry(e))) == Ok(HelloEntry(e), "")
    ensures match FromMetaArgs(ArgsOf(ParseOne(str, HelloEntry(e).members)))
      case ValueError => e.capability.id == ""
      case Accepted(kwargs) =>
        e.capability.id != "" &&
        (Delivers(lower, SelectorHeaders(kwargs), got) ==>
          var sel := Parse(lower, got);
          && sel.isPresent && (IsLong(e.revision) ==> sel.scopeRevision == Some(e.revision))
          && (Registry.Select(Registry.Run(steps).entries, sel.key, sel.scopeRevision) == Registry.Selected(e) <==>
              Survives(e)))
  {
    EntryReadsBack(lib, str, e);
    hide Registry.Run, HelloEntry, Encode, OrderedJson.Parse, FromMetaArgs, ArgsOf, SelectorHeaders, Parse, Raw;
    var schema := ParseOne(str, HelloEntry(e).members);
    ArgsAccepted(e, schema);
    Registry.OrderAlways(steps);
    if e.capability.id != "" {
      var kwargs := Kwargs(Some(e.capability.id), Some(Wire(e.capability.scope.kind)), PageOf(e), Some(e.revision));
      if Delivers(lower, SelectorHeaders(kwargs), got) {
        ParsedSelector(lower, e, got);
        SelectedIffSurvives(Registry.Run(steps).entries, e, Parse(lower, got));
      }
    }
  }

  /** An app capability under an id that trimming changes is advertised, and its own selector misses it. */
  lemma UntrimmedIdMisses(lower: string -> string) returns (steps: seq<Registry.Step>, e: Registry.Entry)
    requires NamesApart(lower)
    ensures e in Registry.Run(steps).entries && ValidScope(e.capability.scope) && e.capability.id == " a"
    ensures forall got :: Delivers(lower, SelectorHeaders(Kwargs(Some(" a"), Some(Wire(App)), None, Some(e.revision))), got) ==>
      var sel := Parse(lower, got);
      Registry.Select(Registry.Run(steps).entries, sel.key, sel.scopeRevision) != Registry.Selected(e)
  {
    var cap := Registry.Capability(" a", Registry.Scope(App, None, None), [], [], 0);
    e := Registry.Entry(cap, 1);
    steps := [Registry.Register(cap)];
    assert Registry.Run(steps[..0]) == Registry.INITIAL;
    assert Registry.Run(steps).entries == [e] && PageOf(e) == None;
    assert " a"[0] == ' ' && |Trim(" a")| <= 1;
    hide Registry.Run, Parse, Raw, Trim, SelectorHeaders, Delivers, NamesApart, Registry.Select;
    forall got | Delivers(lower, SelectorHeaders(Kwargs(Some(" a"), Some(Wire(App)), None, Some(e.revision))), got)
      ensures var sel := Parse(lower, got);
        Registry.Select(Registry.Run(steps).entries, sel.key, sel.scopeRevision) != Registry.Selected(e)
    {
      ParsedSelector(lower, e, got);
      SelectedIffSurvives([e], e, Parse(lower, got));
    }
  }

  lemma SelectedIffSurvives(entries: seq<Registry.Entry>, e: Registry.Entry, sel: CapabilitySelector)
    requires e in entries && ValidScope(e.capability.scope) && e.capability.id != ""
    requires forall i, j :: 0 <= i < j < |entries| ==> Registry.KeyOf(entries[i]) != Registry.KeyOf(entries[j])
    requires var id, kind := Trim(e.capability.id), e.capability.scope.kind;
      && sel.scopeRevision == (if IsLong(e.revision) then Some(e.revision) else None)
      && (sel.key == if id != "" && (kind.App? || (PageOf(e).Some? && Trim(PageOf(e).value) != ""))
                     then Some(Registry.Key(kind, if kind.Page? then Some(Trim(PageOf(e).value)) else None, id)) else None)
    ensures Registry.Select(entries, sel.key, sel.scopeRevision) == Registry.Selected(e) <==> Survives(e)
  {
    hide Trim;
    if sel.key.Some? {
      FoundUnderKey(entries, e, sel.key.value);
    }
    if Survives(e) && e.capability.scope.kind.Page? {
      assert PageOf(e).value != "";
    }
  }
}
