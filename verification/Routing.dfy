/**
 Request routing: the path matcher, the dispatch over registered declarations, the route index sent to
 the Dart side, and the authorization gate in front of it all.
 */
module Routing {
  import opened Wrappers
  import Registry
  import Scopes
  import DebugAuth
  import Selector
  import Text
  import opened OrderedJson
  import opened Sse

  type Segments = seq<string>

  // ---------------------------------------------------------------- path matching

  /** A segment that starts with an opening and ends with a closing brace captures. */
  predicate IsPlaceholder(segment: string)
  {
    segment != "" && segment[0] == '{' && segment[|segment| - 1] == '}'
  }

  function NameOf(segment: string): string
    requires IsPlaceholder(segment)
  {
    segment[1..|segment| - 1]
  }

  /** A placeholder is a name in braces, possibly the empty one. */
  lemma PlaceholderIff(segment: string, name: string)
    ensures IsPlaceholder(segment) && NameOf(segment) == name <==> segment == "{" + name + "}"
  {
    if IsPlaceholder(segment) {
      assert |segment| != 1;
      assert segment == "{" + NameOf(segment) + "}";
    }
    if segment == "{" + name + "}" {
      assert NameOf(segment) == name;
    }
  }

  /** A declared segment fits an actual one if it is that one or any name in braces. */
  ghost predicate Fits(decl: string, actual: string) { decl == actual || exists name: string :: decl == "{" + name + "}" }

  ghost predicate PathFits(decl: Segments, actual: Segments)
  {
    |decl| == |actual| && forall i :: 0 <= i < |decl| ==> Fits(decl[i], actual[i])
  }

  lemma MatchesIffFits(decl: Segments, actual: Segments)
    ensures Matches(decl, actual) <==> PathFits(decl, actual)
  {
    forall i | 0 <= i < |decl| && i < |actual| ensures SegmentMatches(decl[i], actual[i]) <==> Fits(decl[i], actual[i]) {
      if IsPlaceholder(decl[i]) {
        PlaceholderIff(decl[i], NameOf(decl[i]));
      }
      if name: string :| decl[i] == "{" + name + "}" {
        PlaceholderIff(decl[i], name);
      }
    }
    hide Fits, SegmentMatches;
  }

  predicate SegmentMatches(decl: string, actual: string) { IsPlaceholder(decl) || decl == actual }

  predicate Matches(decl: Segments, actual: Segments)
  {
    |decl| == |actual| && forall i :: 0 <= i < |decl| ==> SegmentMatches(decl[i], actual[i])
  }

  /** How many leading segments match. */
  function Matched(decl: Segments, actual: Segments): (k: nat)
    requires |decl| == |actual|
    ensures k <= |decl|
    ensures forall i :: 0 <= i < k ==> SegmentMatches(decl[i], actual[i])
    ensures k < |decl| ==> !SegmentMatches(decl[k], actual[k])
  {
    if decl == [] || !SegmentMatches(decl[0], actual[0]) then 0 else 1 + Matched(decl[1..], actual[1..])
  }

  function Captured(decl: Segments, actual: Segments, params: map<string, string>): map<string, string>
    requires |decl| == |actual|
  {
    if decl == [] then params
    else
      var n := |decl| - 1;
      var before := Captured(decl[..n], actual[..n], params);
      if IsPlaceholder(decl[n]) then before[NameOf(decl[n]) := actual[n]] else before
  }

  predicate Names(decl: Segments, i: int, name: string)
  {
    0 <= i < |decl| && IsPlaceholder(decl[i]) && NameOf(decl[i]) == name
  }

  /** A name is captured exactly if some placeholder has it, and the last such placeholder decides. */
  lemma {:induction false} LastCaptureWins(decl: Segments, actual: Segments, name: string)
    requires |decl| == |actual|
    ensures var params := Captured(decl, actual, map[]);
      && (name in params <==> exists i :: Names(decl, i, name))
      && (forall i :: Names(decl, i, name) && (forall j :: i < j < |decl| ==> !Names(decl, j, name)) ==>
            name in params && params[name] == actual[i])
  {
    if decl != [] {
      var n := |decl| - 1;
      LastCaptureWins(decl[..n], actual[..n], name);
      assert forall i :: i < n ==> (Names(decl, i, name) <==> Names(decl[..n], i, name));
      var before, params := Captured(decl[..n], actual[..n], map[]), Captured(decl, actual, map[]);
      assert name in params <==> name in before || Names(decl, n, name);
      forall i | Names(decl, i, name) && forall j :: i < j < |decl| ==> !Names(decl, j, name)
        ensures name in params && params[name] == actual[i]
      {
        if i < n {
          assert Names(decl[..n], i, name) && forall j :: i < j < n ==> !Names(decl[..n], j, name);
          assert !Names(decl, n, name);
        }
      }
    }
  }

  /** Captures overwrite what the map held and keep all else of it. */
  lemma {:induction false} CapturedOver(decl: Segments, actual: Segments, params: map<string, string>)
    requires |decl| == |actual|
    ensures Captured(decl, actual, params) == params + Captured(decl, actual, map[])
  {
    if decl != [] {
      CapturedOver(decl[..|decl| - 1], actual[..|decl| - 1], params);
    }
  }

  /** `params` holds, for every name in braces, the actual segment at its last place, and no other name. */
  ghost predicate Captures(decl: Segments, actual: Segments, params: map<string, string>)
    requires |decl| == |actual|
  {
    forall name: string ::
      && (name in params <==> exists i :: 0 <= i < |decl| && decl[i] == "{" + name + "}")
      && (forall i :: 0 <= i < |decl| && decl[i] == "{" + name + "}" &&
                      (forall j :: i < j < |decl| ==> decl[j] != "{" + name + "}") ==>
            name in params && params[name] == actual[i])
  }

  lemma CapturedCaptures(decl: Segments, actual: Segments)
    requires |decl| == |actual|
    ensures Captures(decl, actual, Captured(decl, actual, map[]))
  {
    forall name: string, i | 0 <= i < |decl| ensures Names(decl, i, name) <==> decl[i] == "{" + name + "}" {
      PlaceholderIff(decl[i], name);
    }
    var params := Captured(decl, actual, map[]);
    hide Names;
    forall name: string
      ensures name in params <==> exists i :: 0 <= i < |decl| && decl[i] == "{" + name + "}"
      ensures forall i :: 0 <= i < |decl| && decl[i] == "{" + name + "}" &&
                          (forall j :: i < j < |decl| ==> decl[j] != "{" + name + "}") ==>
                name in params && params[name] == actual[i]
    {
      CapturedName(decl, actual, name);
    }
  }

  lemma CapturedName(decl: Segments, actual: Segments, name: string)
    requires |decl| == |actual|
    requires forall i :: 0 <= i < |decl| ==> (Names(decl, i, name) <==> decl[i] == "{" + name + "}")
    ensures var params := Captured(decl, actual, map[]);
      && (name in params <==> exists i :: 0 <= i < |decl| && decl[i] == "{" + name + "}")
      && (forall i :: 0 <= i < |decl| && decl[i] == "{" + name + "}" &&
                      (forall j :: i < j < |decl| ==> decl[j] != "{" + name + "}") ==>
            name in params && params[name] == actual[i])
  {
    LastCaptureWins(decl, actual, name);
    hide Captured;
    assert forall i :: Names(decl, i, name) ==> 0 <= i < |decl|;
  }

  /** The path a declaration denotes under given captures. */
  function Fill(decl: Segments, params: map<string, string>): Segments
    requires forall i :: 0 <= i < |decl| && IsPlaceholder(decl[i]) ==> NameOf(decl[i]) in params
  {
    seq(|decl|, i requires 0 <= i < |decl| => if IsPlaceholder(decl[i]) then params[NameOf(decl[i])] else decl[i])
  }

  predicate SameName(a: string, b: string) { IsPlaceholder(a) && IsPlaceholder(b) && NameOf(a) == NameOf(b) }

  ghost predicate Agree(decl: Segments, actual: Segments)
    requires |decl| == |actual|
  {
    forall i, j :: 0 <= i < j < |decl| && SameName(decl[i], decl[j]) ==> actual[i] == actual[j]
  }

  lemma {:induction false} LastOf(decl: Segments, i: nat, name: string) returns (last: nat)
    requires Names(decl, i, name)
    ensures i <= last && Names(decl, last, name) && forall j :: last < j < |decl| ==> !Names(decl, j, name)
    decreases |decl| - i
  {
    if exists j :: i < j < |decl| && Names(decl, j, name) {
      var j :| i < j < |decl| && Names(decl, j, name);
      last := LastOf(decl, j, name);
    } else {
      last := i;
    }
  }

  /** The captures of a matching path rebuild it exactly if placeholders of one name saw one value. */
  lemma CapturesRebuildPath(decl: Segments, actual: Segments)
    requires Matches(decl, actual)
    ensures var params := Captured(decl, actual, map[]);
      && (forall i :: 0 <= i < |decl| && IsPlaceholder(decl[i]) ==> NameOf(decl[i]) in params)
      && (Fill(decl, params) == actual <==> Agree(decl, actual))
  {
    var params := Captured(decl, actual, map[]);
    forall i | 0 <= i < |decl| && IsPlaceholder(decl[i])
      ensures NameOf(decl[i]) in params && (Agree(decl, actual) ==> params[NameOf(decl[i])] == actual[i])
    {
      var name := NameOf(decl[i]);
      LastCaptureWins(decl, actual, name);
      var last := LastOf(decl, i, name);
      assert Names(decl, i, name);
    }
    if Fill(decl, params) == actual {
      forall i, j | 0 <= i < j < |decl| && SameName(decl[i], decl[j]) ensures actual[i] == actual[j]
      {
        assert Fill(decl, params)[i] == actual[i] && Fill(decl, params)[j] == actual[j];
      }
    }
  }

  /** The caller-owned map that a match writes its captures into. */
  class PathParams {
    var values: map<string, string>

    constructor ()
      ensures values == map[]
    {
      values := map[];
    }
  }

  /** `RoutePath.match`: on a mismatch the captures before it have already been written. */
  method Match(decl: Segments, actual: Segments, pathParams: PathParams) returns (ok: bool)
    modifies pathParams
    ensures ok == Matches(decl, actual) && (ok <==> PathFits(decl, actual))
    ensures pathParams.values ==
      if |decl| != |actual| then old(pathParams.values)
      else var k := Matched(decl, actual); Captured(decl[..k], actual[..k], old(pathParams.values))
    ensures ok ==> pathParams.values == Captured(decl, actual, old(pathParams.values))
  {
    MatchesIffFits(decl, actual);
    hide PathFits;
    if |decl| != |actual| {
      return false;
    }
    for i := 0 to |decl|
      invariant forall j :: 0 <= j < i ==> SegmentMatches(decl[j], actual[j])
      invariant pathParams.values == Captured(decl[..i], actual[..i], old(pathParams.values))
    {
      assert decl[..i + 1][..i] == decl[..i] && actual[..i + 1][..i] == actual[..i];
      if IsPlaceholder(decl[i]) {
        pathParams.values := pathParams.values[NameOf(decl[i]) := actual[i]];
      } else if decl[i] != actual[i] {
        assert Matched(decl, actual) == i;
        return false;
      }
    }
    assert Matched(decl, actual) == |decl|;
    assert decl[..|decl|] == decl && actual[..|actual|] == actual;
    return true;
  }

  // ---------------------------------------------------------------- dispatch

  /** What a request of this method is matched against, for one registration. */
  function Declared(e: Registry.Entry, verb: string): seq<Registry.Decl>
  {
    if verb == "GET" then e.capability.resources else if verb == "POST" then e.capability.commands else []
  }

  predicate Serves(d: Registry.Decl, verb: string, path: Segments) { d.verb == verb && Matches(d.path, path) }

  /** A declaration by its place: which registration, which declaration of it. */
  datatype Route = Route(entry: nat, index: nat)

  predicate IsRoute(r: Route, entries: seq<Registry.Entry>, verb: string)
  {
    r.entry < |entries| && r.index < |Declared(entries[r.entry], verb)|
  }

  predicate RouteServes(r: Route, entries: seq<Registry.Entry>, verb: string, path: Segments)
  {
    IsRoute(r, entries, verb) && Serves(Declared(entries[r.entry], verb)[r.index], verb, path)
  }

  /** Registration order, then declaration order. */
  predicate Before(a: Route, b: Route) { a.entry < b.entry || (a.entry == b.entry && a.index < b.index) }

  datatype Hit = Hit(route: Route, params: map<string, string>)

  /** The first match of a flat search over all declarations in order; nothing only if none matches. */
  ghost predicate FirstMatch(hit: Option<Hit>, entries: seq<Registry.Entry>, verb: string, path: Segments)
  {
    match hit
    case None => forall r :: IsRoute(r, entries, verb) ==> !RouteServes(r, entries, verb, path)
    case Some(h) =>
      && RouteServes(h.route, entries, verb, path)
      && h.params == Captured(Declared(entries[h.route.entry], verb)[h.route.index].path, path, map[])
      && forall r :: IsRoute(r, entries, verb) && Before(r, h.route) ==> !RouteServes(r, entries, verb, path)
  }

  /** For a GET a resource, for a POST a command of that registration, with this method and a path that fits. */
  ghost predicate ServedBy(r: Route, entries: seq<Registry.Entry>, verb: string, path: Segments)
  {
    && r.entry < |entries|
    && var cap := entries[r.entry].capability;
       || (verb == "GET" && r.index < |cap.resources| && cap.resources[r.index].verb == "GET" &&
           PathFits(cap.resources[r.index].path, path))
       || (verb == "POST" && r.index < |cap.commands| && cap.commands[r.index].verb == "POST" &&
           PathFits(cap.commands[r.index].path, path))
  }

  /** The first declaration, in registration then declaration order, that serves the request, with its captures. */
  ghost predicate FirstServed(hit: Option<Hit>, entries: seq<Registry.Entry>, verb: string, path: Segments)
  {
    match hit
    case None => forall r: Route :: !ServedBy(r, entries, verb, path)
    case Some(Hit(first, params)) =>
      && ServedBy(first, entries, verb, path)
      && (forall r: Route :: ServedBy(r, entries, verb, path) ==>
            r.entry > first.entry || (r.entry == first.entry && r.index >= first.index))
      && var cap := entries[first.entry].capability;
         Captures((if verb == "GET" then cap.resources[first.index] else cap.commands[first.index]).path, path, params)
  }

  lemma RouteServesIff(r: Route, entries: seq<Registry.Entry>, verb: string, path: Segments)
    ensures RouteServes(r, entries, verb, path) <==> ServedBy(r, entries, verb, path)
  {
    if IsRoute(r, entries, verb) {
      MatchesIffFits(Declared(entries[r.entry], verb)[r.index].path, path);
    }
    hide Matches, PathFits;
  }

  lemma FirstMatchServes(hit: Option<Hit>, entries: seq<Registry.Entry>, verb: string, path: Segments)
    requires FirstMatch(hit, entries, verb, path)
    ensures FirstServed(hit, entries, verb, path)
  {
    forall r: Route ensures RouteServes(r, entries, verb, path) <==> ServedBy(r, entries, verb, path) {
      RouteServesIff(r, entries, verb, path);
    }
    if hit.Some? {
      var first := hit.value.route;
      CapturedCaptures(Declared(entries[first.entry], verb)[first.index].path, path);
    }
    hide Captures, Captured, Matches, PathFits;
    if hit.Some? {
      var first := hit.value.route;
      forall r: Route | ServedBy(r, entries, verb, path)
        ensures r.entry > first.entry || (r.entry == first.entry && r.index >= first.index)
      {
        assert RouteServes(r, entries, verb, path) && !Before(r, first);
      }
    }
  }

  /** `dispatchResources` and `dispatchCommands`: the first declaration of one capability that serves. */
  method DispatchDecls(decls: seq<Registry.Decl>, verb: string, path: Segments)
    returns (index: nat, params: map<string, string>)
    ensures index <= |decls| && forall i :: 0 <= i < index ==> !Serves(decls[i], verb, path)
    ensures index < |decls| ==> Serves(decls[index], verb, path) && params == Captured(decls[index].path, path, map[])
  {
    index, params := 0, map[];
    while index < |decls|
      invariant index <= |decls| && forall i :: 0 <= i < index ==> !Serves(decls[i], verb, path)
    {
      if decls[index].verb == verb {
        var pathParams := new PathParams();
        var ok := Match(decls[index].path, path, pathParams);
        if ok {
          return index, pathParams.values;
        }
      }
      index := index + 1;
    }
  }

  /** `dispatchFlat`. */
  method DispatchFlat(entries: seq<Registry.Entry>, verb: string, path: Segments) returns (hit: Option<Hit>)
    ensures FirstMatch(hit, entries, verb, path) && FirstServed(hit, entries, verb, path)
  {
    forall hit | FirstMatch(hit, entries, verb, path) ensures FirstServed(hit, entries, verb, path) {
      FirstMatchServes(hit, entries, verb, path);
    }
    hide FirstServed;
    if verb != "GET" && verb != "POST" {
      return None;
    }
    for e := 0 to |entries|
      invariant forall r :: IsRoute(r, entries, verb) && r.entry < e ==> !RouteServes(r, entries, verb, path)
    {
      var decls := if verb == "GET" then entries[e].capability.resources else entries[e].capability.commands;
      var index, params := DispatchDecls(decls, verb, path);
      if index < |decls| {
        return Some(Hit(Route(e, index), params));
      }
    }
    return None;
  }

  /** There is one first match. */
  lemma FirstMatchIsUnique(a: Option<Hit>, b: Option<Hit>, entries: seq<Registry.Entry>, verb: string, path: Segments)
    requires FirstMatch(a, entries, verb, path) && FirstMatch(b, entries, verb, path)
    ensures a == b
  {
    if a.Some? && b.Some? {
      var r, s := a.value.route, b.value.route;
      assert r == s || Before(r, s) || Before(s, r);
    }
  }

  // ---------------------------------------------------------------- the route index for Dart

  /** `List.indexOf`: the first position holding an equal declaration. */
  function IndexOf(decls: seq<Registry.Decl>, d: Registry.Decl): (k: nat)
    ensures k <= |decls|
    ensures k < |decls| ==> decls[k] == d
    ensures forall i :: 0 <= i < k ==> decls[i] != d
  {
    if decls == [] || decls[0] == d then 0 else 1 + IndexOf(decls[1..], d)
  }

  /**
   The bridge passes the matched declaration and looks its index up by equality: that is the index that
   matched, even among equal declarations, because an equal one would have matched earlier.
   */
  lemma RouteIndexIsMatched(hit: Option<Hit>, entries: seq<Registry.Entry>, verb: string, path: Segments)
    requires FirstMatch(hit, entries, verb, path) && hit.Some?
    ensures var r := hit.value.route;
      var decls := Declared(entries[r.entry], verb);
      IndexOf(decls, decls[r.index]) == r.index
  {
    var r := hit.value.route;
    var decls := Declared(entries[r.entry], verb);
    var k := IndexOf(decls, decls[r.index]);
    if k < r.index {
      assert Before(Route(r.entry, k), r) && IsRoute(Route(r.entry, k), entries, verb);
      assert RouteServes(Route(r.entry, k), entries, verb, path);
    } else {
      assert k == r.index;
    }
  }

  // ---------------------------------------------------------------- the gate

  datatype RouteClass = HelloBootstrap | AuthBootstrap | Sensitive

  predicate IsAuthAction(s: string) { s == "request" || s == "status" || s == "claim" }

  /** `classifyRoute`: upper-cases the method; `upper` is the library's upper-casing. */
  function ClassifyRoute(upper: string -> string, verb: string, path: Segments): RouteClass
  {
    if upper(verb) == "GET" && path == ["hello"] then HelloBootstrap
    else if upper(verb) == "POST" && |path| == 2 && path[0] == "auth" && IsAuthAction(path[1]) then AuthBootstrap
    else Sensitive
  }

  datatype SystemRoute = HelloRoute | AuthRoute(action: string) | StateRoute | EventsRoute | NoSystemRoute

  /** `matchSystemRoute`: compares the method exactly. */
  function MatchSystemRoute(verb: string, path: Segments): SystemRoute
  {
    if verb == "GET" && path == ["hello"] then HelloRoute
    else if verb == "POST" && path == ["auth", "request"] then AuthRoute("request")
    else if verb == "POST" && path == ["auth", "status"] then AuthRoute("status")
    else if verb == "POST" && path == ["auth", "claim"] then AuthRoute("claim")
    else if verb == "GET" && path == ["state"] then StateRoute
    else if verb == "GET" && path == ["events"] then EventsRoute
    else NoSystemRoute
  }

  /** What a dispatch does outside itself, in order. */
  datatype Effect =
    | CheckAuth                                                        // the manager's `authorize`
    | DescribeAuth                                                     // the manager's `helloAuthState`
    | RunAuthAction(action: string)                                    // the manager's request, status or claim
    | ReadState(entry: Registry.Entry)                                 // a capability's `state`
    | RunHandler(entry: Registry.Entry, index: nat, params: map<string, string>)

  datatype Reply =
    | Hello(full: bool)
    | AuthReply
    | StateReply(state: seq<Member>)
    | EventsNote
    | Error(status: nat)
    | Unauthorized(code: DebugAuth.AuthCode)
    | Handled

  datatype Request = Request(verb: string, path: Segments, headers: seq<Selector.Header>)

  /** `auth` is nothing without a manager, else what its `authorize` answers for this request. */
  predicate Denied(auth: Option<DebugAuth.Decision>) { auth.Some? && auth.value.Refused? }


  /** The registrations a request may reach: the one it selects, all without a selector, or a status. */
  datatype Target = Reach(entries: seq<Registry.Entry>) | Answer(status: nat)

  function TargetOf(lower: string -> string, entries: seq<Registry.Entry>, req: Request): Target
  {
    var sel := Selector.Parse(lower, req.headers);
    if !sel.isPresent then Reach(entries)
    else
      match Registry.Select(entries, sel.key, sel.scopeRevision)
      case Refused(status) => Answer(status)
      case Selected(e) => Reach([e])
  }

  /** What `aggregateState` merges: each app capability's entries, later registrations winning on a key. */
  function MergedState(entries: seq<Registry.Entry>, stateOf: Registry.Entry -> seq<Member>): seq<Member>
  {
    if entries == [] then []
    else
      var n := |entries| - 1;
      var before := MergedState(entries[..n], stateOf);
      if entries[n].capability.scope.kind.App? then PutAll(before, stateOf(entries[n])) else before
  }

  function StateReads(entries: seq<Registry.Entry>): seq<Effect>
  {
    if entries == [] then []
    else
      var n := |entries| - 1;
      StateReads(entries[..n]) + if entries[n].capability.scope.kind.App? then [ReadState(entries[n])] else []
  }

  /** `aggregateState`: asks every app capability for its state, in registration order, and merges. */
  method AggregateState(entries: seq<Registry.Entry>, stateOf: Registry.Entry -> seq<Member>)
    returns (state: seq<Member>, effects: seq<Effect>)
    ensures effects == StateReads(entries) && state == MergedState(entries, stateOf)
    ensures forall e :: e in effects ==> e.ReadState?
  {
    state, effects := [], [];
    for i := 0 to |entries|
      invariant effects == StateReads(entries[..i]) && state == MergedState(entries[..i], stateOf)
      invariant forall e :: e in effects ==> e.ReadState?
    {
      assert entries[..i + 1][..i] == entries[..i];
      if !entries[i].capability.scope.kind.App? {
        continue;
      }
      effects := effects + [ReadState(entries[i])];
      var own := stateOf(entries[i]);
      ghost var before := state;
      for k := 0 to |own|
        invariant PutAll(state, own[k..]) == PutAll(before, own)
      {
        assert own[k..][1..] == own[k + 1..];
        state := Put(state, own[k]);
      }
    }
    assert entries[..|entries|] == entries;
  }

  lemma {:induction false} GetPut(members: seq<Member>, m: Member, key: string)
    requires DistinctKeys(members)
    ensures DistinctKeys(Put(members, m)) && (HasKey(Put(members, m), key) <==> HasKey(members, key) || key == m.key)
    ensures Value(Put(members, m), key) == if key == m.key then Some(m.value) else Value(members, key)
  {
    if members != [] && members[0].key != m.key {
      DistinctTail(members);
      GetPut(members[1..], m, key);
      GetPut(members[1..], m, members[0].key);
      var rest := Put(members[1..], m);
      assert Put(members, m) == [members[0]] + rest;
      DistinctCons(members[0], rest);
      HasCons(members[0], rest, key);
      HasCons(members[0], members[1..], key);
      assert members == [members[0]] + members[1..];
    } else if members != [] {
      DistinctTail(members);
      DistinctCons(m, members[1..]);
      HasCons(m, members[1..], key);
      HasCons(members[0], members[1..], key);
      assert members == [members[0]] + members[1..];
    } else {
      HasCons(m, [], key);
      assert [m] == [m] + [];
    }
  }

  /** The value of a key in a map whose keys are distinct. */
  function Value(members: seq<Member>, key: string): Option<Json>
  {
    if members == [] then None
    else if members[0].key == key then Some(members[0].value)
    else Value(members[1..], key)
  }

  lemma HasCons(m: Member, members: seq<Member>, key: string)
    ensures HasKey([m] + members, key) <==> m.key == key || HasKey(members, key)
    ensures ([m] + members)[1..] == members
  {
    assert ([m] + members)[0] == m;
    if HasKey(members, key) {
      var k :| 0 <= k < |members| && members[k].key == key;
      assert ([m] + members)[k + 1] == members[k];
    }
  }

  lemma DistinctTail(members: seq<Member>)
    requires DistinctKeys(members) && members != []
    ensures DistinctKeys(members[1..]) && !HasKey(members[1..], members[0].key)
  {
  }

  lemma DistinctCons(m: Member, members: seq<Member>)
    requires DistinctKeys(members) && !HasKey(members, m.key)
    ensures DistinctKeys([m] + members)
  {
  }

  lemma {:induction false} ValuePutAll(members: seq<Member>, more: seq<Member>, key: string)
    requires DistinctKeys(members) && DistinctKeys(more)
    ensures DistinctKeys(PutAll(members, more))
    ensures Value(PutAll(members, more), key) == if HasKey(more, key) then Value(more, key) else Value(members, key)
    decreases more
  {
    if more != [] {
      GetPut(members, more[0], key);
      DistinctTail(more);
      HasCons(more[0], more[1..], key);
      assert more == [more[0]] + more[1..];
      ValuePutAll(Put(members, more[0]), more[1..], key);
    }
  }

  /** App capability `i` is the last registered one that reports the key. */
  predicate Decides(entries: seq<Registry.Entry>, stateOf: Registry.Entry -> seq<Member>, key: string, i: nat)
  {
    && i < |entries| && Reports(entries[i], stateOf, key)
    && forall j :: i < j < |entries| ==> !Reports(entries[j], stateOf, key)
  }

  predicate Reports(e: Registry.Entry, stateOf: Registry.Entry -> seq<Member>, key: string)
  {
    e.capability.scope.kind.App? && HasKey(stateOf(e), key)
  }

  ghost predicate WellFormed(entries: seq<Registry.Entry>, stateOf: Registry.Entry -> seq<Member>)
  {
    forall k :: 0 <= k < |entries| ==> DistinctKeys(stateOf(entries[k]))
  }

  lemma {:induction false} MergeStep(entries: seq<Registry.Entry>, stateOf: Registry.Entry -> seq<Member>, key: string)
    requires WellFormed(entries, stateOf)
    ensures DistinctKeys(MergedState(entries, stateOf))
    ensures entries != [] ==> var n := |entries| - 1;
      Value(MergedState(entries, stateOf), key) ==
        if Reports(entries[n], stateOf, key) then Value(stateOf(entries[n]), key)
        else Value(MergedState(entries[..n], stateOf), key)
  {
    if entries != [] {
      var n := |entries| - 1;
      MergeStep(entries[..n], stateOf, key);
      if entries[n].capability.scope.kind.App? {
        ValuePutAll(MergedState(entries[..n], stateOf), stateOf(entries[n]), key);
      }
    }
  }

  /** In the flat state the last registered app capability that reports a key decides its value. */
  lemma {:induction false} LastRegistrationWins(entries: seq<Registry.Entry>, stateOf: Registry.Entry -> seq<Member>,
                                                key: string, i: nat)
    requires WellFormed(entries, stateOf) && Decides(entries, stateOf, key, i)
    ensures Value(MergedState(entries, stateOf), key) == Value(stateOf(entries[i]), key)
  {
    MergeStep(entries, stateOf, key);
    var n := |entries| - 1;
    hide Reports, MergedState, Value;
    if i < n {
      LastRegistrationWins(entries[..n], stateOf, key, i);
    }
  }

  /** A key that no app capability reports is not in the flat state. */
  lemma {:induction false} NobodyReports(entries: seq<Registry.Entry>, stateOf: Registry.Entry -> seq<Member>, key: string)
    requires WellFormed(entries, stateOf) && forall k :: 0 <= k < |entries| ==> !Reports(entries[k], stateOf, key)
    ensures Value(MergedState(entries, stateOf), key) == None
  {
    if entries != [] {
      MergeStep(entries, stateOf, key);
      NobodyReports(entries[..|entries| - 1], stateOf, key);
    }
  }

  /** The effect a first match in `list` stands for. */
  ghost predicate HandlerOf(effects: seq<Effect>, reply: Reply, list: seq<Registry.Entry>, req: Request)
  {
    exists hit :: FirstServed(hit, list, req.verb, req.path) &&
      match hit
      case None => effects == [] && reply == Error(404)
      case Some(h) => effects == [RunHandler(list[h.route.entry], h.route.index, h.params)] && reply == Handled
  }

  // ---------------------------------------------------------------- which registrations a request reaches

  /** None of the four selector headers has a value that is not blank. */
  predicate NoSelector(lower: string -> string, headers: seq<Selector.Header>)
  {
    && Selector.Value(lower, headers, "X-DCP-Capability-Id").None?
    && Selector.Value(lower, headers, "X-DCP-Capability-Scope").None?
    && Selector.Value(lower, headers, "X-DCP-Page-Id").None?
    && Selector.Value(lower, headers, "X-DCP-Scope-Revision").None?
  }

  /** The headers name this key: an id, a scope in words, and for a page its id. */
  predicate NamesKey(lower: string -> string, headers: seq<Selector.Header>, key: Registry.Key)
  {
    && Selector.Value(lower, headers, "X-DCP-Capability-Id") == Some(key.capId)
    && match key.kind
       case App => Selector.Value(lower, headers, "X-DCP-Capability-Scope") == Some("app") && key.pageId.None?
       case Page =>
         Selector.Value(lower, headers, "X-DCP-Capability-Scope") == Some("page") && key.pageId.Some? &&
         Selector.Value(lower, headers, "X-DCP-Page-Id") == key.pageId
  }

  /** The headers name a revision, a number in the range of a Long, other than this one. */
  predicate NamesOtherRevision(lower: string -> string, headers: seq<Selector.Header>, revision: int)
  {
    var text := Selector.Value(lower, headers, "X-DCP-Scope-Revision");
    text.Some? && Text.ToLongOrNull(text.value) !in {None, Some(revision)}
  }

  /** Registration `k` is the one under the key. */
  predicate HasKeyFirst(entries: seq<Registry.Entry>, key: Registry.Key, k: nat)
  {
    k < |entries| && Registry.KeyOf(entries[k]) == key && forall i :: 0 <= i < k ==> Registry.KeyOf(entries[i]) != key
  }

  /** What a request gets that no system route takes: the first match over what its headers reach, or a status. */
  ghost predicate Answered(lower: string -> string, entries: seq<Registry.Entry>, req: Request, reply: Reply, effects: seq<Effect>)
  {
    && (NoSelector(lower, req.headers) ==> HandlerOf(effects, reply, entries, req))
    && (!NoSelector(lower, req.headers) && (forall key :: !NamesKey(lower, req.headers, key)) ==>
          reply == Error(404) && effects == [])
    && (forall key :: NamesKey(lower, req.headers, key) && (forall k: nat :: !HasKeyFirst(entries, key, k)) ==>
          reply == Error(if key.kind.Page? then 410 else 404) && effects == [])
    && (forall key, k: nat :: NamesKey(lower, req.headers, key) && HasKeyFirst(entries, key, k) ==>
          if NamesOtherRevision(lower, req.headers, entries[k].revision) then reply == Error(409) && effects == []
          else HandlerOf(effects, reply, [entries[k]], req))
  }

  /** Both descriptions of the registrations a request reaches say the same. */
  lemma TargetAnswers(lower: string -> string, entries: seq<Registry.Entry>, req: Request, reply: Reply, effects: seq<Effect>)
    requires match TargetOf(lower, entries, req)
      case Answer(status) => reply == Error(status) && effects == []
      case Reach(list) => HandlerOf(effects, reply, list, req)
    ensures Answered(lower, entries, req, reply, effects)
  {
    hide HandlerOf, Selector.Value, Text.ToLongOrNull;
    var sel := Selector.Parse(lower, req.headers);
    assert sel.isPresent <==> !NoSelector(lower, req.headers);
    forall key ensures NamesKey(lower, req.headers, key) <==> sel.key == Some(key) {
      ParsedKey(lower, req.headers, key);
    }
    assert forall r :: NamesOtherRevision(lower, req.headers, r) <==> sel.scopeRevision.Some? && sel.scopeRevision.value != r;
    hide NoSelector, NamesKey, NamesOtherRevision, Selector.Parse;
    if sel.key.Some? {
      assert NamesKey(lower, req.headers, sel.key.value) && sel.isPresent;
      var found := Registry.Find(entries, sel.key.value);
      assert found < |entries| ==> HasKeyFirst(entries, sel.key.value, found);
      forall k: nat | HasKeyFirst(entries, sel.key.value, k) ensures k == found {
      }
    }
  }

  lemma ParsedKey(lower: string -> string, headers: seq<Selector.Header>, key: Registry.Key)
    ensures NamesKey(lower, headers, key) <==> Selector.Parse(lower, headers).key == Some(key)
    ensures Selector.Parse(lower, headers).key.Some? ==> Selector.Parse(lower, headers).isPresent
  {
    hide Selector.Value, Text.ToLongOrNull;
    var app, page := "app", "page";
    assert app[0] == 'a' && page[0] == 'p';
  }

  /** The dispatch behind the gate: at most one handler, that of the first match among the targets. */
  method DispatchBehindGate(lower: string -> string, entries: seq<Registry.Entry>, req: Request)
    returns (reply: Reply, effects: seq<Effect>)
    ensures match TargetOf(lower, entries, req)
      case Answer(status) => reply == Error(status) && effects == []
      case Reach(list) => HandlerOf(effects, reply, list, req)
    ensures Answered(lower, entries, req, reply, effects)
    ensures req.verb != "GET" && req.verb != "POST" ==> effects == []
  {
    hide Answered, FirstMatch, PathFits, Captures;
    var target := TargetOf(lower, entries, req);
    if target.Answer? {
      reply, effects := Error(target.status), [];
    } else {
      var hit := DispatchFlat(target.entries, req.verb, req.path);
      if hit.None? {
        reply, effects := Error(404), [];
      } else {
        var h := hit.value;
        reply, effects := Handled, [RunHandler(target.entries[h.route.entry], h.route.index, h.params)];
      }
    }
    TargetAnswers(lower, entries, req, reply, effects);
  }

  /** The six system routes by their literal paths. */
  predicate IsSystemPath(verb: string, path: Segments)
  {
    || (verb == "GET" && path in {["hello"], ["state"], ["events"]})
    || (verb == "POST" && path in {["auth", "request"], ["auth", "status"], ["auth", "claim"]})
  }

  /** What each system route does for this answer of the manager, by its literal path. */
  ghost predicate SystemPart(entries: seq<Registry.Entry>, stateOf: Registry.Entry -> seq<Member>,
                             auth: Option<DebugAuth.Decision>, req: Request, reply: Reply, effects: seq<Effect>)
  {
    var states, state := StateReads(entries), MergedState(entries, stateOf);
    && (req.verb == "GET" && req.path == ["hello"] ==>
          match auth
          case None => reply == Hello(true) && effects == states
          case Some(Authorized) => reply == Hello(true) && effects == [CheckAuth] + states + [DescribeAuth]
          case Some(Refused(_)) => reply == Hello(false) && effects == [CheckAuth])
    && (req.verb == "GET" && req.path == ["state"] ==>
          match auth
          case None => reply == StateReply(state) && effects == states
          case Some(Authorized) => reply == StateReply(state) && effects == [CheckAuth] + states
          case Some(Refused(code)) => reply == Unauthorized(code) && effects == [CheckAuth])
    && (req.verb == "GET" && req.path == ["events"] ==>
          match auth
          case None => reply == EventsNote && effects == []
          case Some(Authorized) => reply == EventsNote && effects == [CheckAuth]
          case Some(Refused(code)) => reply == Unauthorized(code) && effects == [CheckAuth])
    && (forall action :: action in {"request", "status", "claim"} && req.verb == "POST" && req.path == ["auth", action] ==>
          match auth
          case None => reply == Unauthorized(DebugAuth.AuthorizationRequired) && effects == []
          case Some(_) => reply == AuthReply && effects == [RunAuthAction(action)])
  }

  /** The literal paths, and nothing else, are system routes. */
  lemma SystemPaths(verb: string, path: Segments)
    ensures MatchSystemRoute(verb, path).NoSystemRoute? <==> !IsSystemPath(verb, path)
    ensures verb == "GET" && path == ["hello"] ==> MatchSystemRoute(verb, path) == HelloRoute
    ensures verb == "GET" && path == ["state"] ==> MatchSystemRoute(verb, path) == StateRoute
    ensures verb == "GET" && path == ["events"] ==> MatchSystemRoute(verb, path) == EventsRoute
    ensures forall action :: action in {"request", "status", "claim"} && verb == "POST" && path == ["auth", action] ==>
      MatchSystemRoute(verb, path) == AuthRoute(action)
  {
    assert |"GET"| == 3 && |"POST"| == 4;
    var h, st, e := ["hello"], ["state"], ["events"];
    assert |h[0]| == 5 && h[0][0] == 'h' && |st[0]| == 5 && st[0][0] == 's' && |e[0]| == 6;
    var a, b, c := ["auth", "request"], ["auth", "status"], ["auth", "claim"];
    assert |a| == 2 && a[1][0] == 'r' && b[1][0] == 's' && c[1][0] == 'c';
  }

  /** One read for every app registration, in registration order. */
  lemma {:induction false} ReadsEveryApp(entries: seq<Registry.Entry>) returns (at: seq<nat>)
    ensures AppsInOrder(entries, at) && |at| == |StateReads(entries)|
    ensures forall k :: 0 <= k < |at| ==> at[k] < |entries| && StateReads(entries)[k] == ReadState(entries[at[k]])
  {
    if entries == [] {
      at := [];
    } else {
      var n := |entries| - 1;
      at := ReadsEveryApp(entries[..n]);
      AppsSnoc(entries, at);
      hide AppsInOrder;
      if entries[n].capability.scope.kind.App? {
        at := at + [n];
      }
    }
  }

  /** `at` lists the positions of the app registrations, rising, and no others. */
  ghost predicate AppsInOrder(entries: seq<Registry.Entry>, at: seq<nat>)
  {
    && (forall i: nat :: i in at <==> i < |entries| && entries[i].capability.scope.kind.App?)
    && (forall j, k :: 0 <= j < k < |at| ==> at[j] < at[k])
  }

  lemma AppsSnoc(entries: seq<Registry.Entry>, at: seq<nat>)
    requires entries != [] && AppsInOrder(entries[..|entries| - 1], at)
    ensures var n := |entries| - 1;
      AppsInOrder(entries, if entries[n].capability.scope.kind.App? then at + [n] else at)
  {
    var n := |entries| - 1;
    forall k | 0 <= k < |at| ensures at[k] < n {
      assert at[k] in at;
    }
    forall i: nat ensures i in at + [n] <==> i in at || i == n {
      assert (at + [n])[|at|] == n;
    }
  }

  /**
   `dispatch`.  Whenever the manager denies, no handler and no state function runs, whatever the spelling
   of the method, the path and the headers.  Otherwise the system routes do exactly their part, and every
   other request runs the first match among its targets, with the manager asked once if the route is
   sensitive.
   */
  method Dispatch(upper: string -> string, lower: string -> string, entries: seq<Registry.Entry>,
                  stateOf: Registry.Entry -> seq<Member>, auth: Option<DebugAuth.Decision>, req: Request)
    returns (reply: Reply, effects: seq<Effect>)
    requires upper("GET") == "GET" && upper("POST") == "POST"
    ensures SystemPart(entries, stateOf, auth, req, reply, effects)
    ensures !IsSystemPath(req.verb, req.path) ==>
      var asked := auth.Some? && !PassesUnasked(upper, req.verb, req.path);
      if asked && auth.value.Refused? then reply == Unauthorized(auth.value.code) && effects == [CheckAuth]
      else
        var first := if asked then [CheckAuth] else [];
        first <= effects && Answered(lower, entries, req, reply, effects[|first|..])
    ensures auth.Some? && auth.value.Refused? ==> forall e :: e in effects ==> !e.ReadState? && !e.RunHandler?
    ensures Denied(auth) && ClassifyRoute(upper, req.verb, req.path).Sensitive? ==>
      reply == Unauthorized(auth.value.code) && effects == [CheckAuth]
    ensures !Denied(auth) ==>
      var asked := if auth.Some? then [CheckAuth] else [];
      match MatchSystemRoute(req.verb, req.path)
      case HelloRoute =>
        reply == Hello(true) && effects == asked + StateReads(entries) + if auth.Some? then [DescribeAuth] else []
      case AuthRoute(action) =>
        reply == (if auth.Some? then AuthReply else Unauthorized(DebugAuth.AuthorizationRequired)) &&
        effects == if auth.Some? then [RunAuthAction(action)] else []
      case StateRoute => reply == StateReply(MergedState(entries, stateOf)) && effects == asked + StateReads(entries)
      case EventsRoute => reply == EventsNote && effects == asked
      case NoSystemRoute =>
        var first := if ClassifyRoute(upper, req.verb, req.path).Sensitive? then asked else [];
        first <= effects &&
        match TargetOf(lower, entries, req)
        case Answer(status) => reply == Error(status) && effects == first
        case Reach(list) => HandlerOf(effects[|first|..], reply, list, req)
  {
    var routeClass := ClassifyRoute(upper, req.verb, req.path);
    var system := MatchSystemRoute(req.verb, req.path);
    effects := [];
    SystemPaths(req.verb, req.path);
    SensitiveIff(upper, req.verb, req.path);
    hide Answered, IsSystemPath, PassesUnasked, FirstMatch, FirstServed;
    match system
    case HelloRoute =>
      if auth.Some? {
        effects := [CheckAuth];
        if auth.value.Refused? {
          return Hello(false), effects;
        }
      }
      var _, states := AggregateState(entries, stateOf);
      effects := effects + states;
      if auth.Some? {
        effects := effects + [DescribeAuth];
      }
      return Hello(true), effects;
    case AuthRoute(action) =>
      if auth.None? {
        return Unauthorized(DebugAuth.AuthorizationRequired), [];
      }
      return AuthReply, [RunAuthAction(action)];
    case StateRoute =>
      if auth.Some? {
        effects := [CheckAuth];
        if auth.value.Refused? {
          return Unauthorized(auth.value.code), effects;
        }
      }
      var state, states := AggregateState(entries, stateOf);
      return StateReply(state), effects + states;
    case EventsRoute =>
      if auth.Some? {
        effects := [CheckAuth];
        if auth.value.Refused? {
          return Unauthorized(auth.value.code), effects;
        }
      }
      return EventsNote, effects;
    case NoSystemRoute =>
      if routeClass.Sensitive? && auth.Some? {
        effects := [CheckAuth];
        if auth.value.Refused? {
          return Unauthorized(auth.value.code), effects;
        }
      }
      var more;
      reply, more := DispatchBehindGate(lower, entries, req);
      if !routeClass.Sensitive? {
        OnlySpelledDifferently(upper, req.verb, req.path);
      }
      ghost var first := effects;
      effects := effects + more;
      assert effects[|first|..] == more;
  }

  /** The paths of the hello and of the three auth routes, with the method in any spelling. */
  predicate PassesUnasked(upper: string -> string, verb: string, path: Segments)
  {
    || (upper(verb) == "GET" && path == ["hello"])
    || (upper(verb) == "POST" && path in {["auth", "request"], ["auth", "status"], ["auth", "claim"]})
  }

  lemma SensitiveIff(upper: string -> string, verb: string, path: Segments)
    ensures ClassifyRoute(upper, verb, path).Sensitive? <==> !PassesUnasked(upper, verb, path)
  {
    assert |path| == 2 ==> path == [path[0], path[1]];
    var a, b, c := ["auth", "request"], ["auth", "status"], ["auth", "claim"];
    assert |a| == 2 && a[0] == "auth" && a[1] == "request" && b[1] == "status" && c[1] == "claim";
  }

  /** Past the gate without a check come only methods spelled neither GET nor POST, which match nothing. */
  lemma OnlySpelledDifferently(upper: string -> string, verb: string, path: Segments)
    requires upper("GET") == "GET" && upper("POST") == "POST"
    requires MatchSystemRoute(verb, path).NoSystemRoute? && !ClassifyRoute(upper, verb, path).Sensitive?
    ensures verb != "GET" && verb != "POST"
  {
    assert |"GET"| == 3 && |"POST"| == 4;
    assert |path| == 2 ==> path == [path[0], path[1]];
  }

  /** The headers a client sends for an advertised entry. */
  function PinnedHeaders(e: Registry.Entry): seq<Selector.Header>
  {
    Selector.SelectorHeaders(Selector.Kwargs(Some(e.capability.id), Some(Scopes.Wire(e.capability.scope.kind)),
                                             Selector.PageOf(e), Some(e.revision)))
  }

  /**
   A request that carries the selector of an advertised registration, however long ago it was advertised,
   reaches that registration and no other, whatever trimming does to its ids; if trimming leaves them, it
   reaches it exactly while it is there, and once it is gone the answer is 409, 410 or 404.
   */
  lemma PinnedRequestReaches(lower: string -> string, steps: seq<Registry.Step>, more: seq<Registry.Step>,
                             e: Registry.Entry, req: Request)
    requires Selector.NamesApart(lower) && e in Registry.Run(steps).entries && Selector.ValidScope(e.capability.scope)
    requires e.capability.id != "" && Text.IsLong(e.revision)
    requires Selector.Delivers(lower, PinnedHeaders(e), req.headers)
    ensures var now := Registry.Run(steps + more).entries;
      && OnlyThis(TargetOf(lower, now, req), e)
      && (Selector.Survives(e) ==>
            TargetOf(lower, now, req) ==
              if e in now then Reach([e])
              else if Registry.Lookup(now, Registry.KeyOf(e)).Some? then Answer(409)
              else Answer(if e.capability.scope.kind.Page? then 410 else 404))
  {
    assert Selector.PageOf(e) != Some("");
    hide Registry.Run, Selector.Parse, Selector.Delivers, Registry.Select, Selector.SelectorHeaders;
    Selector.ParsedSelector(lower, e, req.headers);
    PinnedReachesNoOther(lower, steps, more, e, req);
    hide TargetOf;
    if Selector.Survives(e) {
      PinnedWhileThere(lower, steps, more, e, req);
    }
  }

  lemma PinnedWhileThere(lower: string -> string, steps: seq<Registry.Step>, more: seq<Registry.Step>,
                         e: Registry.Entry, req: Request)
    requires Selector.NamesApart(lower) && e in Registry.Run(steps).entries && Selector.ValidScope(e.capability.scope)
    requires e.capability.id != "" && Text.IsLong(e.revision) && Selector.Survives(e)
    requires Selector.Delivers(lower, PinnedHeaders(e), req.headers)
    ensures var now := Registry.Run(steps + more).entries;
      TargetOf(lower, now, req) ==
        if e in now then Reach([e])
        else if Registry.Lookup(now, Registry.KeyOf(e)).Some? then Answer(409)
        else Answer(if e.capability.scope.kind.Page? then 410 else 404)
  {
    hide Registry.Run, Selector.Parse, Selector.Delivers, Registry.Select, Selector.SelectorHeaders;
    Registry.PinnedReachesItsRegistration(steps, more, e);
    assert Selector.PageOf(e) != Some("");
    Selector.ParsedSelector(lower, e, req.headers);
  }

  /** The one registration, or a refusal. */
  predicate OnlyThis(target: Target, e: Registry.Entry)
  {
    match target
    case Reach(list) => list == [e]
    case Answer(status) => status == 404 || status == 409 || status == 410
  }

  /** No request whose revision header reads as an advertised revision reaches any other registration. */
  lemma PinnedReachesNoOther(lower: string -> string, steps: seq<Registry.Step>, more: seq<Registry.Step>,
                             e: Registry.Entry, req: Request)
    requires e in Registry.Run(steps).entries
    requires Selector.Parse(lower, req.headers).scopeRevision == Some(e.revision)
    ensures OnlyThis(TargetOf(lower, Registry.Run(steps + more).entries, req), e)
  {
    hide Registry.Run, Registry.Lookup;
    var now, sel := Registry.Run(steps + more).entries, Selector.Parse(lower, req.headers);
    match Registry.Select(now, sel.key, sel.scopeRevision)
    case Refused(_) =>
    case Selected(f) => Registry.PinnedSelectsNoOther(steps, more, e, sel.key, f);
  }
}
