/**
 The capability mirror: a schema cache per device, the change signal of a refresh, and the tool list
 aggregated over the pool.
 */
module Mirror {
  import opened Wrappers
  import Selector

  type Schema = Selector.Schema

  type Cache = map<string, seq<Schema>>

  datatype Tool = Tool(name: string, body: string)

  /** A provider claims schemas and builds tools for them. */
  datatype Provider = Provider(matches: Schema -> bool, build: Schema -> seq<Tool>)

  datatype AuthError = AuthError(code: string)

  /** What a `/hello` probe of a device came back with. */
  datatype Probe = Parsed(schemas: seq<Schema>) | NotAuthorized(error: AuthError) | Failed

  // ---------------------------------------------------------------- tools of one device

  /** Tools of the first provider that matches. */
  function Sugar(providers: seq<Provider>, s: Schema): seq<Tool>
  {
    if providers == [] then []
    else if providers[0].matches(s) then providers[0].build(s)
    else Sugar(providers[1..], s)
  }

  /** Provider `k` is the first that matches the schema. */
  predicate Claims(providers: seq<Provider>, s: Schema, k: nat)
  {
    k < |providers| && providers[k].matches(s) && forall i :: 0 <= i < k ==> !providers[i].matches(s)
  }

  lemma {:induction false} SugarIsClaimed(providers: seq<Provider>, s: Schema, k: nat)
    requires Claims(providers, s, k)
    ensures Sugar(providers, s) == providers[k].build(s)
  {
    if k > 0 {
      SugarIsClaimed(providers[1..], s, k - 1);
    }
  }

  lemma {:induction false} SugarUnclaimed(providers: seq<Provider>, s: Schema)
    requires forall i :: 0 <= i < |providers| ==> !providers[i].matches(s)
    ensures Sugar(providers, s) == []
  {
    if providers != [] {
      SugarUnclaimed(providers[1..], s);
    }
  }

  function SugarOf(providers: seq<Provider>, schemas: seq<Schema>): seq<Tool>
  {
    if schemas == [] then []
    else SugarOf(providers, schemas[..|schemas| - 1]) + Sugar(providers, schemas[|schemas| - 1])
  }

  function Cached(cache: Cache, device: string): Option<seq<Schema>>
  {
    if device in cache then Some(cache[device]) else None
  }

  /** The manifest of a device: the static floor, then what providers add for its cached schemas. */
  function Manifest(floor: seq<Tool>, providers: seq<Provider>, entry: Option<seq<Schema>>): seq<Tool>
  {
    floor + if entry.Some? then SugarOf(providers, entry.value) else []
  }

  /** What the first provider that claims the schema built for it; nothing if none claims it. */
  ghost predicate BuiltFor(providers: seq<Provider>, s: Schema, block: seq<Tool>)
  {
    && (forall k: nat :: Claims(providers, s, k) ==> block == providers[k].build(s))
    && ((forall k: nat :: !Claims(providers, s, k)) ==> block == [])
  }

  /** The blocks one after the other. */
  function Flat(blocks: seq<seq<Tool>>): seq<Tool>
  {
    if blocks == [] then [] else Flat(blocks[..|blocks| - 1]) + blocks[|blocks| - 1]
  }

  /** The floor, and after it one unbroken block for each schema, in the order of the schemas. */
  ghost predicate InBlocks(floor: seq<Tool>, providers: seq<Provider>, schemas: seq<Schema>, tools: seq<Tool>, blocks: seq<seq<Tool>>)
  {
    && |blocks| == |schemas| && tools == floor + Flat(blocks)
    && forall k :: 0 <= k < |schemas| ==> BuiltFor(providers, schemas[k], blocks[k])
  }

  lemma BlocksSnoc(floor: seq<Tool>, providers: seq<Provider>, schemas: seq<Schema>, tools: seq<Tool>, blocks: seq<seq<Tool>>,
                   s: Schema, block: seq<Tool>)
    requires InBlocks(floor, providers, schemas, tools, blocks) && BuiltFor(providers, s, block)
    ensures InBlocks(floor, providers, schemas + [s], tools + block, blocks + [block])
  {
    hide BuiltFor;
    assert (blocks + [block])[..|blocks|] == blocks;
    assert floor + (Flat(blocks) + block) == floor + Flat(blocks) + block;
  }

  /** The manifest of a device lists everything its schemas bring, block by block. */
  lemma {:induction false} ManifestInBlocks(floor: seq<Tool>, providers: seq<Provider>, schemas: seq<Schema>)
    returns (blocks: seq<seq<Tool>>)
    ensures InBlocks(floor, providers, schemas, Manifest(floor, providers, Some(schemas)), blocks)
  {
    if schemas == [] {
      blocks := [];
      assert Manifest(floor, providers, Some(schemas)) == floor;
    } else {
      var n := |schemas| - 1;
      var before := ManifestInBlocks(floor, providers, schemas[..n]);
      var block := Sugar(providers, schemas[n]);
      SugarBuilt(providers, schemas[n]);
      ManifestSnoc(floor, providers, schemas);
      hide InBlocks, BuiltFor, Manifest, Sugar;
      BlocksSnoc(floor, providers, schemas[..n], Manifest(floor, providers, Some(schemas[..n])), before, schemas[n], block);
      blocks := before + [block];
      assert schemas == schemas[..n] + [schemas[n]];
    }
  }

  lemma ManifestSnoc(floor: seq<Tool>, providers: seq<Provider>, schemas: seq<Schema>)
    requires schemas != []
    ensures var n := |schemas| - 1;
      Manifest(floor, providers, Some(schemas)) == Manifest(floor, providers, Some(schemas[..n])) + Sugar(providers, schemas[n])
  {
    hide Sugar;
    var n := |schemas| - 1;
    assert floor + (SugarOf(providers, schemas[..n]) + Sugar(providers, schemas[n])) ==
           floor + SugarOf(providers, schemas[..n]) + Sugar(providers, schemas[n]);
  }

  lemma NoSugar(floor: seq<Tool>, providers: seq<Provider>)
    ensures Manifest(floor, providers, None) == floor && Manifest(floor, providers, Some([])) == floor
  {
    assert floor + [] == floor;
  }

  lemma SugarBuilt(providers: seq<Provider>, s: Schema)
    ensures BuiltFor(providers, s, Sugar(providers, s))
  {
    forall k: nat | Claims(providers, s, k) ensures Sugar(providers, s) == providers[k].build(s) {
      SugarIsClaimed(providers, s, k);
    }
    if forall k: nat :: !Claims(providers, s, k) {
      NobodyMatches(providers, s, |providers|);
      SugarUnclaimed(providers, s);
    }
  }

  lemma {:induction false} NobodyMatches(providers: seq<Provider>, s: Schema, n: nat)
    requires n <= |providers| && forall k: nat :: !Claims(providers, s, k)
    ensures forall i :: 0 <= i < n ==> !providers[i].matches(s)
  {
    if n > 0 {
      NobodyMatches(providers, s, n - 1);
      assert !Claims(providers, s, n - 1);
    }
  }

  /** So a tool is listed exactly if the floor has it or the provider that claims some schema built it for that. */
  lemma ListedIffBuilt(floor: seq<Tool>, providers: seq<Provider>, schemas: seq<Schema>, tools: seq<Tool>,
                       blocks: seq<seq<Tool>>, t: Tool)
    requires InBlocks(floor, providers, schemas, tools, blocks)
    ensures t in tools <==> t in floor || exists k: nat :: k < |schemas| && BuildsTool(providers, schemas[k], t)
  {
    InFlat(blocks, t);
    hide Flat, Claims;
    forall k: nat | k < |schemas| ensures t in blocks[k] <==> BuildsTool(providers, schemas[k], t) {
      assert BuiltFor(providers, schemas[k], blocks[k]);
    }
    hide BuiltFor, BuildsTool;
  }

  /** The first provider that claims the schema builds this tool for it. */
  ghost predicate BuildsTool(providers: seq<Provider>, s: Schema, t: Tool)
  {
    exists p: nat :: Claims(providers, s, p) && t in providers[p].build(s)
  }

  lemma {:induction false} InFlat(blocks: seq<seq<Tool>>, t: Tool)
    ensures t in Flat(blocks) <==> exists k: nat :: k < |blocks| && t in blocks[k]
  {
    if blocks != [] {
      var n := |blocks| - 1;
      InFlat(blocks[..n], t);
      assert forall k: nat :: k < n ==> blocks[..n][k] == blocks[k];
    }
  }

  // ---------------------------------------------------------------- the aggregated list

  function Names(tools: seq<Tool>): set<string> { set t | t in tools :: t.name }

  predicate DistinctNames(tools: seq<Tool>)
  {
    forall i, j :: 0 <= i < j < |tools| ==> tools[i].name != tools[j].name
  }

  /** First occurrences by name, in order. */
  function Firsts(tools: seq<Tool>): seq<Tool>
  {
    if tools == [] then []
    else
      var n := |tools| - 1;
      Firsts(tools[..n]) + if tools[n].name in Names(tools[..n]) then [] else [tools[n]]
  }

  /** A name the static floor of the tool list uses. */
  const FLOOR_NAMES := ["list_capabilities", "invoke_command", "read_resource", "get_state", "subscribe_events",
                        "list_devices", "discover_devices", "register_device"]

  lemma FloorNamesDistinct(floor: seq<Tool>)
    requires |floor| == |FLOOR_NAMES| && forall i :: 0 <= i < |floor| ==> floor[i].name == FLOOR_NAMES[i]
    ensures DistinctNames(floor)
  {
    assert |"list_capabilities"| == 17 && |"invoke_command"| == 14 && |"read_resource"| == 13;
    assert |"get_state"| == 9 && |"subscribe_events"| == 16 && |"list_devices"| == 12;
    assert |"discover_devices"| == 16 && |"register_device"| == 15;
    assert "subscribe_events"[0] == 's' && "discover_devices"[0] == 'd';
  }

  lemma LastIsNew(tools: seq<Tool>, n: nat)
    requires DistinctNames(tools) && n < |tools|
    ensures DistinctNames(tools[..n]) && tools[n].name !in Names(tools[..n])
  {
    forall t | t in tools[..n] ensures t.name != tools[n].name {
      var k :| 0 <= k < n && tools[k] == t;
    }
  }

  lemma FirstsSnoc(before: seq<Tool>, t: Tool)
    ensures Firsts(before + [t]) == Firsts(before) + if t.name in Names(before) then [] else [t]
  {
    assert (before + [t])[..|before|] == before;
  }

  lemma {:induction false} FirstsOfDistinct(tools: seq<Tool>)
    requires DistinctNames(tools)
    ensures Firsts(tools) == tools
  {
    if tools == [] {
      assert Firsts(tools) == [];
    } else {
      var n := |tools| - 1;
      LastIsNew(tools, n);
      hide Names, DistinctNames, Firsts;
      FirstsSnoc(tools[..n], tools[n]);
      FirstsOfDistinct(tools[..n]);
      assert tools == tools[..n] + [tools[n]];
    }
  }

  lemma NamesAppend(a: seq<Tool>, b: seq<Tool>)
    ensures Names(a + b) == Names(a) + Names(b)
  {
    assert forall t :: t in a + b <==> t in a || t in b;
  }

  lemma {:induction false} FirstsNames(tools: seq<Tool>)
    ensures Names(Firsts(tools)) == Names(tools)
  {
    if tools != [] {
      var n := |tools| - 1;
      FirstsNames(tools[..n]);
      assert tools == tools[..n] + [tools[n]];
      NamesAppend(tools[..n], [tools[n]]);
      NamesAppend(Firsts(tools[..n]), if tools[n].name in Names(tools[..n]) then [] else [tools[n]]);
      assert Names([tools[n]]) == {tools[n].name};
    }
  }

  lemma {:induction false} FirstsDistinct(tools: seq<Tool>)
    ensures DistinctNames(Firsts(tools))
  {
    if tools != [] {
      var n := |tools| - 1;
      FirstsDistinct(tools[..n]);
      FirstsNames(tools[..n]);
      var before := Firsts(tools[..n]);
      forall i | 0 <= i < |before| ensures before[i].name in Names(tools[..n]) {
        assert before[i] in before;
      }
    }
  }

  lemma {:induction false} NamesPrefix(tools: seq<Tool>, k: nat)
    requires k < |tools|
    ensures tools[k].name in Names(tools)
  {
    assert tools[k] in tools;
  }

  predicate FirstAt(tools: seq<Tool>, k: nat, t: Tool)
  {
    k < |tools| && tools[k] == t && t.name !in Names(tools[..k])
  }

  /** Listed exactly are the tools that share their name with no earlier one. */
  lemma {:induction false} FirstsAreFirst(tools: seq<Tool>, t: Tool)
    ensures t in Firsts(tools) <==> exists k :: FirstAt(tools, k, t)
  {
    if tools != [] {
      var n := |tools| - 1;
      FirstsAreFirst(tools[..n], t);
      forall k: nat | k < n ensures FirstAt(tools, k, t) <==> FirstAt(tools[..n], k, t) {
        assert tools[..n][..k] == tools[..k];
      }
      hide Names;
      if t in Firsts(tools) && t !in Firsts(tools[..n]) {
        assert FirstAt(tools, n, t);
      }
    }
  }

  predicate Precedes(list: seq<Tool>, a: Tool, b: Tool)
  {
    exists x, y :: 0 <= x < y < |list| && list[x] == a && list[y] == b
  }

  lemma PrecedesMore(list: seq<Tool>, more: seq<Tool>, a: Tool, b: Tool)
    ensures Precedes(list, a, b) ==> Precedes(list + more, a, b)
    ensures a in list && b in more ==> Precedes(list + more, a, b)
  {
    if Precedes(list, a, b) {
      var x, y :| 0 <= x < y < |list| && list[x] == a && list[y] == b;
      assert (list + more)[x] == a && (list + more)[y] == b;
    }
    if a in list && b in more {
      var x :| 0 <= x < |list| && list[x] == a;
      var y :| 0 <= y < |more| && more[y] == b;
      assert (list + more)[x] == a && (list + more)[|list| + y] == b;
    }
  }

  lemma FirstAtPrefix(tools: seq<Tool>, n: nat, i: nat, a: Tool)
    requires i < n <= |tools|
    ensures FirstAt(tools[..n], i, a) <==> FirstAt(tools, i, a)
  {
    assert tools[..n][..i] == tools[..i];
  }

  /** The list keeps the order of the first occurrences. */
  lemma {:induction false} FirstsInOrder(tools: seq<Tool>, i: nat, a: Tool, j: nat, b: Tool)
    requires i < j && FirstAt(tools, i, a) && FirstAt(tools, j, b)
    ensures Precedes(Firsts(tools), a, b)
  {
    var n := |tools| - 1;
    var last := if tools[n].name in Names(tools[..n]) then [] else [tools[n]];
    assert Firsts(tools) == Firsts(tools[..n]) + last;
    assert j == n ==> b in last;
    FirstAtPrefix(tools, n, i, a);
    hide Precedes, Names, Firsts;
    FirstsAreFirst(tools[..n], a);
    PrecedesMore(Firsts(tools[..n]), last, a, b);
    if j < n {
      FirstAtPrefix(tools, n, j, b);
      FirstsInOrder(tools[..n], i, a, j, b);
    }
  }

  lemma {:induction false} FirstsAppend(a: seq<Tool>, b: seq<Tool>)
    ensures Firsts(a + b) == Firsts(a) + Fresh(Names(a), b)
  {
    if b == [] {
      assert a + b == a;
    } else {
      var n := |b| - 1;
      FirstsAppend(a, b[..n]);
      assert (a + b)[..|a + b| - 1] == a + b[..n];
      NamesAppend(a, b[..n]);
    }
  }

  /** Tools of `tools` whose name is neither in `seen` nor earlier in `tools`. */
  function Fresh(seen: set<string>, tools: seq<Tool>): seq<Tool>
  {
    if tools == [] then []
    else
      var n := |tools| - 1;
      Fresh(seen, tools[..n]) + if tools[n].name in seen + Names(tools[..n]) then [] else [tools[n]]
  }

  lemma {:induction false} NothingFresh(seen: set<string>, tools: seq<Tool>)
    requires Names(tools) <= seen
    ensures Fresh(seen, tools) == []
  {
    if tools != [] {
      var n := |tools| - 1;
      NamesPrefix(tools, n);
      assert Names(tools[..n]) <= Names(tools);
      NothingFresh(seen, tools[..n]);
    }
  }

  /** The floor, then the whole manifest of every device in pool order. */
  function Everything(floor: seq<Tool>, providers: seq<Provider>, cache: Cache, pool: seq<string>): seq<Tool>
  {
    if pool == [] then floor
    else
      Everything(floor, providers, cache, pool[..|pool| - 1]) +
      Manifest(floor, providers, Cached(cache, pool[|pool| - 1]))
  }

  /** What one device brings: the floor and a block for each of its cached schemas. */
  ghost predicate DeviceBrings(floor: seq<Tool>, providers: seq<Provider>, schemas: seq<Schema>, part: seq<Tool>)
  {
    exists blocks :: InBlocks(floor, providers, schemas, part, blocks)
  }

  /** The floor, then one unbroken part for each device, in the order of the pool. */
  ghost predicate InParts(floor: seq<Tool>, providers: seq<Provider>, cache: Cache, pool: seq<string>, tools: seq<Tool>,
                          parts: seq<seq<Tool>>)
  {
    && |parts| == |pool| && tools == floor + Flat(parts)
    && forall p :: 0 <= p < |pool| ==>
         DeviceBrings(floor, providers, if pool[p] in cache then cache[pool[p]] else [], parts[p])
  }

  lemma PartsSnoc(floor: seq<Tool>, providers: seq<Provider>, cache: Cache, pool: seq<string>, tools: seq<Tool>,
                  parts: seq<seq<Tool>>, device: string, part: seq<Tool>)
    requires InParts(floor, providers, cache, pool, tools, parts)
    requires DeviceBrings(floor, providers, if device in cache then cache[device] else [], part)
    ensures InParts(floor, providers, cache, pool + [device], tools + part, parts + [part])
  {
    hide DeviceBrings;
    assert (parts + [part])[..|parts|] == parts;
    assert floor + (Flat(parts) + part) == floor + Flat(parts) + part;
  }

  lemma {:induction false} EverythingInParts(floor: seq<Tool>, providers: seq<Provider>, cache: Cache, pool: seq<string>)
    returns (parts: seq<seq<Tool>>)
    ensures InParts(floor, providers, cache, pool, Everything(floor, providers, cache, pool), parts)
  {
    if pool == [] {
      parts := [];
      assert floor + [] == floor;
    } else {
      var n := |pool| - 1;
      var before := EverythingInParts(floor, providers, cache, pool[..n]);
      var schemas := if pool[n] in cache then cache[pool[n]] else [];
      var part := Manifest(floor, providers, Cached(cache, pool[n]));
      var blocks := ManifestInBlocks(floor, providers, schemas);
      assert part == Manifest(floor, providers, Some(schemas));
      assert DeviceBrings(floor, providers, schemas, part);
      hide InParts, DeviceBrings, Manifest, InBlocks;
      PartsSnoc(floor, providers, cache, pool[..n], Everything(floor, providers, cache, pool[..n]), before, pool[n], part);
      parts := before + [part];
      assert pool == pool[..n] + [pool[n]];
    }
  }

  /** `list` are the tools of `all` that share their name with no earlier one, in the order of `all`. */
  ghost predicate FirstOfEachName(list: seq<Tool>, all: seq<Tool>)
  {
    && DistinctNames(list)
    && (forall t :: t in list <==> exists k :: FirstAt(all, k, t))
    && (forall i: nat, a, j: nat, b :: i < j && FirstAt(all, i, a) && FirstAt(all, j, b) ==> Precedes(list, a, b))
  }

  lemma FirstsAreThose(tools: seq<Tool>)
    ensures FirstOfEachName(Firsts(tools), tools)
  {
    FirstsDistinct(tools);
    hide Firsts, Names, DistinctNames, FirstAt, Precedes;
    forall t ensures t in Firsts(tools) <==> exists k :: FirstAt(tools, k, t) {
      FirstsAreFirst(tools, t);
    }
    forall i: nat, a, j: nat, b | i < j && FirstAt(tools, i, a) && FirstAt(tools, j, b) ensures Precedes(Firsts(tools), a, b) {
      FirstsInOrder(tools, i, a, j, b);
    }
  }

  lemma {:induction false} FloorIsThere(floor: seq<Tool>, providers: seq<Provider>, cache: Cache, pool: seq<string>)
    ensures Names(floor) <= Names(Everything(floor, providers, cache, pool))
  {
    if pool != [] {
      var n := |pool| - 1;
      FloorIsThere(floor, providers, cache, pool[..n]);
      NamesAppend(Everything(floor, providers, cache, pool[..n]), Manifest(floor, providers, Cached(cache, pool[n])));
    }
  }

  lemma EverythingSnoc(floor: seq<Tool>, providers: seq<Provider>, cache: Cache, pool: seq<string>, p: nat)
    requires p < |pool|
    ensures var before := Everything(floor, providers, cache, pool[..p]);
      var mine := Manifest(floor, providers, Cached(cache, pool[p]));
      && Everything(floor, providers, cache, pool[..p + 1]) == before + mine
      && Firsts(before + mine) == Firsts(before) + Fresh(Names(before), mine)
      && Names(before + mine) == Names(before) + Names(mine)
      && Names(floor) <= Names(before)
  {
    assert pool[..p + 1][..p] == pool[..p];
    FirstsAppend(Everything(floor, providers, cache, pool[..p]), Manifest(floor, providers, Cached(cache, pool[p])));
    NamesAppend(Everything(floor, providers, cache, pool[..p]), Manifest(floor, providers, Cached(cache, pool[p])));
    FloorIsThere(floor, providers, cache, pool[..p]);
  }

  lemma FreshSnoc(seen: set<string>, tools: seq<Tool>, k: nat)
    requires k < |tools|
    ensures Fresh(seen, tools[..k + 1]) ==
      Fresh(seen, tools[..k]) + if tools[k].name in seen + Names(tools[..k]) then [] else [tools[k]]
    ensures Names(tools[..k + 1]) == Names(tools[..k]) + {tools[k].name}
  {
    assert tools[..k + 1][..k] == tools[..k] && tools[..k + 1] == tools[..k] + [tools[k]];
    NamesAppend(tools[..k], [tools[k]]);
    assert Names([tools[k]]) == {tools[k].name};
  }

  // ---------------------------------------------------------------- the change signal over a run

  /** The cache after a refresh with this probe. */
  function After(cache: Cache, device: string, probe: Probe): Cache
  {
    match probe
    case Parsed(schemas) => cache[device := schemas]
    case NotAuthorized(_) => cache
    case Failed => cache - {device}
  }

  lemma AfterAtDevice(cache: Cache, device: string, probe: Probe)
    ensures After(cache, device, probe) == cache <==> Cached(After(cache, device, probe), device) == Cached(cache, device)
    ensures forall d :: d != device ==> Cached(After(cache, device, probe), d) == Cached(cache, d)
  {
    var next := After(cache, device, probe);
    if Cached(next, device) == Cached(cache, device) {
      assert forall d :: d in next <==> d in cache;
      assert forall d :: d in next ==> next[d] == cache[d];
    }
  }

  /** A failed probe is reported as a change exactly if the device had an entry, which is then gone. */
  lemma FailureReportedIffCached(cache: Cache, device: string)
    ensures After(cache, device, Failed) != cache <==> device in cache
    ensures device !in After(cache, device, Failed)
  {
    AfterAtDevice(cache, device, Failed);
  }

  /** A device with an empty list that stops answering: the documentation of `refresh` says false, it answers true. */
  lemma FailureReported(device: string)
    ensures After(map[device := []], device, Failed) != map[device := []]
  {
    FailureReportedIffCached(map[device := []], device);
  }

  function Listing(floor: seq<Tool>, providers: seq<Provider>, pool: seq<string>, cache: Cache): seq<Tool>
  {
    Firsts(Everything(floor, providers, cache, pool))
  }

  // ---------------------------------------------------------------- changes that do not show

  predicate Distinct(pool: seq<string>) { forall i, j :: 0 <= i < j < |pool| ==> pool[i] != pool[j] }

  /** What a device adds to the list: the tools under names that the floor and no earlier device offers. */
  function Adds(floor: seq<Tool>, providers: seq<Provider>, pool: seq<string>, cache: Cache, p: nat): seq<Tool>
    requires p < |pool|
  {
    Fresh(Names(Everything(floor, providers, cache, pool[..p])), Manifest(floor, providers, Cached(cache, pool[p])))
  }

  lemma {:induction false} FreshNames(seen: set<string>, tools: seq<Tool>)
    ensures seen + Names(tools) == seen + Names(Fresh(seen, tools))
  {
    if tools != [] {
      var n := |tools| - 1;
      FreshNames(seen, tools[..n]);
      assert tools == tools[..n] + [tools[n]];
      NamesAppend(tools[..n], [tools[n]]);
      NamesAppend(Fresh(seen, tools[..n]), if tools[n].name in seen + Names(tools[..n]) then [] else [tools[n]]);
      assert Names([tools[n]]) == {tools[n].name};
    }
  }

  lemma {:induction false} SameEverything(floor: seq<Tool>, providers: seq<Provider>, a: Cache, b: Cache, pool: seq<string>)
    requires forall d :: d in pool ==> Cached(a, d) == Cached(b, d)
    ensures Everything(floor, providers, a, pool) == Everything(floor, providers, b, pool)
  {
    if pool != [] {
      SameEverything(floor, providers, a, b, pool[..|pool| - 1]);
    }
  }

  /** The listing over the first `p + 1` devices, and the names it has seen. */
  lemma ListingSnoc(floor: seq<Tool>, providers: seq<Provider>, pool: seq<string>, cache: Cache, p: nat)
    requires p < |pool|
    ensures Listing(floor, providers, pool[..p + 1], cache) ==
            Listing(floor, providers, pool[..p], cache) + Adds(floor, providers, pool, cache, p)
    ensures Names(Everything(floor, providers, cache, pool[..p + 1])) ==
            Names(Everything(floor, providers, cache, pool[..p])) + Names(Adds(floor, providers, pool, cache, p))
  {
    EverythingSnoc(floor, providers, cache, pool, p);
    FreshNames(Names(Everything(floor, providers, cache, pool[..p])), Manifest(floor, providers, Cached(cache, pool[p])));
    hide Firsts, Fresh, Names, Everything, Manifest;
  }

  /** The change of one entry does not show if the device adds the same tools before and after. */
  lemma {:induction false} SameAddsSameListing(floor: seq<Tool>, providers: seq<Provider>, pool: seq<string>,
                                               a: Cache, b: Cache, p: nat, n: nat)
    requires Distinct(pool) && p < n <= |pool|
    requires forall d :: d != pool[p] ==> Cached(a, d) == Cached(b, d)
    requires Adds(floor, providers, pool, a, p) == Adds(floor, providers, pool, b, p)
    ensures Listing(floor, providers, pool[..n], a) == Listing(floor, providers, pool[..n], b)
    ensures Names(Everything(floor, providers, a, pool[..n])) == Names(Everything(floor, providers, b, pool[..n]))
  {
    hide Listing, Names, Everything, Manifest, Fresh;
    ListingSnoc(floor, providers, pool, a, n - 1);
    ListingSnoc(floor, providers, pool, b, n - 1);
    if p == n - 1 {
      SameEverything(floor, providers, a, b, pool[..p]);
      SameListing(floor, providers, a, b, pool[..p]);
    } else {
      SameAddsSameListing(floor, providers, pool, a, b, p, n - 1);
    }
  }

  lemma SameListing(floor: seq<Tool>, providers: seq<Provider>, a: Cache, b: Cache, pool: seq<string>)
    requires Everything(floor, providers, a, pool) == Everything(floor, providers, b, pool)
    ensures Listing(floor, providers, pool, a) == Listing(floor, providers, pool, b)
  {
  }

  /** For the last device of the pool that is also necessary: its change shows exactly if what it adds changes. */
  lemma LastDeviceShowsIff(floor: seq<Tool>, providers: seq<Provider>, pool: seq<string>, a: Cache, b: Cache)
    requires Distinct(pool) && pool != [] && forall d :: d != pool[|pool| - 1] ==> Cached(a, d) == Cached(b, d)
    ensures Listing(floor, providers, pool, a) == Listing(floor, providers, pool, b) <==>
            Adds(floor, providers, pool, a, |pool| - 1) == Adds(floor, providers, pool, b, |pool| - 1)
  {
    var p := |pool| - 1;
    ListingSnoc(floor, providers, pool, a, p);
    ListingSnoc(floor, providers, pool, b, p);
    SameEverything(floor, providers, a, b, pool[..p]);
    SameListing(floor, providers, a, b, pool[..p]);
    assert pool[..p + 1] == pool;
    hide Listing, Adds;
    var before := Listing(floor, providers, pool[..p], a);
    SameTail(before, Adds(floor, providers, pool, a, p), Adds(floor, providers, pool, b, p));
  }

  lemma SameTail(before: seq<Tool>, x: seq<Tool>, y: seq<Tool>)
    ensures before + x == before + y <==> x == y
  {
    assert (before + x)[|before|..] == x && (before + y)[|before|..] == y;
  }

  /** A name that appears or disappears altogether always shows. */
  lemma NewNameShows(floor: seq<Tool>, providers: seq<Provider>, pool: seq<string>, a: Cache, b: Cache)
    requires Names(Everything(floor, providers, a, pool)) != Names(Everything(floor, providers, b, pool))
    ensures Listing(floor, providers, pool, a) != Listing(floor, providers, pool, b)
  {
    FirstsNames(Everything(floor, providers, a, pool));
    FirstsNames(Everything(floor, providers, b, pool));
  }

  // ---------------------------------------------------------------- a client over a run

  /** A refresh, and whether the change it reports leads to a notification; or a device entering the pool. */
  datatype Event = Refreshed(device: string, probe: Probe, notified: bool) | Upserted(device: string)

  datatype Watched = Watched(pool: seq<string>, cache: Cache, held: seq<Tool>)

  function Changes(cache: Cache, device: string, probe: Probe): bool
  {
    Cached(After(cache, device, probe), device) != Cached(cache, device)
  }

  /** A client that lists the tools at the start and again on every notification of a change. */
  function Observe(floor: seq<Tool>, providers: seq<Provider>, w: Watched, e: Event): Watched
  {
    match e
    case Refreshed(device, probe, notified) =>
      var cache := After(w.cache, device, probe);
      Watched(w.pool, cache, if Changes(w.cache, device, probe) && notified then Listing(floor, providers, w.pool, cache) else w.held)
    case Upserted(device) => w.(pool := if device in w.pool then w.pool else w.pool + [device])
  }

  function Watch(floor: seq<Tool>, providers: seq<Provider>, events: seq<Event>): Watched
  {
    if events == [] then Watched([], map[], Listing(floor, providers, [], map[]))
    else Observe(floor, providers, Watch(floor, providers, events[..|events| - 1]), events[|events| - 1])
  }

  ghost predicate Current(floor: seq<Tool>, providers: seq<Provider>, w: Watched)
  {
    w.held == Listing(floor, providers, w.pool, w.cache)
  }

  /** A device outside the pool cannot be reached; a change is notified, or the device adds the same tools as before. */
  predicate Fair(floor: seq<Tool>, providers: seq<Provider>, w: Watched, e: Event)
  {
    match e
    case Refreshed(device, probe, notified) =>
      && (device !in w.pool ==> probe.Failed?)
      && (notified ||
          forall p :: 0 <= p < |w.pool| && w.pool[p] == device ==>
            Adds(floor, providers, w.pool, w.cache, p) == Adds(floor, providers, w.pool, After(w.cache, device, probe), p))
    case Upserted(_) => true
  }

  ghost predicate WatchInv(floor: seq<Tool>, providers: seq<Provider>, w: Watched)
  {
    && Distinct(w.pool) && (forall d :: d in w.cache ==> d in w.pool) && Current(floor, providers, w)
  }

  lemma RefreshedKeeps(floor: seq<Tool>, providers: seq<Provider>, w: Watched, device: string, probe: Probe, notified: bool)
    requires WatchInv(floor, providers, w) && Fair(floor, providers, w, Refreshed(device, probe, notified))
    ensures WatchInv(floor, providers, Observe(floor, providers, w, Refreshed(device, probe, notified)))
  {
    AfterAtDevice(w.cache, device, probe);
    hide Listing, Adds;
    var cache := After(w.cache, device, probe);
    if device !in w.pool {
      assert cache == w.cache;
    } else if Changes(w.cache, device, probe) && !notified {
      var p :| 0 <= p < |w.pool| && w.pool[p] == device;
      SameAddsSameListing(floor, providers, w.pool, w.cache, cache, p, |w.pool|);
      assert w.pool[..|w.pool|] == w.pool;
    }
  }

  /** A device that enters the pool has no entry yet, so it would only repeat the floor. */
  lemma UpsertedKeeps(floor: seq<Tool>, providers: seq<Provider>, w: Watched, device: string)
    requires WatchInv(floor, providers, w)
    ensures WatchInv(floor, providers, Observe(floor, providers, w, Upserted(device)))
  {
    if device !in w.pool {
      UncachedAddsNothing(floor, providers, w.pool, w.cache, device);
      hide Listing, Names, Everything, Fresh, Manifest;
    }
  }

  lemma UncachedAddsNothing(floor: seq<Tool>, providers: seq<Provider>, pool: seq<string>, cache: Cache, device: string)
    requires device !in cache
    ensures Listing(floor, providers, pool + [device], cache) == Listing(floor, providers, pool, cache)
  {
    var more, n := pool + [device], |pool|;
    assert more[..n] == pool && more[..n + 1] == more;
    assert Manifest(floor, providers, Cached(cache, device)) == floor;
    hide Listing, Names, Everything, Fresh, Manifest;
    ListingSnoc(floor, providers, more, cache, n);
    FloorIsThere(floor, providers, cache, pool);
    NothingFresh(Names(Everything(floor, providers, cache, pool)), floor);
  }

  /**
   Over any run of successes, authorization errors, outages and discoveries, a client that re-lists on every
   notification holds the current list, even if changes that add the same tools as before go unnotified.
   */
  lemma {:induction false} ClientStaysCurrent(floor: seq<Tool>, providers: seq<Provider>, events: seq<Event>)
    requires forall k :: 0 <= k < |events| ==> Fair(floor, providers, Watch(floor, providers, events[..k]), events[k])
    ensures WatchInv(floor, providers, Watch(floor, providers, events))
  {
    if events != [] {
      hide WatchInv, Fair, Observe;
      var n := |events| - 1;
      var w := Watch(floor, providers, events[..n]);
      forall k | 0 <= k < n
        ensures Fair(floor, providers, Watch(floor, providers, events[..n][..k]), events[..n][k])
      {
        assert events[..n][..k] == events[..k];
      }
      ClientStaysCurrent(floor, providers, events[..n]);
      assert Fair(floor, providers, w, events[n]);
      match events[n]
      case Refreshed(device, probe, notified) => RefreshedKeeps(floor, providers, w, device, probe, notified);
      case Upserted(device) => UpsertedKeeps(floor, providers, w, device);
    } else {
      assert Current(floor, providers, Watch(floor, providers, events));
    }
  }

  /** A change that is not notified and by which a name appears or disappears leaves the client stale. */
  lemma DroppedSignalShows(floor: seq<Tool>, providers: seq<Provider>, w: Watched, device: string, probe: Probe)
    requires Current(floor, providers, w)
    requires Names(Everything(floor, providers, w.cache, w.pool)) !=
             Names(Everything(floor, providers, After(w.cache, device, probe), w.pool))
    ensures !Current(floor, providers, Observe(floor, providers, w, Refreshed(device, probe, false)))
  {
    hide Listing, Names, Everything;
    NewNameShows(floor, providers, w.pool, w.cache, After(w.cache, device, probe));
  }

  // ---------------------------------------------------------------- the probe of a selector call

  /** The names under which a device's cached schemas offer tools. */
  function Offered(providers: seq<Provider>, cache: Cache, device: string): set<string>
  {
    if device in cache then Names(SugarOf(providers, cache[device])) else {}
  }

  /** The floor or some device other than this one offers the name. */
  predicate Elsewhere(floor: seq<Tool>, providers: seq<Provider>, cache: Cache, pool: seq<string>, device: string, name: string)
  {
    name in Names(floor) || exists d :: d in pool && d != device && name in Offered(providers, cache, d)
  }

  lemma ManifestNames(floor: seq<Tool>, providers: seq<Provider>, cache: Cache, device: string)
    ensures Names(Manifest(floor, providers, Cached(cache, device))) == Names(floor) + Offered(providers, cache, device)
  {
    if device in cache {
      NamesAppend(floor, SugarOf(providers, cache[device]));
    } else {
      assert floor + [] == floor;
    }
  }

  lemma {:induction false} EverythingNames(floor: seq<Tool>, providers: seq<Provider>, cache: Cache, pool: seq<string>, name: string)
    ensures name in Names(Everything(floor, providers, cache, pool)) <==>
            name in Names(floor) || exists d :: d in pool && name in Offered(providers, cache, d)
  {
    if pool != [] {
      var n := |pool| - 1;
      EverythingNames(floor, providers, cache, pool[..n], name);
      NamesAppend(Everything(floor, providers, cache, pool[..n]), Manifest(floor, providers, Cached(cache, pool[n])));
      ManifestNames(floor, providers, cache, pool[n]);
      assert forall d :: d in pool <==> d in pool[..n] || d == pool[n];
      hide Names, Offered, Manifest;
    }
  }

  /** With nothing cached for a device, all names come from elsewhere. */
  lemma NamesElsewhere(floor: seq<Tool>, providers: seq<Provider>, cache: Cache, pool: seq<string>, device: string, name: string)
    requires device in cache ==> cache[device] == []
    ensures name in Names(Everything(floor, providers, cache, pool)) <==> Elsewhere(floor, providers, cache, pool, device, name)
  {
    EverythingNames(floor, providers, cache, pool, name);
    assert Offered(providers, cache, device) == {};
    hide Names, Offered;
  }

  /**
   A call with a selector probes a device of which nothing is cached and drops the change signal.  What the
   client then holds lacks a name exactly if the probe brings one that neither the floor nor any other
   device of the pool offers.
   */
  lemma SelectorProbeShowsIff(floor: seq<Tool>, providers: seq<Provider>, w: Watched, device: string, probe: Probe)
    requires Current(floor, providers, w) && device in w.pool && (device in w.cache ==> w.cache[device] == [])
    ensures var next := Observe(floor, providers, w, Refreshed(device, probe, false));
      Names(next.held) != Names(Listing(floor, providers, next.pool, next.cache)) <==>
      probe.Parsed? && exists name :: name in Names(SugarOf(providers, probe.schemas)) &&
                                      !Elsewhere(floor, providers, w.cache, w.pool, device, name)
  {
    var cache := After(w.cache, device, probe);
    FirstsNames(Everything(floor, providers, w.cache, w.pool));
    FirstsNames(Everything(floor, providers, cache, w.pool));
    forall name
      ensures name in Names(Everything(floor, providers, w.cache, w.pool)) <==>
              Elsewhere(floor, providers, w.cache, w.pool, device, name)
      ensures name in Names(Everything(floor, providers, cache, w.pool)) <==>
              Elsewhere(floor, providers, w.cache, w.pool, device, name) ||
              (probe.Parsed? && name in Names(SugarOf(providers, probe.schemas)))
    {
      NamesElsewhere(floor, providers, w.cache, w.pool, device, name);
      ProbedNames(floor, providers, w.cache, w.pool, device, probe, name);
    }
    hide Names, Everything, Elsewhere, After, SugarOf, Firsts;
  }

  lemma ProbedNames(floor: seq<Tool>, providers: seq<Provider>, cache: Cache, pool: seq<string>, device: string,
                    probe: Probe, name: string)
    requires device in pool && (device in cache ==> cache[device] == [])
    ensures name in Names(Everything(floor, providers, After(cache, device, probe), pool)) <==>
            Elsewhere(floor, providers, cache, pool, device, name) ||
            (probe.Parsed? && name in Names(SugarOf(providers, probe.schemas)))
  {
    var next := After(cache, device, probe);
    EverythingNames(floor, providers, next, pool, name);
    assert forall d :: d != device ==> Offered(providers, next, d) == Offered(providers, cache, d);
    assert Offered(providers, next, device) == if probe.Parsed? then Names(SugarOf(providers, probe.schemas)) else {};
    hide Names, Offered, SugarOf, Everything;
  }

  /** It happens: a device is discovered, and the first call that names one of its pages lists it. */
  lemma SelectorCallHidesTool(schema: Schema) returns (providers: seq<Provider>, events: seq<Event>)
    ensures var w := Watch([], providers, events);
      !Current([], providers, w) && Names(w.held) != Names(Listing([], providers, w.pool, w.cache))
  {
    var tool := Tool("page_tool", "");
    providers := [Provider(s => true, s => [tool])];
    var listed := Refreshed("phone", Parsed([schema]), false);
    events := [Upserted("phone"), listed];
    assert events[..1] == [Upserted("phone")] && events[..1][..0] == [];
    var w := Watch([], providers, events[..1]);
    assert Watch([], providers, []) == Watched([], map[], []);
    assert w.pool == ["phone"] && w.cache == map[] && w.held == [];
    NothingOffered(providers, w);
    assert Watch([], providers, events) == Observe([], providers, w, listed);
    assert Sugar(providers, schema) == [tool];
    assert [schema][..0] == [] && SugarOf(providers, [schema]) == [] + [tool];
    assert tool.name in Names(SugarOf(providers, [schema]));
    assert !Elsewhere([], providers, w.cache, w.pool, "phone", tool.name);
    SelectorProbeShowsIff([], providers, w, "phone", Parsed([schema]));
  }

  lemma NothingOffered(providers: seq<Provider>, w: Watched)
    requires w.pool == ["phone"] && w.cache == map[] && w.held == []
    ensures Current([], providers, w)
  {
    assert w.pool[..0] == [];
    assert Everything([], providers, w.cache, w.pool) == [];
  }

  // ---------------------------------------------------------------- the object

  datatype Reply = Listed(schemas: seq<Schema>, changed: bool) | Raised(error: Option<AuthError>)

  class CapabilityMirror {
    const floor: seq<Tool>
    const providers: seq<Provider>
    var cache: Cache
    var authErrors: map<string, AuthError>

    constructor (floor: seq<Tool>, providers: seq<Provider>)
      ensures this.floor == floor && this.providers == providers && cache == map[] && authErrors == map[]
    {
      this.floor, this.providers, cache, authErrors := floor, providers, map[], map[];
    }

    /**
     `refresh`: true exactly if the device's cache entry changed, absent counting as different from any
     list; a failure drops the entry, an authorization error keeps it; no other device is affected.
     */
    method Refresh(device: string, probe: Probe) returns (changed: bool)
      modifies this
      ensures cache == After(old(cache), device, probe)
      ensures authErrors == if probe.NotAuthorized? then old(authErrors)[device := probe.error] else old(authErrors) - {device}
      ensures changed <==> Cached(cache, device) != Cached(old(cache), device)
      ensures changed <==> cache != old(cache)
    {
      AfterAtDevice(cache, device, probe);
      match probe
      case NotAuthorized(error) =>
        authErrors := authErrors[device := error];
        return false;
      case Failed =>
        var hadCache := device in cache;
        cache := cache - {device};
        authErrors := authErrors - {device};
        return hadCache;
      case Parsed(schemas) =>
        changed := !(device in cache && cache[device] == schemas);
        if changed {
          cache := cache[device := schemas];
        }
        authErrors := authErrors - {device};
    }

    /** `schemas`: the cached list, empty without one. */
    function Schemas(device: string): seq<Schema>
      reads this
    {
      if device in cache then cache[device] else []
    }

    /**
     `_refresh_mirror_authorized`: a second probe after an authorization that the first one called for.
     What it reports as changed is what changed over both probes, and when it raises nothing changed.
     */
    method RefreshAuthorized(reauthorize: set<string>, device: string, first: Probe, authorized: bool, second: Probe)
      returns (reply: Reply)
      modifies this
      ensures cache ==
        if first.NotAuthorized? && first.error.code in reauthorize && authorized then After(old(cache), device, second)
        else After(old(cache), device, first)
      ensures reply.Listed? ==> reply.schemas == Schemas(device) && (reply.changed <==> cache != old(cache))
      ensures reply.Raised? ==> cache == old(cache)
      ensures reply.Raised? <==>
        first.NotAuthorized? && !(first.error.code in reauthorize && authorized && !second.NotAuthorized?)
      ensures reply.Raised? && first.error.code !in reauthorize ==> reply.error == Some(first.error)
      ensures reply.Raised? && first.error.code in reauthorize ==> reply.error == if authorized then Some(second.error) else None
    {
      var changed := Refresh(device, first);
      if device !in authErrors || authErrors[device].code !in reauthorize {
        if device in authErrors {
          return Raised(Some(authErrors[device]));
        }
        return Listed(Schemas(device), changed);
      }
      if !authorized {
        return Raised(None);
      }
      var retryChanged := Refresh(device, second);
      if device in authErrors {
        return Raised(Some(authErrors[device]));
      }
      return Listed(Schemas(device), changed || retryChanged);
    }

    /**
     The snapshot a page-scoped call is checked against, None where it raises: only a device of which nothing
     is cached is probed, and whether that changed its entry is dropped.
     */
    method SelectorSnapshot(reauthorize: set<string>, device: string, first: Probe, authorized: bool, second: Probe)
      returns (schemas: Option<seq<Schema>>)
      modifies this
      ensures schemas.Some? ==> schemas.value == Schemas(device)
      ensures old(Schemas(device)) != [] ==> cache == old(cache) && schemas.Some?
      ensures old(Schemas(device)) == [] ==>
        cache == if first.NotAuthorized? && first.error.code in reauthorize && authorized then After(old(cache), device, second)
                 else After(old(cache), device, first)
      ensures schemas.None? ==> cache == old(cache)
    {
      if Schemas(device) != [] {
        return Some(Schemas(device));
      }
      var reply := RefreshAuthorized(reauthorize, device, first, authorized, second);
      schemas := if reply.Listed? then Some(reply.schemas) else None;
    }

    /** `_maybe_emit_list_changed_all`: notifies exactly if some device's entry changed. */
    method RefreshAll(devices: seq<string>, probes: seq<Probe>) returns (anyChanged: bool)
      requires |probes| == |devices| && forall i, j :: 0 <= i < j < |devices| ==> devices[i] != devices[j]
      modifies this
      ensures anyChanged <==> cache != old(cache)
      ensures forall k :: 0 <= k < |devices| ==>
        Cached(cache, devices[k]) == Cached(After(old(cache), devices[k], probes[k]), devices[k])
    {
      anyChanged := false;
      for k := 0 to |devices|
        invariant !anyChanged ==> cache == old(cache)
        invariant anyChanged ==> exists j :: 0 <= j < k && Cached(cache, devices[j]) != Cached(old(cache), devices[j])
        invariant forall j :: 0 <= j < k ==>
          Cached(cache, devices[j]) == Cached(After(old(cache), devices[j], probes[j]), devices[j])
        invariant forall j :: k <= j < |devices| ==> Cached(cache, devices[j]) == Cached(old(cache), devices[j])
      {
        AfterAtDevice(cache, devices[k], probes[k]);
        var changed := Refresh(devices[k], probes[k]);
        anyChanged := anyChanged || changed;
      }
    }

    /** `_build_sugar`: the tools of the first provider that claims the schema, none if nobody does. */
    method BuildSugar(s: Schema) returns (tools: seq<Tool>)
      ensures forall k: nat :: Claims(providers, s, k) ==> tools == providers[k].build(s)
      ensures (forall k: nat :: !Claims(providers, s, k)) ==> tools == []
      ensures tools == Sugar(providers, s)
    {
      for i := 0 to |providers|
        invariant forall k :: 0 <= k < i ==> !providers[k].matches(s)
      {
        if providers[i].matches(s) {
          assert Claims(providers, s, i);
          SugarIsClaimed(providers, s, i);
          assert forall k: nat :: Claims(providers, s, k) ==> !(k < i) && !(i < k);
          return providers[i].build(s);
        }
      }
      SugarUnclaimed(providers, s);
      return [];
    }

    /** `build_tools`; nothing for the device means the static floor. */
    method BuildTools(device: Option<string>) returns (tools: seq<Tool>, ghost blocks: seq<seq<Tool>>)
      ensures tools == Manifest(floor, providers, if device.Some? then Cached(cache, device.value) else None)
      ensures InBlocks(floor, providers, if device.Some? && device.value in cache then cache[device.value] else [], tools, blocks)
    {
      tools := floor;
      blocks := ManifestInBlocks(floor, providers, if device.Some? && device.value in cache then cache[device.value] else []);
      NoSugar(floor, providers);
      hide *;
      if device.None? || device.value !in cache || cache[device.value] == [] {
        return;
      }
      var schemas := cache[device.value];
      for i := 0 to |schemas|
        invariant tools == Manifest(floor, providers, Some(schemas[..i]))
      {
        assert schemas[..i + 1][..i] == schemas[..i];
        ManifestSnoc(floor, providers, schemas[..i + 1]);
        var sugar := BuildSugar(schemas[i]);
        tools := tools + sugar;
      }
      assert schemas[..|schemas|] == schemas;
    }

    /**
     `_aggregate_tool_specs`: the first occurrences, by name, of everything in pool order; devices without
     cached schemas are skipped, which changes nothing because they would only repeat the floor.
     */
    method AggregateToolSpecs(pool: seq<string>) returns (specs: seq<Tool>, ghost all: seq<Tool>, ghost parts: seq<seq<Tool>>)
      requires DistinctNames(floor)
      ensures specs == Firsts(Everything(floor, providers, cache, pool))
      ensures InParts(floor, providers, cache, pool, all, parts) && FirstOfEachName(specs, all)
    {
      all := Everything(floor, providers, cache, pool);
      parts := EverythingInParts(floor, providers, cache, pool);
      FirstsAreThose(all);
      FirstsOfDistinct(floor);
      NoDevice(floor, providers, cache);
      hide *;
      var base, _ := BuildTools(None);
      specs := base;
      var seenNames := Names(specs);
      assert pool[..0] == [];
      for p := 0 to |pool|
        invariant specs == Firsts(Everything(floor, providers, cache, pool[..p]))
        invariant seenNames == Names(Everything(floor, providers, cache, pool[..p]))
      {
        NextDevice(floor, providers, cache, pool, p);
        if pool[p] !in cache || cache[pool[p]] == [] {
          continue;
        }
        var tools, _ := BuildTools(Some(pool[p]));
        assert tools == Manifest(floor, providers, Cached(cache, pool[p]));
        specs, seenNames := AddFresh(specs, seenNames, tools);
      }
      assert pool[..|pool|] == pool;
    }

    /** The inner loop: tools with a new name are listed, in order. */
    method AddFresh(specs: seq<Tool>, seenNames: set<string>, tools: seq<Tool>)
      returns (specs': seq<Tool>, seenNames': set<string>)
      ensures specs' == specs + Fresh(seenNames, tools) && seenNames' == seenNames + Names(tools)
    {
      specs', seenNames' := specs, seenNames;
      for k := 0 to |tools|
        invariant specs' == specs + Fresh(seenNames, tools[..k])
        invariant seenNames' == seenNames + Names(tools[..k])
      {
        FreshSnoc(seenNames, tools, k);
        if tools[k].name !in seenNames' {
          specs' := specs' + [tools[k]];
          seenNames' := seenNames' + {tools[k].name};
        }
      }
      assert tools[..|tools|] == tools;
    }
  }

  lemma NoDevice(floor: seq<Tool>, providers: seq<Provider>, cache: Cache)
    ensures Everything(floor, providers, cache, []) == floor && Manifest(floor, providers, None) == floor
  {
  }

  lemma NextDevice(floor: seq<Tool>, providers: seq<Provider>, cache: Cache, pool: seq<string>, p: nat)
    requires p < |pool|
    ensures var before := Everything(floor, providers, cache, pool[..p]);
      var after := Everything(floor, providers, cache, pool[..p + 1]);
      if pool[p] !in cache || cache[pool[p]] == [] then Firsts(after) == Firsts(before) && Names(after) == Names(before)
      else
        var mine := Manifest(floor, providers, Cached(cache, pool[p]));
        Firsts(after) == Firsts(before) + Fresh(Names(before), mine) && Names(after) == Names(before) + Names(mine)
  {
    EverythingSnoc(floor, providers, cache, pool, p);
    var before := Everything(floor, providers, cache, pool[..p]);
    if pool[p] !in cache || cache[pool[p]] == [] {
      NoSugar(floor, providers);
      assert Manifest(floor, providers, Cached(cache, pool[p])) == floor;
      hide *;
      NothingFresh(Names(before), floor);
      assert Firsts(before) + [] == Firsts(before);
    }
  }
}
