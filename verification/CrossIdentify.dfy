/**
 Cross identification of USB candidates and LAN candidates: a chain of layers that take matched pairs
 out of two mutable pools.  Each layer is a greedy loop; pools lose items by index, highest first.
 */
module CrossIdentify {
  import opened Wrappers

  datatype Usb = Usb(deviceId: string, platform: string, model: string, androidLanIp: Option<string>)

  datatype Lan = Lan(host: string, hardwareName: Option<string>, machineId: Option<string>)

  datatype Reason = SingleDevice | AndroidIp | BridgeField | Ambiguous

  datatype DeviceRecord = DeviceRecord(
    deviceId: string,
    name: string,
    lastKnownHost: Option<string>,
    hardwareName: Option<string>,
    machineId: Option<string>,
    platform: string,
    needsHuman: bool)

  datatype Identified = Identified(record: DeviceRecord, reason: Reason)

  function Merge(u: Usb, l: Lan, reason: Reason): Identified
  {
    var name := if l.hardwareName.Some? && l.hardwareName.value != "" then l.hardwareName.value else u.model;
    Identified(DeviceRecord(u.deviceId, name, Some(l.host), l.hardwareName, l.machineId, u.platform, false), reason)
  }

  function MakeAmbiguous(u: Usb): Identified
  {
    Identified(DeviceRecord(u.deviceId, "[ambiguous] " + u.model, None, None, None, u.platform, true), Ambiguous)
  }

  /**
   What a record of a joined pair holds: the identity of the USB side, the address and names of the LAN side,
   and as label the name the user gave the device, else its model.
   */
  predicate HoldsJoin(r: DeviceRecord, u: Usb, l: Lan)
  {
    && r.deviceId == u.deviceId && r.platform == u.platform
    && r.lastKnownHost == Some(l.host) && r.hardwareName == l.hardwareName && r.machineId == l.machineId
    && (match l.hardwareName
        case Some(given) => (given != "" ==> r.name == given) && (given == "" ==> r.name == u.model)
        case None => r.name == u.model)
    && !r.needsHuman
  }

  /** What the record of a candidate left over holds: its identity, a marked label, and nothing of any host. */
  predicate HoldsAmbiguous(r: DeviceRecord, u: Usb)
  {
    && r.deviceId == u.deviceId && r.platform == u.platform
    && |r.name| == 12 + |u.model| && r.name[..12] == "[ambiguous] " && r.name[12..] == u.model
    && r.lastKnownHost.None? && r.hardwareName.None? && r.machineId.None?
    && r.needsHuman
  }

  lemma MergeHolds(u: Usb, l: Lan, reason: Reason)
    ensures HoldsJoin(Merge(u, l, reason).record, u, l) && Merge(u, l, reason).reason == reason
    ensures HoldsAmbiguous(MakeAmbiguous(u).record, u) && MakeAmbiguous(u).reason == Ambiguous
  {
  }

  // ---------------------------------------------------------------- pools

  /** What is left of `items`, in order, without the positions in `removed`. */
  function Kept<T>(items: seq<T>, removed: set<nat>): seq<T>
  {
    if items == [] then []
    else
      var n := |items| - 1;
      Kept(items[..n], removed) + if n in removed then [] else [items[n]]
  }

  lemma {:induction false} KeptAll<T>(items: seq<T>, removed: set<nat>)
    requires forall r :: r in removed ==> r >= |items|
    ensures Kept(items, removed) == items
  {
    if items != [] {
      KeptAll(items[..|items| - 1], removed);
    }
  }

  /** Popping below everything removed so far removes the item at that position of the original. */
  lemma {:induction false} KeptPop<T>(items: seq<T>, removed: set<nat>, i: nat)
    requires i < |items| && forall r :: r in removed ==> r > i
    ensures var k := Kept(items, removed);
      i < |k| && k[..i] + k[i + 1..] == Kept(items, removed + {i})
  {
    var n := |items| - 1;
    var k := Kept(items, removed);
    if i == n {
      KeptAll(items[..n], removed);
      KeptAll(items[..n], removed + {i});
    } else {
      KeptPop(items[..n], removed, i);
      var inner := Kept(items[..n], removed);
      var tail := if n in removed then [] else [items[n]];
      assert k == inner + tail;
      assert k[..i] + k[i + 1..] == (inner[..i] + inner[i + 1..]) + tail;
    }
  }

  /** An item survives exactly if its position was not removed. */
  lemma {:induction false} KeptFrom<T>(items: seq<T>, removed: set<nat>, x: T)
    requires x in Kept(items, removed)
    ensures exists i :: 0 <= i < |items| && i !in removed && items[i] == x
  {
    var n := |items| - 1;
    if x in Kept(items[..n], removed) {
      KeptFrom(items[..n], removed, x);
      var i :| 0 <= i < n && i !in removed && items[..n][i] == x;
      assert items[i] == x;
    } else {
      assert n !in removed && items[n] == x;
    }
  }

  class CandidateList<T> {
    var items: seq<T>

    constructor (items: seq<T>)
      ensures this.items == items
    {
      this.items := items;
    }

    method Pop(i: nat)
      requires i < |items|
      modifies this
      ensures items == old(items[..i] + items[i + 1..])
    {
      items := items[..i] + items[i + 1..];
    }
  }

  lemma {:induction false} HasMax(s: set<nat>)
    requires s != {}
    ensures exists m :: m in s && forall x :: x in s ==> x <= m
  {
    var a :| a in s;
    if s == {a} {
      assert a in s;
    } else {
      var rest := s - {a};
      assert rest != {};
      HasMax(rest);
      var m :| m in rest && forall x :: x in rest ==> x <= m;
      var top := if a > m then a else m;
      forall x | x in s ensures x <= top {
        assert x == a || x in rest;
      }
      assert top in s;
    }
  }

  /** `sorted(set(..), reverse=True)`. */
  function Descending(s: set<nat>): (r: seq<nat>)
    ensures forall i, j :: 0 <= i < j < |r| ==> r[i] > r[j]
    ensures forall x :: x in r <==> x in s
  {
    if s == {} then []
    else
      HasMax(s);
      var m :| m in s && forall x :: x in s ==> x <= m;
      [m] + Descending(s - {m})
  }

  method RemoveIndices<T>(pool: CandidateList<T>, remove: set<nat>)
    requires forall i :: i in remove ==> i < |pool.items|
    modifies pool
    ensures pool.items == Kept(old(pool.items), remove)
  {
    var order := Descending(remove);
    ghost var start := pool.items;
    ghost var gone: set<nat> := {};
    KeptAll(start, gone);
    for k := 0 to |order|
      invariant gone == set r | r in order[..k]
      invariant pool.items == Kept(start, gone)
    {
      forall r | r in gone ensures r > order[k] {
        var a :| 0 <= a < k && order[a] == r;
      }
      assert order[k] in remove;
      KeptPop(start, gone, order[k]);
      pool.Pop(order[k]);
      gone := gone + {order[k]};
      assert order[..k + 1] == order[..k] + [order[k]];
    }
    assert order[..|order|] == order;
    assert gone == remove;
  }

  // ---------------------------------------------------------------- the greedy layer

  datatype Pair = Pair(u: nat, l: nat)

  function SetOf(positions: seq<nat>): set<nat> { set i | i in positions }

  function UsbUsed(pairs: seq<Pair>): set<nat> { set p | p in pairs :: p.u }

  function LanUsed(pairs: seq<Pair>): set<nat> { set p | p in pairs :: p.l }

  /** First position from `from` on that is not taken and that `ok` allows, or the length. */
  function FirstFree<U, L>(u: U, lan: seq<L>, taken: set<nat>, ok: (U, L) -> bool, from: nat): (j: nat)
    requires from <= |lan|
    ensures from <= j <= |lan|
    ensures j < |lan| ==> j !in taken && ok(u, lan[j])
    ensures forall k :: from <= k < j ==> k in taken || !ok(u, lan[k])
    decreases |lan| - from
  {
    if from == |lan| || (from !in taken && ok(u, lan[from])) then from
    else FirstFree(u, lan, taken, ok, from + 1)
  }

  /** Every USB candidate in order takes the first LAN candidate that is free and allowed. */
  function Greedy<U, L>(usb: seq<U>, lan: seq<L>, ok: (U, L) -> bool): (pairs: seq<Pair>)
    ensures forall k :: 0 <= k < |pairs| ==> pairs[k].u < |usb| && pairs[k].l < |lan|
  {
    if usb == [] then []
    else
      var n := |usb| - 1;
      var before := Greedy(usb[..n], lan, ok);
      var j := FirstFree(usb[n], lan, LanUsed(before), ok, 0);
      if j < |lan| then before + [Pair(n, j)] else before
  }

  ghost predicate IsMatching<U, L>(pairs: seq<Pair>, usb: seq<U>, lan: seq<L>, ok: (U, L) -> bool)
  {
    && (forall k :: 0 <= k < |pairs| ==>
          pairs[k].u < |usb| && pairs[k].l < |lan| && ok(usb[pairs[k].u], lan[pairs[k].l]))
    && (forall j, k :: 0 <= j < k < |pairs| ==> pairs[j].u != pairs[k].u && pairs[j].l != pairs[k].l)
  }

  lemma MatchingMore<U, L>(pairs: seq<Pair>, usb: seq<U>, n: nat, lan: seq<L>, ok: (U, L) -> bool)
    requires n <= |usb| && IsMatching(pairs, usb[..n], lan, ok)
    ensures IsMatching(pairs, usb, lan, ok) && forall k :: 0 <= k < |pairs| ==> pairs[k].u < n
  {
    forall k | 0 <= k < |pairs| ensures pairs[k].u < n && ok(usb[pairs[k].u], lan[pairs[k].l]) {
      assert ok(usb[..n][pairs[k].u], lan[pairs[k].l]);
    }
  }

  lemma MatchingSnoc<U, L>(pairs: seq<Pair>, usb: seq<U>, lan: seq<L>, ok: (U, L) -> bool, p: Pair)
    requires IsMatching(pairs, usb, lan, ok) && forall k :: 0 <= k < |pairs| ==> pairs[k].u < p.u
    requires p.u < |usb| && p.l < |lan| && p.l !in LanUsed(pairs) && ok(usb[p.u], lan[p.l])
    ensures IsMatching(pairs + [p], usb, lan, ok)
  {
    forall k | 0 <= k < |pairs| ensures pairs[k].l != p.l {
      assert pairs[k] in pairs;
    }
  }

  /** The pairs join distinct USB positions to distinct LAN positions that the predicate allows. */
  lemma {:induction false} GreedyIsMatching<U, L>(usb: seq<U>, lan: seq<L>, ok: (U, L) -> bool)
    ensures IsMatching(Greedy(usb, lan, ok), usb, lan, ok)
  {
    if usb != [] {
      hide IsMatching, LanUsed;
      var n := |usb| - 1;
      GreedyIsMatching(usb[..n], lan, ok);
      var before := Greedy(usb[..n], lan, ok);
      MatchingMore(before, usb, n, lan, ok);
      var j := FirstFree(usb[n], lan, LanUsed(before), ok, 0);
      if j < |lan| {
        MatchingSnoc(before, usb, lan, ok, Pair(n, j));
      }
    } else {
      assert Greedy(usb, lan, ok) == [];
    }
  }

  /** No allowed pair of unmatched positions is left. */
  lemma {:induction false} GreedyIsMaximal<U, L>(usb: seq<U>, lan: seq<L>, ok: (U, L) -> bool, i: nat, j: nat)
    requires i < |usb| && j < |lan| && ok(usb[i], lan[j])
    ensures var pairs := Greedy(usb, lan, ok); i in UsbUsed(pairs) || j in LanUsed(pairs)
  {
    var n := |usb| - 1;
    var before := Greedy(usb[..n], lan, ok);
    var pairs := Greedy(usb, lan, ok);
    assert UsbUsed(before) <= UsbUsed(pairs) && LanUsed(before) <= LanUsed(pairs);
    if i < n {
      GreedyIsMaximal(usb[..n], lan, ok, i, j);
    } else if j !in LanUsed(before) {
      assert Pair(n, FirstFree(usb[n], lan, LanUsed(before), ok, 0)) in pairs;
    }
  }

  lemma {:induction false} NothingAllowed<U, L>(usb: seq<U>, lan: seq<L>, ok: (U, L) -> bool)
    requires forall u, l :: u in usb && l in lan ==> !ok(u, l)
    ensures Greedy(usb, lan, ok) == []
  {
    if usb != [] {
      NothingAllowed(usb[..|usb| - 1], lan, ok);
    }
  }

  // ---------------------------------------------------------------- the address layer

  /** An Android candidate that reports exactly the LAN host's address. */
  predicate IpAllowed(u: Usb, l: Lan) { u.platform == "android" && u.androidLanIp == Some(l.host) }

  function UsbAt(usb: seq<Usb>, address: string): set<nat>
  {
    set i | 0 <= i < |usb| && usb[i].platform == "android" && usb[i].androidLanIp == Some(address)
  }

  function LanAt(lan: seq<Lan>, address: string): set<nat>
  {
    set j | 0 <= j < |lan| && lan[j].host == address
  }

  function PairsAt(pairs: seq<Pair>, lan: seq<Lan>, address: string): set<Pair>
    requires forall k :: 0 <= k < |pairs| ==> pairs[k].l < |lan|
  {
    set p | p in pairs && lan[p.l].host == address
  }

  ghost predicate Apart(s: set<Pair>) { forall p, q :: p in s && q in s && p != q ==> p.u != q.u && p.l != q.l }

  function UsOf(s: set<Pair>): set<nat> { set p | p in s :: p.u }

  function LsOf(s: set<Pair>): set<nat> { set p | p in s :: p.l }

  lemma UsAdd(rest: set<Pair>, a: Pair)
    requires forall p :: p in rest ==> p.u != a.u
    ensures UsOf(rest + {a}) == UsOf(rest) + {a.u} && a.u !in UsOf(rest)
  {
  }

  lemma LsAdd(rest: set<Pair>, a: Pair)
    requires forall p :: p in rest ==> p.l != a.l
    ensures LsOf(rest + {a}) == LsOf(rest) + {a.l} && a.l !in LsOf(rest)
  {
  }

  lemma {:induction false} UsSize(s: set<Pair>)
    requires Apart(s)
    ensures |UsOf(s)| == |s|
  {
    if s != {} {
      var a :| a in s;
      var rest := s - {a};
      assert Apart(rest) && s == rest + {a};
      UsAdd(rest, a);
      hide UsOf, Apart;
      UsSize(rest);
    }
  }

  lemma {:induction false} LsSize(s: set<Pair>)
    requires Apart(s)
    ensures |LsOf(s)| == |s|
  {
    if s != {} {
      var a :| a in s;
      var rest := s - {a};
      assert Apart(rest) && s == rest + {a};
      LsAdd(rest, a);
      hide LsOf, Apart;
      LsSize(rest);
    }
  }

  lemma SidesOf(s: set<Pair>)
    requires Apart(s)
    ensures |UsOf(s)| == |s| == |LsOf(s)|
  {
    UsSize(s);
    LsSize(s);
  }

  lemma {:induction false} SubsetSize<T>(a: set<T>, b: set<T>)
    requires a <= b
    ensures |a| <= |b| && (|a| == |b| ==> a == b)
  {
    if a != {} {
      var x :| x in a;
      SubsetSize(a - {x}, b - {x});
    }
  }

  lemma MatchingApart<U, L>(pairs: seq<Pair>, usb: seq<U>, lan: seq<L>, ok: (U, L) -> bool)
    requires IsMatching(pairs, usb, lan, ok)
    ensures Apart(set p | p in pairs)
  {
    forall p, q | p in pairs && q in pairs && p != q ensures p.u != q.u && p.l != q.l {
      var j :| 0 <= j < |pairs| && pairs[j] == p;
      var k :| 0 <= k < |pairs| && pairs[k] == q;
      assert j < k || k < j;
    }
  }

  /** Any matching pairs at most as many candidates at an address as either side has there. */
  lemma AddressBound(pairs: seq<Pair>, usb: seq<Usb>, lan: seq<Lan>, address: string)
    requires IsMatching(pairs, usb, lan, IpAllowed)
    ensures var at := PairsAt(pairs, lan, address);
      && UsOf(at) <= UsbAt(usb, address) && LsOf(at) <= LanAt(lan, address)
      && |UsOf(at)| == |at| == |LsOf(at)|
      && |at| <= |UsbAt(usb, address)| && |at| <= |LanAt(lan, address)|
  {
    var at := PairsAt(pairs, lan, address);
    MatchingApart(pairs, usb, lan, IpAllowed);
    assert Apart(at);
    SidesOf(at);
    forall p | p in at ensures p.u in UsbAt(usb, address) && p.l in LanAt(lan, address) {
      var k :| 0 <= k < |pairs| && pairs[k] == p;
    }
    SubsetSize(UsOf(at), UsbAt(usb, address));
    SubsetSize(LsOf(at), LanAt(lan, address));
  }

  /** For every address the number of pairs is the smaller of the two sides' candidates there. */
  lemma AddressPairs(usb: seq<Usb>, lan: seq<Lan>, address: string)
    ensures var n, m := |UsbAt(usb, address)|, |LanAt(lan, address)|;
      |PairsAt(Greedy(usb, lan, IpAllowed), lan, address)| == if n < m then n else m
  {
    var pairs := Greedy(usb, lan, IpAllowed);
    GreedyIsMatching(usb, lan, IpAllowed);
    AddressBound(pairs, usb, lan, address);
    var at := PairsAt(pairs, lan, address);
    var us, ls := UsOf(at), LsOf(at);
    if |at| < |UsbAt(usb, address)| && |at| < |LanAt(lan, address)| {
      assert us != UsbAt(usb, address) && ls != LanAt(lan, address);
      var i :| i in UsbAt(usb, address) && i !in us;
      var j :| j in LanAt(lan, address) && j !in ls;
      GreedyIsMaximal(usb, lan, IpAllowed, i, j);
    }
  }

  function PairsOver(pairs: seq<Pair>, lan: seq<Lan>, addresses: set<string>): set<Pair>
    requires forall k :: 0 <= k < |pairs| ==> pairs[k].l < |lan|
  {
    set p | p in pairs && lan[p.l].host in addresses
  }

  lemma SplitOver(pairs: seq<Pair>, lan: seq<Lan>, addresses: set<string>, a: string)
    requires forall k :: 0 <= k < |pairs| ==> pairs[k].l < |lan|
    requires a in addresses
    ensures |PairsOver(pairs, lan, addresses)| == |PairsOver(pairs, lan, addresses - {a})| + |PairsAt(pairs, lan, a)|
  {
    var rest, at := PairsOver(pairs, lan, addresses - {a}), PairsAt(pairs, lan, a);
    assert PairsOver(pairs, lan, addresses) == rest + at;
    assert rest !! at;
  }

  lemma {:induction false} NoMoreOver(pairs: seq<Pair>, usb: seq<Usb>, lan: seq<Lan>, addresses: set<string>)
    requires IsMatching(pairs, usb, lan, IpAllowed)
    ensures |PairsOver(pairs, lan, addresses)| <= |PairsOver(Greedy(usb, lan, IpAllowed), lan, addresses)|
    decreases addresses
  {
    var best := Greedy(usb, lan, IpAllowed);
    if addresses == {} {
      assert PairsOver(pairs, lan, addresses) == {};
    } else {
      var a :| a in addresses;
      var rest := addresses - {a};
      NoMoreOver(pairs, usb, lan, rest);
      AddressPairs(usb, lan, a);
      AddressBound(pairs, usb, lan, a);
      SplitOver(pairs, lan, addresses, a);
      SplitOver(best, lan, addresses, a);
    }
  }

  lemma {:induction false} DistinctSize(s: seq<Pair>)
    requires forall j, k :: 0 <= j < k < |s| ==> s[j].u != s[k].u
    ensures |set p | p in s| == |s|
  {
    if s != [] {
      var n := |s| - 1;
      DistinctSize(s[..n]);
      forall p | p in s[..n] ensures p != s[n] {
        var k :| 0 <= k < n && s[k] == p;
      }
      assert (set p | p in s) == (set p | p in s[..n]) + {s[n]};
    }
  }

  /** No matching of Android addresses to hosts has more pairs than the greedy one. */
  lemma {:induction false} IpLayerIsMaximum(usb: seq<Usb>, lan: seq<Lan>, other: seq<Pair>)
    requires IsMatching(other, usb, lan, IpAllowed)
    ensures |other| <= |Greedy(usb, lan, IpAllowed)|
  {
    var pairs := Greedy(usb, lan, IpAllowed);
    GreedyIsMatching(usb, lan, IpAllowed);
    var all := set j | 0 <= j < |lan| :: lan[j].host;
    NoMoreOver(other, usb, lan, all);
    DistinctSize(other);
    DistinctSize(pairs);
    assert PairsOver(other, lan, all) == set p | p in other;
    assert PairsOver(pairs, lan, all) == set p | p in pairs;
  }

  // ---------------------------------------------------------------- the bridge-field layer

  type BridgeKey = (Option<string>, Option<string>)

  function KeyOf(l: Lan): BridgeKey { (l.hardwareName, l.machineId) }

  function KeyCount(lan: seq<Lan>, key: BridgeKey): nat
  {
    if lan == [] then 0
    else KeyCount(lan[..|lan| - 1], key) + if KeyOf(lan[|lan| - 1]) == key then 1 else 0
  }

  function WithoutSpaces(s: string): string
  {
    if s == [] then [] else (if s[0] == ' ' then [] else [s[0]]) + WithoutSpaces(s[1..])
  }

  predicate IsAt(text: string, part: string, k: nat)
  {
    k + |part| <= |text| && text[k..k + |part|] == part
  }

  predicate Contains(text: string, part: string)
  {
    exists k :: 0 <= k <= |text| && IsAt(text, part, k)
  }

  /** `lower` stands for the library's lower-casing. */
  predicate BridgeMatches(lower: string -> string, u: Usb, l: Lan)
  {
    l.machineId.Some? && Contains(lower(WithoutSpaces(l.machineId.value)), lower(WithoutSpaces(u.model)))
  }

  /** A part of a text is what stands between some beginning and some end of it. */
  ghost predicate Between(text: string, part: string) { exists a: string, b: string :: text == a + part + b }

  lemma ContainsIsBetween(text: string, part: string)
    ensures Contains(text, part) <==> Between(text, part)
  {
    if k :| 0 <= k <= |text| && IsAt(text, part, k) {
      assert text == text[..k] + part + text[k + |part|..];
    }
    if a: string, b: string :| text == a + part + b {
      assert IsAt(text, part, |a|);
    }
  }

  /** Exactly the blanks are left out. */
  lemma {:induction false} WithoutSpacesIs(s: string)
    ensures ' ' !in WithoutSpaces(s) && (' ' !in s ==> WithoutSpaces(s) == s)
  {
    if s != "" {
      WithoutSpacesIs(s[1..]);
      assert s == [s[0]] + s[1..];
    }
  }

  lemma WithoutSpacesCons(c: char, s: string)
    ensures WithoutSpaces([c] + s) == (if c == ' ' then "" else [c]) + WithoutSpaces(s)
  {
    assert ([c] + s)[1..] == s;
  }

  lemma {:induction false} WithoutSpacesConcat(s: string, t: string)
    ensures WithoutSpaces(s + t) == WithoutSpaces(s) + WithoutSpaces(t)
  {
    if s == "" {
      assert s + t == t;
    } else {
      WithoutSpacesConcat(s[1..], t);
      WithoutSpacesCons(s[0], s[1..]);
      WithoutSpacesCons(s[0], s[1..] + t);
      assert s == [s[0]] + s[1..] && s + t == [s[0]] + (s[1..] + t);
      hide WithoutSpaces;
    }
  }

  /** Normalizing takes each blank out, wherever it stands, and leaves what stands between two of them. */
  lemma OnlyBlanksGo(s: string, t: string)
    ensures WithoutSpaces(s + " " + t) == WithoutSpaces(s) + WithoutSpaces(t)
    ensures ' ' !in s ==> WithoutSpaces(s) == s
  {
    WithoutSpacesIs(s);
    WithoutSpacesConcat(s, [' '] + t);
    WithoutSpacesCons(' ', t);
    assert s + " " + t == s + ([' '] + t);
  }

  /** A model matches a machine id exactly if its normalized text occurs somewhere in the other's. */
  lemma BridgeMatchesIff(lower: string -> string, u: Usb, l: Lan)
    ensures BridgeMatches(lower, u, l) <==>
      && l.machineId.Some?
      && Between(lower(WithoutSpaces(l.machineId.value)), lower(WithoutSpaces(u.model)))
  {
    hide Contains, Between;
    if l.machineId.Some? {
      ContainsIsBetween(lower(WithoutSpaces(l.machineId.value)), lower(WithoutSpaces(u.model)));
    }
  }

  function BridgeAllowed(lan: seq<Lan>, lower: string -> string): (Usb, Lan) -> bool
  {
    (u, l) => KeyCount(lan, KeyOf(l)) == 1 && BridgeMatches(lower, u, l)
  }

  lemma {:induction false} KeptCount(lan: seq<Lan>, removed: set<nat>, key: BridgeKey)
    requires forall r :: r in removed && r < |lan| ==> KeyOf(lan[r]) != key
    ensures KeyCount(Kept(lan, removed), key) == KeyCount(lan, key)
  {
    if lan != [] {
      var n := |lan| - 1;
      KeptCount(lan[..n], removed, key);
      var kept := Kept(lan[..n], removed);
      if n in removed {
        assert Kept(lan, removed) == kept;
      } else {
        assert (kept + [lan[n]])[..|kept|] == kept;
      }
    }
  }

  /** A key counted once belongs to no other position. */
  lemma {:induction false} CountedOnce(lan: seq<Lan>, i: nat, j: nat)
    requires i < j < |lan| && KeyOf(lan[i]) == KeyOf(lan[j])
    ensures KeyCount(lan, KeyOf(lan[j])) >= 2
  {
    var n := |lan| - 1;
    if j < n {
      CountedOnce(lan[..n], i, j);
    } else {
      CountsAt(lan[..n], i);
    }
  }

  lemma {:induction false} CountsAt(lan: seq<Lan>, i: nat)
    requires i < |lan|
    ensures KeyCount(lan, KeyOf(lan[i])) >= 1
  {
    if i < |lan| - 1 {
      CountsAt(lan[..|lan| - 1], i);
    }
  }

  /** Running the layer again on what it left, with keys counted anew, matches nothing. */
  lemma BridgeLayerIsExhausted(usb: seq<Usb>, lan: seq<Lan>, lower: string -> string)
    ensures var pairs := Greedy(usb, lan, BridgeAllowed(lan, lower));
      var leftUsb, leftLan := Kept(usb, UsbUsed(pairs)), Kept(lan, LanUsed(pairs));
      && (forall u, l :: u in leftUsb && l in leftLan ==> !BridgeAllowed(leftLan, lower)(u, l))
      && Greedy(leftUsb, leftLan, BridgeAllowed(leftLan, lower)) == []
  {
    var ok := BridgeAllowed(lan, lower);
    var pairs := Greedy(usb, lan, ok);
    var leftUsb, leftLan := Kept(usb, UsbUsed(pairs)), Kept(lan, LanUsed(pairs));
    var again := BridgeAllowed(leftLan, lower);
    GreedyIsMatching(usb, lan, ok);
    forall u, l | u in leftUsb && l in leftLan ensures !again(u, l) {
      KeptFrom(usb, UsbUsed(pairs), u);
      KeptFrom(lan, LanUsed(pairs), l);
      var i :| 0 <= i < |usb| && i !in UsbUsed(pairs) && usb[i] == u;
      var j :| 0 <= j < |lan| && j !in LanUsed(pairs) && lan[j] == l;
      if ok(u, l) {
        GreedyIsMaximal(usb, lan, ok, i, j);
      } else if BridgeMatches(lower, u, l) {
        forall r | r in LanUsed(pairs) && r < |lan| ensures KeyOf(lan[r]) != KeyOf(l) {
          var p :| p in pairs && p.l == r;
          var k :| 0 <= k < |pairs| && pairs[k] == p;
          assert ok(usb[p.u], lan[p.l]);
        }
        KeptCount(lan, LanUsed(pairs), KeyOf(l));
      }
    }
    NothingAllowed(leftUsb, leftLan, again);
  }

  lemma OneKey(l: Lan, key: BridgeKey)
    ensures KeyCount([l], key) == if KeyOf(l) == key then 1 else 0
  {
    assert [l][..0] == [] && KeyCount([], key) == 0;
  }

  lemma TwoKeys(first: Lan, second: Lan)
    requires KeyOf(first) != KeyOf(second)
    ensures KeyCount([first, second], KeyOf(first)) == 1 && KeyCount([first, second], KeyOf(second)) == 1
  {
    assert [first, second][..1] == [first];
    OneKey(first, KeyOf(first));
    OneKey(first, KeyOf(second));
  }

  lemma ShortWinsOver(lower: string -> string, short: Usb, long: Usb, first: Lan, second: Lan)
    requires lower("p") == "p" && lower("p1") == "p1" && lower("p2") == "p2"
    requires short.model == "p" && long.model == "p1"
    requires first.machineId == Some("p1") && second.machineId == Some("p2")
    ensures var ok := BridgeAllowed([first, second], lower);
      ok(short, first) && ok(short, second) && ok(long, first) && !ok(long, second)
  {
    assert KeyOf(first) != KeyOf(second) by {
      assert "p1"[1] != "p2"[1];
    }
    TwoKeys(first, second);
    ShortModels();
    assert BridgeMatches(lower, short, first) && BridgeMatches(lower, short, second);
    hide Contains, WithoutSpaces, KeyCount;
  }

  lemma ShortModels()
    ensures WithoutSpaces("p") == "p" && WithoutSpaces("p1") == "p1" && WithoutSpaces("p2") == "p2"
    ensures Contains("p1", "p") && Contains("p2", "p") && Contains("p1", "p1") && !Contains("p2", "p1")
  {
    assert WithoutSpaces("1") == "1" && WithoutSpaces("2") == "2";
    assert IsAt("p1", "p", 0) && IsAt("p2", "p", 0) && IsAt("p1", "p1", 0);
    assert forall k :: 0 <= k <= 2 ==> !IsAt("p2", "p1", k) by {
      assert "p2"[1] == '2' && "p1"[1] == '1';
    }
  }

  lemma OneUsbTakesFirst<U, L>(u: U, lan: seq<L>, ok: (U, L) -> bool)
    requires lan != [] && ok(u, lan[0])
    ensures Greedy([u], lan, ok) == [Pair(0, 0)]
  {
    assert [u][..0] == [] && Greedy([], lan, ok) == [] && LanUsed([]) == {};
  }

  lemma FirstStarvesSecond<U, L>(short: U, long: U, first: L, second: L, ok: (U, L) -> bool)
    requires ok(short, first) && ok(short, second) && ok(long, first) && !ok(long, second)
    ensures Greedy([short, long], [first, second], ok) == [Pair(0, 0)]
    ensures IsMatching([Pair(0, 1), Pair(1, 0)], [short, long], [first, second], ok)
  {
    assert [short, long][..1] == [short];
    OneUsbTakesFirst(short, [first, second], ok);
    assert LanUsed([Pair(0, 0)]) == {0} by {
      assert Pair(0, 0) in [Pair(0, 0)];
    }
  }

  /**
   Unlike the address layer, this one is not a maximum matching: a short model name that comes first can
   take the only LAN candidate a longer one would match.
   */
  lemma BridgeLayerNotMaximum(lower: string -> string) returns (usb: seq<Usb>, lan: seq<Lan>, other: seq<Pair>)
    requires lower("p") == "p" && lower("p1") == "p1" && lower("p2") == "p2"
    ensures IsMatching(other, usb, lan, BridgeAllowed(lan, lower))
    ensures |other| > |Greedy(usb, lan, BridgeAllowed(lan, lower))|
  {
    var short, long := Usb("s", "ios", "p", None), Usb("t", "ios", "p1", None);
    var first, second := Lan("a", None, Some("p1")), Lan("b", None, Some("p2"));
    ShortWinsOver(lower, short, long, first, second);
    usb, lan, other := [short, long], [first, second], [Pair(0, 1), Pair(1, 0)];
    hide BridgeAllowed, Greedy, IsMatching;
    FirstStarvesSecond(short, long, first, second, BridgeAllowed([first, second], lower));
  }

  // ---------------------------------------------------------------- the layers as loops

  function Merged(usb: seq<Usb>, lan: seq<Lan>, pairs: seq<Pair>, reason: Reason): seq<Identified>
    requires forall k :: 0 <= k < |pairs| ==> pairs[k].u < |usb| && pairs[k].l < |lan|
  {
    seq(|pairs|, k requires 0 <= k < |pairs| => Merge(usb[pairs[k].u], lan[pairs[k].l], reason))
  }

  lemma MergedHolds(usb: seq<Usb>, lan: seq<Lan>, pairs: seq<Pair>, reason: Reason)
    requires forall k :: 0 <= k < |pairs| ==> pairs[k].u < |usb| && pairs[k].l < |lan|
    ensures |Merged(usb, lan, pairs, reason)| == |pairs|
    ensures forall k :: 0 <= k < |pairs| ==>
      var r := Merged(usb, lan, pairs, reason)[k];
      r.reason == reason && HoldsJoin(r.record, usb[pairs[k].u], lan[pairs[k].l])
  {
    hide HoldsJoin, Merge;
    forall k | 0 <= k < |pairs|
      ensures var r := Merged(usb, lan, pairs, reason)[k];
        r.reason == reason && HoldsJoin(r.record, usb[pairs[k].u], lan[pairs[k].l])
    {
      MergeHolds(usb[pairs[k].u], lan[pairs[k].l], reason);
    }
  }

  lemma GreedySnoc<U, L>(usb: seq<U>, lan: seq<L>, ok: (U, L) -> bool, i: nat)
    requires i < |usb|
    ensures Greedy(usb[..i + 1], lan, ok) ==
      var before := Greedy(usb[..i], lan, ok);
      var j := FirstFree(usb[i], lan, LanUsed(before), ok, 0);
      if j < |lan| then before + [Pair(i, j)] else before
  {
    assert usb[..i + 1][..i] == usb[..i];
  }

  /** The two index lists of a layer are the two sides of the pairs found so far. */
  ghost predicate Recorded(usbRemove: seq<nat>, lanRemove: seq<nat>, pairs: seq<Pair>)
  {
    && (forall i :: i in usbRemove <==> i in UsbUsed(pairs))
    && (forall j :: j in lanRemove <==> j in LanUsed(pairs))
  }

  lemma RecordedSnoc(usbRemove: seq<nat>, lanRemove: seq<nat>, pairs: seq<Pair>, i: nat, j: nat)
    requires Recorded(usbRemove, lanRemove, pairs)
    ensures Recorded(usbRemove + [i], lanRemove + [j], pairs + [Pair(i, j)])
  {
    assert UsbUsed(pairs + [Pair(i, j)]) == UsbUsed(pairs) + {i};
    assert LanUsed(pairs + [Pair(i, j)]) == LanUsed(pairs) + {j};
  }

  /** What a layer's local variables hold after the first `i` USB candidates. */
  ghost predicate LayerAt(usb: seq<Usb>, lan: seq<Lan>, ok: (Usb, Lan) -> bool, reason: Reason, i: nat,
                          usbRemove: seq<nat>, lanRemove: seq<nat>, matched: seq<Identified>)
  {
    i <= |usb| &&
    var pairs := Greedy(usb[..i], lan, ok);
    Recorded(usbRemove, lanRemove, pairs) && matched == Merged(usb, lan, pairs, reason)
  }

  lemma LayerMiss(usb: seq<Usb>, lan: seq<Lan>, ok: (Usb, Lan) -> bool, reason: Reason, i: nat,
                  usbRemove: seq<nat>, lanRemove: seq<nat>, matched: seq<Identified>)
    requires i < |usb| && LayerAt(usb, lan, ok, reason, i, usbRemove, lanRemove, matched)
    requires FirstFree(usb[i], lan, SetOf(lanRemove), ok, 0) == |lan|
    ensures LayerAt(usb, lan, ok, reason, i + 1, usbRemove, lanRemove, matched)
  {
    GreedySnoc(usb, lan, ok, i);
    assert SetOf(lanRemove) == LanUsed(Greedy(usb[..i], lan, ok));
  }

  lemma MergedSnoc(usb: seq<Usb>, lan: seq<Lan>, pairs: seq<Pair>, p: Pair, reason: Reason)
    requires forall k :: 0 <= k < |pairs| ==> pairs[k].u < |usb| && pairs[k].l < |lan|
    requires p.u < |usb| && p.l < |lan|
    ensures Merged(usb, lan, pairs + [p], reason) == Merged(usb, lan, pairs, reason) + [Merge(usb[p.u], lan[p.l], reason)]
  {
  }

  lemma LayerHit(usb: seq<Usb>, lan: seq<Lan>, ok: (Usb, Lan) -> bool, reason: Reason, i: nat, j: nat,
                 usbRemove: seq<nat>, lanRemove: seq<nat>, matched: seq<Identified>)
    requires i < |usb| && j < |lan| && LayerAt(usb, lan, ok, reason, i, usbRemove, lanRemove, matched)
    requires FirstFree(usb[i], lan, SetOf(lanRemove), ok, 0) == j
    ensures LayerAt(usb, lan, ok, reason, i + 1, usbRemove + [i], lanRemove + [j],
                    matched + [Merge(usb[i], lan[j], reason)])
  {
    var pairs := Greedy(usb[..i], lan, ok);
    GreedySnoc(usb, lan, ok, i);
    assert SetOf(lanRemove) == LanUsed(pairs);
    RecordedSnoc(usbRemove, lanRemove, pairs, i, j);
    hide Greedy, FirstFree, Recorded, Merged, Merge, UsbUsed, LanUsed;
    MergedSnoc(usb, lan, pairs, Pair(i, j), reason);
  }

  lemma LayerDone(usb: seq<Usb>, lan: seq<Lan>, ok: (Usb, Lan) -> bool, reason: Reason,
                  usbRemove: seq<nat>, lanRemove: seq<nat>, matched: seq<Identified>)
    requires LayerAt(usb, lan, ok, reason, |usb|, usbRemove, lanRemove, matched)
    ensures var pairs := Greedy(usb, lan, ok);
      && matched == Merged(usb, lan, pairs, reason)
      && SetOf(usbRemove) == UsbUsed(pairs) && SetOf(lanRemove) == LanUsed(pairs)
      && (forall i :: i in usbRemove ==> i < |usb|) && (forall j :: j in lanRemove ==> j < |lan|)
  {
    assert usb[..|usb|] == usb;
  }

  lemma LayerStart(usb: seq<Usb>, lan: seq<Lan>, ok: (Usb, Lan) -> bool, reason: Reason)
    ensures LayerAt(usb, lan, ok, reason, 0, [], [], [])
  {
  }

  lemma FirstFreeStep<U, L>(u: U, lan: seq<L>, taken: set<nat>, ok: (U, L) -> bool, j: nat)
    requires j < |lan|
    ensures FirstFree(u, lan, taken, ok, j) ==
      if j !in taken && ok(u, lan[j]) then j else FirstFree(u, lan, taken, ok, j + 1)
  {
  }

  lemma NoFree<U, L>(u: U, lan: seq<L>, taken: set<nat>, ok: (U, L) -> bool)
    requires forall l :: l in lan ==> !ok(u, l)
    ensures FirstFree(u, lan, taken, ok, 0) == |lan|
  {
  }

  /** `_match_android_ip_strong`: the greedy matching by address, both pools without what it matched. */
  method MatchAndroidIpStrong(usbPool: CandidateList<Usb>, lanPool: CandidateList<Lan>)
    returns (matched: seq<Identified>)
    modifies usbPool, lanPool
    ensures var usb, lan := old(usbPool.items), old(lanPool.items);
      var pairs := Greedy(usb, lan, IpAllowed);
      && matched == Merged(usb, lan, pairs, AndroidIp) && |matched| == |pairs|
      && (forall k :: 0 <= k < |pairs| ==>
            pairs[k].u < |usb| && pairs[k].l < |lan| && matched[k].reason == AndroidIp &&
            HoldsJoin(matched[k].record, usb[pairs[k].u], lan[pairs[k].l]))
      && usbPool.items == Kept(usb, UsbUsed(pairs))
      && lanPool.items == Kept(lan, LanUsed(pairs))
  {
    hide Greedy, FirstFree, UsbUsed, LanUsed, Merged, Kept, LayerAt, Recorded;
    matched := [];
    var usb, lan := usbPool.items, lanPool.items;
    var usbRemove: seq<nat>, lanRemove: seq<nat> := [], [];
    MergedHolds(usb, lan, Greedy(usb, lan, IpAllowed), AndroidIp);
    hide HoldsJoin;
    LayerStart(usb, lan, IpAllowed, AndroidIp);
    for i := 0 to |usb|
      invariant usbPool.items == usb && lanPool.items == lan
      invariant LayerAt(usb, lan, IpAllowed, AndroidIp, i, usbRemove, lanRemove, matched)
    {
      var u := usb[i];
      ghost var taken := SetOf(lanRemove);
      if u.platform != "android" || u.androidLanIp.None? {
        NoFree(u, lan, taken, IpAllowed);
        LayerMiss(usb, lan, IpAllowed, AndroidIp, i, usbRemove, lanRemove, matched);
        continue;
      }
      var j := 0;
      while j < |lan| && (j in lanRemove || Some(lan[j].host) != u.androidLanIp)
        invariant 0 <= j <= |lan| && usbPool.items == usb && lanPool.items == lan
        invariant FirstFree(u, lan, taken, IpAllowed, 0) == FirstFree(u, lan, taken, IpAllowed, j)
      {
        FirstFreeStep(u, lan, taken, IpAllowed, j);
        j := j + 1;
      }
      if j < |lan| {
        FirstFreeStep(u, lan, taken, IpAllowed, j);
        LayerHit(usb, lan, IpAllowed, AndroidIp, i, j, usbRemove, lanRemove, matched);
        matched := matched + [Merge(u, lan[j], AndroidIp)];
        usbRemove, lanRemove := usbRemove + [i], lanRemove + [j];
      } else {
        LayerMiss(usb, lan, IpAllowed, AndroidIp, i, usbRemove, lanRemove, matched);
      }
    }
    LayerDone(usb, lan, IpAllowed, AndroidIp, usbRemove, lanRemove, matched);
    RemoveIndices(usbPool, SetOf(usbRemove));
    RemoveIndices(lanPool, SetOf(lanRemove));
  }

  function CountIn(counts: map<BridgeKey, nat>, key: BridgeKey): nat { if key in counts then counts[key] else 0 }

  /** How often each joint key occurs in the LAN pool. */
  method CountKeys(lan: seq<Lan>) returns (counts: map<BridgeKey, nat>)
    ensures forall key :: CountIn(counts, key) == KeyCount(lan, key)
  {
    counts := map[];
    for i := 0 to |lan|
      invariant forall key :: CountIn(counts, key) == KeyCount(lan[..i], key)
    {
      assert lan[..i + 1][..i] == lan[..i];
      var key := KeyOf(lan[i]);
      counts := counts[key := CountIn(counts, key) + 1];
    }
    assert lan[..|lan|] == lan;
  }

  /** `_match_bridge_fields`: the greedy matching over keys that are unique in the LAN pool. */
  method MatchBridgeFields(lower: string -> string, usbPool: CandidateList<Usb>, lanPool: CandidateList<Lan>)
    returns (matched: seq<Identified>)
    modifies usbPool, lanPool
    ensures var usb, lan := old(usbPool.items), old(lanPool.items);
      var pairs := Greedy(usb, lan, BridgeAllowed(lan, lower));
      && matched == Merged(usb, lan, pairs, BridgeField) && |matched| == |pairs|
      && (forall k :: 0 <= k < |pairs| ==>
            pairs[k].u < |usb| && pairs[k].l < |lan| && matched[k].reason == BridgeField &&
            HoldsJoin(matched[k].record, usb[pairs[k].u], lan[pairs[k].l]))
      && usbPool.items == Kept(usb, UsbUsed(pairs))
      && lanPool.items == Kept(lan, LanUsed(pairs))
  {
    hide Greedy, FirstFree, UsbUsed, LanUsed, Merged, Kept, LayerAt, Recorded, KeyCount, BridgeMatches;
    matched := [];
    var usb, lan := usbPool.items, lanPool.items;
    ghost var ok := BridgeAllowed(lan, lower);
    var usbRemove: seq<nat>, lanRemove: seq<nat> := [], [];
    var keyCount := CountKeys(lan);
    MergedHolds(usb, lan, Greedy(usb, lan, ok), BridgeField);
    hide HoldsJoin;
    LayerStart(usb, lan, ok, BridgeField);
    for i := 0 to |usb|
      invariant usbPool.items == usb && lanPool.items == lan
      invariant LayerAt(usb, lan, ok, BridgeField, i, usbRemove, lanRemove, matched)
    {
      var u := usb[i];
      ghost var taken := SetOf(lanRemove);
      var j := 0;
      while j < |lan| &&
            (j in lanRemove || CountIn(keyCount, KeyOf(lan[j])) != 1 || !BridgeMatches(lower, u, lan[j]))
        invariant 0 <= j <= |lan| && usbPool.items == usb && lanPool.items == lan
        invariant FirstFree(u, lan, taken, ok, 0) == FirstFree(u, lan, taken, ok, j)
      {
        FirstFreeStep(u, lan, taken, ok, j);
        j := j + 1;
      }
      if j < |lan| {
        FirstFreeStep(u, lan, taken, ok, j);
        LayerHit(usb, lan, ok, BridgeField, i, j, usbRemove, lanRemove, matched);
        matched := matched + [Merge(u, lan[j], BridgeField)];
        usbRemove, lanRemove := usbRemove + [i], lanRemove + [j];
      } else {
        LayerMiss(usb, lan, ok, BridgeField, i, usbRemove, lanRemove, matched);
      }
    }
    LayerDone(usb, lan, ok, BridgeField, usbRemove, lanRemove, matched);
    RemoveIndices(usbPool, SetOf(usbRemove));
    RemoveIndices(lanPool, SetOf(lanRemove));
  }

  // ---------------------------------------------------------------- the layered chain

  /** Where a record comes from, in positions of the two input lists. */
  datatype Origin = Joined(u: nat, l: nat, reason: Reason) | Lone(u: nat)

  function At<T>(items: seq<T>, positions: seq<nat>): seq<T>
    requires forall k :: 0 <= k < |positions| ==> positions[k] < |items|
  {
    seq(|positions|, k requires 0 <= k < |positions| => items[positions[k]])
  }

  function Positions(n: nat): (s: seq<nat>)
    ensures |s| == n && forall k :: 0 <= k < n ==> s[k] == k
  {
    seq(n, k => k)
  }

  predicate Within(positions: seq<nat>, n: nat) { forall k :: 0 <= k < |positions| ==> positions[k] < n }

  predicate Rising(positions: seq<nat>) { forall j, k :: 0 <= j < k < |positions| ==> positions[j] < positions[k] }

  lemma {:induction false} KeptPositions(s: seq<nat>, removed: set<nat>)
    requires Rising(s)
    ensures Rising(Kept(s, removed))
    ensures forall k :: 0 <= k < |Kept(s, removed)| ==> Kept(s, removed)[k] in s
    ensures forall n :: Within(s, n) ==> Within(Kept(s, removed), n)
  {
    if s != [] {
      var n := |s| - 1;
      KeptPositions(s[..n], removed);
      var kept := Kept(s[..n], removed);
      forall k | 0 <= k < |kept| ensures kept[k] in s && kept[k] < s[n] {
        var a :| 0 <= a < n && s[..n][a] == kept[k];
        assert s[a] == kept[k];
      }
    }
  }

  /** Popping items and popping positions is the same thing. */
  lemma {:induction false} KeptAt<T>(items: seq<T>, positions: seq<nat>, removed: set<nat>)
    requires Within(positions, |items|) && Rising(positions)
    ensures Within(Kept(positions, removed), |items|)
    ensures At(items, Kept(positions, removed)) == Kept(At(items, positions), removed)
  {
    KeptPositions(positions, removed);
    if positions != [] {
      var n := |positions| - 1;
      KeptAt(items, positions[..n], removed);
      assert At(items, positions)[..n] == At(items, positions[..n]);
    }
  }

  function Stale(u: Usb, l: Lan): bool
  {
    u.platform == "android" && u.androidLanIp.Some? && u.androidLanIp.value != l.host
  }

  function Joins(pairs: seq<Pair>, us: seq<nat>, ls: seq<nat>, reason: Reason): seq<Origin>
    requires forall k :: 0 <= k < |pairs| ==> pairs[k].u < |us| && pairs[k].l < |ls|
  {
    seq(|pairs|, k requires 0 <= k < |pairs| => Joined(us[pairs[k].u], ls[pairs[k].l], reason))
  }

  function Lones(us: seq<nat>): seq<Origin> { seq(|us|, k requires 0 <= k < |us| => Lone(us[k])) }

  function AfterIp(usb: seq<Usb>, lan: seq<Lan>): (r: (seq<nat>, seq<nat>))
    ensures Within(r.0, |usb|) && Within(r.1, |lan|) && Rising(r.0) && Rising(r.1)
  {
    var ip := Greedy(usb, lan, IpAllowed);
    KeptPositions(Positions(|usb|), UsbUsed(ip));
    KeptPositions(Positions(|lan|), LanUsed(ip));
    assert Within(Positions(|usb|), |usb|) && Within(Positions(|lan|), |lan|);
    (Kept(Positions(|usb|), UsbUsed(ip)), Kept(Positions(|lan|), LanUsed(ip)))
  }

  function BridgePairs(usb: seq<Usb>, lan: seq<Lan>, lower: string -> string): seq<Pair>
  {
    Greedy(usb, lan, BridgeAllowed(lan, lower))
  }

  /** The part of the chain after the address layer, on the positions it left. */
  function Later(usb: seq<Usb>, lan: seq<Lan>, us: seq<nat>, ls: seq<nat>, lower: string -> string): seq<Origin>
    requires Within(us, |usb|) && Within(ls, |lan|)
  {
    if us == [] || ls == [] then []
    else if |us| == 1 && |ls| == 1 then
      if Stale(usb[us[0]], lan[ls[0]]) then [] else [Joined(us[0], ls[0], SingleDevice)]
    else
      var br := BridgePairs(At(usb, us), At(lan, ls), lower);
      Joins(br, us, ls, BridgeField) +
      if Kept(ls, LanUsed(br)) == [] then [] else Lones(Kept(us, UsbUsed(br)))
  }

  /** The layers in order: addresses, the single pair, bridge fields, ambiguous leftovers. */
  function Origins(usb: seq<Usb>, lan: seq<Lan>, lower: string -> string): seq<Origin>
  {
    var (us, ls) := AfterIp(usb, lan);
    Joins(Greedy(usb, lan, IpAllowed), Positions(|usb|), Positions(|lan|), AndroidIp) + Later(usb, lan, us, ls, lower)
  }

  predicate InRange(o: Origin, usb: seq<Usb>, lan: seq<Lan>) { o.u < |usb| && (o.Joined? ==> o.l < |lan|) }

  function Render(o: Origin, usb: seq<Usb>, lan: seq<Lan>): Identified
    requires InRange(o, usb, lan)
  {
    match o
    case Joined(u, l, reason) => Merge(usb[u], lan[l], reason)
    case Lone(u) => MakeAmbiguous(usb[u])
  }

  ghost predicate Renders(results: seq<Identified>, os: seq<Origin>, usb: seq<Usb>, lan: seq<Lan>)
  {
    && |results| == |os|
    && forall k :: 0 <= k < |os| ==> InRange(os[k], usb, lan) && results[k] == Render(os[k], usb, lan)
  }

  lemma RendersJoins(usb: seq<Usb>, lan: seq<Lan>, us: seq<nat>, ls: seq<nat>, pairs: seq<Pair>, reason: Reason)
    requires Within(us, |usb|) && Within(ls, |lan|)
    requires forall k :: 0 <= k < |pairs| ==> pairs[k].u < |us| && pairs[k].l < |ls|
    ensures Renders(Merged(At(usb, us), At(lan, ls), pairs, reason), Joins(pairs, us, ls, reason), usb, lan)
  {
  }

  lemma RendersConcat(a: seq<Identified>, b: seq<Identified>, p: seq<Origin>, q: seq<Origin>,
                      usb: seq<Usb>, lan: seq<Lan>)
    requires Renders(a, p, usb, lan) && Renders(b, q, usb, lan)
    ensures Renders(a + b, p + q, usb, lan)
  {
  }

  lemma AddressLayer(usb: seq<Usb>, lan: seq<Lan>)
    ensures var ip := Greedy(usb, lan, IpAllowed);
      var (us, ls) := AfterIp(usb, lan);
      && Kept(usb, UsbUsed(ip)) == At(usb, us) && Kept(lan, LanUsed(ip)) == At(lan, ls)
      && Renders(Merged(usb, lan, ip, AndroidIp), Joins(ip, Positions(|usb|), Positions(|lan|), AndroidIp), usb, lan)
  {
    var ip := Greedy(usb, lan, IpAllowed);
    assert At(usb, Positions(|usb|)) == usb && At(lan, Positions(|lan|)) == lan;
    KeptAt(usb, Positions(|usb|), UsbUsed(ip));
    KeptAt(lan, Positions(|lan|), LanUsed(ip));
    RendersJoins(usb, lan, Positions(|usb|), Positions(|lan|), ip, AndroidIp);
  }

  lemma BridgeLayer(usb: seq<Usb>, lan: seq<Lan>, us: seq<nat>, ls: seq<nat>, lower: string -> string)
    requires Within(us, |usb|) && Within(ls, |lan|) && Rising(us) && Rising(ls)
    ensures var br := BridgePairs(At(usb, us), At(lan, ls), lower);
      && Within(Kept(us, UsbUsed(br)), |usb|) && Within(Kept(ls, LanUsed(br)), |lan|)
      && Kept(At(lan, ls), LanUsed(br)) == At(lan, Kept(ls, LanUsed(br)))
      && Kept(At(usb, us), UsbUsed(br)) == At(usb, Kept(us, UsbUsed(br)))
      && Renders(Merged(At(usb, us), At(lan, ls), br, BridgeField), Joins(br, us, ls, BridgeField), usb, lan)
  {
    var br := BridgePairs(At(usb, us), At(lan, ls), lower);
    KeptAt(usb, us, UsbUsed(br));
    KeptAt(lan, ls, LanUsed(br));
    RendersJoins(usb, lan, us, ls, br, BridgeField);
  }

  lemma RendersLone(us: seq<nat>, k: nat, usb: seq<Usb>, lan: seq<Lan>)
    requires Within(us, |usb|) && k < |us|
    ensures Lones(us[..k + 1]) == Lones(us[..k]) + [Lone(us[k])]
    ensures Renders([MakeAmbiguous(At(usb, us)[k])], [Lone(us[k])], usb, lan)
  {
  }

  /** The last loop: one ambiguous record for every USB candidate that is left. */
  method ReportAmbiguous(remaining: seq<Usb>, ghost us: seq<nat>, ghost usb: seq<Usb>, ghost lan: seq<Lan>)
    returns (results: seq<Identified>)
    requires Within(us, |usb|) && remaining == At(usb, us)
    ensures |results| == |remaining| && forall k :: 0 <= k < |remaining| ==> results[k] == MakeAmbiguous(remaining[k])
    ensures Renders(results, Lones(us), usb, lan)
  {
    results := [];
    for k := 0 to |remaining|
      invariant |results| == k && forall j :: 0 <= j < k ==> results[j] == MakeAmbiguous(remaining[j])
      invariant Renders(results, Lones(us[..k]), usb, lan)
    {
      RendersLone(us, k, usb, lan);
      results := results + [MakeAmbiguous(remaining[k])];
    }
    assert us[..|us|] == us;
  }

  /** The record of an origin, and the layer it is reported under. */
  predicate Describes(r: Identified, o: Origin, usb: seq<Usb>, lan: seq<Lan>)
  {
    InRange(o, usb, lan) &&
    match o
    case Joined(u, l, reason) => r.reason == reason && HoldsJoin(r.record, usb[u], lan[l])
    case Lone(u) => r.reason == Ambiguous && HoldsAmbiguous(r.record, usb[u])
  }

  lemma RenderDescribes(o: Origin, usb: seq<Usb>, lan: seq<Lan>)
    requires InRange(o, usb, lan)
    ensures Describes(Render(o, usb, lan), o, usb, lan)
  {
    match o
    case Joined(u, l, reason) => MergeHolds(usb[u], lan[l], reason);
    case Lone(u) => assert HoldsAmbiguous(MakeAmbiguous(usb[u]).record, usb[u]);
  }

  lemma RecordsDescribed(results: seq<Identified>, os: seq<Origin>, usb: seq<Usb>, lan: seq<Lan>)
    requires Renders(results, os, usb, lan)
    ensures |results| == |os| && forall k :: 0 <= k < |os| ==> Describes(results[k], os[k], usb, lan)
  {
    hide Describes, Render;
    forall k | 0 <= k < |os| ensures Describes(results[k], os[k], usb, lan) {
      RenderDescribes(os[k], usb, lan);
    }
  }

  /** `identify_with_reason`: one record per origin, in the order of the layers. */
  method IdentifyWithReason(usb: seq<Usb>, lan: seq<Lan>, lower: string -> string) returns (results: seq<Identified>)
    ensures var os := Origins(usb, lan, lower);
      |results| == |os| && forall k :: 0 <= k < |os| ==> Describes(results[k], os[k], usb, lan)
  {
    results := IdentifyLayers(usb, lan, lower);
    RecordsDescribed(results, Origins(usb, lan, lower), usb, lan);
  }

  /** The layers of the chain on the two shrinking pools. */
  method IdentifyLayers(usb: seq<Usb>, lan: seq<Lan>, lower: string -> string) returns (results: seq<Identified>)
    ensures Renders(results, Origins(usb, lan, lower), usb, lan)
  {
    hide Greedy, Kept, Merged, Joins, Renders, UsbUsed, LanUsed, BridgeAllowed, AfterIp, Lones, Merge;
    hide Rising, Positions, IpAllowed, MakeAmbiguous, FirstFree, KeyCount;
    var remainingUsb := new CandidateList<Usb>(usb);
    var remainingLan := new CandidateList<Lan>(lan);
    results := MatchAndroidIpStrong(remainingUsb, remainingLan);
    ghost var (us, ls) := AfterIp(usb, lan);
    ghost var first := Joins(Greedy(usb, lan, IpAllowed), Positions(|usb|), Positions(|lan|), AndroidIp);
    AddressLayer(usb, lan);
    assert first + [] == first;

    if remainingUsb.items == [] || remainingLan.items == [] {
      return;
    }
    if |remainingUsb.items| == 1 && |remainingLan.items| == 1 {
      var soleUsb, soleLan := remainingUsb.items[0], remainingLan.items[0];
      if soleUsb.platform == "android" && soleUsb.androidLanIp.Some? && soleUsb.androidLanIp.value != soleLan.host {
        return;
      }
      RendersSingle(us[0], ls[0], usb, lan);
      RendersConcat(results, [Merge(soleUsb, soleLan, SingleDevice)], first, [Joined(us[0], ls[0], SingleDevice)], usb, lan);
      results := results + [Merge(soleUsb, soleLan, SingleDevice)];
      return;
    }
    BridgeLayer(usb, lan, us, ls, lower);
    ghost var br := BridgePairs(At(usb, us), At(lan, ls), lower);
    ghost var second := Joins(br, us, ls, BridgeField);
    var bridged := MatchBridgeFields(lower, remainingUsb, remainingLan);
    RendersConcat(results, bridged, first, second, usb, lan);
    results := results + bridged;
    assert second + [] == second;
    if remainingUsb.items == [] || remainingLan.items == [] {
      NoLones(Kept(us, UsbUsed(br)));
      return;
    }
    var ambiguous := ReportAmbiguous(remainingUsb.items, Kept(us, UsbUsed(br)), usb, lan);
    RendersConcat(results, ambiguous, first + second, Lones(Kept(us, UsbUsed(br))), usb, lan);
    assert first + (second + Lones(Kept(us, UsbUsed(br)))) == first + second + Lones(Kept(us, UsbUsed(br)));
    results := results + ambiguous;
  }

  lemma RendersSingle(u: nat, l: nat, usb: seq<Usb>, lan: seq<Lan>)
    requires u < |usb| && l < |lan|
    ensures Renders([Merge(usb[u], lan[l], SingleDevice)], [Joined(u, l, SingleDevice)], usb, lan)
  {
  }

  lemma NoLones(us: seq<nat>)
    ensures us == [] ==> Lones(us) == []
  {
  }

  // ---------------------------------------------------------------- the chain is a partial matching

  /** Every USB position is used at most once, and every LAN position at most once. */
  ghost predicate SidesDistinct(os: seq<Origin>)
  {
    forall j, k :: 0 <= j < k < |os| ==>
      os[j].u != os[k].u && (os[j].Joined? && os[k].Joined? ==> os[j].l != os[k].l)
  }

  /** What each layer demands of the pairs it makes. */
  ghost predicate Justified(o: Origin, usb: seq<Usb>, lan: seq<Lan>, lower: string -> string)
  {
    InRange(o, usb, lan) &&
    match o
    case Joined(u, l, reason) =>
      (match reason
       case AndroidIp => IpAllowed(usb[u], lan[l])
       case SingleDevice => AfterIp(usb, lan) == ([u], [l]) && !Stale(usb[u], lan[l])
       case BridgeField => BridgeMatches(lower, usb[u], lan[l]) &&
                           KeyCount(At(lan, AfterIp(usb, lan).1), KeyOf(lan[l])) == 1
       case Ambiguous => false)
    case Lone(_) => true
  }

  lemma {:induction false} KeptIn<T>(items: seq<T>, removed: set<nat>, i: nat)
    requires i < |items| && i !in removed
    ensures items[i] in Kept(items, removed)
  {
    var n := |items| - 1;
    if i < n {
      KeptIn(items[..n], removed, i);
      assert items[..n][i] == items[i];
    }
  }

  lemma LeftOver(n: nat, removed: set<nat>, x: nat)
    ensures x in Kept(Positions(n), removed) <==> x < n && x !in removed
  {
    if x in Kept(Positions(n), removed) {
      KeptFrom(Positions(n), removed, x);
    } else if x < n && x !in removed {
      KeptIn(Positions(n), removed, x);
    }
  }

  lemma JoinsDistinct(pairs: seq<Pair>, us: seq<nat>, ls: seq<nat>, reason: Reason)
    requires Rising(us) && Rising(ls)
    requires forall k :: 0 <= k < |pairs| ==> pairs[k].u < |us| && pairs[k].l < |ls|
    requires forall j, k :: 0 <= j < k < |pairs| ==> pairs[j].u != pairs[k].u && pairs[j].l != pairs[k].l
    ensures SidesDistinct(Joins(pairs, us, ls, reason))
  {
    forall j, k | 0 <= j < k < |pairs|
      ensures us[pairs[j].u] != us[pairs[k].u] && ls[pairs[j].l] != ls[pairs[k].l]
    {
      assert pairs[j].u < pairs[k].u || pairs[k].u < pairs[j].u;
      assert pairs[j].l < pairs[k].l || pairs[k].l < pairs[j].l;
    }
  }

  lemma DistinctConcat(a: seq<Origin>, b: seq<Origin>)
    requires SidesDistinct(a) && SidesDistinct(b)
    requires forall p, q :: p in a && q in b ==> p.u != q.u && (p.Joined? && q.Joined? ==> p.l != q.l)
    ensures SidesDistinct(a + b)
  {
  }

  lemma JoinsMember(o: Origin, pairs: seq<Pair>, us: seq<nat>, ls: seq<nat>, reason: Reason) returns (k: nat)
    requires forall k :: 0 <= k < |pairs| ==> pairs[k].u < |us| && pairs[k].l < |ls|
    requires o in Joins(pairs, us, ls, reason)
    ensures k < |pairs| && o == Joined(us[pairs[k].u], ls[pairs[k].l], reason)
  {
    var os := Joins(pairs, us, ls, reason);
    k :| 0 <= k < |os| && os[k] == o;
  }

  lemma LonesMember(o: Origin, us: seq<nat>)
    requires o in Lones(us)
    ensures o.Lone? && o.u in us
  {
    var os := Lones(us);
    var k :| 0 <= k < |os| && os[k] == o;
  }

  lemma LonesDistinct(us: seq<nat>)
    requires Rising(us)
    ensures SidesDistinct(Lones(us))
  {
  }

  /** After the bridge layer, an ambiguous leftover is no USB candidate that the layer joined. */
  lemma LoneIsNotJoined(br: seq<Pair>, us: seq<nat>, ls: seq<nat>, p: Origin, q: Origin)
    requires forall k :: 0 <= k < |br| ==> br[k].u < |us| && br[k].l < |ls|
    requires Rising(us) && p in Joins(br, us, ls, BridgeField) && q in Lones(Kept(us, UsbUsed(br)))
    ensures p.u != q.u && q.Lone?
  {
    var k := JoinsMember(p, br, us, ls, BridgeField);
    LonesMember(q, Kept(us, UsbUsed(br)));
    KeptFrom(us, UsbUsed(br), q.u);
    var i :| 0 <= i < |us| && i !in UsbUsed(br) && us[i] == q.u;
    assert br[k] in br;
    assert i < br[k].u || br[k].u < i;
  }

  lemma BridgeThenLones(br: seq<Pair>, us: seq<nat>, ls: seq<nat>)
    requires Rising(us) && Rising(ls)
    requires forall k :: 0 <= k < |br| ==> br[k].u < |us| && br[k].l < |ls|
    requires SidesDistinct(Joins(br, us, ls, BridgeField))
    ensures SidesDistinct(Joins(br, us, ls, BridgeField) + Lones(Kept(us, UsbUsed(br))))
  {
    hide Kept, UsbUsed, Rising, SidesDistinct, Joins, Lones;
    KeptPositions(us, UsbUsed(br));
    LonesDistinct(Kept(us, UsbUsed(br)));
    forall p, q | p in Joins(br, us, ls, BridgeField) && q in Lones(Kept(us, UsbUsed(br)))
      ensures p.u != q.u && q.Lone?
    {
      LoneIsNotJoined(br, us, ls, p, q);
    }
    DistinctConcat(Joins(br, us, ls, BridgeField), Lones(Kept(us, UsbUsed(br))));
  }

  /** The pairs of the bridge layer, in positions of its pools. */
  lemma BridgeFits(usb: seq<Usb>, lan: seq<Lan>, us: seq<nat>, ls: seq<nat>, lower: string -> string)
    requires Within(us, |usb|) && Within(ls, |lan|) && Rising(us) && Rising(ls)
    ensures var br := BridgePairs(At(usb, us), At(lan, ls), lower);
      && SidesDistinct(Joins(br, us, ls, BridgeField))
      && forall k :: 0 <= k < |br| ==> BridgeAllowed(At(lan, ls), lower)(usb[us[br[k].u]], lan[ls[br[k].l]])
  {
    var ok := BridgeAllowed(At(lan, ls), lower);
    var br := BridgePairs(At(usb, us), At(lan, ls), lower);
    GreedyIsMatching(At(usb, us), At(lan, ls), ok);
    JoinsDistinct(br, us, ls, BridgeField);
    forall k | 0 <= k < |br| ensures ok(usb[us[br[k].u]], lan[ls[br[k].l]]) {
      assert ok(At(usb, us)[br[k].u], At(lan, ls)[br[k].l]);
    }
  }

  lemma BridgeMember(usb: seq<Usb>, lan: seq<Lan>, us: seq<nat>, ls: seq<nat>, lower: string -> string, o: Origin)
    requires Within(us, |usb|) && Within(ls, |lan|) && Rising(us) && Rising(ls)
    requires var br := BridgePairs(At(usb, us), At(lan, ls), lower);
      o in Joins(br, us, ls, BridgeField) || o in Lones(Kept(us, UsbUsed(br)))
    ensures o.u in us
    ensures o.Joined? ==> o.l in ls && o.reason.BridgeField? && BridgeAllowed(At(lan, ls), lower)(usb[o.u], lan[o.l])
  {
    var br := BridgePairs(At(usb, us), At(lan, ls), lower);
    if o in Joins(br, us, ls, BridgeField) {
      BridgeFits(usb, lan, us, ls, lower);
      var k := JoinsMember(o, br, us, ls, BridgeField);
    } else {
      LonesMember(o, Kept(us, UsbUsed(br)));
      KeptFrom(us, UsbUsed(br), o.u);
    }
  }

  lemma LaterSides(usb: seq<Usb>, lan: seq<Lan>, us: seq<nat>, ls: seq<nat>, lower: string -> string)
    requires Within(us, |usb|) && Within(ls, |lan|) && Rising(us) && Rising(ls)
    ensures SidesDistinct(Later(usb, lan, us, ls, lower))
    ensures forall o :: o in Later(usb, lan, us, ls, lower) ==> o.u in us && (o.Joined? ==> o.l in ls)
  {
    if us != [] && ls != [] && !(|us| == 1 && |ls| == 1) {
      hide Kept, UsbUsed, LanUsed, Joins, Lones, At, Rising, SidesDistinct, BridgeAllowed;
      BridgeFits(usb, lan, us, ls, lower);
      var br := BridgePairs(At(usb, us), At(lan, ls), lower);
      BridgeThenLones(br, us, ls);
      assert Joins(br, us, ls, BridgeField) + [] == Joins(br, us, ls, BridgeField);
      forall o | o in Later(usb, lan, us, ls, lower) ensures o.u in us && (o.Joined? ==> o.l in ls) {
        BridgeMember(usb, lan, us, ls, lower, o);
      }
    }
  }

  lemma LaterJustified(usb: seq<Usb>, lan: seq<Lan>, lower: string -> string, o: Origin)
    requires var (us, ls) := AfterIp(usb, lan); o in Later(usb, lan, us, ls, lower)
    ensures Justified(o, usb, lan, lower)
  {
    hide Kept, UsbUsed, LanUsed, Joins, Lones, Rising, AfterIp;
    var (us, ls) := AfterIp(usb, lan);
    if |us| == 1 && |ls| == 1 {
      assert us == [us[0]] && ls == [ls[0]];
    } else {
      BridgeMember(usb, lan, us, ls, lower, o);
    }
  }

  ghost predicate ByAddress(o: Origin, usb: seq<Usb>, lan: seq<Lan>)
  {
    var ip := Greedy(usb, lan, IpAllowed);
    && o.Joined? && o.reason.AndroidIp? && InRange(o, usb, lan)
    && o.u in UsbUsed(ip) && o.l in LanUsed(ip) && IpAllowed(usb[o.u], lan[o.l])
  }

  lemma AddressSides(usb: seq<Usb>, lan: seq<Lan>)
    ensures var ip := Greedy(usb, lan, IpAllowed);
      var first := Joins(ip, Positions(|usb|), Positions(|lan|), AndroidIp);
      SidesDistinct(first) && forall o :: o in first ==> ByAddress(o, usb, lan)
  {
    var ip := Greedy(usb, lan, IpAllowed);
    GreedyIsMatching(usb, lan, IpAllowed);
    JoinsDistinct(ip, Positions(|usb|), Positions(|lan|), AndroidIp);
    forall o | o in Joins(ip, Positions(|usb|), Positions(|lan|), AndroidIp)
      ensures ByAddress(o, usb, lan)
    {
      var k :| 0 <= k < |ip| && o == Joined(ip[k].u, ip[k].l, AndroidIp);
      assert ip[k] in ip;
    }
  }

  /** Each record comes from its own USB candidate, joins its own LAN candidate if any, and is justified. */
  lemma ChainIsPartialMatching(usb: seq<Usb>, lan: seq<Lan>, lower: string -> string)
    ensures SidesDistinct(Origins(usb, lan, lower))
    ensures forall o :: o in Origins(usb, lan, lower) ==> Justified(o, usb, lan, lower)
  {
    var ip := Greedy(usb, lan, IpAllowed);
    var (us, ls) := AfterIp(usb, lan);
    var first := Joins(ip, Positions(|usb|), Positions(|lan|), AndroidIp);
    var later := Later(usb, lan, us, ls, lower);
    AddressSides(usb, lan);
    LaterSides(usb, lan, us, ls, lower);
    forall p, q | p in first && q in later ensures p.u != q.u && (q.Joined? ==> p.l != q.l) {
      LeftOver(|usb|, UsbUsed(ip), p.u);
      LeftOver(|lan|, LanUsed(ip), p.l);
    }
    DistinctConcat(first, later);
    forall o | o in later ensures Justified(o, usb, lan, lower) {
      LaterJustified(usb, lan, lower, o);
    }
  }

  ghost predicate UsbReported(os: seq<Origin>, i: nat) { exists o :: o in os && o.u == i }

  ghost predicate LanTaken(os: seq<Origin>, j: nat) { exists o :: o in os && o.Joined? && o.l == j }

  /** The one USB candidate left over reports an address other than the one LAN candidate left over. */
  ghost predicate OnlyStaleLeft(usb: seq<Usb>, lan: seq<Lan>, i: nat)
  {
    var (us, ls) := AfterIp(usb, lan);
    us == [i] && |ls| == 1 && i < |usb| && Stale(usb[i], lan[ls[0]])
  }

  lemma JoinsReport(pairs: seq<Pair>, us: seq<nat>, ls: seq<nat>, reason: Reason, k: nat)
    requires k < |pairs| && forall k :: 0 <= k < |pairs| ==> pairs[k].u < |us| && pairs[k].l < |ls|
    ensures Joined(us[pairs[k].u], ls[pairs[k].l], reason) in Joins(pairs, us, ls, reason)
  {
    var os := Joins(pairs, us, ls, reason);
    assert os[k] == Joined(us[pairs[k].u], ls[pairs[k].l], reason);
  }

  lemma SideOf(pairs: seq<Pair>, us: seq<nat>, ls: seq<nat>, reason: Reason)
    requires forall k :: 0 <= k < |pairs| ==> pairs[k].u < |us| && pairs[k].l < |ls|
    ensures forall i :: i in UsbUsed(pairs) && i < |us| ==> UsbReported(Joins(pairs, us, ls, reason), us[i])
    ensures forall j :: j in LanUsed(pairs) && j < |ls| ==> LanTaken(Joins(pairs, us, ls, reason), ls[j])
  {
    forall p | p in pairs
      ensures p.u < |us| && p.l < |ls| && Joined(us[p.u], ls[p.l], reason) in Joins(pairs, us, ls, reason)
    {
      var k :| 0 <= k < |pairs| && pairs[k] == p;
      JoinsReport(pairs, us, ls, reason, k);
    }
  }

  lemma LaterReports(usb: seq<Usb>, lan: seq<Lan>, us: seq<nat>, ls: seq<nat>, lower: string -> string, a: nat)
    requires Within(us, |usb|) && Within(ls, |lan|) && Rising(us) && Rising(ls) && a < |us|
    requires !(|us| == 1 && |ls| == 1 && Stale(usb[us[0]], lan[ls[0]]))
    ensures var os := Later(usb, lan, us, ls, lower);
      UsbReported(os, us[a]) || forall j :: j in ls ==> LanTaken(os, j)
  {
    var os := Later(usb, lan, us, ls, lower);
    if |us| == 1 && |ls| == 1 {
      assert os[0].u == us[a];
    } else if ls != [] {
      var br := BridgePairs(At(usb, us), At(lan, ls), lower);
      var joins := Joins(br, us, ls, BridgeField);
      SideOf(br, us, ls, BridgeField);
      assert forall o :: o in joins ==> o in os;
      if a in UsbUsed(br) {
        assert UsbReported(joins, us[a]);
      } else if Kept(ls, LanUsed(br)) == [] {
        forall j | j in ls ensures LanTaken(os, j) {
          var b :| 0 <= b < |ls| && ls[b] == j;
          if b !in LanUsed(br) {
            KeptIn(ls, LanUsed(br), b);
          }
          assert LanTaken(joins, j);
        }
      } else {
        KeptIn(us, UsbUsed(br), a);
        var left := Kept(us, UsbUsed(br));
        var k :| 0 <= k < |left| && left[k] == us[a];
        assert Lones(left)[k] == Lone(us[a]);
        assert Lone(us[a]) in os;
      }
    }
  }

  /** A USB candidate without a record: every LAN candidate is taken, or only a stale pair was left. */
  lemma NobodyIsForgotten(usb: seq<Usb>, lan: seq<Lan>, lower: string -> string, i: nat, j: nat)
    requires i < |usb| && j < |lan|
    ensures var os := Origins(usb, lan, lower);
      UsbReported(os, i) || LanTaken(os, j) || OnlyStaleLeft(usb, lan, i)
  {
    var ip := Greedy(usb, lan, IpAllowed);
    var (us, ls) := AfterIp(usb, lan);
    var first := Joins(ip, Positions(|usb|), Positions(|lan|), AndroidIp);
    var later := Later(usb, lan, us, ls, lower);
    var os := Origins(usb, lan, lower);
    SideOf(ip, Positions(|usb|), Positions(|lan|), AndroidIp);
    LeftOver(|usb|, UsbUsed(ip), i);
    LeftOver(|lan|, LanUsed(ip), j);
    assert forall o :: o in first || o in later ==> o in os;
    if i in UsbUsed(ip) {
      assert UsbReported(first, i);
    } else if j in LanUsed(ip) {
      assert LanTaken(first, j);
    } else if !OnlyStaleLeft(usb, lan, i) {
      var a :| 0 <= a < |us| && us[a] == i;
      LaterReports(usb, lan, us, ls, lower, a);
      assert UsbReported(later, i) || LanTaken(later, j);
    }
  }

  ghost predicate JoinsStale(usb: seq<Usb>, lan: seq<Lan>, lower: string -> string, o: Origin)
  {
    o in Origins(usb, lan, lower) && o.Joined? && InRange(o, usb, lan) && Stale(usb[o.u], lan[o.l])
  }

  /** Only the bridge layer joins an Android candidate to a host other than the address it reports. */
  lemma StalePairsAreBridged(usb: seq<Usb>, lan: seq<Lan>, lower: string -> string, o: Origin)
    requires o in Origins(usb, lan, lower) && o.Joined?
    ensures o.u < |usb| && o.l < |lan| && (Stale(usb[o.u], lan[o.l]) ==> o.reason.BridgeField?)
  {
    ChainIsPartialMatching(usb, lan, lower);
    assert Justified(o, usb, lan, lower);
  }

  lemma NoAddressMatches(usb: seq<Usb>, lan: seq<Lan>)
    requires forall u, l :: u in usb && l in lan ==> !IpAllowed(u, l)
    ensures AfterIp(usb, lan) == (Positions(|usb|), Positions(|lan|)) && Greedy(usb, lan, IpAllowed) == []
    ensures At(usb, Positions(|usb|)) == usb && At(lan, Positions(|lan|)) == lan
  {
    NothingAllowed(usb, lan, IpAllowed);
    KeptAll(Positions(|usb|), {});
    KeptAll(Positions(|lan|), {});
    assert UsbUsed([]) == {} && LanUsed([]) == {};
  }

  /** A lone USB candidate whose address no host has is still joined by its model, if two hosts are left. */
  lemma BridgedRegardless(usb: seq<Usb>, lan: seq<Lan>, lower: string -> string)
    requires |usb| == 1 && |lan| == 2 && !IpAllowed(usb[0], lan[0]) && !IpAllowed(usb[0], lan[1])
    requires BridgeAllowed(lan, lower)(usb[0], lan[0])
    ensures Joined(0, 0, BridgeField) in Origins(usb, lan, lower)
  {
    hide BridgeAllowed, Greedy, At, AfterIp, Kept, FirstFree, Lones, Joins, Stale;
    NoAddressMatches(usb, lan);
    OneUsbTakesFirst(usb[0], lan, BridgeAllowed(lan, lower));
    assert usb == [usb[0]];
    var us, ls := Positions(1), Positions(2);
    JoinsReport([Pair(0, 0)], us, ls, BridgeField, 0);
    assert BridgePairs(At(usb, us), At(lan, ls), lower) == [Pair(0, 0)];
    assert Joined(0, 0, BridgeField) in Later(usb, lan, us, ls, lower);
  }

  /** And it does: with two hosts left, the check on the single pair is never reached. */
  lemma BridgeJoinsStalePair(lower: string -> string) returns (usb: seq<Usb>, lan: seq<Lan>, o: Origin)
    requires lower("p") == "p" && lower("p1") == "p1" && lower("p2") == "p2"
    ensures JoinsStale(usb, lan, lower, o)
  {
    var short, long := Usb("s", "android", "p", Some("c")), Usb("t", "ios", "p1", None);
    var first, second := Lan("a", None, Some("p1")), Lan("b", None, Some("p2"));
    usb, lan, o := [short], [first, second], Joined(0, 0, BridgeField);
    ShortWinsOver(lower, short, long, first, second);
    assert Stale(short, first) && !IpAllowed(short, first) && !IpAllowed(short, second) by {
      assert "c"[0] != "a"[0] && "c"[0] != "b"[0];
    }
    hide BridgeAllowed, IpAllowed, Stale, Origins;
    BridgedRegardless(usb, lan, lower);
  }

  /** The bridge layer runs, and one of its pairs, in positions of its pools, is stale. */
  ghost predicate BridgesStale(usb: seq<Usb>, lan: seq<Lan>, lower: string -> string, p: Pair)
  {
    var (us, ls) := AfterIp(usb, lan);
    && us != [] && ls != [] && !(|us| == 1 && |ls| == 1)
    && p in BridgePairs(At(usb, us), At(lan, ls), lower)
    && p.u < |us| && p.l < |ls| && Stale(usb[us[p.u]], lan[ls[p.l]])
  }

  /** A join of the bridge layer, in positions of its pools. */
  lemma LaterBridged(usb: seq<Usb>, lan: seq<Lan>, us: seq<nat>, ls: seq<nat>, lower: string -> string, o: Origin)
    returns (k: nat)
    requires Within(us, |usb|) && Within(ls, |lan|)
    requires o in Later(usb, lan, us, ls, lower) && o.Joined? && o.reason.BridgeField?
    ensures us != [] && ls != [] && !(|us| == 1 && |ls| == 1)
    ensures var br := BridgePairs(At(usb, us), At(lan, ls), lower);
      k < |br| && o == Joined(us[br[k].u], ls[br[k].l], BridgeField)
  {
    var br := BridgePairs(At(usb, us), At(lan, ls), lower);
    hide Kept, Greedy, Lones, Joins;
    if o in Lones(Kept(us, UsbUsed(br))) {
      LonesMember(o, Kept(us, UsbUsed(br)));
    }
    k := JoinsMember(o, br, us, ls, BridgeField);
  }

  lemma StaleJoinBridges(usb: seq<Usb>, lan: seq<Lan>, lower: string -> string, o: Origin) returns (p: Pair)
    requires JoinsStale(usb, lan, lower, o)
    ensures BridgesStale(usb, lan, lower, p)
  {
    var (us, ls) := AfterIp(usb, lan);
    assert |At(usb, us)| == |us| && |At(lan, ls)| == |ls|;
    StalePairsAreBridged(usb, lan, lower, o);
    AddressSides(usb, lan);
    hide AfterIp, Kept, Joins, At, Greedy, Later, Stale;
    assert o in Later(usb, lan, us, ls, lower);
    var k := LaterBridged(usb, lan, us, ls, lower, o);
    p := BridgePairs(At(usb, us), At(lan, ls), lower)[k];
  }

  lemma StaleBridgeJoins(usb: seq<Usb>, lan: seq<Lan>, lower: string -> string, p: Pair) returns (o: Origin)
    requires BridgesStale(usb, lan, lower, p)
    ensures JoinsStale(usb, lan, lower, o)
  {
    var (us, ls) := AfterIp(usb, lan);
    assert |At(usb, us)| == |us| && |At(lan, ls)| == |ls|;
    hide AfterIp, Kept, Lones, Joins, At, Greedy, Stale;
    var br := BridgePairs(At(usb, us), At(lan, ls), lower);
    var k :| 0 <= k < |br| && br[k] == p;
    JoinsReport(br, us, ls, BridgeField, k);
    o := Joined(us[p.u], ls[p.l], BridgeField);
    assert o in Later(usb, lan, us, ls, lower);
  }

  /**
   Exactly when a candidate is joined to a host other than the address it reports: the address layer leaves
   more than one candidate on some side and some on both, and the bridge layer then picks a stale pair.
   */
  lemma StaleJoinIff(usb: seq<Usb>, lan: seq<Lan>, lower: string -> string)
    ensures (exists o :: JoinsStale(usb, lan, lower, o)) <==> exists p :: BridgesStale(usb, lan, lower, p)
  {
    hide JoinsStale, BridgesStale;
    if o :| JoinsStale(usb, lan, lower, o) {
      var p := StaleJoinBridges(usb, lan, lower, o);
    }
    if p :| BridgesStale(usb, lan, lower, p) {
      var o := StaleBridgeJoins(usb, lan, lower, p);
    }
  }

  /** So nothing stale is ever joined if no candidate's model matches a host other than its own address. */
  lemma NoStaleMatchNoStaleJoin(usb: seq<Usb>, lan: seq<Lan>, lower: string -> string, o: Origin)
    requires forall i, j :: 0 <= i < |usb| && 0 <= j < |lan| && Stale(usb[i], lan[j]) ==>
      !BridgeMatches(lower, usb[i], lan[j])
    ensures !JoinsStale(usb, lan, lower, o)
  {
    ChainIsPartialMatching(usb, lan, lower);
    if o in Origins(usb, lan, lower) {
      assert Justified(o, usb, lan, lower);
    }
  }
}
