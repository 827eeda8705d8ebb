/**
 When a greedy layer is a maximum matching: exactly if no chain of re-assignments frees a LAN candidate for
 a USB candidate that was left out.
 */
module Augmenting {
  import opened CrossIdentify

  /** A set of pairs that uses no position twice and that the layer allows. */
  ghost predicate Fits<U, L>(s: set<Pair>, usb: seq<U>, lan: seq<L>, ok: (U, L) -> bool)
  {
    Apart(s) && forall p :: p in s ==> p.u < |usb| && p.l < |lan| && ok(usb[p.u], lan[p.l])
  }

  ghost predicate IsMaximum<U(!new), L(!new)>(s: set<Pair>, usb: seq<U>, lan: seq<L>, ok: (U, L) -> bool)
  {
    forall other :: Fits(other, usb, lan, ok) ==> |other| <= |s|
  }

  predicate UsbFree(s: set<Pair>, u: nat) { forall p :: p in s ==> p.u != u }

  predicate LanFree(s: set<Pair>, l: nat) { forall p :: p in s ==> p.l != l }

  predicate Distinct(s: seq<nat>) { forall i, j :: 0 <= i < j < |s| ==> s[i] != s[j] }

  /** `us[0]` is left out; each `us[i]` may take `ls[i]`, which the next one holds. */
  ghost predicate Chain<U, L>(s: set<Pair>, usb: seq<U>, lan: seq<L>, ok: (U, L) -> bool, us: seq<nat>, ls: seq<nat>)
  {
    && |us| == |ls| > 0 && UsbFree(s, us[0]) && Distinct(ls)
    && (forall i :: 0 <= i < |us| ==> us[i] < |usb| && ls[i] < |lan| && ok(usb[us[i]], lan[ls[i]]))
    && (forall i :: 0 <= i < |us| - 1 ==> Pair(us[i + 1], ls[i]) in s)
  }

  /** A chain that ends at a free LAN position. */
  ghost predicate Augments<U, L>(s: set<Pair>, usb: seq<U>, lan: seq<L>, ok: (U, L) -> bool, us: seq<nat>, ls: seq<nat>)
  {
    Chain(s, usb, lan, ok, us, ls) && LanFree(s, ls[|ls| - 1])
  }

  lemma AddPair<U, L>(s: set<Pair>, usb: seq<U>, lan: seq<L>, ok: (U, L) -> bool, p: Pair)
    requires Fits(s, usb, lan, ok) && UsbFree(s, p.u) && LanFree(s, p.l)
    requires p.u < |usb| && p.l < |lan| && ok(usb[p.u], lan[p.l])
    ensures Fits(s + {p}, usb, lan, ok) && |s + {p}| == |s| + 1
  {
    assert p !in s;
  }

  lemma DropPair<U, L>(s: set<Pair>, usb: seq<U>, lan: seq<L>, ok: (U, L) -> bool, p: Pair)
    requires Fits(s, usb, lan, ok) && p in s
    ensures var rest := s - {p};
      Fits(rest, usb, lan, ok) && UsbFree(rest, p.u) && LanFree(rest, p.l) && |rest| + 1 == |s|
      && p.u < |usb| && p.l < |lan|
  {
  }

  /** The chain without its last link, after the last candidate moved from `was` to `now`. */
  lemma ShorterChain<U, L>(s: set<Pair>, usb: seq<U>, lan: seq<L>, ok: (U, L) -> bool, us: seq<nat>, ls: seq<nat>)
    requires Augments(s, usb, lan, ok, us, ls) && |us| > 1
    ensures var k := |us| - 1;
      var was, now := Pair(us[k], ls[k - 1]), Pair(us[k], ls[k]);
      && was in s && us[0] != us[k] && ok(usb[us[k]], lan[ls[k]]) && LanFree(s, ls[k]) && ls[k] != ls[k - 1]
      && Chain(s - {was} + {now}, usb, lan, ok, us[..k], ls[..k])
  {
    var k := |us| - 1;
    var was, now := Pair(us[k], ls[k - 1]), Pair(us[k], ls[k]);
    var t := s - {was} + {now};
    assert Pair(us[k - 1 + 1], ls[k - 1]) in s;
    forall i | 0 <= i < k - 1 ensures Pair(us[i + 1], ls[i]) in t {
      assert ls[i] != ls[k - 1];
    }
  }

  /** The last of a chain moves on to the free position, which shortens the chain by one. */
  lemma MoveLast<U, L>(s: set<Pair>, usb: seq<U>, lan: seq<L>, ok: (U, L) -> bool, us: seq<nat>, ls: seq<nat>)
    returns (t: set<Pair>)
    requires Fits(s, usb, lan, ok) && Augments(s, usb, lan, ok, us, ls) && |us| > 1
    ensures var k := |us| - 1; Fits(t, usb, lan, ok) && Augments(t, usb, lan, ok, us[..k], ls[..k]) && |t| == |s|
  {
    var k := |us| - 1;
    var was, now := Pair(us[k], ls[k - 1]), Pair(us[k], ls[k]);
    assert us[k] < |usb| && ls[k] < |lan| && |ls| == |us|;
    ShorterChain(s, usb, lan, ok, us, ls);
    hide Chain, Fits;
    DropPair(s, usb, lan, ok, was);
    AddPair(s - {was}, usb, lan, ok, now);
    t := s - {was} + {now};
    assert ls[..k][k - 1] == ls[k - 1];
  }

  lemma {:induction false} Augment<U, L>(s: set<Pair>, usb: seq<U>, lan: seq<L>, ok: (U, L) -> bool,
                                         us: seq<nat>, ls: seq<nat>)
    returns (t: set<Pair>)
    requires Fits(s, usb, lan, ok) && Augments(s, usb, lan, ok, us, ls)
    ensures Fits(t, usb, lan, ok) && |t| == |s| + 1
    decreases |us|
  {
    if |us| == 1 {
      AddPair(s, usb, lan, ok, Pair(us[0], ls[0]));
      t := s + {Pair(us[0], ls[0])};
    } else {
      var k := |us| - 1;
      var moved := MoveLast(s, usb, lan, ok, us, ls);
      t := Augment(moved, usb, lan, ok, us[..k], ls[..k]);
    }
  }

  ghost predicate Reached<U, L>(s: set<Pair>, usb: seq<U>, lan: seq<L>, ok: (U, L) -> bool, l: nat)
  {
    exists us, ls :: Chain(s, usb, lan, ok, us, ls) && ls[|ls| - 1] == l
  }

  lemma ReachedFirst<U, L>(s: set<Pair>, usb: seq<U>, lan: seq<L>, ok: (U, L) -> bool, u: nat, l: nat)
    requires UsbFree(s, u) && u < |usb| && l < |lan| && ok(usb[u], lan[l])
    ensures Reached(s, usb, lan, ok, l)
  {
    assert Chain(s, usb, lan, ok, [u], [l]);
  }

  lemma ReachedNext<U, L>(s: set<Pair>, usb: seq<U>, lan: seq<L>, ok: (U, L) -> bool, p: Pair, l: nat)
    requires p in s && Reached(s, usb, lan, ok, p.l) && p.u < |usb| && l < |lan| && ok(usb[p.u], lan[l])
    ensures Reached(s, usb, lan, ok, l)
  {
    var us, ls :| Chain(s, usb, lan, ok, us, ls) && ls[|ls| - 1] == p.l;
    if i :| 0 <= i < |ls| && ls[i] == l {
      ChainPrefix(s, usb, lan, ok, us, ls, i);
    } else {
      ChainLonger(s, usb, lan, ok, us, ls, p, l);
      hide Chain;
      assert (ls + [l])[|ls + [l]| - 1] == l;
    }
  }

  lemma ChainPrefix<U, L>(s: set<Pair>, usb: seq<U>, lan: seq<L>, ok: (U, L) -> bool, us: seq<nat>, ls: seq<nat>, i: nat)
    requires Chain(s, usb, lan, ok, us, ls) && i < |ls|
    ensures Reached(s, usb, lan, ok, ls[i])
  {
    assert Chain(s, usb, lan, ok, us[..i + 1], ls[..i + 1]) && ls[..i + 1][i] == ls[i];
  }

  lemma ChainLonger<U, L>(s: set<Pair>, usb: seq<U>, lan: seq<L>, ok: (U, L) -> bool, us: seq<nat>, ls: seq<nat>,
                          p: Pair, l: nat)
    requires Chain(s, usb, lan, ok, us, ls) && p in s && ls[|ls| - 1] == p.l && l !in ls
    requires p.u < |usb| && l < |lan| && ok(usb[p.u], lan[l])
    ensures Chain(s, usb, lan, ok, us + [p.u], ls + [l])
  {
    var us', ls' := us + [p.u], ls + [l];
    forall i | 0 <= i < |us'| - 1 ensures Pair(us'[i + 1], ls'[i]) in s {
      if i < |us| - 1 {
        assert Pair(us[i + 1], ls[i]) in s;
      }
    }
  }

  function OnLan(s: set<Pair>, ls: set<nat>): set<Pair> { set p | p in s && p.l in ls }

  lemma SplitByLan(s: set<Pair>, ls: set<nat>)
    ensures |s| == |OnLan(s, ls)| + |s - OnLan(s, ls)|
  {
    assert s == OnLan(s, ls) + (s - OnLan(s, ls));
  }

  /** Without such a chain no other matching is larger: it has no more pairs inside the reached positions or outside. */
  lemma NoChainNoMore<U, L>(s: set<Pair>, other: set<Pair>, usb: seq<U>, lan: seq<L>, ok: (U, L) -> bool)
    requires Fits(s, usb, lan, ok) && Fits(other, usb, lan, ok)
    requires forall l :: Reached(s, usb, lan, ok, l) ==> !LanFree(s, l)
    ensures |other| <= |s|
  {
    var zl := set l | 0 <= l < |lan| && Reached(s, usb, lan, ok, l);
    SplitByLan(s, zl);
    SplitByLan(other, zl);
    InsideReached(s, other, zl);
    forall p | p in other && p.l !in zl ensures exists q :: q in s && q.l !in zl && q.u == p.u {
      if UsbFree(s, p.u) {
        ReachedFirst(s, usb, lan, ok, p.u, p.l);
      } else {
        var q :| q in s && q.u == p.u;
        if q.l in zl {
          ReachedNext(s, usb, lan, ok, q, p.l);
        }
      }
    }
    OutsideReached(s, other, zl);
  }

  lemma InsideReached(s: set<Pair>, other: set<Pair>, zl: set<nat>)
    requires Apart(s) && Apart(other) && forall l :: l in zl ==> !LanFree(s, l)
    ensures |OnLan(other, zl)| <= |OnLan(s, zl)|
  {
    SidesOf(OnLan(s, zl));
    SidesOf(OnLan(other, zl));
    forall l | l in zl ensures l in LsOf(OnLan(s, zl)) {
      var p :| p in s && p.l == l;
      assert p in OnLan(s, zl);
    }
    SubsetSize(LsOf(OnLan(other, zl)), LsOf(OnLan(s, zl)));
  }

  lemma OutsideReached(s: set<Pair>, other: set<Pair>, zl: set<nat>)
    requires Apart(s) && Apart(other)
    requires forall p :: p in other && p.l !in zl ==> exists q :: q in s && q.l !in zl && q.u == p.u
    ensures |other - OnLan(other, zl)| <= |s - OnLan(s, zl)|
  {
    var a, b := other - OnLan(other, zl), s - OnLan(s, zl);
    SidesOf(a);
    SidesOf(b);
    forall u | u in UsOf(a) ensures u in UsOf(b) {
      var p :| p in a && p.u == u;
      var q :| q in s && q.l !in zl && q.u == p.u;
      assert q in b;
    }
    SubsetSize(UsOf(a), UsOf(b));
  }

  /** A matching is a maximum one if and only if no chain of re-assignments gives room for one more pair. */
  lemma MaximumIffNoChain<U(!new), L(!new)>(s: set<Pair>, usb: seq<U>, lan: seq<L>, ok: (U, L) -> bool)
    requires Fits(s, usb, lan, ok)
    ensures IsMaximum(s, usb, lan, ok) <==> !exists us, ls :: Augments(s, usb, lan, ok, us, ls)
  {
    if us, ls :| Augments(s, usb, lan, ok, us, ls) {
      var t := Augment(s, usb, lan, ok, us, ls);
    } else {
      forall l | Reached(s, usb, lan, ok, l) ensures !LanFree(s, l) {
        var us, ls :| Chain(s, usb, lan, ok, us, ls) && ls[|ls| - 1] == l;
        assert !Augments(s, usb, lan, ok, us, ls);
      }
      forall other | Fits(other, usb, lan, ok) ensures |other| <= |s| {
        NoChainNoMore(s, other, usb, lan, ok);
      }
    }
  }

  // ---------------------------------------------------------------- the bridge layer

  function Bridged(usb: seq<Usb>, lan: seq<Lan>, lower: string -> string): set<Pair>
  {
    set p | p in BridgePairs(usb, lan, lower)
  }

  lemma BridgedFits(usb: seq<Usb>, lan: seq<Lan>, lower: string -> string)
    ensures Fits(Bridged(usb, lan, lower), usb, lan, BridgeAllowed(lan, lower))
    ensures |Bridged(usb, lan, lower)| == |BridgePairs(usb, lan, lower)|
  {
    var pairs, ok := BridgePairs(usb, lan, lower), BridgeAllowed(lan, lower);
    GreedyIsMatching(usb, lan, ok);
    MatchingApart(pairs, usb, lan, ok);
    DistinctSize(pairs);
    forall p | p in pairs ensures p.u < |usb| && p.l < |lan| && ok(usb[p.u], lan[p.l]) {
      var k :| 0 <= k < |pairs| && pairs[k] == p;
    }
  }

  /** The exact condition for the bridge layer to join as many pairs as possible. */
  lemma BridgeLayerMaximumIff(usb: seq<Usb>, lan: seq<Lan>, lower: string -> string)
    ensures var s, ok := Bridged(usb, lan, lower), BridgeAllowed(lan, lower);
      && |s| == |BridgePairs(usb, lan, lower)|
      && (IsMaximum(s, usb, lan, ok) <==> !exists us, ls :: Augments(s, usb, lan, ok, us, ls))
  {
    BridgedFits(usb, lan, lower);
    hide Fits, IsMaximum, Augments, Bridged, BridgePairs;
    MaximumIffNoChain(Bridged(usb, lan, lower), usb, lan, BridgeAllowed(lan, lower));
  }

  /** No LAN candidate is matched by the models of two USB candidates. */
  ghost predicate Unshared(usb: seq<Usb>, lan: seq<Lan>, lower: string -> string)
  {
    forall i, k, j :: 0 <= i < k < |usb| && 0 <= j < |lan| ==>
      !(BridgeMatches(lower, usb[i], lan[j]) && BridgeMatches(lower, usb[k], lan[j]))
  }

  lemma NoShortChain(usb: seq<Usb>, lan: seq<Lan>, lower: string -> string, u: nat, l: nat)
    requires u < |usb| && l < |lan| && BridgeAllowed(lan, lower)(usb[u], lan[l])
    requires UsbFree(Bridged(usb, lan, lower), u)
    ensures !LanFree(Bridged(usb, lan, lower), l)
  {
    GreedyIsMaximal(usb, lan, BridgeAllowed(lan, lower), u, l);
    assert forall p :: p in Bridged(usb, lan, lower) <==> p in BridgePairs(usb, lan, lower);
    hide BridgeAllowed, Greedy;
  }

  lemma NoSharing(usb: seq<Usb>, lan: seq<Lan>, lower: string -> string, u: nat, p: Pair)
    requires Unshared(usb, lan, lower) && p in Bridged(usb, lan, lower)
    requires u < |usb| && p.l < |lan| && BridgeAllowed(lan, lower)(usb[u], lan[p.l])
    ensures p.u == u
  {
    BridgedFits(usb, lan, lower);
    hide Bridged, KeyCount, BridgeMatches;
  }

  lemma UnsharedHasNoChain(usb: seq<Usb>, lan: seq<Lan>, lower: string -> string, us: seq<nat>, ls: seq<nat>)
    requires Unshared(usb, lan, lower)
    ensures !Augments(Bridged(usb, lan, lower), usb, lan, BridgeAllowed(lan, lower), us, ls)
  {
    hide BridgeAllowed, Bridged, Unshared;
    if Augments(Bridged(usb, lan, lower), usb, lan, BridgeAllowed(lan, lower), us, ls) {
      if |us| == 1 {
        NoShortChain(usb, lan, lower, us[0], ls[0]);
      } else {
        assert Pair(us[0 + 1], ls[0]) in Bridged(usb, lan, lower);
        NoSharing(usb, lan, lower, us[0], Pair(us[1], ls[0]));
      }
    }
  }

  /** In particular the layer joins as many as possible when no LAN candidate is matched by two USB models. */
  lemma BridgeLayerMaximumUnshared(usb: seq<Usb>, lan: seq<Lan>, lower: string -> string)
    requires Unshared(usb, lan, lower)
    ensures IsMaximum(Bridged(usb, lan, lower), usb, lan, BridgeAllowed(lan, lower))
  {
    var s, ok := Bridged(usb, lan, lower), BridgeAllowed(lan, lower);
    hide Unshared, Augments, Bridged, IsMaximum, BridgeAllowed, Fits;
    BridgedFits(usb, lan, lower);
    MaximumIffNoChain(s, usb, lan, ok);
    forall us, ls ensures !Augments(s, usb, lan, ok, us, ls) {
      UnsharedHasNoChain(usb, lan, lower, us, ls);
    }
  }
}
