/**
 The scoped capability registry: an insertion-ordered map with a monotone revision, and the change
 events it emits.  A registry update and the emission of its event are two steps, because the event is
 emitted after the lock is released; updates, emissions and stops interleave freely.
 */
module Registry {
  import opened Histories
  import opened Scopes
  import opened Wrappers

  /** A page scope always carries a page id; the display name is no part of the identity. */
  datatype Scope = Scope(kind: ScopeType, pageId: Option<string>, pageName: Option<string>)

  datatype Key = Key(kind: ScopeType, pageId: Option<string>, capId: string)

  function KeyFrom(scope: Scope, capId: string): Key
  {
    Key(scope.kind, if scope.kind.Page? then scope.pageId else None, capId)
  }

  datatype Decl = Decl(verb: string, path: seq<string>, description: Option<string>)

  /** `instance` tells two capability objects with the same declarations apart. */
  datatype Capability = Capability(id: string, scope: Scope, resources: seq<Decl>, commands: seq<Decl>, instance: nat)

  datatype Entry = Entry(capability: Capability, revision: nat)

  function KeyOf(e: Entry): Key { KeyFrom(e.capability.scope, e.capability.id) }

  datatype Change = Registered(key: Key, revision: nat) | Unregistered(key: Key, revision: nat)

  datatype State = State(
    entries: seq<Entry>,             // in registration order
    scopeRevision: nat,
    owed: seq<Change>,               // updates whose event is not yet emitted
    emitted: seq<Change>,            // the event log
    changes: seq<Change>,            // history: all updates, in revision order
    registrations: seq<Entry>,       // history: all registrations, in order
    discarded: bool)                 // history: some stop threw registrations away

  const INITIAL := State([], 0, [], [], [], [], false)

  /** Position of a key in the registry, or its length. */
  function Find(entries: seq<Entry>, key: Key): (k: nat)
    ensures k <= |entries|
    ensures k < |entries| ==> KeyOf(entries[k]) == key
    ensures forall i :: 0 <= i < k ==> KeyOf(entries[i]) != key
  {
    if entries == [] || KeyOf(entries[0]) == key then 0 else 1 + Find(entries[1..], key)
  }

  function Lookup(entries: seq<Entry>, key: Key): Option<Entry>
  {
    var k := Find(entries, key);
    if k < |entries| then Some(entries[k]) else None
  }

  datatype Step = Register(cap: Capability) | Unregister(key: Key) | Emit(i: nat) | StopClear

  /** Registering a known key throws, unregistering an unknown one is a no-op: neither is a step. */
  predicate Enabled(s: State, step: Step)
  {
    match step
    case Register(cap) => Find(s.entries, KeyFrom(cap.scope, cap.id)) == |s.entries|
    case Unregister(key) => Find(s.entries, key) < |s.entries|
    case Emit(i) => i < |s.owed|
    case StopClear => true
  }

  function Take(s: State, step: Step): State
    requires Enabled(s, step)
  {
    match step
    case Register(cap) =>
      var e := Entry(cap, s.scopeRevision + 1);
      var c := Registered(KeyOf(e), e.revision);
      s.(entries := s.entries + [e], scopeRevision := e.revision, owed := s.owed + [c],
         changes := s.changes + [c], registrations := s.registrations + [e])
    case Unregister(key) =>
      var k := Find(s.entries, key);
      var c := Unregistered(key, s.scopeRevision + 1);
      s.(entries := s.entries[..k] + s.entries[k + 1..], scopeRevision := s.scopeRevision + 1,
         owed := s.owed + [c], changes := s.changes + [c])
    case Emit(i) => s.(owed := s.owed[..i] + s.owed[i + 1..], emitted := s.emitted + [s.owed[i]])
    case StopClear => s.(entries := [], discarded := s.discarded || s.entries != [])
  }

  function Next(s: State, step: Step): State { if Enabled(s, step) then Take(s, step) else s }

  function Run(steps: seq<Step>): State
  {
    if steps == [] then INITIAL else Next(Run(steps[..|steps| - 1]), steps[|steps| - 1])
  }

  // ---------------------------------------------------------------- order and identity

  ghost predicate OrderInv(s: State)
  {
    && Ordered(s.entries, s.registrations, s.scopeRevision)
    && (forall i, j :: 0 <= i < j < |s.registrations| ==> s.registrations[i].revision < s.registrations[j].revision)
    && (forall i :: 0 <= i < |s.registrations| ==> s.registrations[i].revision <= s.scopeRevision)
  }

  lemma OrderRegister(s: State, cap: Capability)
    requires OrderInv(s) && Enabled(s, Step.Register(cap))
    ensures OrderInv(Take(s, Step.Register(cap)))
  {
    var t := Take(s, Step.Register(cap));
    var n := |s.entries|;
    assert t.registrations[|s.registrations|] == t.entries[n];
    forall i | 0 <= i < n ensures t.entries[i] in t.registrations && KeyOf(t.entries[i]) != KeyOf(t.entries[n]) {
      assert t.entries[i] == s.entries[i];
    }
  }

  ghost predicate Ordered(entries: seq<Entry>, registrations: seq<Entry>, top: nat)
  {
    && (forall i, j :: 0 <= i < j < |entries| ==>
          entries[i].revision < entries[j].revision && KeyOf(entries[i]) != KeyOf(entries[j]))
    && (forall i :: 0 <= i < |entries| ==> entries[i].revision <= top && entries[i] in registrations)
  }

  lemma CutKeepsOrder(entries: seq<Entry>, k: nat, registrations: seq<Entry>, top: nat)
    requires Ordered(entries, registrations, top) && k < |entries|
    ensures Ordered(entries[..k] + entries[k + 1..], registrations, top + 1)
  {
    var cut := entries[..k] + entries[k + 1..];
    assert forall i :: 0 <= i < |cut| ==> cut[i] == entries[if i < k then i else i + 1];
  }

  lemma OrderUnregister(s: State, key: Key)
    requires OrderInv(s) && Enabled(s, Unregister(key))
    ensures OrderInv(Take(s, Unregister(key)))
  {
    var t := Take(s, Unregister(key));
    CutKeepsOrder(s.entries, Find(s.entries, key), s.registrations, s.scopeRevision);
    hide Find, KeyOf, Ordered;
  }

  lemma OrderStep(s: State, step: Step)
    requires OrderInv(s) && Enabled(s, step)
    ensures OrderInv(Take(s, step))
  {
    match step
    case Register(cap) => OrderRegister(s, cap);
    case Unregister(key) => OrderUnregister(s, key);
    case Emit(_) =>
    case StopClear =>
  }

  /** Registry order is revision order, and a revision names one registration over the whole run. */
  lemma {:induction false} OrderAlways(steps: seq<Step>)
    ensures OrderInv(Run(steps))
  {
    if steps != [] {
      var n := |steps| - 1;
      OrderAlways(steps[..n]);
      if Enabled(Run(steps[..n]), steps[n]) {
        OrderStep(Run(steps[..n]), steps[n]);
      }
    }
  }

  lemma {:induction false} RegistrationsGrow(steps: seq<Step>, more: seq<Step>)
    ensures Run(steps).registrations <= Run(steps + more).registrations
  {
    if more == [] {
      assert steps + more == steps;
    } else {
      var n := |more| - 1;
      assert (steps + more)[..|steps + more| - 1] == steps + more[..n];
      RegistrationsGrow(steps, more[..n]);
    }
  }

  // ---------------------------------------------------------------- selected dispatch

  datatype Selection = Refused(status: nat) | Selected(entry: Entry)

  /** `dispatchSelected` up to the route search: the entry a selector reaches, or 404, 409, 410. */
  function Select(entries: seq<Entry>, key: Option<Key>, revision: Option<int>): Selection
  {
    if key.None? then Refused(404)
    else
      match Lookup(entries, key.value)
      case None => Refused(if key.value.kind.Page? then 410 else 404)
      case Some(e) => if revision.Some? && revision.value != e.revision then Refused(409) else Selected(e)
  }

  /**
   A request pinned to an advertised key and revision runs that very registration or none: it is
   selected exactly while the registration is still there, answered 409 when another one took its
   key, and 404 or 410 when nothing has it.
   */
  lemma {:induction false} PinnedReachesItsRegistration(steps: seq<Step>, more: seq<Step>, e: Entry)
    requires e in Run(steps).entries
    ensures var now := Run(steps + more).entries;
      Select(now, Some(KeyOf(e)), Some(e.revision)) ==
        if e in now then Selected(e)
        else if Lookup(now, KeyOf(e)).Some? then Refused(409)
        else Refused(if KeyOf(e).kind.Page? then 410 else 404)
  {
    OrderAlways(steps);
    OrderAlways(steps + more);
    RegistrationsGrow(steps, more);
    var s, t := Run(steps), Run(steps + more);
    var i :| 0 <= i < |s.entries| && s.entries[i] == e;
    var a :| 0 <= a < |s.registrations| && s.registrations[a] == e;
    assert t.registrations[a] == e;
    var k := Find(t.entries, KeyOf(e));
    if k < |t.entries| {
      var f := t.entries[k];
      assert f in t.registrations;
      var b :| 0 <= b < |t.registrations| && t.registrations[b] == f;
      if f.revision == e.revision {
        assert a == b;
      }
    }
    if e in t.entries {
      var j :| 0 <= j < |t.entries| && t.entries[j] == e;
      assert j == k;
    }
  }

  /** Whatever key it names, a request with an advertised revision selects that registration or none. */
  lemma {:induction false} PinnedSelectsNoOther(steps: seq<Step>, more: seq<Step>, e: Entry, key: Option<Key>, f: Entry)
    requires e in Run(steps).entries
    requires Select(Run(steps + more).entries, key, Some(e.revision)) == Selected(f)
    ensures f == e
  {
    OrderAlways(steps);
    OrderAlways(steps + more);
    RegistrationsGrow(steps, more);
    var s, t := Run(steps), Run(steps + more);
    var a :| 0 <= a < |s.registrations| && s.registrations[a] == e;
    assert t.registrations[a] == e;
    assert f in t.registrations && f.revision == e.revision;
    var b :| 0 <= b < |t.registrations| && t.registrations[b] == f;
    assert a == b;
  }

  // ---------------------------------------------------------------- change events

  datatype Advertised = Advertised(key: Key, revision: nat)

  function View(entries: seq<Entry>): seq<Advertised>
  {
    seq(|entries|, i requires 0 <= i < |entries| => Advertised(KeyOf(entries[i]), entries[i].revision))
  }

  function Without(view: seq<Advertised>, key: Key): seq<Advertised>
  {
    if view == [] then []
    else if view[0].key == key then view[1..]
    else [view[0]] + Without(view[1..], key)
  }

  /** A list in registration order: registering appends, whatever the list holds under that key. */
  function Replayed(view: seq<Advertised>, c: Change): seq<Advertised>
  {
    match c
    case Registered(key, r) => view + [Advertised(key, r)]
    case Unregistered(key, _) => Without(view, key)
  }

  /** A client's registry rebuilt from change events. */
  function Replay(changes: seq<Change>): seq<Advertised>
  {
    if changes == [] then [] else Replayed(Replay(changes[..|changes| - 1]), changes[|changes| - 1])
  }

  ghost predicate EventsInv(s: State)
  {
    && |s.changes| == s.scopeRevision
    && (forall r :: 0 <= r < |s.changes| ==> s.changes[r].revision == r + 1)
    && multiset(s.emitted) + multiset(s.owed) == multiset(s.changes)
    && (!s.discarded ==> Replay(s.changes) == View(s.entries))
  }

  lemma ViewCons(entries: seq<Entry>)
    requires entries != []
    ensures View(entries)[1..] == View(entries[1..])
    ensures View(entries) == [Advertised(KeyOf(entries[0]), entries[0].revision)] + View(entries[1..])
  {
  }

  lemma {:induction false} WithoutView(entries: seq<Entry>, k: nat)
    requires k < |entries| && forall i :: 0 <= i < k ==> KeyOf(entries[i]) != KeyOf(entries[k])
    ensures Without(View(entries), KeyOf(entries[k])) == View(entries[..k] + entries[k + 1..])
  {
    ViewCons(entries);
    if k == 0 {
      assert entries[..0] + entries[1..] == entries[1..];
    } else {
      var cut := entries[..k] + entries[k + 1..];
      WithoutView(entries[1..], k - 1);
      assert cut[1..] == entries[1..][..k - 1] + entries[1..][k..];
      ViewCons(cut);
    }
  }

  lemma ReplaySnoc(changes: seq<Change>, c: Change)
    ensures Replay(changes + [c]) == Replayed(Replay(changes), c)
  {
    assert (changes + [c])[..|changes|] == changes;
  }

  lemma RevisionsSnoc(changes: seq<Change>, c: Change)
    requires forall r :: 0 <= r < |changes| ==> changes[r].revision == r + 1
    requires c.revision == |changes| + 1
    ensures forall r :: 0 <= r < |changes + [c]| ==> (changes + [c])[r].revision == r + 1
  {
  }

  lemma BagSnoc(emitted: seq<Change>, owed: seq<Change>, changes: seq<Change>, c: Change)
    requires multiset(emitted) + multiset(owed) == multiset(changes)
    ensures multiset(emitted) + multiset(owed + [c]) == multiset(changes + [c])
  {
  }

  lemma BagMove(emitted: seq<Change>, owed: seq<Change>, i: nat)
    requires i < |owed|
    ensures multiset(emitted + [owed[i]]) + multiset(owed[..i] + owed[i + 1..]) == multiset(emitted) + multiset(owed)
  {
    assert owed == owed[..i] + [owed[i]] + owed[i + 1..];
  }

  lemma ViewSnoc(entries: seq<Entry>, e: Entry)
    ensures View(entries + [e]) == View(entries) + [Advertised(KeyOf(e), e.revision)]
  {
  }

  lemma EventsRegister(s: State, cap: Capability)
    requires EventsInv(s) && Enabled(s, Step.Register(cap))
    ensures EventsInv(Take(s, Step.Register(cap)))
  {
    hide Replay, View, Find;
    var e := Entry(cap, s.scopeRevision + 1);
    var c := Registered(KeyOf(e), e.revision);
    ReplaySnoc(s.changes, c);
    RevisionsSnoc(s.changes, c);
    BagSnoc(s.emitted, s.owed, s.changes, c);
    ViewSnoc(s.entries, e);
  }

  lemma EventsUnregister(s: State, key: Key)
    requires EventsInv(s) && Enabled(s, Unregister(key))
    ensures EventsInv(Take(s, Unregister(key)))
  {
    hide Replay, View, Find, Without;
    var c := Unregistered(key, s.scopeRevision + 1);
    ReplaySnoc(s.changes, c);
    RevisionsSnoc(s.changes, c);
    BagSnoc(s.emitted, s.owed, s.changes, c);
    WithoutView(s.entries, Find(s.entries, key));
  }

  lemma EventsStep(s: State, step: Step)
    requires EventsInv(s) && Enabled(s, step)
    ensures EventsInv(Take(s, step))
  {
    hide Replay, Find;
    match step
    case Register(cap) => EventsRegister(s, cap);
    case Unregister(key) => EventsUnregister(s, key);
    case Emit(i) => BagMove(s.emitted, s.owed, i);
    case StopClear =>
  }

  lemma {:induction false} EventsAlways(steps: seq<Step>)
    ensures EventsInv(Run(steps))
  {
    if steps != [] {
      var n := |steps| - 1;
      EventsAlways(steps[..n]);
      if Enabled(Run(steps[..n]), steps[n]) {
        EventsStep(Run(steps[..n]), steps[n]);
      }
    }
  }

  predicate InRevisionOrder(changes: seq<Change>)
  {
    forall i, j :: 0 <= i < j < |changes| ==> changes[i].revision <= changes[j].revision
  }

  lemma SameMembers(a: seq<Change>, b: seq<Change>, i: nat) returns (j: nat)
    requires multiset(a) == multiset(b) && i < |a|
    ensures j < |b| && b[j] == a[i]
  {
    assert a[i] in multiset(a);
    assert a[i] in b;
    j :| 0 <= j < |b| && b[j] == a[i];
  }

  lemma LastAgrees(changes: seq<Change>, order: seq<Change>)
    requires forall r :: 0 <= r < |changes| ==> changes[r].revision == r + 1
    requires multiset(order) == multiset(changes) && InRevisionOrder(order) && |order| == |changes| > 0
    ensures order[|order| - 1] == changes[|changes| - 1]
  {
    var n := |order| - 1;
    var a := SameMembers(order, changes, n);
    var b := SameMembers(changes, order, n);
    assert b < n ==> order[b].revision <= order[n].revision;
  }

  lemma DropLast(a: seq<Change>, b: seq<Change>)
    requires multiset(a) == multiset(b) && |a| == |b| > 0 && a[|a| - 1] == b[|b| - 1]
    ensures multiset(a[..|a| - 1]) == multiset(b[..|b| - 1])
  {
    var n := |a| - 1;
    assert a == a[..n] + [a[n]] && b == b[..n] + [b[n]];
    assert multiset(a[..n]) == multiset(a) - multiset{a[n]};
    assert multiset(b[..n]) == multiset(b) - multiset{b[n]};
  }

  lemma SameLength(a: seq<Change>, b: seq<Change>)
    requires multiset(a) == multiset(b)
    ensures |a| == |b|
  {
    assert |multiset(a)| == |a| && |multiset(b)| == |b|;
  }

  /** The revisions of the log are 1 to its length, each once; sorting a shuffled log restores it. */
  lemma {:induction false} SortRestores(changes: seq<Change>, order: seq<Change>)
    requires forall r :: 0 <= r < |changes| ==> changes[r].revision == r + 1
    requires multiset(order) == multiset(changes) && InRevisionOrder(order)
    ensures order == changes
    decreases |changes|
  {
    SameLength(order, changes);
    if order != [] {
      var n := |order| - 1;
      LastAgrees(changes, order);
      DropLast(order, changes);
      SortRestores(changes[..n], order[..n]);
      assert order == order[..n] + [order[n]] && changes == changes[..n] + [changes[n]];
    }
  }

  /**
   Once no event is owed, the emitted log holds each revision from 1 to the current one exactly once,
   and replaying it in revision order, whatever order it was emitted in, rebuilds the registry's keys,
   revisions and order, as long as no stop discarded registrations.
   */
  lemma {:induction false} EventsRebuildRegistry(steps: seq<Step>, order: seq<Change>)
    requires Run(steps).owed == []
    requires multiset(order) == multiset(Run(steps).emitted) && InRevisionOrder(order)
    ensures var s := Run(steps);
      && |order| == s.scopeRevision && (forall r :: 0 <= r < |order| ==> order[r].revision == r + 1)
      && (!s.discarded ==> Replay(order) == View(s.entries))
  {
    EventsAlways(steps);
    var s := Run(steps);
    assert multiset(s.emitted) == multiset(s.changes);
    SortRestores(s.changes, order);
  }

  // ---------------------------------------------------------------- after a stop

  function Occurs(view: seq<Advertised>, key: Key): nat
  {
    if view == [] then 0 else (if view[0].key == key then 1 else 0) + Occurs(view[1..], key)
  }

  lemma {:induction false} OccursSnoc(view: seq<Advertised>, a: Advertised, key: Key)
    ensures Occurs(view + [a], key) == Occurs(view, key) + if a.key == key then 1 else 0
  {
    if view == [] {
      assert [] + [a] == [a] && [a][1..] == [];
    } else {
      assert (view + [a])[1..] == view[1..] + [a];
      OccursSnoc(view[1..], a, key);
    }
  }

  lemma {:induction false} OccursWithout(view: seq<Advertised>, key: Key, other: Key)
    requires Occurs(view, key) > 0
    ensures |Without(view, key)| == |view| - 1
    ensures Occurs(Without(view, key), other) == Occurs(view, other) - if other == key then 1 else 0
  {
    if view[0].key != key {
      OccursWithout(view[1..], key, other);
      assert ([view[0]] + Without(view[1..], key))[1..] == Without(view[1..], key);
    }
  }

  lemma {:induction false} OccursAt(entries: seq<Entry>, k: nat)
    requires k < |entries|
    ensures Occurs(View(entries), KeyOf(entries[k])) > 0
  {
    ViewCons(entries);
    if k > 0 {
      OccursAt(entries[1..], k - 1);
    }
  }

  /** The replay never loses an entry of the registry, and keeps for good what a stop threw away. */
  ghost predicate ReplayInv(s: State)
  {
    var r, v := Replay(s.changes), View(s.entries);
    && (forall key :: Occurs(r, key) >= Occurs(v, key))
    && |r| >= |v| && (s.discarded ==> |r| > |v|)
  }

  lemma ReplayRegister(s: State, cap: Capability)
    requires ReplayInv(s) && Enabled(s, Step.Register(cap))
    ensures ReplayInv(Take(s, Step.Register(cap)))
  {
    hide Replay, View, Find, Occurs;
    var e := Entry(cap, s.scopeRevision + 1);
    var a := Advertised(KeyOf(e), e.revision);
    ReplaySnoc(s.changes, Registered(KeyOf(e), e.revision));
    ViewSnoc(s.entries, e);
    forall key ensures Occurs(Replay(s.changes) + [a], key) >= Occurs(View(s.entries) + [a], key) {
      OccursSnoc(Replay(s.changes), a, key);
      OccursSnoc(View(s.entries), a, key);
    }
  }

  lemma ReplayUnregister(s: State, key: Key)
    requires ReplayInv(s) && Enabled(s, Unregister(key))
    ensures ReplayInv(Take(s, Unregister(key)))
  {
    hide Replay, View, Find, Without, Occurs;
    var k := Find(s.entries, key);
    var r, v := Replay(s.changes), View(s.entries);
    ReplaySnoc(s.changes, Unregistered(key, s.scopeRevision + 1));
    WithoutView(s.entries, k);
    OccursAt(s.entries, k);
    OccursWithout(r, key, key);
    OccursWithout(v, key, key);
    forall other ensures Occurs(Without(r, key), other) >= Occurs(Without(v, key), other) {
      OccursWithout(r, key, other);
      OccursWithout(v, key, other);
    }
  }

  lemma ReplayStop(s: State)
    requires ReplayInv(s)
    ensures ReplayInv(Take(s, StopClear))
  {
    assert View([]) == [] && |View(s.entries)| == |s.entries|;
  }

  lemma {:induction false} ReplayAlways(steps: seq<Step>)
    ensures ReplayInv(Run(steps))
  {
    if steps != [] {
      var n := |steps| - 1;
      ReplayAlways(steps[..n]);
      var s := Run(steps[..n]);
      if Enabled(s, steps[n]) {
        hide ReplayInv, Find, Replay;
        match steps[n]
        case Register(cap) => ReplayRegister(s, cap);
        case Unregister(key) => ReplayUnregister(s, key);
        case Emit(i) => EmitKeepsReplay(s, i);
        case StopClear => ReplayStop(s);
      }
    }
  }

  lemma EmitKeepsReplay(s: State, i: nat)
    requires ReplayInv(s) && Enabled(s, Emit(i))
    ensures ReplayInv(Take(s, Emit(i)))
  {
    hide Replay, View;
  }

  /**
   A stop emits nothing.  Over any run, replaying all updates gives the registry if and only if no stop ever
   threw a registration away: later updates never make up for it.
   */
  lemma {:induction false} ReplayIffNothingDiscarded(steps: seq<Step>)
    ensures Replay(Run(steps).changes) == View(Run(steps).entries) <==> !Run(steps).discarded
  {
    EventsAlways(steps);
    ReplayAlways(steps);
    hide Replay, View, Run;
  }

  /** The `k`-th step is a stop that finds something registered. */
  ghost predicate DiscardsAt(steps: seq<Step>, k: nat)
    requires k < |steps|
  {
    steps[k].StopClear? && Run(steps[..k]).entries != []
  }

  /** Registrations are lost exactly if some stop found any. */
  lemma {:induction false} DiscardedByStop(steps: seq<Step>)
    ensures Run(steps).discarded <==> exists k: nat :: k < |steps| && DiscardsAt(steps, k)
  {
    if steps != [] {
      var n := |steps| - 1;
      DiscardedByStop(steps[..n]);
      forall k: nat | k < n ensures DiscardsAt(steps, k) <==> DiscardsAt(steps[..n], k) {
        assert steps[..n][..k] == steps[..k];
      }
      DiscardStep(steps);
      hide DiscardsAt, Run;
      if k: nat :| k < n && DiscardsAt(steps[..n], k) {
        assert DiscardsAt(steps, k);
      }
    }
  }

  lemma DiscardStep(steps: seq<Step>)
    requires steps != []
    ensures var n := |steps| - 1; Run(steps).discarded <==> Run(steps[..n]).discarded || DiscardsAt(steps, n)
  {
  }

  lemma Then(steps: seq<Step>, step: Step) returns (longer: seq<Step>)
    ensures longer == steps + [step] && Run(longer) == Next(Run(steps), step)
  {
    longer := steps + [step];
    assert longer[..|longer| - 1] == steps;
  }

  /** Register, emit, stop: every event was delivered, and they still show a registration that is gone. */
  lemma StopLeavesStaleEvents(cap: Capability) returns (steps: seq<Step>)
    ensures var s := Run(steps); s.owed == [] && s.emitted == s.changes && Replay(s.emitted) != View(s.entries)
  {
    steps := Then([], Step.Register(cap));
    var s := Run(steps);
    assert s.owed == s.changes == [s.owed[0]];
    steps := Then(steps, Emit(0));
    assert Run(steps).owed == [];
    steps := Then(steps, StopClear);
    ReplayIffNothingDiscarded(steps);
  }

  // ---------------------------------------------------------------- a replay by key

  /** A client that keeps one revision per scoped key, so that registering a key again overwrites it. */
  function KeyedReplay(changes: seq<Change>): map<Key, nat>
  {
    if changes == [] then map[]
    else
      var n := |changes| - 1;
      KeyedNext(KeyedReplay(changes[..n]), changes[n])
  }

  function KeyedNext(replay: map<Key, nat>, c: Change): map<Key, nat>
  {
    if c.Registered? then replay[c.key := c.revision] else replay - {c.key}
  }

  function Keys(entries: seq<Entry>): set<Key> { set e | e in entries :: KeyOf(e) }

  function KeyedView(entries: seq<Entry>): map<Key, nat>
  {
    if entries == [] then map[]
    else
      var n := |entries| - 1;
      KeyedView(entries[..n])[KeyOf(entries[n]) := entries[n].revision]
  }

  /** The keys some stop threw away and nobody registered since. */
  function Stale(steps: seq<Step>): set<Key>
  {
    if steps == [] then {}
    else
      var n := |steps| - 1;
      StaleAfter(Stale(steps[..n]), Run(steps[..n]), steps[n])
  }

  function StaleAfter(stale: set<Key>, s: State, step: Step): set<Key>
  {
    if !Enabled(s, step) then stale
    else
      match step
      case Register(cap) => stale - {KeyFrom(cap.scope, cap.id)}
      case StopClear => stale + Keys(s.entries)
      case _ => stale
  }

  /** The replay by key shows the registry, and besides it exactly the stale keys. */
  ghost predicate KeyedInv(s: State, stale: set<Key>) { Shows(KeyedReplay(s.changes), s.entries, stale) }

  ghost predicate Shows(replay: map<Key, nat>, entries: seq<Entry>, stale: set<Key>)
  {
    && replay.Keys == Keys(entries) + stale && stale !! Keys(entries)
    && forall k :: 0 <= k < |entries| ==> replay[KeyOf(entries[k])] == entries[k].revision
  }

  predicate KeysDistinct(entries: seq<Entry>)
  {
    forall i, j :: 0 <= i < j < |entries| ==> KeyOf(entries[i]) != KeyOf(entries[j])
  }

  lemma KeysSnoc(entries: seq<Entry>, e: Entry)
    ensures Keys(entries + [e]) == Keys(entries) + {KeyOf(e)}
  {
    assert e in entries + [e];
  }

  lemma KeysWithout(entries: seq<Entry>, k: nat)
    requires KeysDistinct(entries) && k < |entries|
    ensures Keys(entries[..k] + entries[k + 1..]) == Keys(entries) - {KeyOf(entries[k])}
  {
    var rest := entries[..k] + entries[k + 1..];
    forall e | e in rest ensures e in entries && KeyOf(e) != KeyOf(entries[k]) {
      var i :| 0 <= i < |rest| && rest[i] == e;
      assert rest[i] == entries[if i < k then i else i + 1];
    }
    forall e | e in entries && KeyOf(e) != KeyOf(entries[k]) ensures e in rest {
      var i :| 0 <= i < |entries| && entries[i] == e;
      assert e == rest[if i < k then i else i - 1];
    }
  }

  lemma ShowsSnoc(replay: map<Key, nat>, entries: seq<Entry>, stale: set<Key>, e: Entry)
    requires Shows(replay, entries, stale) && KeyOf(e) !in Keys(entries)
    ensures Shows(replay[KeyOf(e) := e.revision], entries + [e], stale - {KeyOf(e)})
  {
    KeysSnoc(entries, e);
    forall k | 0 <= k < |entries| ensures KeyOf(entries[k]) in Keys(entries) {
      assert entries[k] in entries;
    }
    hide Keys;
  }

  lemma ShowsWithout(replay: map<Key, nat>, entries: seq<Entry>, stale: set<Key>, k: nat)
    requires Shows(replay, entries, stale) && KeysDistinct(entries) && k < |entries|
    ensures Shows(replay - {KeyOf(entries[k])}, entries[..k] + entries[k + 1..], stale)
  {
    KeysWithout(entries, k);
    assert entries[k] in entries;
    assert KeyOf(entries[k]) in Keys(entries);
    hide Keys;
    var rest := entries[..k] + entries[k + 1..];
    forall i | 0 <= i < |rest| ensures rest[i] == entries[if i < k then i else i + 1] && KeyOf(rest[i]) != KeyOf(entries[k]) {
    }
  }

  lemma KeyedSnoc(changes: seq<Change>, c: Change)
    ensures KeyedReplay(changes + [c]) == KeyedNext(KeyedReplay(changes), c)
  {
    assert (changes + [c])[..|changes|] == changes;
  }

  lemma KeyedRegister(s: State, stale: set<Key>, cap: Capability)
    requires KeyedInv(s, stale) && Enabled(s, Register(cap))
    ensures KeyedInv(Take(s, Register(cap)), StaleAfter(stale, s, Register(cap)))
  {
    var e := Entry(cap, s.scopeRevision + 1);
    KeyedSnoc(s.changes, Registered(KeyOf(e), e.revision));
    assert KeyOf(e) !in Keys(s.entries);
    hide KeyedReplay, Keys, Shows;
    ShowsSnoc(KeyedReplay(s.changes), s.entries, stale, e);
  }

  lemma KeyedUnregister(s: State, stale: set<Key>, key: Key)
    requires KeysDistinct(s.entries) && KeyedInv(s, stale) && Enabled(s, Unregister(key))
    ensures KeyedInv(Take(s, Unregister(key)), StaleAfter(stale, s, Unregister(key)))
  {
    KeyedSnoc(s.changes, Unregistered(key, s.scopeRevision + 1));
    hide KeyedReplay, Keys, Shows, KeysDistinct;
    ShowsWithout(KeyedReplay(s.changes), s.entries, stale, Find(s.entries, key));
  }

  lemma KeyedStop(s: State, stale: set<Key>)
    requires KeyedInv(s, stale)
    ensures KeyedInv(Take(s, StopClear), StaleAfter(stale, s, StopClear))
  {
    hide KeyedReplay;
    assert Keys([]) == {};
  }

  lemma {:induction false} KeyedAlways(steps: seq<Step>)
    ensures KeyedInv(Run(steps), Stale(steps))
  {
    if steps == [] {
      assert Keys([]) == {};
    } else {
      var n := |steps| - 1;
      KeyedAlways(steps[..n]);
      OrderAlways(steps[..n]);
      var s := Run(steps[..n]);
      hide KeyedInv, OrderInv;
      if Enabled(s, steps[n]) {
        match steps[n]
        case Register(cap) => KeyedRegister(s, Stale(steps[..n]), cap);
        case Unregister(key) => KeyedUnregister(s, Stale(steps[..n]), key);
        case Emit(i) => KeyedEmit(s, Stale(steps[..n]), i);
        case StopClear => KeyedStop(s, Stale(steps[..n]));
      }
    }
  }

  lemma KeyedEmit(s: State, stale: set<Key>, i: nat)
    requires KeyedInv(s, stale) && Enabled(s, Emit(i))
    ensures KeyedInv(Take(s, Emit(i)), stale)
  {
  }

  lemma ShowsIff(replay: map<Key, nat>, entries: seq<Entry>, stale: set<Key>)
    requires Shows(replay, entries, stale) && KeysDistinct(entries)
    ensures replay == KeyedView(entries) <==> stale == {}
  {
    ViewByKey(entries);
    forall key | key in Keys(entries) ensures key in replay && replay[key] == KeyedView(entries)[key] {
      var e :| e in entries && KeyOf(e) == key;
      var k :| 0 <= k < |entries| && entries[k] == e;
    }
    hide Keys, KeyedView, KeysDistinct;
    if stale == {} {
      assert replay.Keys == KeyedView(entries).Keys;
    } else {
      var key :| key in stale;
      assert key in replay && key !in KeyedView(entries);
    }
  }

  /** Over any run the replay by key gives the registry if and only if no key is stale. */
  lemma {:induction false} KeyedReplayIffNoneStale(steps: seq<Step>)
    ensures KeyedReplay(Run(steps).changes) == KeyedView(Run(steps).entries) <==> Stale(steps) == {}
  {
    KeyedAlways(steps);
    OrderAlways(steps);
    hide Run, Stale, KeyedReplay, Shows, KeyedView;
    ShowsIff(KeyedReplay(Run(steps).changes), Run(steps).entries, Stale(steps));
  }

  lemma {:induction false} ViewByKey(entries: seq<Entry>)
    requires KeysDistinct(entries)
    ensures KeyedView(entries).Keys == Keys(entries)
    ensures forall k :: 0 <= k < |entries| ==> KeyedView(entries)[KeyOf(entries[k])] == entries[k].revision
  {
    if entries == [] {
      assert Keys(entries) == {};
    } else {
      var n := |entries| - 1;
      ViewByKey(entries[..n]);
      assert entries == entries[..n] + [entries[n]];
      KeysSnoc(entries[..n], entries[n]);
    }
  }

  ghost predicate LostAt(steps: seq<Step>, k: nat, key: Key)
  {
    k < |steps| && steps[k].StopClear? && key in Keys(Run(steps[..k]).entries)
  }

  ghost predicate RegisteredAt(steps: seq<Step>, k: nat, key: Key)
  {
    k < |steps| && steps[k].Register? && Enabled(Run(steps[..k]), steps[k]) && KeyFrom(steps[k].cap.scope, steps[k].cap.id) == key
  }

  ghost function Losses(steps: seq<Step>, key: Key): nat -> bool { (k: nat) => LostAt(steps, k, key) }

  ghost function Registers(steps: seq<Step>, key: Key): nat -> bool { (k: nat) => RegisteredAt(steps, k, key) }

  /** A key is stale exactly if some stop found it registered and nobody has registered it since. */
  lemma {:induction false} StaleIff(steps: seq<Step>, key: Key)
    ensures key in Stale(steps) <==> Lasts(Losses(steps, key), Registers(steps, key), |steps|)
  {
    if steps != [] {
      var n := |steps| - 1;
      StaleIff(steps[..n], key);
      hide Run, Keys, Enabled, Lasts;
      forall k: nat | k < n
        ensures LostAt(steps, k, key) <==> LostAt(steps[..n], k, key)
        ensures RegisteredAt(steps, k, key) <==> RegisteredAt(steps[..n], k, key)
      {
        assert steps[..n][..k] == steps[..k];
      }
      LastsNext(Losses(steps, key), Registers(steps, key), Losses(steps[..n], key), Registers(steps[..n], key), n);
      AlwaysEnabled(Run(steps[..n]));
    }
  }

  lemma AlwaysEnabled(s: State)
    ensures Enabled(s, StopClear)
  {
  }

  // ---------------------------------------------------------------- the object with its fields

  class ControlPlaneRegistry {
    var capabilities: seq<Entry>
    var scopeRevision: nat
    var owed: seq<Change>
    var emitted: seq<Change>
    ghost var changes: seq<Change>
    ghost var registrations: seq<Entry>
    ghost var discarded: bool

    ghost function Abs(): State
      reads this
    {
      State(capabilities, scopeRevision, owed, emitted, changes, registrations, discarded)
    }

    constructor ()
      ensures Abs() == INITIAL
    {
      capabilities, scopeRevision, owed, emitted := [], 0, [], [];
      changes, registrations, discarded := [], [], false;
    }

    /** The lock section of `register`; false where it throws on a duplicate. */
    method Register(cap: Capability) returns (ok: bool)
      modifies this
      ensures ok == Enabled(old(Abs()), Step.Register(cap)) && Abs() == Next(old(Abs()), Step.Register(cap))
    {
      var key := KeyFrom(cap.scope, cap.id);
      ok := Find(capabilities, key) == |capabilities|;
      if ok {
        scopeRevision := scopeRevision + 1;
        capabilities := capabilities + [Entry(cap, scopeRevision)];
        owed := owed + [Registered(key, scopeRevision)];
        changes := changes + [Registered(key, scopeRevision)];
        registrations := registrations + [Entry(cap, scopeRevision)];
      }
    }

    /** The lock section of `unregisterScoped`; a missing key is a no-op. */
    method UnregisterScoped(scope: Scope, capId: string)
      modifies this
      ensures Abs() == Next(old(Abs()), Unregister(KeyFrom(scope, capId)))
    {
      var key := KeyFrom(scope, capId);
      var k := Find(capabilities, key);
      if k < |capabilities| {
        capabilities := capabilities[..k] + capabilities[k + 1..];
        scopeRevision := scopeRevision + 1;
        owed := owed + [Unregistered(key, scopeRevision)];
        changes := changes + [Unregistered(key, scopeRevision)];
      }
    }

    /** `emitScopeChanged`, after the lock is released. */
    method EmitScopeChanged(i: nat)
      requires i < |owed|
      modifies this
      ensures Abs() == Take(old(Abs()), Emit(i))
    {
      emitted := emitted + [owed[i]];
      owed := owed[..i] + owed[i + 1..];
    }

    /** The registry part of `stop`. */
    method Clear()
      modifies this
      ensures Abs() == Take(old(Abs()), StopClear)
    {
      discarded := discarded || capabilities != [];
      capabilities := [];
    }
  }
}
