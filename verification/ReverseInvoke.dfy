/**
 Reverse invokes from the native side into Dart: a table of pending calls keyed by request id, filled
 in from the channel, failed by channel errors, timeouts and teardowns.  Taking an id out of the table
 and settling its deferred are two steps, as they are two accesses in the source, so a call can time out
 in between; calls, fill-ins and teardowns interleave freely.
 */
module ReverseInvoke {
  import opened Scopes
  import opened Wrappers

  // ---------------------------------------------------------------- scoped identity on the wire

  datatype Identity = Identity(scope: ScopeType, pageId: Option<string>, capId: string)

  datatype Arg = TextArg(text: string) | Other

  type Args = map<string, Arg>

  function ScopeAwarePayload(id: Identity): Args
  {
    map["capId" := TextArg(id.capId), "scope" := TextArg(Wire(id.scope))]
    + if id.pageId.Some? then map["pageId" := TextArg(id.pageId.value)] else map[]
  }

  /** The extra arguments of a handler call. */
  const HANDLER_KEYS: set<string> := {"routeKind", "routeIndex", "pathParams", "body"}

  function TextOf(args: Args, key: string): Option<string>
  {
    if key in args && args[key].TextArg? then Some(args[key].text) else None
  }

  /** `reverseInvokeOwner`; None where the unknown scope name throws. */
  function Owner(args: Args): Option<Identity>
  {
    var capId := TextOf(args, "capId");
    var name := if capId.Some? then capId.value else "";
    if "scope" !in args then Some(Identity(App, TextOf(args, "pageId"), name))
    else
      match TextOf(args, "scope")
      case Some("app") => Some(Identity(App, TextOf(args, "pageId"), name))
      case Some("page") => Some(Identity(Page, TextOf(args, "pageId"), name))
      case _ => None
  }

  /** The owner read back from a call's arguments is the identity the call was made for. */
  lemma OwnerRoundTrip(id: Identity, extra: Args)
    requires extra.Keys <= HANDLER_KEYS
    ensures Owner(ScopeAwarePayload(id) + extra) == Some(id)
  {
    var a, b, c := "capId", "scope", "pageId";
    var r, i, p, y := "routeKind", "routeIndex", "pathParams", "body";
    assert |a| == 5 && a[0] == 'c' && b[0] == 's' && |c| == 6 && |r| == 9 && |i| == 10 && |p| == 10 && |y| == 4;
    assert HANDLER_KEYS == {r, i, p, y};
    assert a !in extra && b !in extra && c !in extra;
    assert "app"[0] == 'a' && "page"[0] == 'p';
  }

  /** Any arguments: no scope means an app, an unknown one throws, and what is missing stays missing. */
  lemma OwnerReads(args: Args)
    ensures Owner(args).Some? <==> "scope" in args ==> args["scope"] in {TextArg("app"), TextArg("page")}
    ensures Owner(args).Some? ==>
      var id := Owner(args).value;
      && (id.scope.Page? <==> "scope" in args && args["scope"] == TextArg("page"))
      && (forall t :: id.pageId == Some(t) <==> "pageId" in args && args["pageId"] == TextArg(t))
      && (forall t :: "capId" in args && args["capId"] == TextArg(t) ==> id.capId == t)
      && ((forall t :: !("capId" in args && args["capId"] == TextArg(t))) ==> id.capId == "")
  {
    assert "app"[0] == 'a' && "page"[0] == 'p';
    if TextOf(args, "capId").Some? {
      assert args["capId"] == TextArg(TextOf(args, "capId").value);
    }
  }

  // ---------------------------------------------------------------- state

  datatype Failure = Failure(statusCode: int, code: string, message: string)

  datatype Result = Value(body: nat) | Fails(failure: Failure)

  /** An error envelope with its missing parts. */
  datatype Envelope = Envelope(statusCode: Option<int>, code: Option<string>, message: Option<string>)

  function AsRouteFailure(e: Envelope): Failure
  {
    Failure(if e.statusCode.Some? then e.statusCode.value else 500,
            if e.code.Some? then e.code.value else "internal_error",
            if e.message.Some? then e.message.value else "unknown error")
  }

  const INTERNAL_ERROR := Failure(500, "internal_error", "")

  /** Body 0 stands for the empty map a missing result is read as. */
  datatype Fill = FillInvoke(error: Option<Envelope>, result: Option<nat>) | FillState(state: nat)

  function FillResult(f: Fill): Result
  {
    match f
    case FillInvoke(Some(e), _) => Fails(AsRouteFailure(e))
    case FillInvoke(None, r) => Value(if r.Some? then r.value else 0)
    case FillState(s) => Value(s)
  }

  datatype Cause = ByFill(reqId: nat, fill: Fill) | ByChannel(call: nat, failure: Failure) | ByTeardown(teardown: nat)

  datatype Deferred = Deferred(owner: Identity, cause: Option<Cause>)

  function CauseResult(c: Cause): Result
  {
    match c
    case ByFill(_, f) => FillResult(f)
    case ByChannel(_, e) => Fails(e)
    case ByTeardown(_) => Fails(INTERNAL_ERROR)
  }

  /**
   What a fill-in means for the caller: an error envelope fails the call with the envelope's own parts, a
   missing one taking its default; a result is the result, a missing one the empty map; a state is the state.
   */
  predicate Yields(f: Fill, result: Result)
  {
    match f
    case FillInvoke(Some(Envelope(statusCode, code, message)), _) =>
      && result.Fails?
      && result.failure.statusCode == (match statusCode case Some(n) => n case None => 500)
      && result.failure.code == (match code case Some(t) => t case None => "internal_error")
      && result.failure.message == (match message case Some(t) => t case None => "unknown error")
    case FillInvoke(None, Some(body)) => result == Value(body)
    case FillInvoke(None, None) => result == Value(0)
    case FillState(state) => result == Value(state)
  }

  lemma FillYields(f: Fill)
    ensures forall result :: Yields(f, result) <==> result == FillResult(f)
  {
  }

  /** The failure the bridge makes up itself. */
  predicate IsInternalError(result: Result)
  {
    result.Fails? && result.failure.statusCode == 500 && result.failure.code == "internal_error"
  }

  /** Why a call stopped waiting. */
  datatype Ending = Woken | TimedOut | Rejected

  datatype CallPhase = Waiting | Leaving(why: Ending, result: Result) | Finished(why: Ending, result: Result)

  datatype Call = Call(reqId: nat, deferred: nat, phase: CallPhase)

  /** A teardown with the entries it has collected and those it still has to visit. */
  datatype Teardown = Teardown(
    identity: Identity,
    scanning: bool,               // still walks the table
    due: set<nat>,                // history: its entries in the table when the walk began
    doomed: set<nat>,
    left: set<nat>)

  datatype State = State(
    nextReqId: nat,
    pending: map<nat, nat>,       // request id to deferred
    inFlight: map<nat, Cause>,    // deferreds taken out of the table and not settled yet
    deferreds: seq<Deferred>,
    calls: seq<Call>,
    teardowns: seq<Teardown>,
    eventFlows: set<Identity>)

  const INITIAL := State(1, map[], map[], [], [], [], {})

  datatype Step =
    | Invoke(owner: Identity)
    | FillIn(reqId: nat, fill: Fill)
    | Deliver(deferred: nat)
    | ChannelError(call: nat, failure: Failure)
    | Reject(call: nat)
    | Timeout(call: nat)
    | Wake(call: nat)
    | Leave(call: nat)
    | Scan(identity: Identity)
    | See(teardown: nat, reqId: nat)
    | EndScan(teardown: nat)
    | Kill(teardown: nat, reqId: nat)

  /** `complete` and `completeExceptionally`: the first settlement wins. */
  function Settle(s: State, d: nat, c: Cause): State
  {
    if d < |s.deferreds| && s.deferreds[d].cause.None?
    then s.(deferreds := s.deferreds[d := s.deferreds[d].(cause := Some(c))])
    else s
  }

  /**
   The walk over the concurrent table sees every entry that stays in it from its beginning to its end, and
   may or may not see one that comes or goes meanwhile.
   */
  predicate Enabled(s: State, step: Step)
  {
    match step
    case Invoke(_) => true
    case FillIn(_, _) => true
    case Deliver(d) => d in s.inFlight
    case ChannelError(c, _) => c < |s.calls|
    case Reject(c) => c < |s.calls| && s.calls[c].phase.Waiting?
    case Timeout(c) => c < |s.calls| && s.calls[c].phase.Waiting?
    case Wake(c) =>
      c < |s.calls| && s.calls[c].phase.Waiting? && s.calls[c].deferred < |s.deferreds| &&
      s.deferreds[s.calls[c].deferred].cause.Some?
    case Leave(c) => c < |s.calls| && s.calls[c].phase.Leaving?
    case Scan(_) => true
    case See(t, r) => t < |s.teardowns| && s.teardowns[t].scanning && r in OwnedPending(s, s.teardowns[t].identity)
    case EndScan(t) =>
      t < |s.teardowns| && s.teardowns[t].scanning &&
      forall r :: r in s.teardowns[t].due && r in s.pending ==> r in s.teardowns[t].doomed
    case Kill(t, r) => t < |s.teardowns| && !s.teardowns[t].scanning && r in s.teardowns[t].left
  }

  function OwnedPending(s: State, identity: Identity): set<nat>
  {
    set r | r in s.pending && s.pending[r] < |s.deferreds| && s.deferreds[s.pending[r]].owner == identity
  }

  function Take(s: State, step: Step): State
    requires Enabled(s, step)
  {
    match step
    case Invoke(owner) =>
      var d := |s.deferreds|;
      s.(nextReqId := s.nextReqId + 1,
         deferreds := s.deferreds + [Deferred(owner, None)],
         pending := s.pending[s.nextReqId := d],
         calls := s.calls + [Call(s.nextReqId, d, Waiting)])
    case FillIn(r, fill) =>
      if r !in s.pending then s
      else s.(pending := s.pending - {r}, inFlight := s.inFlight[s.pending[r] := ByFill(r, fill)])
    case Deliver(d) => Settle(s.(inFlight := s.inFlight - {d}), d, s.inFlight[d])
    case ChannelError(c, e) => Settle(s, s.calls[c].deferred, ByChannel(c, e))
    case Reject(c) => s.(calls := s.calls[c := s.calls[c].(phase := Leaving(Rejected, Fails(INTERNAL_ERROR)))])
    case Timeout(c) => s.(calls := s.calls[c := s.calls[c].(phase := Leaving(TimedOut, Fails(INTERNAL_ERROR)))])
    case Wake(c) =>
      var cause := s.deferreds[s.calls[c].deferred].cause.value;
      s.(calls := s.calls[c := s.calls[c].(phase := Leaving(Woken, CauseResult(cause)))])
    case Leave(c) =>
      s.(calls := s.calls[c := s.calls[c].(phase := Finished(s.calls[c].phase.why, s.calls[c].phase.result))],
         pending := s.pending - {s.calls[c].reqId})
    case Scan(identity) =>
      s.(eventFlows := s.eventFlows - {identity},
         teardowns := s.teardowns + [Teardown(identity, true, OwnedPending(s, identity), {}, {})])
    case See(t, r) =>
      var td := s.teardowns[t];
      s.(teardowns := s.teardowns[t := td.(doomed := td.doomed + {r}, left := td.left + {r})])
    case EndScan(t) => s.(teardowns := s.teardowns[t := s.teardowns[t].(scanning := false)])
    case Kill(t, r) =>
      var visited := s.(teardowns := s.teardowns[t := s.teardowns[t].(left := s.teardowns[t].left - {r})]);
      if r !in s.pending then visited
      else visited.(pending := s.pending - {r}, inFlight := s.inFlight[s.pending[r] := ByTeardown(t)])
  }

  function EndStep(k: nat, why: Ending): Step
  {
    match why
    case Woken => Wake(k)
    case TimedOut => Timeout(k)
    case Rejected => Reject(k)
  }

  function Next(s: State, step: Step): State { if Enabled(s, step) then Take(s, step) else s }

  function Run(steps: seq<Step>): State
  {
    if steps == [] then INITIAL else Next(Run(steps[..|steps| - 1]), steps[|steps| - 1])
  }

  // ---------------------------------------------------------------- invariant

  /** Call, request id and deferred are allocated in lockstep, and the table only relates them. */
  ghost predicate TableInv(s: State)
  {
    && s.nextReqId == |s.calls| + 1 && |s.deferreds| == |s.calls|
    && (forall k :: 0 <= k < |s.calls| ==> s.calls[k].reqId == k + 1 && s.calls[k].deferred == k)
    && (forall r :: r in s.pending ==> 1 <= r < s.nextReqId && s.pending[r] == r - 1)
    && (forall k :: 0 <= k < |s.calls| && s.calls[k].phase.Finished? ==> s.calls[k].reqId !in s.pending)
  }

  predicate CauseFits(s: State, d: nat, c: Cause)
    requires d < |s.deferreds|
  {
    match c
    case ByFill(r, _) => r == d + 1
    case ByChannel(k, _) => k == d
    case ByTeardown(t) =>
      t < |s.teardowns| && s.teardowns[t].identity == s.deferreds[d].owner && d + 1 in s.teardowns[t].doomed
  }

  ghost predicate CausesInv(s: State)
  {
    && (forall d :: 0 <= d < |s.deferreds| && s.deferreds[d].cause.Some? ==> CauseFits(s, d, s.deferreds[d].cause.value))
    && (forall d :: d in s.inFlight ==> d < |s.deferreds| && d + 1 !in s.pending && CauseFits(s, d, s.inFlight[d]))
  }

  ghost predicate TeardownsInv(s: State)
  {
    forall t :: 0 <= t < |s.teardowns| ==> TeardownFits(s, s.teardowns[t])
  }

  ghost predicate TeardownFits(s: State, td: Teardown)
  {
    && td.left <= td.doomed
    && (forall r :: r in td.doomed || r in td.due ==>
          1 <= r < s.nextReqId && r <= |s.deferreds| && s.deferreds[r - 1].owner == td.identity)
    && (forall r :: r in td.doomed && r !in td.left ==> r !in s.pending)
    && (!td.scanning ==> forall r :: r in td.due && r in s.pending ==> r in td.doomed)
  }

  /** A call that stopped waiting holds what its deferred was settled with, or timed out or was rejected. */
  predicate PhaseFits(s: State, k: nat)
    requires k < |s.calls| && k < |s.deferreds|
  {
    match s.calls[k].phase
    case Waiting => true
    case _ =>
      var why, result := s.calls[k].phase.why, s.calls[k].phase.result;
      if why.Woken? then s.deferreds[k].cause.Some? && result == CauseResult(s.deferreds[k].cause.value)
      else result == Fails(INTERNAL_ERROR)
  }

  /** An id leaves the table only with its call: settled, about to be settled, or finished. */
  predicate Accounted(s: State, k: nat)
    requires k < |s.calls| && k < |s.deferreds|
  {
    k + 1 in s.pending || s.deferreds[k].cause.Some? || k in s.inFlight || s.calls[k].phase.Finished?
  }

  ghost predicate ResultsInv(s: State)
  {
    && |s.deferreds| == |s.calls|
    && forall k :: 0 <= k < |s.calls| ==> PhaseFits(s, k) && Accounted(s, k)
  }

  ghost predicate Inv(s: State) { TableInv(s) && CausesInv(s) && TeardownsInv(s) && ResultsInv(s) }

  lemma TableStep(s: State, step: Step)
    requires Inv(s) && Enabled(s, step)
    ensures TableInv(Take(s, step))
  {
    hide CausesInv, ResultsInv, TeardownsInv;
  }

  lemma TeardownStays(s: State, step: Step, t: nat)
    requires Enabled(s, step) && t < |s.teardowns|
    ensures var u := Take(s, step);
      && t < |u.teardowns| && u.teardowns[t].identity == s.teardowns[t].identity
      && s.teardowns[t].doomed <= u.teardowns[t].doomed
  {
  }

  lemma CauseStays(s: State, step: Step, d: nat, c: Cause)
    requires Enabled(s, step) && d < |s.deferreds| && CauseFits(s, d, c)
    ensures d < |Take(s, step).deferreds| && CauseFits(Take(s, step), d, c)
  {
    if c.ByTeardown? {
      TeardownStays(s, step, c.teardown);
    }
    OwnerStays(s, step, d);
    hide Take, Enabled;
  }

  lemma OwnerStays(s: State, step: Step, d: nat)
    requires Enabled(s, step) && d < |s.deferreds|
    ensures d < |Take(s, step).deferreds| && Take(s, step).deferreds[d].owner == s.deferreds[d].owner
  {
  }

  /** What a step settles, or takes out of the table, and for which cause. */
  lemma NewCauses(s: State, step: Step, d: nat)
    requires TableInv(s) && Enabled(s, step) && d < |Take(s, step).deferreds|
    ensures var t := Take(s, step);
      && (t.deferreds[d].cause.Some? ==>
            || (d < |s.deferreds| && t.deferreds[d].cause == s.deferreds[d].cause)
            || (step == Deliver(d) && t.deferreds[d].cause.value == s.inFlight[d])
            || (step.ChannelError? && step.call == d && t.deferreds[d].cause.value == ByChannel(d, step.failure)))
  {
  }

  lemma NewInFlight(s: State, step: Step, d: nat)
    requires TableInv(s) && Enabled(s, step) && d in Take(s, step).inFlight
    ensures var t := Take(s, step);
      || (d in s.inFlight && t.inFlight[d] == s.inFlight[d] && !(step == Deliver(d)))
      || (step.FillIn? && step.reqId in s.pending && d + 1 == step.reqId && t.inFlight[d] == ByFill(step.reqId, step.fill))
      || (step.Kill? && step.reqId in s.pending && d + 1 == step.reqId && t.inFlight[d] == ByTeardown(step.teardown))
  {
  }

  lemma InFlightStep(s: State, step: Step, d: nat)
    requires TableInv(s) && CausesInv(s) && TeardownsInv(s) && Enabled(s, step) && d in Take(s, step).inFlight
    ensures var t := Take(s, step); d < |t.deferreds| && d + 1 !in t.pending && CauseFits(t, d, t.inFlight[d])
  {
    NewInFlight(s, step, d);
    if d in s.inFlight && Take(s, step).inFlight[d] == s.inFlight[d] && step != Deliver(d) {
      CauseStays(s, step, d, s.inFlight[d]);
      hide CauseFits, TeardownsInv;
    } else if step.Kill? {
      assert TeardownFits(s, s.teardowns[step.teardown]);
    }
  }

  lemma CausesStep(s: State, step: Step)
    requires Inv(s) && Enabled(s, step)
    ensures CausesInv(Take(s, step))
  {
    var t := Take(s, step);
    forall d | 0 <= d < |t.deferreds| && t.deferreds[d].cause.Some? ensures CauseFits(t, d, t.deferreds[d].cause.value) {
      NewCauses(s, step, d);
      hide Take, Enabled, TeardownsInv, ResultsInv;
      if d < |s.deferreds| {
        if t.deferreds[d].cause == s.deferreds[d].cause {
          CauseStays(s, step, d, s.deferreds[d].cause.value);
        } else if step == Deliver(d) {
          CauseStays(s, step, d, s.inFlight[d]);
        }
      }
    }
    forall d | d in t.inFlight ensures d < |t.deferreds| && d + 1 !in t.pending && CauseFits(t, d, t.inFlight[d]) {
      InFlightStep(s, step, d);
    }
    hide Take, Inv, CauseFits;
  }

  lemma TeardownStep(s: State, step: Step, t: nat)
    requires TableInv(s) && Enabled(s, step) && t < |s.teardowns| && TeardownFits(s, s.teardowns[t])
    ensures t < |Take(s, step).teardowns| && TeardownFits(Take(s, step), Take(s, step).teardowns[t])
  {
  }

  lemma ScanFits(s: State, identity: Identity)
    requires TableInv(s)
    ensures var t := Take(s, Scan(identity)); TeardownFits(t, t.teardowns[|s.teardowns|])
  {
  }

  lemma TeardownsStep(s: State, step: Step)
    requires TableInv(s) && TeardownsInv(s) && Enabled(s, step)
    ensures TeardownsInv(Take(s, step))
  {
    var u := Take(s, step);
    if step.Scan? {
      ScanFits(s, step.identity);
    }
    assert |u.teardowns| == |s.teardowns| + if step.Scan? then 1 else 0;
    hide TableInv, TeardownFits, Take, Enabled;
    forall t | 0 <= t < |u.teardowns| ensures TeardownFits(u, u.teardowns[t]) {
      if t < |s.teardowns| {
        TeardownStep(s, step, t);
      }
    }
  }

  lemma PhaseStep(s: State, step: Step, k: nat)
    requires TableInv(s) && ResultsInv(s) && Enabled(s, step)
    requires k < |Take(s, step).calls| && k < |Take(s, step).deferreds|
    ensures PhaseFits(Take(s, step), k)
  {
    if k < |s.calls| {
      assert PhaseFits(s, k);
    }
  }

  lemma AccountedStep(s: State, step: Step, k: nat)
    requires TableInv(s) && ResultsInv(s) && Enabled(s, step)
    requires k < |Take(s, step).calls| && k < |Take(s, step).deferreds|
    ensures Accounted(Take(s, step), k)
  {
    if k < |s.calls| {
      assert Accounted(s, k);
    }
  }

  lemma ResultsStep(s: State, step: Step)
    requires Inv(s) && Enabled(s, step)
    ensures ResultsInv(Take(s, step))
  {
    var t := Take(s, step);
    TableStep(s, step);
    assert |t.deferreds| == |t.calls|;
    hide TableInv, CausesInv, TeardownsInv, PhaseFits, Accounted, Take;
    forall k | 0 <= k < |t.calls| ensures PhaseFits(t, k) && Accounted(t, k) {
      PhaseStep(s, step, k);
      AccountedStep(s, step, k);
    }
  }

  lemma StepKeepsInv(s: State, step: Step)
    requires Inv(s) && Enabled(s, step)
    ensures Inv(Take(s, step))
  {
    TableStep(s, step);
    CausesStep(s, step);
    TeardownsStep(s, step);
    ResultsStep(s, step);
    hide TableInv, CausesInv, TeardownsInv, ResultsInv, Take;
  }

  lemma {:induction false} InvAlways(steps: seq<Step>)
    ensures Inv(Run(steps))
  {
    if steps != [] {
      var n := |steps| - 1;
      InvAlways(steps[..n]);
      if Enabled(Run(steps[..n]), steps[n]) {
        StepKeepsInv(Run(steps[..n]), steps[n]);
      }
    }
  }

  // ---------------------------------------------------------------- whole runs

  /** The run contains what the cause says happened. */
  predicate Happened(steps: seq<Step>, s: State, c: Cause)
  {
    match c
    case ByFill(r, fill) => FillIn(r, fill) in steps
    case ByChannel(k, failure) => ChannelError(k, failure) in steps
    case ByTeardown(t) => t < |s.teardowns| && Scan(s.teardowns[t].identity) in steps
  }

  ghost predicate AllHappened(steps: seq<Step>, s: State)
  {
    && (forall t :: 0 <= t < |s.teardowns| ==> Scan(s.teardowns[t].identity) in steps)
    && (forall d :: 0 <= d < |s.deferreds| && s.deferreds[d].cause.Some? ==> Happened(steps, s, s.deferreds[d].cause.value))
    && (forall d :: d in s.inFlight ==> Happened(steps, s, s.inFlight[d]))
  }

  lemma HappenedStays(steps: seq<Step>, s: State, step: Step, c: Cause)
    requires Enabled(s, step) && Happened(steps, s, c)
    ensures Happened(steps + [step], Take(s, step), c)
  {
    assert forall x :: x in steps ==> x in steps + [step];
    if c.ByTeardown? {
      TeardownStays(s, step, c.teardown);
    }
    hide Take, Enabled;
  }

  lemma ScansHappened(steps: seq<Step>, s: State, step: Step, t: nat)
    requires AllHappened(steps, s) && Enabled(s, step) && t < |Take(s, step).teardowns|
    ensures Scan(Take(s, step).teardowns[t].identity) in steps + [step]
  {
    var longer := steps + [step];
    assert step in longer && forall x :: x in steps ==> x in longer;
    if t < |s.teardowns| {
      TeardownStays(s, step, t);
      hide Take, Enabled;
    }
    hide Happened;
  }

  lemma HappenedStep(steps: seq<Step>, s: State, step: Step)
    requires Inv(s) && AllHappened(steps, s) && Enabled(s, step)
    ensures AllHappened(steps + [step], Take(s, step))
  {
    var longer := steps + [step];
    var t := Take(s, step);
    assert step in longer;
    forall k | 0 <= k < |t.teardowns| ensures Scan(t.teardowns[k].identity) in longer {
      ScansHappened(steps, s, step, k);
    }
    forall d | 0 <= d < |t.deferreds| && t.deferreds[d].cause.Some? ensures Happened(longer, t, t.deferreds[d].cause.value) {
      NewCauses(s, step, d);
      hide Take, Enabled;
      if d < |s.deferreds| && t.deferreds[d].cause == s.deferreds[d].cause {
        HappenedStays(steps, s, step, s.deferreds[d].cause.value);
      } else if step == Deliver(d) {
        HappenedStays(steps, s, step, s.inFlight[d]);
      }
    }
    forall d | d in t.inFlight ensures Happened(longer, t, t.inFlight[d]) {
      NewInFlight(s, step, d);
      if d in s.inFlight && t.inFlight[d] == s.inFlight[d] {
        HappenedStays(steps, s, step, s.inFlight[d]);
      } else if step.Kill? {
        TeardownStays(s, step, step.teardown);
        ScansHappened(steps, s, step, step.teardown);
      }
      hide Take, Enabled;
    }
    hide Take, Inv, Happened;
  }

  lemma {:induction false} EverythingHappened(steps: seq<Step>)
    ensures AllHappened(steps, Run(steps))
  {
    if steps != [] {
      var n := |steps| - 1;
      EverythingHappened(steps[..n]);
      InvAlways(steps[..n]);
      assert steps == steps[..n] + [steps[n]];
      if Enabled(Run(steps[..n]), steps[n]) {
        HappenedStep(steps[..n], Run(steps[..n]), steps[n]);
      } else {
        assert forall x :: x in steps[..n] ==> x in steps;
      }
    }
  }

  /** Whatever settled a call came from its own request id, its own channel reply, or a teardown of its owner. */
  lemma {:induction false} SettledOnlyByItsOwn(steps: seq<Step>, k: nat)
    requires k < |Run(steps).calls|
    ensures var s := Run(steps);
      s.calls[k].deferred == k < |s.deferreds| &&
      match s.deferreds[k].cause
      case None => true
      case Some(ByFill(r, fill)) => r == s.calls[k].reqId && FillIn(r, fill) in steps
      case Some(ByChannel(c, failure)) => c == k && ChannelError(k, failure) in steps
      case Some(ByTeardown(t)) =>
        t < |s.teardowns| && s.teardowns[t].identity == s.deferreds[k].owner &&
        s.calls[k].reqId in s.teardowns[t].doomed && Scan(s.deferreds[k].owner) in steps
  {
    InvAlways(steps);
    EverythingHappened(steps);
    var s := Run(steps);
    if s.deferreds[k].cause.Some? {
      assert CauseFits(s, k, s.deferreds[k].cause.value);
      assert Happened(steps, s, s.deferreds[k].cause.value);
    }
  }

  /**
   What `reverseInvoke` hands its caller: the result of the fill-in that named its own request id, the
   failure of its own channel reply, or an internal error, and that only because a teardown of its own
   identity collected it, it timed out, or its post was rejected.
   */
  lemma {:induction false} ResultIsItsOwn(steps: seq<Step>, k: nat)
    requires k < |Run(steps).calls| && !Run(steps).calls[k].phase.Waiting?
    ensures var s := Run(steps);
      var id, result := s.calls[k].reqId, s.calls[k].phase.result;
      match s.calls[k].phase.why
      case Woken =>
        || (exists fill :: FillIn(id, fill) in steps && Yields(fill, result))
        || (exists failure :: ChannelError(k, failure) in steps && result == Fails(failure))
        || (exists t :: 0 <= t < |s.teardowns| && id in s.teardowns[t].doomed && k < |s.deferreds| &&
              s.teardowns[t].identity == s.deferreds[k].owner && IsInternalError(result))
      case TimedOut => IsInternalError(result) && Timeout(k) in steps
      case Rejected => IsInternalError(result) && Reject(k) in steps
  {
    InvAlways(steps);
    SettledOnlyByItsOwn(steps, k);
    EndingHappened(steps, k);
    var s := Run(steps);
    assert PhaseFits(s, k);
    if s.calls[k].phase.why.Woken? && s.deferreds[k].cause.value.ByFill? {
      FillYields(s.deferreds[k].cause.value.fill);
    }
  }

  lemma {:induction false} EndingHappened(steps: seq<Step>, k: nat)
    requires k < |Run(steps).calls| && !Run(steps).calls[k].phase.Waiting?
    ensures Run(steps).calls[k].phase.why.TimedOut? ==> Timeout(k) in steps
    ensures Run(steps).calls[k].phase.why.Rejected? ==> Reject(k) in steps
  {
    var n := |steps| - 1;
    var s := Run(steps[..n]);
    InvAlways(steps[..n]);
    if k < |s.calls| && !s.calls[k].phase.Waiting? {
      EndingHappened(steps[..n], k);
      OneStepUndoesNothing(s, steps[n], k);
    } else {
      assert steps[n] in steps;
    }
  }

  /** Settlements and results never change, ids are never reused, and a finished call's id never returns. */
  lemma {:induction false} NothingIsUndone(steps: seq<Step>, more: seq<Step>, k: nat)
    requires k < |Run(steps).calls|
    ensures var s, t := Run(steps), Run(steps + more);
      && k < |t.calls| && k < |s.deferreds| && k < |t.deferreds|
      && t.calls[k].reqId == s.calls[k].reqId && t.calls[k].deferred == s.calls[k].deferred == k
      && (s.deferreds[k].cause.Some? ==> t.deferreds[k] == s.deferreds[k])
      && Ended(s.calls[k], t.calls[k])
      && (s.calls[k].phase.Finished? ==> t.calls[k].reqId !in t.pending)
  {
    InvAlways(steps);
    InvAlways(steps + more);
    if more == [] {
      assert steps + more == steps;
    } else {
      var n := |more| - 1;
      assert (steps + more)[..|steps + more| - 1] == steps + more[..n];
      NothingIsUndone(steps, more[..n], k);
      InvAlways(steps + more[..n]);
      OneStepUndoesNothing(Run(steps + more[..n]), more[n], k);
    }
  }

  /** A call that has its result keeps it, with its reason, and stays finished once it is. */
  predicate Ended(before: Call, after: Call)
  {
    && (!before.phase.Waiting? ==>
          !after.phase.Waiting? && after.phase.why == before.phase.why && after.phase.result == before.phase.result)
    && (before.phase.Finished? ==> after.phase.Finished?)
  }

  lemma OneStepUndoesNothing(s: State, step: Step, k: nat)
    requires Inv(s) && k < |s.calls|
    ensures var t := Next(s, step);
      && k < |t.calls| && k < |t.deferreds|
      && t.calls[k].reqId == s.calls[k].reqId && t.calls[k].deferred == s.calls[k].deferred
      && (s.deferreds[k].cause.Some? ==> t.deferreds[k] == s.deferreds[k])
      && Ended(s.calls[k], t.calls[k])
  {
    hide TeardownsInv, CausesInv;
  }

  /**
   A fill-in whose id is no longer pending changes nothing; one that is pending takes that id out, and what
   it delivers settles that call alone, unless the call was settled before.
   */
  lemma {:induction false} FillInTouchesOneCall(steps: seq<Step>, r: nat, fill: Fill)
    ensures var s := Run(steps);
      var taken := Take(s, FillIn(r, fill));
      && (r !in s.pending ==> taken == s)
      && (r in s.pending ==>
            1 <= r <= |s.calls| && s.calls[r - 1].reqId == r && |s.deferreds| == |s.calls| && Enabled(taken, Deliver(r - 1)) &&
            Take(taken, Deliver(r - 1)) == SettledBy(s, r, ByFill(r, fill)))
  {
    InvAlways(steps);
    if r in Run(steps).pending {
      TakenOutAndSettled(Run(steps), r, ByFill(r, fill));
    }
  }

  /** `s` after request `r` was taken out of the table and settled, unless it was settled before. */
  function SettledBy(s: State, r: nat, c: Cause): State
    requires 1 <= r <= |s.deferreds|
  {
    var d := s.deferreds[r - 1];
    s.(pending := s.pending - {r}, deferreds := s.deferreds[r - 1 := if d.cause.None? then d.(cause := Some(c)) else d])
  }

  lemma TakenOutAndSettled(s: State, r: nat, c: Cause)
    requires Inv(s) && r in s.pending
    ensures 1 <= r <= |s.calls| && s.calls[r - 1].reqId == r && |s.deferreds| == |s.calls| && s.pending[r] == r - 1
    ensures var taken := s.(pending := s.pending - {r}, inFlight := s.inFlight[r - 1 := c]);
      Settle(taken.(inFlight := taken.inFlight - {r - 1}), r - 1, c) == SettledBy(s, r, c)
  {
    assert r - 1 !in s.inFlight;
    hide Inv;
    assert s.inFlight[r - 1 := c] - {r - 1} == s.inFlight;
  }

  /** The walk of a teardown began at a step of the run, and its entries were in the table then. */
  lemma {:induction false} ScanBegan(steps: seq<Step>, t: nat) returns (i: nat)
    requires t < |Run(steps).teardowns|
    ensures i < |steps| && steps[i] == Scan(Run(steps).teardowns[t].identity)
    ensures Run(steps).teardowns[t].due == OwnedPending(Run(steps[..i]), Run(steps).teardowns[t].identity)
  {
    var n := |steps| - 1;
    var s := Run(steps[..n]);
    if t < |s.teardowns| {
      i := ScanBegan(steps[..n], t);
      assert steps[..n][..i] == steps[..i];
    } else {
      i := n;
    }
  }

  /**
   A teardown that has walked the table has collected every call of its identity that was in the table when
   the walk began and still is, and only calls of its identity.
   */
  lemma {:induction false} ScanCollects(steps: seq<Step>, t: nat, k: nat)
    requires t < |Run(steps).teardowns| && !Run(steps).teardowns[t].scanning && k < |Run(steps).calls|
    ensures var s := Run(steps);
      && k < |s.deferreds|
      && (s.calls[k].reqId in s.teardowns[t].due && s.calls[k].reqId in s.pending ==> s.calls[k].reqId in s.teardowns[t].doomed)
      && (s.calls[k].reqId in s.teardowns[t].doomed ==> s.deferreds[k].owner == s.teardowns[t].identity)
  {
    InvAlways(steps);
    assert TeardownFits(Run(steps), Run(steps).teardowns[t]);
  }

  /**
   Once a teardown has walked the table and visited everything it collected, none of its identity's calls
   that were in the table when it began, and none it collected, is there any more: each is settled, about to
   be settled, or finished.  It failed only calls it collected, all of its own identity.
   */
  lemma {:induction false} TeardownClearsItsOwn(steps: seq<Step>, t: nat, k: nat)
    requires t < |Run(steps).teardowns| && !Run(steps).teardowns[t].scanning && Run(steps).teardowns[t].left == {}
    requires k < |Run(steps).calls|
    ensures var s := Run(steps);
      var id := s.calls[k].reqId;
      && k < |s.deferreds|
      && (id in s.teardowns[t].due || id in s.teardowns[t].doomed ==>
            id !in s.pending && (s.deferreds[k].cause.Some? || k in s.inFlight || s.calls[k].phase.Finished?))
      && (s.deferreds[k].cause == Some(ByTeardown(t)) ==>
            s.deferreds[k].owner == s.teardowns[t].identity && id in s.teardowns[t].doomed)
  {
    InvAlways(steps);
    var s := Run(steps);
    assert TeardownFits(s, s.teardowns[t]);
    assert Accounted(s, k);
    if s.deferreds[k].cause.Some? {
      assert CauseFits(s, k, s.deferreds[k].cause.value);
    }
  }

  /** A visit fails the call it takes out of the table, unless that call was settled before. */
  lemma {:induction false} VisitFails(steps: seq<Step>, t: nat, r: nat)
    requires Enabled(Run(steps), Kill(t, r)) && r in Run(steps).pending
    ensures var s := Run(steps);
      var visited := s.(teardowns := s.teardowns[t := s.teardowns[t].(left := s.teardowns[t].left - {r})]);
      && 1 <= r <= |s.deferreds| && Enabled(Take(s, Kill(t, r)), Deliver(r - 1))
      && Take(Take(s, Kill(t, r)), Deliver(r - 1)) == SettledBy(visited, r, ByTeardown(t))
  {
    InvAlways(steps);
    TakenOutAndSettled(Run(steps), r, ByTeardown(t));
    hide Inv;
  }

  // ---------------------------------------------------------------- the bridge object

  class NativeControlPlaneBridge {
    var pending: map<nat, nat>
    var inFlight: map<nat, Cause>
    var deferreds: seq<Deferred>
    var calls: seq<Call>
    var nextReqId: nat
    var teardowns: seq<Teardown>
    var eventFlows: set<Identity>

    function Abs(): State
      reads this
    {
      State(nextReqId, pending, inFlight, deferreds, calls, teardowns, eventFlows)
    }

    ghost predicate Valid()
      reads this
    {
      Inv(Abs())
    }

    constructor ()
      ensures Abs() == INITIAL && Valid()
    {
      pending, inFlight, deferreds, calls := map[], map[], [], [];
      nextReqId, teardowns, eventFlows := 1, [], {};
    }

    /** `reverseInvoke` up to its await: the call is registered before it is posted. */
    method ReverseInvoke(owner: Identity) returns (call: nat)
      requires Valid()
      modifies this
      ensures Valid() && Abs() == Take(old(Abs()), Invoke(owner)) && call == |old(calls)|
    {
      StepKeepsInv(Abs(), Invoke(owner));
      hide Inv;
      var reqId, d := nextReqId, |deferreds|;
      nextReqId := nextReqId + 1;
      deferreds := deferreds + [Deferred(owner, None)];
      pending := pending[reqId := d];
      call := |calls|;
      calls := calls + [Call(reqId, d, Waiting)];
    }

    /** The rest of `reverseInvoke`, run in one go: the await ends, and the id leaves the table. */
    method Return(k: nat, why: Ending) returns (result: Result)
      requires Valid() && Enabled(Abs(), EndStep(k, why))
      modifies this
      ensures Valid() && Abs() == Take(Take(old(Abs()), EndStep(k, why)), Leave(k))
      ensures k < |calls| && calls[k].phase == Finished(why, result) && calls[k].reqId !in pending
      ensures if why.Woken? then
          k < |deferreds| && deferreds[k].cause.Some? &&
          match deferreds[k].cause.value
          case ByFill(_, fill) => Yields(fill, result)
          case ByChannel(_, failure) => result == Fails(failure)
          case ByTeardown(_) => IsInternalError(result)
        else IsInternalError(result)
    {
      assert calls[k].deferred == k < |deferreds|;
      if why.Woken? && deferreds[k].cause.value.ByFill? {
        FillYields(deferreds[k].cause.value.fill);
      }
      ghost var ended := Take(Abs(), EndStep(k, why));
      StepKeepsInv(Abs(), EndStep(k, why));
      assert Enabled(ended, Leave(k));
      StepKeepsInv(ended, Leave(k));
      hide Inv;
      var call := calls[k];
      result := Fails(INTERNAL_ERROR);
      if why.Woken? {
        result := CauseResult(deferreds[call.deferred].cause.value);
      }
      assert ended.calls[k] == call.(phase := Leaving(why, result));
      calls := calls[k := call.(phase := Finished(why, result))];
      assert calls == ended.calls[k := call.(phase := Finished(why, result))];
      pending := pending - {call.reqId};
    }

    /** `complete` and `completeExceptionally`: true for the one that settles. */
    method CompleteDeferred(d: nat, c: Cause) returns (ok: bool)
      modifies this`deferreds
      ensures Abs() == Settle(old(Abs()), d, c)
      ensures ok == (d < |old(deferreds)| && old(deferreds)[d].cause.None?)
    {
      ok := d < |deferreds| && deferreds[d].cause.None?;
      if ok {
        deferreds := deferreds[d := deferreds[d].(cause := Some(c))];
      }
    }

    /** `completeInvoke` and `completeState` run in one go: true exactly if this fill-in settled the call. */
    method Complete(reqId: nat, fill: Fill) returns (accepted: bool)
      requires Valid()
      modifies this
      ensures Valid()
      ensures Abs() == if reqId in old(pending) then Take(Take(old(Abs()), FillIn(reqId, fill)), Deliver(reqId - 1))
                       else old(Abs())
      ensures accepted <==>
        reqId in old(pending) && 1 <= reqId <= |old(deferreds)| && old(deferreds)[reqId - 1].cause.None?
    {
      if reqId !in pending {
        return false;
      }
      StepKeepsInv(Abs(), FillIn(reqId, fill));
      var d := TakeOut(reqId, ByFill(reqId, fill));
      assert d == reqId - 1 && inFlight[d] == ByFill(reqId, fill);
      StepKeepsInv(Abs(), Deliver(d));
      hide Inv;
      inFlight := inFlight - {d};
      accepted := CompleteDeferred(d, ByFill(reqId, fill));
    }

    /** `pending.remove`: from here on this caller alone settles the deferred. */
    method TakeOut(reqId: nat, c: Cause) returns (d: nat)
      requires reqId in pending
      modifies this`pending, this`inFlight
      ensures d == old(pending)[reqId]
      ensures pending == old(pending) - {reqId} && inFlight == old(inFlight)[d := c]
    {
      d := pending[reqId];
      pending := pending - {reqId};
      inFlight := inFlight[d := c];
    }

    /**
     `teardownCapability` run in one go: the walk, then every collected entry in some order.  The event flow
     is dropped, and the pending calls of exactly this identity are removed, each failed unless it was
     settled already.
     */
    method TeardownCapability(identity: Identity) returns (ghost order: seq<nat>)
      requires Valid()
      modifies this
      ensures Valid() && Lists(order, OwnedPending(old(Abs()), identity))
      ensures Abs() == Apply(old(Abs()), TeardownSteps(|old(teardowns)|, identity, order))
      ensures Abs() == TornDown(old(Abs()), identity)
    {
      ghost var s := Abs();
      hide Inv, OwnedPending, Partly, Visit, Lists, Apply, Take;
      PartlyKeepsInv(s, identity);
      var n := |teardowns|;
      var doomed := Collect(identity);
      order := KillAll(s, identity, doomed, n);
      VisitsTearDown(s, identity, order);
    }

    /** The event flow is dropped and the entries of the identity are collected. */
    method Collect(identity: Identity) returns (doomed: set<nat>)
      modifies this
      ensures Abs() == Partly(old(Abs()), identity, {}) && doomed == OwnedPending(old(Abs()), identity)
    {
      NothingGone(Abs(), identity);
      doomed := OwnedPending(Abs(), identity);
      eventFlows := eventFlows - {identity};
      teardowns := teardowns + [Teardown(identity, false, doomed, doomed, doomed)];
    }

    /** The loop over the collected entries. */
    method KillAll(ghost s: State, identity: Identity, doomed: set<nat>, n: nat) returns (ghost order: seq<nat>)
      requires Inv(s) && Inv(Abs()) && doomed == OwnedPending(s, identity) && n == |s.teardowns|
      requires Abs() == Partly(s, identity, {})
      modifies this
      ensures Inv(Abs()) && Lists(order, doomed) && Abs() == TornDown(s, identity)
    {
      hide Inv, OwnedPending, Partly, Visit, Lists;
      order := [];
      ListsNone();
      assert doomed - doomed == {};
      var left := doomed;
      while left != {}
        invariant Inv(Abs()) && left <= doomed
        invariant Lists(order, doomed - left)
        invariant Abs() == Partly(s, identity, doomed - left)
        decreases |left|
      {
        var r :| r in left;
        VisitStep(s, identity, doomed - left, r);
        VisitKeepsInv(Abs(), n, r);
        ListsSnoc(order, doomed - left, r);
        assert doomed - (left - {r}) == (doomed - left) + {r};
        order := order + [r];
        left := left - {r};
        KillEntry(n, r);
      }
      assert doomed - {} == doomed;
    }

    /** One visit: take the entry out and fail its deferred unless it is settled. */
    method KillEntry(t: nat, r: nat)
      requires Enabled(Abs(), Kill(t, r)) && r in pending
      modifies this
      ensures Abs() == Visit(old(Abs()), t, r)
    {
      teardowns := teardowns[t := teardowns[t].(left := teardowns[t].left - {r})];
      var d := TakeOut(r, ByTeardown(t));
      inFlight := inFlight - {d};
      var _ := CompleteDeferred(d, ByTeardown(t));
    }
  }

  // ---------------------------------------------------------------- a teardown run in one go

  function Apply(s: State, steps: seq<Step>): State
    decreases steps
  {
    if steps == [] then s else Apply(Next(s, steps[0]), steps[1..])
  }

  /** The loop over the collected entries: take one out, settle it, go on. */
  function VisitSteps(t: nat, order: seq<nat>): seq<Step>
  {
    if order == [] then [] else [Kill(t, order[0]), Deliver(if order[0] > 0 then order[0] - 1 else 0)] + VisitSteps(t, order[1..])
  }

  /** The walk that sees the entries in this order. */
  function SeeSteps(t: nat, order: seq<nat>): seq<Step>
  {
    if order == [] then [EndScan(t)] else [See(t, order[0])] + SeeSteps(t, order[1..])
  }

  function TeardownSteps(t: nat, identity: Identity, order: seq<nat>): seq<Step>
  {
    [Scan(identity)] + SeeSteps(t, order) + VisitSteps(t, order)
  }

  function Visit(s: State, t: nat, r: nat): State
    requires Enabled(s, Kill(t, r)) && r in s.pending
  {
    Take(Take(s, Kill(t, r)), Deliver(s.pending[r]))
  }

  /** `order` lists the elements of `all`, each once. */
  ghost predicate Lists(order: seq<nat>, all: set<nat>)
  {
    && (forall r :: r in order <==> r in all)
    && (forall i, j :: 0 <= i < j < |order| ==> order[i] != order[j])
  }

  lemma ListsNone()
    ensures Lists([], {})
  {
  }

  lemma ListsSnoc(order: seq<nat>, all: set<nat>, r: nat)
    requires Lists(order, all) && r !in all
    ensures Lists(order + [r], all + {r})
  {
  }

  /** The deferreds of the requests in `doomed` failed by teardown `n`, unless settled before. */
  function FailAll(ds: seq<Deferred>, doomed: set<nat>, n: nat): seq<Deferred>
  {
    seq(|ds|, d requires 0 <= d < |ds| =>
      if d + 1 in doomed && ds[d].cause.None? then ds[d].(cause := Some(ByTeardown(n))) else ds[d])
  }

  /** A teardown that has visited the entries in `gone`. */
  function Partly(s: State, identity: Identity, gone: set<nat>): State
  {
    var doomed := OwnedPending(s, identity);
    s.(eventFlows := s.eventFlows - {identity},
       pending := s.pending - gone,
       deferreds := FailAll(s.deferreds, gone, |s.teardowns|),
       teardowns := s.teardowns + [Teardown(identity, false, doomed, doomed, doomed - gone)])
  }

  /** A whole teardown: every pending call of the identity is removed and failed, nothing else changes. */
  function TornDown(s: State, identity: Identity): State { Partly(s, identity, OwnedPending(s, identity)) }

  lemma FailNone(ds: seq<Deferred>, n: nat)
    ensures FailAll(ds, {}, n) == ds
  {
  }

  lemma FailOneMore(ds: seq<Deferred>, doomed: set<nat>, r: nat, n: nat)
    requires 1 <= r <= |ds| && r !in doomed
    ensures |FailAll(ds, doomed, n)| == |ds|
    ensures var now := FailAll(ds, doomed, n);
      FailAll(ds, doomed + {r}, n) ==
        if now[r - 1].cause.None? then now[r - 1 := now[r - 1].(cause := Some(ByTeardown(n)))] else now
  {
  }

  lemma OwnedPendingSlots(s: State, identity: Identity)
    requires Inv(s)
    ensures forall r :: r in OwnedPending(s, identity) ==>
      r in s.pending && s.pending[r] == r - 1 && 1 <= r <= |s.deferreds| && r - 1 !in s.inFlight
  {
  }

  /** One visit removes one more entry. */
  lemma VisitStep(s: State, identity: Identity, gone: set<nat>, r: nat)
    requires Inv(s) && gone <= OwnedPending(s, identity) && r in OwnedPending(s, identity) && r !in gone
    ensures var t, n := Partly(s, identity, gone), |s.teardowns|;
      && Enabled(t, Kill(n, r)) && r in t.pending && t.pending[r] == r - 1 && r > 0
      && Visit(t, n, r) == Partly(s, identity, gone + {r})
  {
    var t, n := Partly(s, identity, gone), |s.teardowns|;
    OwnedPendingSlots(s, identity);
    hide Inv, FailAll, OwnedPending;
    FailOneMore(s.deferreds, gone, r, n);
    var doomed := OwnedPending(s, identity);
    assert doomed - gone - {r} == doomed - (gone + {r});
    assert s.pending - gone - {r} == s.pending - (gone + {r});
    assert t.inFlight[r - 1 := ByTeardown(n)] - {r - 1} == t.inFlight;
    var e, f := Teardown(identity, false, doomed, doomed, doomed - gone), Teardown(identity, false, doomed, doomed, doomed - (gone + {r}));
    assert (s.teardowns + [e])[n := f] == s.teardowns + [f];
  }

  lemma NothingGone(s: State, identity: Identity)
    ensures var doomed := OwnedPending(s, identity);
      Partly(s, identity, {}) == s.(eventFlows := s.eventFlows - {identity},
                                   teardowns := s.teardowns + [Teardown(identity, false, doomed, doomed, doomed)])
  {
    FailNone(s.deferreds, |s.teardowns|);
    assert s.pending - {} == s.pending;
    assert OwnedPending(s, identity) - {} == OwnedPending(s, identity);
  }

  /** A walk that has seen the entries in `seen`. */
  function Walked(s: State, identity: Identity, seen: set<nat>): State
  {
    s.(eventFlows := s.eventFlows - {identity},
       teardowns := s.teardowns + [Teardown(identity, true, OwnedPending(s, identity), seen, seen)])
  }

  lemma SeeStep(s: State, identity: Identity, seen: set<nat>, r: nat)
    requires r in OwnedPending(s, identity)
    ensures var t, n := Walked(s, identity, seen), |s.teardowns|;
      Enabled(t, See(n, r)) && Take(t, See(n, r)) == Walked(s, identity, seen + {r})
  {
    assert OwnedPending(Walked(s, identity, seen), identity) == OwnedPending(s, identity);
    hide OwnedPending;
  }

  lemma EndStepOfWalk(s: State, identity: Identity)
    ensures var t, n := Walked(s, identity, OwnedPending(s, identity)), |s.teardowns|;
      Enabled(t, EndScan(n)) && Take(t, EndScan(n)) == Partly(s, identity, {})
  {
    NothingGone(s, identity);
    hide OwnedPending, Partly;
  }

  /** Seeing all entries of the identity one by one collects them. */
  lemma {:induction false} WalkFrom(s: State, identity: Identity, seen: set<nat>, order: seq<nat>, more: seq<Step>)
    requires seen <= OwnedPending(s, identity) && Lists(order, OwnedPending(s, identity) - seen)
    ensures Apply(Walked(s, identity, seen), SeeSteps(|s.teardowns|, order) + more) == Apply(Partly(s, identity, {}), more)
    decreases |order|
  {
    var due := OwnedPending(s, identity);
    var n := |s.teardowns|;
    if order == [] {
      forall r | r in due ensures r in seen {
        assert r !in order;
      }
      assert seen == due;
      EndStepOfWalk(s, identity);
      ApplyOne(Walked(s, identity, seen), EndScan(n), more);
    } else {
      var r := order[0];
      assert r in due - seen;
      SeeStep(s, identity, seen, r);
      ListsTail(order, due - seen);
      assert due - seen - {r} == due - (seen + {r});
      WalkFrom(s, identity, seen + {r}, order[1..], more);
      hide Walked, Partly, Take, Enabled, OwnedPending, Apply;
      assert SeeSteps(n, order) + more == [See(n, r)] + (SeeSteps(n, order[1..]) + more);
      ApplyOne(Walked(s, identity, seen), See(n, r), SeeSteps(n, order[1..]) + more);
    }
  }

  lemma ApplyOne(s: State, a: Step, more: seq<Step>)
    ensures Apply(s, [a] + more) == Apply(Next(s, a), more)
  {
    assert ([a] + more)[1..] == more;
  }

  lemma AddTeardown(s: State, td: Teardown, flows: set<Identity>)
    requires Inv(s) && TeardownFits(s, td)
    ensures Inv(s.(eventFlows := flows, teardowns := s.teardowns + [td]))
  {
    var t := s.(eventFlows := flows, teardowns := s.teardowns + [td]);
    forall d, c | 0 <= d < |s.deferreds| && CauseFits(s, d, c) ensures CauseFits(t, d, c) {
    }
    forall i | 0 <= i < |t.teardowns| ensures TeardownFits(t, t.teardowns[i]) {
      assert i < |s.teardowns| ==> TeardownFits(s, s.teardowns[i]);
    }
    assert TableInv(t) && CausesInv(t) && TeardownsInv(t);
    forall k | 0 <= k < |s.calls| ensures PhaseFits(t, k) && Accounted(t, k) {
      assert PhaseFits(s, k) && Accounted(s, k);
    }
  }

  lemma PartlyKeepsInv(s: State, identity: Identity)
    requires Inv(s)
    ensures Inv(Partly(s, identity, {}))
  {
    NothingGone(s, identity);
    OwnedPendingSlots(s, identity);
    var doomed := OwnedPending(s, identity);
    assert TeardownFits(s, Teardown(identity, false, doomed, doomed, doomed));
    hide Inv, Partly, OwnedPending, TeardownFits;
    AddTeardown(s, Teardown(identity, false, doomed, doomed, doomed), s.eventFlows - {identity});
  }

  lemma VisitKeepsInv(s: State, t: nat, r: nat)
    requires Inv(s) && Enabled(s, Kill(t, r)) && r in s.pending
    ensures Inv(Visit(s, t, r))
  {
    StepKeepsInv(s, Kill(t, r));
    StepKeepsInv(Take(s, Kill(t, r)), Deliver(s.pending[r]));
  }

  lemma {:induction false} VisitsFrom(s: State, identity: Identity, gone: set<nat>, order: seq<nat>)
    requires Inv(s) && gone <= OwnedPending(s, identity)
    requires Lists(order, OwnedPending(s, identity) - gone)
    ensures Apply(Partly(s, identity, gone), VisitSteps(|s.teardowns|, order)) == TornDown(s, identity)
    decreases |order|
  {
    var doomed := OwnedPending(s, identity);
    var t, n := Partly(s, identity, gone), |s.teardowns|;
    if order == [] {
      forall r | r in doomed ensures r in gone {
        assert r !in order;
      }
      assert gone == doomed;
    } else {
      var r := order[0];
      assert r in doomed - gone;
      VisitStep(s, identity, gone, r);
      ListsTail(order, doomed - gone);
      assert doomed - gone - {r} == doomed - (gone + {r});
      VisitsFrom(s, identity, gone + {r}, order[1..]);
      hide Inv, Partly, Take, OwnedPending, TornDown;
      ApplyTwo(t, Kill(n, r), Deliver(r - 1), VisitSteps(n, order[1..]));
      assert Enabled(Take(t, Kill(n, r)), Deliver(r - 1));
    }
  }

  lemma ListsTail(order: seq<nat>, all: set<nat>)
    requires Lists(order, all) && order != []
    ensures Lists(order[1..], all - {order[0]})
  {
    forall r ensures r in order[1..] <==> r in all - {order[0]} {
      if r in order[1..] {
        var i :| 0 <= i < |order[1..]| && order[1..][i] == r;
        assert order[i + 1] == r;
      }
      if r in all - {order[0]} {
        var i :| 0 <= i < |order| && order[i] == r;
        assert order[1..][i - 1] == r;
      }
    }
  }

  lemma ApplyTwo(s: State, a: Step, b: Step, more: seq<Step>)
    ensures Apply(s, [a, b] + more) == Apply(Next(Next(s, a), b), more)
  {
    assert ([a, b] + more)[1..] == [b] + more && ([b] + more)[1..] == more;
  }

  /** The walk and the visits of the collected entries, in any order, are a whole teardown. */
  lemma VisitsTearDown(s: State, identity: Identity, order: seq<nat>)
    requires Inv(s) && Lists(order, OwnedPending(s, identity))
    ensures Apply(s, TeardownSteps(|s.teardowns|, identity, order)) == TornDown(s, identity)
  {
    var n := |s.teardowns|;
    var sees, visits := SeeSteps(n, order), VisitSteps(n, order);
    assert OwnedPending(s, identity) - {} == OwnedPending(s, identity);
    assert Take(s, Scan(identity)) == Walked(s, identity, {});
    hide Inv, OwnedPending, Partly, Lists, Apply, Take, Walked;
    assert [Scan(identity)] + sees + visits == [Scan(identity)] + (sees + visits);
    ApplyOne(s, Scan(identity), sees + visits);
    WalkFrom(s, identity, {}, order, visits);
    VisitsFrom(s, identity, {}, order);
  }
}
