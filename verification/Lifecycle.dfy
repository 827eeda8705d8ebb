/**
 The start-once lifecycle of the control plane: `start`, `doStart`, `stop` and the transport's
 `bind` and `close`.  Every bind and close is one atomic step, and so is every lock section but that of a
 start: `stop` cancels and forgets the tracked pipe without the lock, so what a start reads and what it
 writes there are two steps, between which it keeps the lock.  Reading the tracked pipe and cancelling what
 was read is one step.  The steps of any number of callers, bind jobs and stops interleave freely.

 Two steps, BindLost and CloseLost, stand for a cancelled job whose `withContext` throws although
 the transport is bound.  The source's own comment assumes they do not happen; they are kept apart
 so that every theorem says what it owes to that assumption.
 */
module Lifecycle {
  import opened Wrappers

  /** What a bind job, or a caller of `start`, ends with. */
  datatype Outcome = Uri(port: nat) | BindFailure(code: nat) | WrongPort(requested: nat) | Superseded

  /** Where the coroutine body of one bind job stands. */
  datatype Phase =
    | Opening                        // holds the lock, opened its pipe, owes the write that tracks it
    | Binding                        // inside transport.bind
    | BoundUnchecked(port: nat)      // bind returned, stale check to come
    | StaleFound                     // found stale: owes the cancel of its pipe
    | StaleCancelled                 // owes the lock section that forgets its pipe
    | StaleClosing                   // owes transport.close
    | Returning(port: nat)           // owes the result-cache write
    | Throwing(error: Outcome)       // owes the failure-cache write
    | Ending(body: Outcome)          // body finished, Deferred not yet completed
    | Done(body: Outcome, final: Outcome)

  datatype Job = Job(attempt: nat, phase: Phase, cancelled: bool)

  /** A caller of `start`: the job whose outcome it took, and how. */
  datatype Caller =
    | Cached(job: nat, outcome: Outcome)
    | Awaiting(job: nat)
    | Awaited(job: nat, outcome: Outcome)

  /** `Cancelled`: the pipe is cancelled, and `stop` owes the write that forgets it. */
  datatype StopPhase = Rotated | Closed | Cancelled | Finished

  /** The event pipes, named by the jobs that opened them. */
  datatype Pipes = Pipes(
    tracked: Option<nat>,            // `pipeJob`
    opening: Option<nat>,            // opened by the start that holds the lock, and not tracked yet
    live: set<nat>,
    leaked: set<nat>,                // history: dropped alive by the write of a stop
    hushed: set<nat>)                // history: cancelled by a stop

  function TheOne(o: Option<nat>): set<nat> { if o.Some? then {o.value} else {} }

  /** `doStart` up to `pipeTo`: the tracked pipe is cancelled, a new one collects. */
  function OpenPipe(ps: Pipes, j: nat): Pipes
  {
    ps.(live := ps.live - TheOne(ps.tracked) + {j}, opening := Some(j))
  }

  function TrackPipe(ps: Pipes, j: nat): Pipes { ps.(tracked := Some(j), opening := None) }

  function CancelTracked(ps: Pipes): Pipes
  {
    ps.(live := ps.live - TheOne(ps.tracked), hushed := ps.hushed + TheOne(ps.tracked))
  }

  function ForgetTracked(ps: Pipes): Pipes
  {
    ps.(tracked := None, leaked := ps.leaked + TheOne(ps.tracked) * ps.live)
  }

  function CancelOwn(ps: Pipes, j: nat): Pipes { ps.(live := ps.live - {j}, leaked := ps.leaked - {j}) }

  function ForgetOwn(ps: Pipes, j: nat): Pipes
  {
    ps.(tracked := if ps.tracked == Some(j) then None else ps.tracked)
  }

  datatype State = State(
    startResult: Option<nat>,
    startFailure: Option<Outcome>,
    startJob: Option<nat>,
    startAttempt: nat,
    pipes: Pipes,
    boundPort: nat,
    boundBy: Option<nat>,            // history: the job that bound the transport
    lost: set<nat>,                  // history: jobs whose withContext threw while bound
    cut: set<nat>,                   // history: jobs whose bound transport some close took down
    jobs: seq<Job>,
    callers: seq<Caller>,
    stops: seq<StopPhase>)

  datatype Step =
    | Start
    | Track(j: nat)
    | BindOk(j: nat, port: nat)
    | BindFail(j: nat, code: nat)
    | BindWrongPort(j: nat, requested: nat)
    | BindDropped(j: nat)
    | BindLost(j: nat, port: nat)
    | StaleCheck(j: nat)
    | StaleCancel(j: nat)
    | StaleForget(j: nat)
    | StaleClose(j: nat)
    | CloseLost(j: nat)
    | CacheResult(j: nat)
    | CacheFailure(j: nat)
    | Complete(j: nat)
    | Wake(c: nat)
    | StopRotate
    | StopClose(k: nat)
    | StopCancel(k: nat)
    | StopForget(k: nat)

  const INITIAL := State(None, None, None, 0, Pipes(None, None, {}, {}, {}), 0, None, {}, {}, [], [], [])

  /** `HttpSseTransport.close`. */
  function CloseTransport(s: State): State
  {
    s.(boundPort := 0, boundBy := None, cut := s.cut + if s.boundBy.Some? then {s.boundBy.value} else {})
  }

  /** A Deferred cancelled before completion replaces a returned value by the cancellation. */
  function FinalOutcome(body: Outcome, cancelled: bool): Outcome {
    if cancelled && body.Uri? then Superseded else body
  }

  predicate At(s: State, j: nat) { j < |s.jobs| }

  function Move(s: State, j: nat, p: Phase): State
    requires At(s, j)
  {
    s.(jobs := s.jobs[j := s.jobs[j].(phase := p)])
  }

  /** History only: the job whose outcome a cache hit hands out. */
  function CurrentJob(s: State): nat { if s.startJob.Some? then s.startJob.value else 0 }

  /** `start` finds neither an outcome nor a job to join. */
  predicate Opens(s: State) { s.startResult.None? && s.startFailure.None? && s.startJob.None? }

  function StartSection(s: State): State
  {
    if s.startResult.Some? then
      s.(callers := s.callers + [Cached(CurrentJob(s), Uri(s.startResult.value))])
    else if s.startFailure.Some? then
      s.(callers := s.callers + [Cached(CurrentJob(s), s.startFailure.value)])
    else if s.startJob.Some? then
      s.(callers := s.callers + [Awaiting(s.startJob.value)])
    else
      var j := |s.jobs|;
      s.(startJob := Some(j),
         jobs := s.jobs + [Job(s.startAttempt, Opening, false)],
         pipes := OpenPipe(s.pipes, j),
         callers := s.callers + [Awaiting(j)])
  }

  function StopSection(s: State): State
  {
    var jobs :=
      if s.startJob.Some? && At(s, s.startJob.value) && !s.jobs[s.startJob.value].phase.Done?
      then s.jobs[s.startJob.value := s.jobs[s.startJob.value].(cancelled := true)]
      else s.jobs;
    s.(jobs := jobs, startJob := None, startAttempt := s.startAttempt + 1,
       startResult := None, startFailure := None, stops := s.stops + [Rotated])
  }

  predicate LockFree(s: State) { s.pipes.opening.None? }

  predicate Enabled(s: State, step: Step)
  {
    match step
    case Start => LockFree(s)
    case Track(j) => At(s, j) && s.jobs[j].phase.Opening?
    case BindOk(j, port) => At(s, j) && s.jobs[j].phase.Binding? && s.boundPort == 0 && port > 0
    case BindFail(j, _) => At(s, j) && s.jobs[j].phase.Binding?
    case BindWrongPort(j, _) => At(s, j) && s.jobs[j].phase.Binding?
    case BindDropped(j) => At(s, j) && s.jobs[j].phase.Binding? && s.jobs[j].cancelled
    case BindLost(j, port) =>
      At(s, j) && s.jobs[j].phase.Binding? && s.jobs[j].cancelled && s.boundPort == 0 && port > 0
    case StaleCheck(j) => At(s, j) && s.jobs[j].phase.BoundUnchecked? && LockFree(s)
    case StaleCancel(j) => At(s, j) && s.jobs[j].phase.StaleFound?
    case StaleForget(j) => At(s, j) && s.jobs[j].phase.StaleCancelled? && LockFree(s)
    case StaleClose(j) => At(s, j) && s.jobs[j].phase.StaleClosing?
    case CloseLost(j) => At(s, j) && s.jobs[j].phase.StaleClosing? && s.jobs[j].cancelled
    case CacheResult(j) => At(s, j) && s.jobs[j].phase.Returning? && LockFree(s)
    case CacheFailure(j) => At(s, j) && s.jobs[j].phase.Throwing? && LockFree(s)
    case Complete(j) => At(s, j) && s.jobs[j].phase.Ending?
    case Wake(c) =>
      c < |s.callers| && s.callers[c].Awaiting? && At(s, s.callers[c].job) &&
      s.jobs[s.callers[c].job].phase.Done?
    case StopRotate => LockFree(s)
    case StopClose(k) => k < |s.stops| && s.stops[k].Rotated?
    case StopCancel(k) => k < |s.stops| && s.stops[k].Closed?
    case StopForget(k) => k < |s.stops| && s.stops[k].Cancelled?
  }

  function Take(s: State, step: Step): State
    requires Enabled(s, step)
  {
    match step
    case Start => StartSection(s)
    case Track(j) => Move(s, j, Binding).(pipes := TrackPipe(s.pipes, j))
    case BindOk(j, port) => Move(s, j, BoundUnchecked(port)).(boundPort := port, boundBy := Some(j))
    case BindFail(j, code) => Move(s, j, Throwing(BindFailure(code)))
    case BindWrongPort(j, requested) => Move(s, j, Throwing(WrongPort(requested)))
    case BindDropped(j) => Move(s, j, Throwing(Superseded))
    case BindLost(j, port) =>
      Move(s, j, Throwing(Superseded)).(boundPort := port, boundBy := Some(j), lost := s.lost + {j})
    case StaleCheck(j) =>
      Move(s, j, if s.startAttempt != s.jobs[j].attempt then StaleFound else Returning(s.jobs[j].phase.port))
    case StaleCancel(j) => Move(s, j, StaleCancelled).(pipes := CancelOwn(s.pipes, j))
    case StaleForget(j) => Move(s, j, StaleClosing).(pipes := ForgetOwn(s.pipes, j))
    case StaleClose(j) => CloseTransport(Move(s, j, Throwing(Superseded)))
    case CloseLost(j) => Move(s, j, Throwing(Superseded)).(lost := s.lost + {j})
    case CacheResult(j) =>
      var port := s.jobs[j].phase.port;
      Move(s, j, Ending(Uri(port))).(startResult :=
        if s.startAttempt == s.jobs[j].attempt then Some(port) else s.startResult)
    case CacheFailure(j) =>
      var error := s.jobs[j].phase.error;
      Move(s, j, Ending(error)).(startFailure :=
        if s.startAttempt == s.jobs[j].attempt then Some(error) else s.startFailure)
    case Complete(j) =>
      var body := s.jobs[j].phase.body;
      Move(s, j, Done(body, FinalOutcome(body, s.jobs[j].cancelled)))
    case Wake(c) =>
      var j := s.callers[c].job;
      s.(callers := s.callers[c := Awaited(j, s.jobs[j].phase.final)])
    case StopRotate => StopSection(s)
    case StopClose(k) => CloseTransport(s.(stops := s.stops[k := Closed]))
    case StopCancel(k) => s.(stops := s.stops[k := Cancelled], pipes := CancelTracked(s.pipes))
    case StopForget(k) => s.(stops := s.stops[k := Finished], pipes := ForgetTracked(s.pipes))
  }

  function Next(s: State, step: Step): State { if Enabled(s, step) then Take(s, step) else s }

  /** The state after a schedule; a step that is not enabled when its turn comes does nothing. */
  function Run(steps: seq<Step>): State
  {
    if steps == [] then INITIAL
    else Next(Run(steps[..|steps| - 1]), steps[|steps| - 1])
  }

  // ---------------------------------------------------------------- invariant

  /** Attempt tokens rise with every job; only `startJob` can carry the current one. */
  ghost predicate AttemptsInv(s: State)
  {
    && (forall i, j :: 0 <= i < j < |s.jobs| ==> s.jobs[i].attempt < s.jobs[j].attempt)
    && (forall j :: 0 <= j < |s.jobs| ==> s.jobs[j].attempt <= s.startAttempt)
    && (forall j :: 0 <= j < |s.jobs| && s.jobs[j].attempt == s.startAttempt ==> s.startJob == Some(j))
    && (s.startJob.Some? ==> At(s, s.startJob.value) && s.jobs[s.startJob.value].attempt == s.startAttempt)
  }

  /** A stale attempt on its way to the close. */
  predicate SelfCleans(p: Phase) { p.StaleFound? || p.StaleCancelled? || p.StaleClosing? }

  predicate NotBoundYet(p: Phase) { p.Opening? || p.Binding? }

  /** What a job's phase says about its attempt and its outcome. */
  ghost predicate PhaseInv(s: State, j: nat)
    requires At(s, j)
  {
    var job := s.jobs[j];
    && (job.cancelled || SelfCleans(job.phase) ==> job.attempt < s.startAttempt)
    && (job.phase.Throwing? ==> !job.phase.error.Uri?)
    && (job.phase.Done? ==> job.phase.final == FinalOutcome(job.phase.body, job.cancelled))
  }

  ghost predicate JobsInv(s: State)
  {
    AttemptsInv(s) && forall j :: 0 <= j < |s.jobs| ==> PhaseInv(s, j)
  }

  function BodyOf(p: Phase): Option<Outcome> {
    if p.Ending? || p.Done? then Some(p.body) else None
  }

  /** The outcome the two caches hold. */
  function CachedOutcome(s: State): Option<Outcome>
  {
    if s.startResult.Some? then Some(Uri(s.startResult.value)) else s.startFailure
  }

  ghost predicate CacheInv(s: State)
  {
    && !(s.startResult.Some? && s.startFailure.Some?)
    && (s.startFailure.Some? ==> !s.startFailure.value.Uri?)
    && (s.startJob.None? ==> CachedOutcome(s).None?)
    && (s.startJob.Some? && At(s, s.startJob.value) ==>
          CachedOutcome(s) == BodyOf(s.jobs[s.startJob.value].phase))
  }

  ghost predicate Owed(s: State, j: nat)
  {
    At(s, j) &&
    (s.jobs[j].attempt == s.startAttempt
     || s.jobs[j].phase.BoundUnchecked? || SelfCleans(s.jobs[j].phase)
     || Rotated in s.stops)
  }

  ghost predicate TransportInv(s: State)
  {
    && (s.boundPort == 0 <==> s.boundBy.None?)
    && (s.boundBy.Some? ==> Owed(s, s.boundBy.value) || s.boundBy.value in s.lost)
  }

  /** Where the transport is for a job that bound it: still bound by it, or taken down by some close. */
  ghost predicate ServedOrCut(s: State, j: nat)
    requires At(s, j)
  {
    match s.jobs[j].phase
    case BoundUnchecked(port) => Serves(s, j, port) || j in s.cut
    case Returning(port) => Serves(s, j, port) || j in s.cut
    case Ending(Uri(port)) => Serves(s, j, port) || j in s.cut
    case Done(Uri(port), _) => Serves(s, j, port) || j in s.cut
    case Opening => s.boundBy != Some(j)
    case Binding => s.boundBy != Some(j)
    case _ => true
  }

  /** The transport is up at this port, bound by this very job. */
  predicate Serves(s: State, j: nat, port: nat) { s.boundBy == Some(j) && s.boundPort == port }

  ghost predicate ServedInv(s: State)
  {
    && (s.boundPort == 0 <==> s.boundBy.None?)
    && (s.boundBy.Some? ==> At(s, s.boundBy.value))
    && (forall j :: 0 <= j < |s.jobs| ==> ServedOrCut(s, j))
    && (forall j :: j in s.cut ==> At(s, j) && !NotBoundYet(s.jobs[j].phase) && s.boundBy != Some(j))
  }

  /** A live pipe is tracked, about to be, or leaked; opening one leaves no other alive but the leaked. */
  ghost predicate PipesSorted(ps: Pipes)
  {
    && (forall j :: j in ps.live ==> ps.tracked == Some(j) || ps.opening == Some(j) || j in ps.leaked)
    && (forall j :: j in ps.leaked ==> j in ps.live && ps.tracked != Some(j) && ps.opening != Some(j))
    && (ps.opening.Some? ==> ps.opening.value in ps.live && (ps.tracked.Some? ==> ps.tracked.value !in ps.live))
  }

  predicate PipeFits(s: State, j: nat)
    requires At(s, j)
  {
    && (s.jobs[j].phase.Opening? <==> s.pipes.opening == Some(j))
    && (s.jobs[j].phase.StaleCancelled? ==> j !in s.pipes.live)
  }

  ghost predicate PipeInv(s: State)
  {
    && PipesSorted(s.pipes)
    && (forall j :: j in s.pipes.live || j in s.pipes.hushed || s.pipes.tracked == Some(j) ==> At(s, j))
    && (forall j :: 0 <= j < |s.jobs| ==> PipeFits(s, j))
    && (s.startJob.Some? ==> (s.startJob.value in s.pipes.live <==> s.startJob.value !in s.pipes.hushed))
  }

  ghost predicate CallersInv(s: State)
  {
    forall c :: 0 <= c < |s.callers| ==>
      var caller := s.callers[c];
      At(s, caller.job) &&
      match caller
      case Cached(j, o) => BodyOf(s.jobs[j].phase) == Some(o)
      case Awaiting(_) => true
      case Awaited(j, o) => s.jobs[j].phase.Done? && s.jobs[j].phase.final == o
  }

  ghost predicate Inv(s: State) {
    JobsInv(s) && CacheInv(s) && TransportInv(s) && ServedInv(s) && PipeInv(s) && CallersInv(s)
  }

  /** The lock section of `stop`, field by field. */
  lemma StopRotateIs(s: State)
    requires LockFree(s)
    ensures var t := Take(s, StopRotate);
      && t == s.(jobs := t.jobs, startJob := None, startAttempt := s.startAttempt + 1, startResult := None,
                 startFailure := None, stops := s.stops + [Rotated])
      && |t.jobs| == |s.jobs| && forall j :: 0 <= j < |s.jobs| ==>
           t.jobs[j] == if s.startJob == Some(j) && !s.jobs[j].phase.Done? then s.jobs[j].(cancelled := true) else s.jobs[j]
  {
  }

  /** Only `start` and `stop` touch the tokens. */
  lemma TokensKept(s: State, step: Step)
    requires Enabled(s, step) && !step.Start? && !step.StopRotate?
    ensures var t := Take(s, step);
      && t.startJob == s.startJob && t.startAttempt == s.startAttempt && |t.jobs| == |s.jobs|
      && forall j :: 0 <= j < |s.jobs| ==> t.jobs[j].attempt == s.jobs[j].attempt
  {
  }

  lemma StartKeepsAttempts(s: State)
    requires AttemptsInv(s)
    ensures AttemptsInv(StartSection(s))
  {
  }

  lemma StopKeepsAttempts(s: State)
    requires AttemptsInv(s)
    ensures AttemptsInv(StopSection(s))
  {
  }

  lemma AttemptsStep(s: State, step: Step)
    requires AttemptsInv(s) && Enabled(s, step)
    ensures AttemptsInv(Take(s, step))
  {
    if step.Start? {
      StartKeepsAttempts(s);
    } else if step.StopRotate? {
      StopKeepsAttempts(s);
    } else {
      var t := Take(s, step);
      TokensKept(s, step);
      hide Take;
      assert AttemptsInv(t);
    }
  }

  lemma PhaseStep(s: State, step: Step, j: nat)
    requires Enabled(s, step) && At(s, j) && PhaseInv(s, j) && s.jobs[j].attempt <= s.startAttempt
    ensures At(Take(s, step), j) && PhaseInv(Take(s, step), j)
  {
  }

  lemma NewJob(s: State, step: Step, j: nat)
    requires Enabled(s, step) && !At(s, j) && At(Take(s, step), j)
    ensures step.Start? && Take(s, step).jobs[j].phase.Opening? && !Take(s, step).jobs[j].cancelled
    ensures Take(s, step).boundBy == s.boundBy
  {
  }

  lemma JobsStep(s: State, step: Step)
    requires JobsInv(s) && Enabled(s, step)
    ensures JobsInv(Take(s, step))
  {
    AttemptsStep(s, step);
    assert forall j :: 0 <= j < |s.jobs| ==> s.jobs[j].attempt <= s.startAttempt;
    hide Enabled, Take, AttemptsInv;
    var t := Take(s, step);
    forall j | 0 <= j < |t.jobs| ensures PhaseInv(t, j) {
      if j < |s.jobs| {
        PhaseStep(s, step, j);
      } else {
        NewJob(s, step, j);
      }
    }
  }

  lemma CacheStep(s: State, step: Step)
    requires JobsInv(s) && CacheInv(s) && Enabled(s, step)
    ensures CacheInv(Take(s, step))
  {
    if step.CacheFailure? {
      assert PhaseInv(s, step.j);
    }
  }

  lemma TransportStep(s: State, step: Step)
    requires JobsInv(s) && TransportInv(s) && Enabled(s, step)
    ensures TransportInv(Take(s, step))
  {
    var t := Take(s, step);
    if s.boundBy.Some? && Rotated in s.stops && !step.StopClose? {
      var k :| 0 <= k < |s.stops| && s.stops[k] == Rotated;
      assert t.stops[k] == Rotated;
    }
    if step.StopRotate? {
      assert t.stops[|s.stops|] == Rotated;
    }
  }

  lemma ServedOrCutStep(s: State, step: Step, j: nat)
    requires Enabled(s, step) && At(s, j) && ServedOrCut(s, j) && (s.boundPort == 0 <==> s.boundBy.None?)
    requires s.jobs[j].phase.Throwing? ==> !s.jobs[j].phase.error.Uri?
    ensures At(Take(s, step), j) && ServedOrCut(Take(s, step), j)
  {
  }

  lemma CutStaysApart(s: State, step: Step)
    requires ServedInv(s) && Enabled(s, step)
    ensures var t := Take(s, step);
      && (t.boundPort == 0 <==> t.boundBy.None?)
      && (t.boundBy.Some? ==> At(t, t.boundBy.value))
      && (forall j :: j in t.cut ==> At(t, j) && !NotBoundYet(t.jobs[j].phase) && t.boundBy != Some(j))
  {
    if s.boundBy.Some? {
      assert ServedOrCut(s, s.boundBy.value);
    }
    hide ServedOrCut;
  }

  lemma ServedStep(s: State, step: Step)
    requires JobsInv(s) && ServedInv(s) && Enabled(s, step)
    ensures ServedInv(Take(s, step))
  {
    hide Take, Enabled;
    CutStaysApart(s, step);
    var t := Take(s, step);
    forall j | 0 <= j < |t.jobs| ensures ServedOrCut(t, j) {
      if j < |s.jobs| {
        assert PhaseInv(s, j);
        ServedOrCutStep(s, step, j);
      } else {
        NewJob(s, step, j);
      }
    }
  }

  /** How a step changes the pipes, and on whose behalf. */
  function PipesAfter(s: State, step: Step): Pipes
  {
    match step
    case Start => if Opens(s) then OpenPipe(s.pipes, |s.jobs|) else s.pipes
    case Track(j) => TrackPipe(s.pipes, j)
    case StaleCancel(j) => CancelOwn(s.pipes, j)
    case StaleForget(j) => ForgetOwn(s.pipes, j)
    case StopCancel(_) => CancelTracked(s.pipes)
    case StopForget(_) => ForgetTracked(s.pipes)
    case _ => s.pipes
  }

  lemma PipesTaken(s: State, step: Step)
    requires Enabled(s, step)
    ensures Take(s, step).pipes == PipesAfter(s, step) && |Take(s, step).jobs| >= |s.jobs|
    ensures step.Start? && Opens(s) ==> |Take(s, step).jobs| > |s.jobs|
  {
  }

  lemma SortedStep(s: State, step: Step)
    requires PipeInv(s) && Enabled(s, step)
    ensures PipesSorted(PipesAfter(s, step))
  {
    assert step.Track? || step.StaleCancel? || step.StaleForget? ==> PipeFits(s, step.j);
  }

  lemma FitsStep(s: State, step: Step, j: nat)
    requires PipeInv(s) && Enabled(s, step) && At(Take(s, step), j)
    ensures PipeFits(Take(s, step), j)
  {
    PipesTaken(s, step);
    assert step.Track? || step.StaleCancel? || step.StaleForget? ==> PipeFits(s, step.j);
    assert s.pipes.opening.Some? ==> At(s, s.pipes.opening.value);
    if At(s, j) {
      assert PipeFits(s, j);
    } else {
      NewJob(s, step, j);
    }
  }

  lemma HeardStep(s: State, step: Step)
    requires JobsInv(s) && PipeInv(s) && Enabled(s, step)
    ensures var t := Take(s, step); t.startJob.Some? ==> (t.startJob.value in t.pipes.live <==> t.startJob.value !in t.pipes.hushed)
  {
    PipesTaken(s, step);
    hide PipesSorted, PipeFits;
    if step.StaleCancel? {
      assert PhaseInv(s, step.j);
    }
  }

  lemma PipeStep(s: State, step: Step)
    requires JobsInv(s) && PipeInv(s) && Enabled(s, step)
    ensures PipeInv(Take(s, step))
  {
    SortedStep(s, step);
    HeardStep(s, step);
    PipesTaken(s, step);
    var t := Take(s, step);
    assert step.Track? ==> PipeFits(s, step.j);
    forall j | 0 <= j < |t.jobs| ensures PipeFits(t, j) {
      FitsStep(s, step, j);
    }
    hide Take, JobsInv, PipesSorted, PipeFits;
  }

  lemma CallersStep(s: State, step: Step)
    requires CacheInv(s) && CallersInv(s) && (s.startJob.Some? ==> At(s, s.startJob.value)) && Enabled(s, step)
    ensures CallersInv(Take(s, step))
  {
  }

  lemma {:induction false} InvAlways(steps: seq<Step>)
    ensures Inv(Run(steps))
  {
    if steps != [] {
      var n := |steps| - 1;
      InvAlways(steps[..n]);
      var s := Run(steps[..n]);
      if Enabled(s, steps[n]) {
        JobsStep(s, steps[n]);
        CacheStep(s, steps[n]);
        TransportStep(s, steps[n]);
        ServedStep(s, steps[n]);
        PipeStep(s, steps[n]);
        CallersStep(s, steps[n]);
      }
    }
  }

  // ---------------------------------------------------------------- no orphan server

  /** Every job and every stop has run to its end. */
  ghost predicate Settled(s: State)
  {
    (forall j :: 0 <= j < |s.jobs| ==> s.jobs[j].phase.Done?) &&
    (forall k :: 0 <= k < |s.stops| ==> s.stops[k].Finished?)
  }

  /**
   A bound transport always has someone who answers for it: the current attempt, the binder's own
   stale check, or a stop that still has to close.
   */
  lemma {:induction false} BoundServerIsOwed(steps: seq<Step>)
    ensures var s := Run(steps);
            s.boundPort != 0 ==> s.boundBy.Some? && (Owed(s, s.boundBy.value) || s.boundBy.value in s.lost)
  {
    InvAlways(steps);
  }

  lemma SettledOwesNothing(s: State, j: nat)
    requires JobsInv(s) && Settled(s) && s.startJob.None?
    ensures !Owed(s, j)
  {
    if At(s, j) {
      assert s.jobs[j].phase.Done?;
    }
  }

  /** Once all is settled after a last stop, only a lost `withContext` can have left the port bound. */
  lemma {:induction false} SettledStopLeavesNoServer(steps: seq<Step>)
    requires Settled(Run(steps)) && Run(steps).startJob.None?
    ensures Run(steps).boundPort != 0 <==> Run(steps).boundBy.Some? && Run(steps).boundBy.value in Run(steps).lost
    ensures NoLostStep(steps) ==> Run(steps).boundPort == 0
  {
    var s := Run(steps);
    InvAlways(steps);
    if s.boundBy.Some? {
      SettledOwesNothing(s, s.boundBy.value);
    }
    if NoLostStep(steps) {
      NothingLost(steps);
    }
  }

  /** No cancelled job's `withContext` threw over a bound transport. */
  ghost predicate NoLostStep(steps: seq<Step>)
  {
    forall k :: 0 <= k < |steps| ==> !steps[k].BindLost? && !steps[k].CloseLost?
  }

  lemma {:induction false} NothingLost(steps: seq<Step>)
    requires NoLostStep(steps)
    ensures Run(steps).lost == {}
  {
    if steps != [] {
      NothingLost(steps[..|steps| - 1]);
    }
  }

  lemma Then(steps: seq<Step>, step: Step) returns (longer: seq<Step>)
    ensures longer == steps + [step] && Run(longer) == Next(Run(steps), step)
  {
    longer := steps + [step];
    assert longer[..|longer| - 1] == steps;
  }

  /** A start stopped while its bind is under way, the stop run to its end. */
  lemma StoppedWhileBinding() returns (steps: seq<Step>)
    ensures var s := Run(steps);
      && |s.jobs| == 1 && s.jobs[0] == Job(0, Binding, true) && s.startAttempt == 1 && s.startJob.None?
      && |s.stops| == 1 && s.stops[0].Finished? && s.boundPort == 0 && LockFree(s)
  {
    steps := Then([], Start);
    steps := Then(steps, Track(0));
    steps := Then(steps, StopRotate);
    steps := Then(steps, StopClose(0));
    steps := Then(steps, StopCancel(0));
    steps := Then(steps, StopForget(0));
  }

  /** The assumption on `withContext` is needed: one lost bind leaves an orphan for good. */
  lemma LostBindLeavesOrphan() returns (steps: seq<Step>)
    ensures Settled(Run(steps)) && Run(steps).startJob.None? && Run(steps).boundPort == 8080
  {
    steps := StoppedWhileBinding();
    steps := Then(steps, BindLost(0, 8080));
    steps := Then(steps, CacheFailure(0));
    steps := Then(steps, Complete(0));
  }

  /** A start that binds and caches its URI, on a plane where nobody started before. */
  lemma BindsAndCaches(steps: seq<Step>, port: nat) returns (longer: seq<Step>)
    requires port > 0 && NoLostStep(steps)
    requires var s := Run(steps); s.startJob.None? && CachedOutcome(s).None? && s.boundPort == 0 && |s.jobs| == |s.callers| == 0 && LockFree(s)
    ensures NoLostStep(longer)
    ensures var s, t := Run(steps), Run(longer);
      && |t.jobs| == 1 && t.jobs[0] == Job(s.startAttempt, Ending(Uri(port)), false) && t.startJob == Some(0)
      && |t.callers| == 1 && t.callers[0] == Awaiting(0)
      && t.startResult == Some(port) && t.startAttempt == s.startAttempt && t.stops == s.stops
      && t.pipes == s.pipes.(tracked := Some(0), live := s.pipes.live - TheOne(s.pipes.tracked) + {0})
      && t.boundPort == port && t.boundBy == Some(0)
  {
    longer := Then(steps, Start);
    longer := Then(longer, Track(0));
    longer := Then(longer, BindOk(0, port));
    longer := ChecksAndCaches(longer, port);
  }

  lemma ChecksAndCaches(steps: seq<Step>, port: nat) returns (longer: seq<Step>)
    requires NoLostStep(steps)
    requires var s := Run(steps); |s.jobs| == 1 && s.jobs[0] == Job(s.startAttempt, BoundUnchecked(port), false) && LockFree(s)
    ensures NoLostStep(longer)
    ensures var s := Run(steps);
      Run(longer) == s.(jobs := [Job(s.startAttempt, Ending(Uri(port)), false)], startResult := Some(port))
  {
    longer := Then(steps, StaleCheck(0));
    longer := Then(longer, CacheResult(0));
  }

  /** A late close of an older stop unbinds a server whose URI is cached. */
  lemma CachedUriMayBeUnbound() returns (steps: seq<Step>)
    ensures Run(steps).startResult == Some(8080) && Run(steps).boundPort == 0
    ensures NoLostStep(steps)
  {
    steps := Then([], StopRotate);
    steps := BindsAndCaches(steps, 8080);
    steps := Then(steps, StopClose(0));
  }

  /**
   When a cached URI is served: exactly while no close has taken down what its job bound.  A close that does
   is one of an older stop, or of an older job that found itself stale, landing after the bind.
   */
  lemma {:induction false} CachedUriServedIffNotCut(steps: seq<Step>)
    requires Run(steps).startResult.Some?
    ensures var s := Run(steps);
      s.startJob.Some? && (Serves(s, s.startJob.value, s.startResult.value) <==> s.startJob.value !in s.cut)
  {
    InvAlways(steps);
    var s := Run(steps);
    assert ServedOrCut(s, s.startJob.value);
  }

  predicate Closes(step: Step) { step.StopClose? || step.StaleClose? }

  /** The `k`-th step closed the transport while job `j` had it bound. */
  ghost predicate CutAt(steps: seq<Step>, k: nat, j: nat)
    requires k < |steps|
  {
    Closes(steps[k]) && Enabled(Run(steps[..k]), steps[k]) && Run(steps[..k]).boundBy == Some(j)
  }

  /** A job is cut exactly if some close step came while it had the transport bound. */
  lemma {:induction false} CutByClose(steps: seq<Step>, j: nat)
    ensures j in Run(steps).cut <==> exists k: nat :: k < |steps| && CutAt(steps, k, j)
  {
    if steps != [] {
      var n := |steps| - 1;
      CutByClose(steps[..n], j);
      forall k: nat | k < n ensures CutAt(steps, k, j) <==> CutAt(steps[..n], k, j) {
        assert steps[..n][..k] == steps[..k];
      }
      CutStep(steps, j);
      hide CutAt, Run;
      if k: nat :| k < n && CutAt(steps[..n], k, j) {
        assert CutAt(steps, k, j);
      }
    }
  }

  lemma CutByStep(s: State, step: Step, j: nat)
    requires Enabled(s, step)
    ensures j in Take(s, step).cut <==> j in s.cut || (Closes(step) && s.boundBy == Some(j))
  {
  }

  lemma CutStep(steps: seq<Step>, j: nat)
    requires steps != []
    ensures var n := |steps| - 1; j in Run(steps).cut <==> j in Run(steps[..n]).cut || CutAt(steps, n, j)
  {
    hide Take, Enabled;
    var n := |steps| - 1;
    if Enabled(Run(steps[..n]), steps[n]) {
      CutByStep(Run(steps[..n]), steps[n], j);
    }
  }

  /** No stop is under way, and every job has run to its end or carries the current attempt. */
  ghost predicate Quiet(s: State)
  {
    && (forall k :: 0 <= k < |s.stops| ==> s.stops[k].Finished?)
    && (forall j :: 0 <= j < |s.jobs| ==> s.jobs[j].phase.Done? || s.jobs[j].attempt == s.startAttempt)
  }

  lemma QuietStep(s: State, step: Step)
    requires Inv(s) && Quiet(s) && Enabled(s, step) && !step.StopRotate?
    ensures Quiet(Take(s, step)) && Take(s, step).cut == s.cut && Take(s, step).pipes.hushed == s.pipes.hushed
  {
    hide CacheInv, TransportInv, ServedInv, CallersInv;
    if step.StaleClose? {
      NobodyStale(s, step.j);
    }
  }

  lemma NobodyStale(s: State, j: nat)
    requires JobsInv(s) && Quiet(s) && At(s, j)
    ensures !s.jobs[j].phase.StaleClosing?
  {
    assert PhaseInv(s, j);
  }

  lemma {:induction false} QuietRun(steps: seq<Step>, more: seq<Step>)
    requires Quiet(Run(steps)) && forall k :: 0 <= k < |more| ==> !more[k].StopRotate?
    ensures Quiet(Run(steps + more)) && Run(steps + more).cut == Run(steps).cut
    ensures Run(steps + more).pipes.hushed == Run(steps).pipes.hushed
  {
    if more == [] {
      assert steps + more == steps;
    } else {
      var n := |more| - 1;
      assert (steps + more)[..|steps + more| - 1] == steps + more[..n];
      QuietRun(steps, more[..n]);
      InvAlways(steps + more[..n]);
      if Enabled(Run(steps + more[..n]), more[n]) {
        QuietStep(Run(steps + more[..n]), more[n]);
      }
    }
  }

  /**
   Started once everything before had settled, and not stopped since, a plane serves the URI it handed out,
   in every interleaving of callers and the bind.
   */
  lemma {:induction false} SettledStartServes(steps: seq<Step>, more: seq<Step>)
    requires Settled(Run(steps)) && Run(steps).startJob.None?
    requires forall k :: 0 <= k < |more| ==> !more[k].StopRotate?
    ensures var s := Run(steps + more);
      s.startResult.Some? ==> s.startJob.Some? && Serves(s, s.startJob.value, s.startResult.value)
  {
    QuietRun(steps, more);
    InvAlways(steps);
    InvAlways(steps + more);
    var s, t := Run(steps), Run(steps + more);
    if t.startResult.Some? {
      CachedUriServedIffNotCut(steps + more);
      JobIsNew(steps, more);
    }
  }

  lemma {:induction false} JobIsNew(steps: seq<Step>, more: seq<Step>)
    requires Run(steps).startJob.None? && forall k :: 0 <= k < |more| ==> !more[k].StopRotate?
    ensures |Run(steps + more).jobs| >= |Run(steps).jobs|
    ensures Run(steps + more).startJob.Some? ==> Run(steps + more).startJob.value >= |Run(steps).jobs|
  {
    if more == [] {
      assert steps + more == steps;
    } else {
      var n := |more| - 1;
      assert (steps + more)[..|steps + more| - 1] == steps + more[..n];
      JobIsNew(steps, more[..n]);
    }
  }

  // ---------------------------------------------------------------- start-once agreement

  /** At most one bind job ever carries a given attempt token. */
  lemma {:induction false} OneBindPerAttempt(steps: seq<Step>, i: nat, j: nat)
    requires var s := Run(steps); At(s, i) && At(s, j) && s.jobs[i].attempt == s.jobs[j].attempt
    ensures i == j
  {
    InvAlways(steps);
  }

  lemma OutcomeStays(s: State, step: Step, j: nat)
    requires At(s, j)
    ensures var t := Next(s, step);
      && At(t, j) && t.jobs[j].attempt == s.jobs[j].attempt
      && (!NotBoundYet(s.jobs[j].phase) ==> !NotBoundYet(t.jobs[j].phase))
      && (BodyOf(s.jobs[j].phase).Some? ==> BodyOf(t.jobs[j].phase) == BodyOf(s.jobs[j].phase))
  {
  }

  /** A job never binds again once it has left `bind`, and its outcome never changes. */
  lemma {:induction false} OutcomeIsFinal(steps: seq<Step>, more: seq<Step>, j: nat)
    requires At(Run(steps), j)
    ensures At(Run(steps + more), j)
    ensures Run(steps + more).jobs[j].attempt == Run(steps).jobs[j].attempt
    ensures !NotBoundYet(Run(steps).jobs[j].phase) ==> !NotBoundYet(Run(steps + more).jobs[j].phase)
    ensures BodyOf(Run(steps).jobs[j].phase).Some? ==>
              BodyOf(Run(steps + more).jobs[j].phase) == BodyOf(Run(steps).jobs[j].phase)
  {
    if more == [] {
      assert steps + more == steps;
    } else {
      var n := |more| - 1;
      OutcomeIsFinal(steps, more[..n], j);
      OutcomeStays(Run(steps + more[..n]), more[n], j);
      assert (steps + more)[..|steps + more| - 1] == steps + more[..n];
      hide Next;
    }
  }

  /** What the caches hold is the outcome of the current attempt's only job, and of one kind. */
  lemma {:induction false} CacheIsCurrentOutcome(steps: seq<Step>)
    ensures var s := Run(steps);
      && !(s.startResult.Some? && s.startFailure.Some?)
      && (CachedOutcome(s).Some? ==>
            s.startJob.Some? && At(s, s.startJob.value) &&
            s.jobs[s.startJob.value].attempt == s.startAttempt &&
            BodyOf(s.jobs[s.startJob.value].phase) == CachedOutcome(s))
  {
    InvAlways(steps);
  }

  predicate Answered(s: State, c: nat) { c < |s.callers| && !s.callers[c].Awaiting? }

  predicate SameAttempt(s: State, c: nat, d: nat)
    requires c < |s.callers| && d < |s.callers|
  {
    At(s, s.callers[c].job) && At(s, s.callers[d].job) &&
    s.jobs[s.callers[c].job].attempt == s.jobs[s.callers[d].job].attempt
  }

  /** The job returned a URI, and a stop cancelled it before it completed. */
  predicate CancelledAfterReturn(job: Job)
  {
    job.cancelled && match BodyOf(job.phase) case Some(Uri(_)) => true case _ => false
  }

  /**
   Two answered callers of one attempt got the same outcome, except exactly when one was served from
   the cache, the other awaited the job, and a stop cancelled the job after it had cached its URI
   but before it completed.
   */
  lemma {:induction false} JoinersAgree(steps: seq<Step>, c: nat, d: nat)
    requires Answered(Run(steps), c) && Answered(Run(steps), d) && SameAttempt(Run(steps), c, d)
    ensures var s := Run(steps);
      s.callers[c].outcome == s.callers[d].outcome <==>
      !(s.callers[c].Cached? != s.callers[d].Cached? && CancelledAfterReturn(s.jobs[s.callers[c].job]))
  {
    InvAlways(steps);
    var s := Run(steps);
    OneBindPerAttempt(steps, s.callers[c].job, s.callers[d].job);
    assert PhaseInv(s, s.callers[c].job);
  }

  /** A URI is cached and handed out, and the job that returned it is cancelled before it completes. */
  lemma StoppedAfterReturn() returns (steps: seq<Step>)
    ensures var s := Run(steps);
      && |s.jobs| == 1 && s.jobs[0] == Job(0, Ending(Uri(8080)), true) && LockFree(s)
      && |s.callers| == 2 && s.callers[0] == Awaiting(0) && s.callers[1] == Cached(0, Uri(8080))
  {
    steps := BindsAndCaches([], 8080);
    steps := Then(steps, Start);
    steps := Then(steps, StopRotate);
  }

  /** The exception is reachable: a stop between the cache write and the completion. */
  lemma JoinersMayDisagree() returns (steps: seq<Step>)
    ensures var s := Run(steps);
      Answered(s, 0) && Answered(s, 1) && s.callers[0].job == s.callers[1].job &&
      s.callers[0].outcome == Superseded && s.callers[1].outcome == Uri(8080)
  {
    steps := StoppedAfterReturn();
    steps := Then(steps, Complete(0));
    steps := Then(steps, Wake(0));
  }

  // ---------------------------------------------------------------- the object with its fields

  /**
   The plane's lifecycle fields, updated in place by one method per atomic section.  `jobs`,
   `callers` and `stops` are the suspended coroutines with their program points.
   */
  class ControlPlane {
    var startResult: Option<nat>
    var startFailure: Option<Outcome>
    var startJob: Option<nat>
    var startAttempt: nat
    var pipeJob: Option<nat>
    var boundPort: nat
    var jobs: seq<Job>
    var callers: seq<Caller>
    var stops: seq<StopPhase>
    const requestedPort: nat         // the transport's constructor port
    ghost var opening: Option<nat>   // the start that holds the lock
    ghost var livePipes: set<nat>
    ghost var leaked: set<nat>
    ghost var hushed: set<nat>
    ghost var boundBy: Option<nat>
    ghost var lost: set<nat>
    ghost var cut: set<nat>

    ghost function Abs(): State
      reads this
    {
      State(startResult, startFailure, startJob, startAttempt, Pipes(pipeJob, opening, livePipes, leaked, hushed),
            boundPort, boundBy, lost, cut, jobs, callers, stops)
    }

    constructor (requestedPort: nat)
      ensures Abs() == INITIAL && this.requestedPort == requestedPort
    {
      this.requestedPort := requestedPort;
      startResult, startFailure, startJob, startAttempt, pipeJob := None, None, None, 0, None;
      boundPort, jobs, callers, stops := 0, [], [], [];
      opening, livePipes, leaked, hushed := None, {}, {}, {};
      boundBy, lost, cut := None, {}, {};
    }

    /** The lock section of `start`, with the undispatched prefix of `doStart` up to the new pipe. */
    method Start() returns (caller: Caller)
      requires LockFree(Abs())
      modifies this
      ensures Abs() == Take(old(Abs()), Step.Start) && callers == old(callers) + [caller]
      ensures match (old(startResult), old(startFailure), old(startJob))
        case (Some(port), _, _) => caller.Cached? && caller.outcome == Uri(port) && jobs == old(jobs)
        case (None, Some(error), _) => caller.Cached? && caller.outcome == error && jobs == old(jobs)
        case (None, None, Some(j)) => caller == Awaiting(j) && jobs == old(jobs)
        case (None, None, None) =>
          var j := |old(jobs)|;
          && caller == Awaiting(j) && startJob == Some(j) && jobs == old(jobs) + [Job(startAttempt, Opening, false)]
          && j in livePipes && (old(pipeJob).Some? && old(pipeJob).value != j ==> old(pipeJob).value !in livePipes)
      ensures startResult == old(startResult) && startFailure == old(startFailure) && startAttempt == old(startAttempt)
      ensures boundPort == old(boundPort) && stops == old(stops) && pipeJob == old(pipeJob)
    {
      var current := if startJob.Some? then startJob.value else 0;
      if startResult.Some? {
        caller := Cached(current, Uri(startResult.value));
      } else if startFailure.Some? {
        caller := Cached(current, startFailure.value);
      } else {
        if startJob.None? {
          // doStart: cancel the stale pipe, then open this attempt's own
          livePipes := livePipes - TheOne(pipeJob) + {|jobs|};
          opening := Some(|jobs|);
          startJob := Some(|jobs|);
          jobs := jobs + [Job(startAttempt, Opening, false)];
        }
        caller := Awaiting(startJob.value);
      }
      callers := callers + [caller];
    }

    /** The rest of the lock section: the new pipe is tracked. */
    method TrackOwnPipe(j: nat)
      requires j < |jobs| && jobs[j].phase.Opening?
      modifies this
      ensures Abs() == Take(old(Abs()), Track(j))
      ensures pipeJob == Some(j) && livePipes == old(livePipes) && LockFree(Abs())
    {
      pipeJob := Some(j);
      opening := None;
      SetPhase(j, Binding);
    }

    method SetPhase(j: nat, phase: Phase)
      requires j < |jobs|
      modifies this`jobs
      ensures jobs == old(jobs)[j := old(jobs)[j].(phase := phase)]
    {
      jobs := jobs[j := jobs[j].(phase := phase)];
    }

    /** `HttpSseTransport.bind`; `listeningPort` is 0 when the operating system refuses. */
    method Bind(j: nat, port: nat, listeningPort: nat)
      requires j < |jobs| && jobs[j].phase.Binding?
      modifies this
      ensures Abs() == Take(old(Abs()),
        if port != requestedPort then BindWrongPort(j, port)
        else if old(boundPort) != 0 || listeningPort == 0 then BindFail(j, old(boundPort))
        else BindOk(j, listeningPort))
      ensures if port == requestedPort && old(boundPort) == 0 && listeningPort != 0
        then boundPort == listeningPort && jobs[j].phase == BoundUnchecked(listeningPort)
        else boundPort == old(boundPort) &&
             jobs[j].phase == Throwing(if port == requestedPort then BindFailure(old(boundPort)) else WrongPort(port))
    {
      if port != requestedPort {
        SetPhase(j, Throwing(WrongPort(port)));
      } else if boundPort != 0 || listeningPort == 0 {
        SetPhase(j, Throwing(BindFailure(boundPort)));
      } else {
        SetPhase(j, BoundUnchecked(listeningPort));
        boundPort := listeningPort;
        boundBy := Some(j);
      }
    }

    /** The rest of `doStart` after a successful bind: the stale check. */
    method CheckStale(j: nat) returns (stale: bool)
      requires j < |jobs| && jobs[j].phase.BoundUnchecked? && LockFree(Abs())
      modifies this`jobs
      ensures stale == (startAttempt != old(jobs)[j].attempt)
      ensures Abs() == Take(old(Abs()), StaleCheck(j))
    {
      stale := startAttempt != jobs[j].attempt;
      SetPhase(j, if stale then StaleFound else Returning(jobs[j].phase.port));
    }

    /** A stale attempt cancels its own pipe. */
    method CancelStalePipe(j: nat)
      requires j < |jobs| && jobs[j].phase.StaleFound?
      modifies this
      ensures Abs() == Take(old(Abs()), StaleCancel(j))
      ensures livePipes == old(livePipes) - {j} && pipeJob == old(pipeJob)
    {
      livePipes := livePipes - {j};
      leaked := leaked - {j};
      SetPhase(j, StaleCancelled);
    }

    /** And forgets it, only while it is still the tracked one. */
    method ForgetStalePipe(j: nat)
      requires j < |jobs| && jobs[j].phase.StaleCancelled? && LockFree(Abs())
      modifies this
      ensures Abs() == Take(old(Abs()), StaleForget(j))
      ensures pipeJob == (if old(pipeJob) == Some(j) then None else old(pipeJob)) && livePipes == old(livePipes)
    {
      if pipeJob == Some(j) {
        pipeJob := None;
      }
      SetPhase(j, StaleClosing);
    }

    /** A stale attempt closes the transport and surfaces as a superseded start. */
    method CloseStale(j: nat)
      requires j < |jobs| && jobs[j].phase.StaleClosing?
      modifies this
      ensures Abs() == Take(old(Abs()), StaleClose(j))
      ensures boundPort == 0 && jobs[j].phase == Throwing(Superseded)
    {
      Close();
      SetPhase(j, Throwing(Superseded));
    }

    /** The cache writes of the async body: only the current attempt may cache. */
    method CacheOutcome(j: nat)
      requires j < |jobs| && (jobs[j].phase.Returning? || jobs[j].phase.Throwing?) && LockFree(Abs())
      modifies this
      ensures Abs() == Take(old(Abs()), if old(jobs)[j].phase.Returning? then CacheResult(j) else CacheFailure(j))
      ensures var outcome := match old(jobs)[j].phase case Returning(port) => Uri(port) case Throwing(error) => error;
        && jobs[j].phase == Ending(outcome)
        && (old(jobs)[j].attempt == startAttempt ==>
              if old(jobs)[j].phase.Returning? then startResult == Some(outcome.port) && startFailure == old(startFailure)
              else startFailure == Some(outcome) && startResult == old(startResult))
        && (old(jobs)[j].attempt != startAttempt ==> startResult == old(startResult) && startFailure == old(startFailure))
    {
      match jobs[j].phase
      case Returning(port) =>
        if startAttempt == jobs[j].attempt {
          startResult := Some(port);
        }
        SetPhase(j, Ending(Uri(port)));
      case Throwing(error) =>
        if startAttempt == jobs[j].attempt {
          startFailure := Some(error);
        }
        SetPhase(j, Ending(error));
    }

    /** `HttpSseTransport.close`. */
    method Close()
      modifies this`boundPort, this`boundBy, this`cut
      ensures Abs() == CloseTransport(old(Abs()))
    {
      cut := cut + if boundBy.Some? then {boundBy.value} else {};
      boundPort, boundBy := 0, None;
    }

    /** `startJob?.cancel()`: a job that has completed is not affected. */
    method CancelStartJob()
      modifies this`jobs
      ensures |jobs| == |old(jobs)| && forall j :: 0 <= j < |jobs| ==>
        jobs[j] == if startJob == Some(j) && !old(jobs)[j].phase.Done? then old(jobs)[j].(cancelled := true) else old(jobs)[j]
    {
      if startJob.Some? && startJob.value < |jobs| && !jobs[startJob.value].phase.Done? {
        jobs := jobs[startJob.value := jobs[startJob.value].(cancelled := true)];
      }
    }

    /** The lock section of `stop`: cancel the in-flight job, rotate the token, clear the caches. */
    method Stop() returns (k: nat)
      requires LockFree(Abs())
      modifies this
      ensures Abs() == Take(old(Abs()), StopRotate) && k == |old(stops)|
      ensures startJob.None? && startResult.None? && startFailure.None? && startAttempt == old(startAttempt) + 1
      ensures |jobs| == |old(jobs)| && forall j :: 0 <= j < |jobs| ==>
        jobs[j] == if old(startJob) == Some(j) && !old(jobs)[j].phase.Done? then old(jobs)[j].(cancelled := true) else old(jobs)[j]
      ensures stops == old(stops) + [Rotated] && boundPort == old(boundPort) && pipeJob == old(pipeJob) && callers == old(callers)
    {
      ghost var after := Take(Abs(), StopRotate);
      StopRotateIs(Abs());
      hide Take, Enabled, StopSection;
      CancelStartJob();
      assert jobs == after.jobs;
      startJob := None;
      startAttempt := startAttempt + 1;
      startResult, startFailure := None, None;
      k := |stops|;
      stops := stops + [Rotated];
    }

    /** `stop` outside the lock: close the transport. */
    method StopTransport(k: nat)
      requires k < |stops| && stops[k].Rotated?
      modifies this
      ensures Abs() == Take(old(Abs()), StopClose(k))
      ensures boundPort == 0
    {
      Close();
      stops := stops[k := Closed];
    }

    /** `stop` outside the lock: cancel the tracked pipe. */
    method CancelPipe(k: nat)
      requires k < |stops| && stops[k].Closed?
      modifies this
      ensures Abs() == Take(old(Abs()), StopCancel(k))
      ensures pipeJob == old(pipeJob) && livePipes == match old(pipeJob) case Some(p) => old(livePipes) - {p} case None => old(livePipes)
    {
      livePipes := livePipes - TheOne(pipeJob);
      hushed := hushed + TheOne(pipeJob);
      stops := stops[k := Cancelled];
    }

    /** And forget whatever is tracked by then. */
    method ForgetPipe(k: nat)
      requires k < |stops| && stops[k].Cancelled?
      modifies this
      ensures Abs() == Take(old(Abs()), StopForget(k))
      ensures pipeJob.None? && livePipes == old(livePipes)
    {
      leaked := leaked + TheOne(pipeJob) * livePipes;
      pipeJob := None;
      stops := stops[k := Finished];
    }
  }
}
