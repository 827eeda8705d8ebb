/**
 The event pipes over whole runs: which are alive, which nobody tracks any more, and whether a plane whose
 URI is handed out still delivers events.
 */
module EventPipes {
  import opened Histories
  import opened Lifecycle
  import opened Wrappers

  /** The `k`-th step of the run took place. */
  ghost predicate TookAt(steps: seq<Step>, k: nat, step: Step)
  {
    k < |steps| && steps[k] == step && Enabled(Run(steps[..k]), step)
  }

  lemma TookPrefix(steps: seq<Step>, n: nat, k: nat, step: Step)
    requires k < n <= |steps|
    ensures TookAt(steps[..n], k, step) <==> TookAt(steps, k, step)
  {
    assert steps[..n][..k] == steps[..k];
  }

  // ---------------------------------------------------------------- tracked and alive

  predicate TrackedLive(ps: Pipes, p: nat) { ps.tracked == Some(p) && p in ps.live }

  /** The `m`-th step took place and ends the time of pipe `p` as the live tracked one, if it was. */
  ghost predicate EndsAt(steps: seq<Step>, m: nat, p: nat)
  {
    m < |steps| && Enabled(Run(steps[..m]), steps[m]) && Ends(Run(steps[..m]), steps[m], p)
  }

  /** A start that opens a pipe of its own, a stop at the tracked pipe, or the pipe's own stale attempt. */
  predicate Ends(s: State, step: Step, p: nat)
  {
    (step.Start? && Opens(s)) || step.StopCancel? || step.StopForget? || step == StaleCancel(p)
  }

  lemma TrackedStep(s: State, step: Step, p: nat)
    requires Inv(s) && Enabled(s, step)
    ensures TrackedLive(Take(s, step).pipes, p) <==> step == Track(p) || (TrackedLive(s.pipes, p) && !Ends(s, step, p))
  {
    PipesTaken(s, step);
    assert step.Track? || step.StaleForget? ==> PipeFits(s, step.j);
    hide Take, JobsInv, CacheInv, TransportInv, ServedInv, CallersInv;
  }

  lemma EndsPrefix(steps: seq<Step>, n: nat, m: nat, p: nat)
    requires m < n <= |steps|
    ensures EndsAt(steps[..n], m, p) <==> EndsAt(steps, m, p)
  {
    assert steps[..n][..m] == steps[..m];
  }

  ghost function Tracks(steps: seq<Step>, p: nat): nat -> bool { (k: nat) => TookAt(steps, k, Track(p)) }

  ghost function TrackingEnds(steps: seq<Step>, p: nat): nat -> bool { (k: nat) => EndsAt(steps, k, p) }

  /** A pipe is tracked and alive exactly if its start tracked it and nothing has ended that since. */
  lemma {:induction false} TrackedLiveIff(steps: seq<Step>, p: nat)
    ensures TrackedLive(Run(steps).pipes, p) <==> Lasts(Tracks(steps, p), TrackingEnds(steps, p), |steps|)
  {
    if steps != [] {
      var n := |steps| - 1;
      TrackedLiveIff(steps[..n], p);
      InvAlways(steps[..n]);
      if Enabled(Run(steps[..n]), steps[n]) {
        TrackedStep(Run(steps[..n]), steps[n], p);
      }
      hide Inv, TrackedLive, Ends, Enabled, Take, Lasts;
      forall k: nat | k < n
        ensures (TookAt(steps, k, Track(p)) <==> TookAt(steps[..n], k, Track(p))) && (EndsAt(steps, k, p) <==> EndsAt(steps[..n], k, p))
      {
        TookPrefix(steps, n, k, Track(p));
        EndsPrefix(steps, n, k, p);
      }
      LastsNext(Tracks(steps, p), TrackingEnds(steps, p), Tracks(steps[..n], p), TrackingEnds(steps[..n], p), n);
    }
  }

  // ---------------------------------------------------------------- leaks

  /** The `k`-th step is the write of a stop that drops pipe `p` while it is alive. */
  ghost predicate DropsAt(steps: seq<Step>, k: nat, p: nat)
  {
    k < |steps| && steps[k].StopForget? && Enabled(Run(steps[..k]), steps[k]) && TrackedLive(Run(steps[..k]).pipes, p)
  }

  lemma DropsPrefix(steps: seq<Step>, n: nat, k: nat, p: nat)
    requires k < n <= |steps|
    ensures DropsAt(steps[..n], k, p) <==> DropsAt(steps, k, p)
  {
    assert steps[..n][..k] == steps[..k];
  }

  lemma LeakedStep(s: State, step: Step, p: nat)
    requires Inv(s) && Enabled(s, step)
    ensures p in Take(s, step).pipes.leaked <==>
            (step.StopForget? && TrackedLive(s.pipes, p)) || (p in s.pipes.leaked && step != StaleCancel(p))
  {
    PipesTaken(s, step);
    hide Take, Inv;
  }

  ghost function Drops(steps: seq<Step>, p: nat): nat -> bool { (k: nat) => DropsAt(steps, k, p) }

  ghost function OwnCancel(steps: seq<Step>, p: nat): nat -> bool { (k: nat) => TookAt(steps, k, StaleCancel(p)) }

  lemma {:induction false} LeakedIff(steps: seq<Step>, p: nat)
    ensures p in Run(steps).pipes.leaked <==> Lasts(Drops(steps, p), OwnCancel(steps, p), |steps|)
  {
    if steps != [] {
      var n := |steps| - 1;
      LeakedIff(steps[..n], p);
      InvAlways(steps[..n]);
      if Enabled(Run(steps[..n]), steps[n]) {
        LeakedStep(Run(steps[..n]), steps[n], p);
      }
      hide Inv, TrackedLive, Enabled, Take, Lasts;
      forall k: nat | k < n
        ensures (DropsAt(steps, k, p) <==> DropsAt(steps[..n], k, p))
        ensures (TookAt(steps, k, StaleCancel(p)) <==> TookAt(steps[..n], k, StaleCancel(p)))
      {
        DropsPrefix(steps, n, k, p);
        TookPrefix(steps, n, k, StaleCancel(p));
      }
      LastsNext(Drops(steps, p), OwnCancel(steps, p), Drops(steps[..n], p), OwnCancel(steps[..n], p), n);
    }
  }

  /** A stop that owes the write has cancelled what was tracked then. */
  lemma {:induction false} CancelledCame(steps: seq<Step>, x: nat) returns (i: nat)
    requires x < |Run(steps).stops| && Run(steps).stops[x].Cancelled?
    ensures TookAt(steps, i, StopCancel(x))
  {
    var n := |steps| - 1;
    var s := Run(steps[..n]);
    if x < |s.stops| && s.stops[x].Cancelled? {
      i := CancelledCame(steps[..n], x);
      TookPrefix(steps, n, i, StopCancel(x));
    } else {
      i := n;
    }
  }

  /**
   Stop `x` cancels the tracked pipe at `i`, a start tracks its own pipe `p` at `j`, and at `k` the stop
   forgets it, nothing having ended its time before.
   */
  ghost predicate Overtaken(steps: seq<Step>, i: nat, j: nat, k: nat, x: nat, p: nat)
  {
    && i < j < k && TookAt(steps, i, StopCancel(x)) && TookAt(steps, j, Track(p)) && TookAt(steps, k, StopForget(x))
    && forall m: nat :: j < m < k ==> !EndsAt(steps, m, p)
  }

  lemma SinceIsOvertaken(steps: seq<Step>, i: nat, j: nat, k: nat, x: nat, p: nat)
    requires k <= |steps| && TookAt(steps[..k], i, StopCancel(x)) && i < k
    requires Since(Tracks(steps[..k], p), TrackingEnds(steps[..k], p), k, j) && TookAt(steps, k, StopForget(x))
    ensures Overtaken(steps, i, j, k, x, p)
  {
    TookPrefix(steps, k, i, StopCancel(x));
    TookPrefix(steps, k, j, Track(p));
    assert EndsAt(steps[..k], i, p);
    hide TookAt, EndsAt;
    forall m: nat | j < m < k ensures !EndsAt(steps, m, p) {
      EndsPrefix(steps, k, m, p);
      assert !TrackingEnds(steps[..k], p)(m);
    }
    assert TrackingEnds(steps[..k], p)(i);
    if i == j {
      OneStep(steps, i, x, p);
    }
  }

  lemma OneStep(steps: seq<Step>, i: nat, x: nat, p: nat)
    requires TookAt(steps, i, StopCancel(x))
    ensures !TookAt(steps, i, Track(p))
  {
  }

  lemma OvertakenIsSince(steps: seq<Step>, i: nat, j: nat, k: nat, x: nat, p: nat)
    requires Overtaken(steps, i, j, k, x, p)
    ensures k < |steps| && Since(Tracks(steps[..k], p), TrackingEnds(steps[..k], p), k, j)
  {
    assert k < |steps|;
    TookPrefix(steps, k, j, Track(p));
    hide TookAt, EndsAt;
    forall m: nat | j < m < k ensures !EndsAt(steps[..k], m, p) {
      EndsPrefix(steps, k, m, p);
    }
  }

  /** A stop drops a live pipe exactly if a start's write fell between the two accesses of that stop. */
  lemma {:induction false} DropsIffOvertaken(steps: seq<Step>, k: nat, p: nat)
    ensures DropsAt(steps, k, p) <==> exists i: nat, j: nat, x: nat :: Overtaken(steps, i, j, k, x, p)
  {
    if k < |steps| {
      TrackedLiveIff(steps[..k], p);
      if DropsAt(steps, k, p) {
        var x := steps[k].k;
        var i := CancelledCame(steps[..k], x);
        var j: nat :| Since(Tracks(steps[..k], p), TrackingEnds(steps[..k], p), k, j);
        hide Run, Enabled;
        SinceIsOvertaken(steps, i, j, k, x, p);
      }
      if i: nat, j: nat, x: nat :| Overtaken(steps, i, j, k, x, p) {
        OvertakenIsSince(steps, i, j, k, x, p);
      }
    }
  }

  /** Alive, and neither tracked nor just being opened: nothing but its own attempt will ever cancel it. */
  predicate Stray(ps: Pipes, p: nat) { p in ps.live && ps.tracked != Some(p) && ps.opening != Some(p) }

  /** The pipe `p` was dropped alive at `k` in this way, and its own attempt has not cancelled it since. */
  ghost predicate StrayedAt(steps: seq<Step>, i: nat, j: nat, k: nat, x: nat, p: nat)
  {
    Overtaken(steps, i, j, k, x, p) && forall m: nat :: k < m ==> !TookAt(steps, m, StaleCancel(p))
  }

  /**
   The exact condition for a leaked pipe, over every run: the lock section of its start wrote between the
   cancel of some stop and the write of that stop, and it has not found itself stale since.
   */
  lemma {:induction false} StrayIff(steps: seq<Step>, p: nat)
    ensures Stray(Run(steps).pipes, p) <==> exists i: nat, j: nat, k: nat, x: nat :: StrayedAt(steps, i, j, k, x, p)
  {
    InvAlways(steps);
    LeakedIff(steps, p);
    hide Run;
    assert Stray(Run(steps).pipes, p) <==> p in Run(steps).pipes.leaked;
    hide Stray, Inv;
    if Lasts(Drops(steps, p), OwnCancel(steps, p), |steps|) {
      var k: nat :| Since(Drops(steps, p), OwnCancel(steps, p), |steps|, k);
      DropsIffOvertaken(steps, k, p);
      var i: nat, j: nat, x: nat :| Overtaken(steps, i, j, k, x, p);
      forall m: nat | k < m ensures !TookAt(steps, m, StaleCancel(p)) {
        assert m < |steps| ==> !OwnCancel(steps, p)(m);
      }
      assert StrayedAt(steps, i, j, k, x, p);
    }
    if i: nat, j: nat, k: nat, x: nat :| StrayedAt(steps, i, j, k, x, p) {
      DropsIffOvertaken(steps, k, p);
      assert Since(Drops(steps, p), OwnCancel(steps, p), |steps|, k);
    }
  }

  /** Every start's write misses the time between the cancel and the write of every stop. */
  ghost predicate NoOvertaking(steps: seq<Step>)
  {
    forall i: nat, j: nat, k: nat, x: nat, p: nat :: i < j < k ==>
      !(TookAt(steps, i, StopCancel(x)) && TookAt(steps, j, Track(p)) && TookAt(steps, k, StopForget(x)))
  }

  /** Then restarts leak no pipe: at most one is alive, the tracked one or the one a start is opening. */
  lemma {:induction false} AtMostOnePipe(steps: seq<Step>)
    requires NoOvertaking(steps)
    ensures var ps := Run(steps).pipes;
      && (forall p :: p in ps.live ==> ps.tracked == Some(p) || ps.opening == Some(p))
      && (forall p, q :: p in ps.live && q in ps.live ==> p == q)
  {
    InvAlways(steps);
    var ps := Run(steps).pipes;
    hide Run, TookAt;
    forall p ensures !Stray(ps, p) {
      StrayIff(steps, p);
      if i: nat, j: nat, k: nat, x: nat :| StrayedAt(steps, i, j, k, x, p) {
        assert false;
      }
    }
    hide NoOvertaking;
    assert forall p :: p in ps.live ==> !Stray(ps, p);
  }

  // ---------------------------------------------------------------- a served plane and its pipe

  /** The `k`-th step is the cancel of a stop while pipe `p` is tracked. */
  ghost predicate SilencedAt(steps: seq<Step>, k: nat, p: nat)
  {
    && k < |steps| && steps[k].StopCancel? && Enabled(Run(steps[..k]), steps[k])
    && Run(steps[..k]).pipes.tracked == Some(p)
  }

  lemma HushedStep(s: State, step: Step, p: nat)
    requires Enabled(s, step)
    ensures p in Take(s, step).pipes.hushed <==> p in s.pipes.hushed || (step.StopCancel? && s.pipes.tracked == Some(p))
  {
    PipesTaken(s, step);
    hide Take, Enabled;
  }

  ghost function Silences(steps: seq<Step>, p: nat): nat -> bool { (k: nat) => SilencedAt(steps, k, p) }

  lemma {:induction false} HushedIff(steps: seq<Step>, p: nat)
    ensures p in Run(steps).pipes.hushed <==> Lasts(Silences(steps, p), (k: nat) => false, |steps|)
  {
    if steps != [] {
      var n := |steps| - 1;
      HushedIff(steps[..n], p);
      if Enabled(Run(steps[..n]), steps[n]) {
        HushedStep(Run(steps[..n]), steps[n], p);
      }
      hide Enabled, Take, Lasts;
      forall k: nat | k < n ensures SilencedAt(steps, k, p) <==> SilencedAt(steps[..n], k, p) {
        assert steps[..n][..k] == steps[..k];
      }
      LastsNext(Silences(steps, p), (k: nat) => false, Silences(steps[..n], p), (k: nat) => false, n);
    }
  }

  /**
   A plane whose URI is handed out delivers its events exactly while no stop has cancelled the pipe of the
   job that returned that URI.
   */
  lemma {:induction false} CachedUriHeardIffNotSilenced(steps: seq<Step>)
    requires Run(steps).startResult.Some?
    ensures var s := Run(steps);
      s.startJob.Some? && (s.startJob.value in s.pipes.live <==> !exists k: nat :: SilencedAt(steps, k, s.startJob.value))
  {
    InvAlways(steps);
    var s := Run(steps);
    assert s.startJob.Some?;
    var p := s.startJob.value;
    HushedIff(steps, p);
    hide Run, SilencedAt, Inv;
    if k: nat :| SilencedAt(steps, k, p) {
      InTime(steps, k, p);
      assert Since(Silences(steps, p), (k: nat) => false, |steps|, k);
    }
  }

  lemma InTime(steps: seq<Step>, k: nat, p: nat)
    requires SilencedAt(steps, k, p)
    ensures k < |steps|
  {
  }

  /** In particular, started once everything before had settled, and not stopped since, it delivers its events. */
  lemma {:induction false} SettledStartIsHeard(steps: seq<Step>, more: seq<Step>)
    requires Settled(Run(steps)) && Run(steps).startJob.None?
    requires forall k :: 0 <= k < |more| ==> !more[k].StopRotate?
    ensures var s := Run(steps + more); s.startResult.Some? ==> s.startJob.Some? && s.startJob.value in s.pipes.live
  {
    InvAlways(steps);
    InvAlways(steps + more);
    QuietRun(steps, more);
    var s, t := Run(steps), Run(steps + more);
    if t.startResult.Some? {
      JobIsNew(steps, more);
      hide Run, JobsInv, CallersInv, TransportInv, ServedInv;
      assert t.startJob.value !in s.pipes.hushed;
    }
  }

  // ---------------------------------------------------------------- runs

  /** A start stopped at once; a second start tracks its pipe before that stop forgets. */
  lemma StartOvertakesStop() returns (steps: seq<Step>)
    ensures var s := Run(steps);
      && |s.jobs| == 2 && s.jobs[1] == Job(1, Binding, false) && s.startJob == Some(1) && CachedOutcome(s).None?
      && s.startAttempt == 1 && s.boundPort == 0
      && |s.stops| == 1 && s.stops[0].Finished?
      && s.pipes.tracked == None && s.pipes.opening == None && s.pipes.live == {1}
  {
    steps := CancelledStop();
    steps := Then(steps, Start);
    steps := Then(steps, Track(1));
    steps := Then(steps, StopForget(0));
  }

  lemma CancelledStop() returns (steps: seq<Step>)
    ensures var s := Run(steps);
      && |s.jobs| == 1 && s.startJob.None? && CachedOutcome(s).None? && s.startAttempt == 1 && s.boundPort == 0
      && |s.stops| == 1 && s.stops[0].Cancelled? && s.pipes.opening == None && s.pipes.live == {}
  {
    steps := Then([], Start);
    steps := Then(steps, Track(0));
    steps := Then(steps, StopRotate);
    steps := Then(steps, StopClose(0));
    steps := Then(steps, StopCancel(0));
  }

  /** The stray pipe's attempt binds and does not find itself stale. */
  lemma StrayBound() returns (steps: seq<Step>)
    ensures var s := Run(steps);
      && |s.jobs| == 2 && s.jobs[1].phase.Returning? && s.startJob == Some(1)
      && |s.stops| == 1 && s.pipes.tracked == None && s.pipes.opening == None && s.pipes.live == {1}
  {
    steps := StartOvertakesStop();
    steps := Then(steps, BindOk(1, 8080));
    steps := Then(steps, StaleCheck(1));
  }

  /** The stray pipe's attempt ends well, so that it never cancels itself. */
  lemma StrayStays() returns (steps: seq<Step>)
    ensures var s := Run(steps);
      && |s.jobs| == 2 && s.jobs[1].phase.Done? && s.startJob == Some(1)
      && |s.stops| == 1 && s.pipes.tracked == None && s.pipes.opening == None && s.pipes.live == {1}
  {
    steps := StrayBound();
    steps := Then(steps, CacheResult(1));
    steps := Then(steps, Complete(1));
  }

  /** After the next stop and start two pipes are alive, and every event is broadcast twice. */
  lemma TwoPipesAlive() returns (steps: seq<Step>)
    ensures var s := Run(steps);
      && s.pipes.live == {1, 2} && s.pipes.tracked == Some(2) && |s.jobs| == 3 && s.jobs[1].phase.Done?
      && |s.stops| == 2 && s.stops[1].Finished?
  {
    steps := StrayStays();
    steps := Then(steps, StopRotate);
    steps := Then(steps, StopClose(1));
    steps := Then(steps, StopCancel(1));
    steps := Then(steps, StopForget(1));
    steps := StartsAgain(steps);
  }

  lemma StartsAgain(steps: seq<Step>) returns (longer: seq<Step>)
    requires var s := Run(steps);
      && Opens(s) && |s.jobs| == 2 && s.jobs[1].phase.Done? && |s.stops| == 2 && s.stops[1].Finished?
      && s.pipes.tracked == None && s.pipes.opening == None && s.pipes.live == {1}
    ensures var s := Run(longer);
      && s.pipes.live == {1, 2} && s.pipes.tracked == Some(2) && |s.jobs| == 3 && s.jobs[1].phase.Done?
      && |s.stops| == 2 && s.stops[1].Finished?
  {
    longer := Then(steps, Start);
    longer := Then(longer, Track(2));
  }

  /** A late cancel of an older stop silences a plane whose URI is handed out and served. */
  lemma ServedPlaneIsSilent() returns (steps: seq<Step>)
    ensures var s := Run(steps); s.startResult == Some(8080) && Serves(s, 0, 8080) && s.pipes.live == {}
  {
    steps := Then([], StopRotate);
    steps := Then(steps, StopClose(0));
    steps := BindsAndCaches(steps, 8080);
    steps := Then(steps, StopCancel(0));
  }
}
