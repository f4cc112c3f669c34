/** Whether a subscription is cleaned up when its parent context is cancelled, as bus.go promises, and
    from which states it may be left behind until somebody calls Unsubscribe on it or Close. */
module AsyncCleanup {
  import opened Wildcard
  import opened Workers
  import opened AsyncProtocol

  /** Nothing that belongs to the subscription can take a step any more. */
  ghost predicate Quiet(s: State, x: nat) {
    s.mu.None? && forall step :: OwnStep(step, x) ==> !Enabled(s, step)
  }

  /** The parent context is cancelled and everything about the subscription has come to rest. */
  ghost predicate AtRest(s: State, x: nat) {
    x in s.subs && s.subs[x].ctxDone && Quiet(s, x)
  }

  /** The watcher waits for the parent context or has been woken by it, or somebody has called Unsubscribe. */
  predicate Committed(u: SubState) { !u.phase.Fresh? || u.watcher.Parked? || u.watcher.Woken? }

  /** The subscription can be found by dispatch and by Close, and its channel is open. */
  predicate Listed(s: State, x: nat) {
    && s.mu.None? && x in s.subs && x in s.flat && !s.subs[x].ch.closed
    && (s.subs[x].tracked ==> x in s.active)
  }

  /** Left behind: at rest in the index, its channel open, and nothing of its own will release it. */
  ghost predicate Leaked(s: State, x: nat) {
    AtRest(s, x) && !s.subs[x].raw && Listed(s, x) && s.subs[x].tracked && !Torn(s, x)
  }

  // ---- what stays so --------------------------------------------------------------------

  lemma CommittedSolo(s: State, step: Step, x: nat)
    requires x in s.subs && WatcherOk(s.subs[x]) && Committed(s.subs[x]) && Enabled(s, step) && Solo(step)
    ensures x in Apply(s, step).subs && Committed(Apply(s, step).subs[x])
  {
    hide Terminal;
  }

  predicate Calls(step: Step) { step.WatcherCall? || step.UserCall? || step.LoopCall? }

  lemma CommittedCall(s: State, step: Step, x: nat)
    requires x in s.subs && Committed(s.subs[x]) && Enabled(s, step) && Calls(step)
    ensures x in Apply(s, step).subs && Committed(Apply(s, step).subs[x])
  {
  }

  lemma CommittedOnce(s: State, y: nat, x: nat)
    requires x in s.subs && Committed(s.subs[x]) && Enabled(s, OnceStep(y))
    ensures x in Apply(s, OnceStep(y)).subs && Committed(Apply(s, OnceStep(y)).subs[x])
  {
    hide Apply, Enabled;
    OnceRecord(s, y);
  }

  lemma CommittedOther(s: State, step: Step, x: nat)
    requires x in s.subs && x < s.next && Committed(s.subs[x]) && Enabled(s, step)
    requires !Solo(step) && !Calls(step) && !step.OnceStep?
    ensures x in Apply(s, step).subs && Committed(Apply(s, step).subs[x])
  {
    assert Apply(s, step).subs[x].watcher == s.subs[x].watcher && Apply(s, step).subs[x].phase == s.subs[x].phase by {
      hide Receives, NoDup, Accepts, Committed;
    }
  }

  lemma CommittedStep(s: State, step: Step, x: nat)
    requires Inv(s) && x in s.subs && Committed(s.subs[x]) && Enabled(s, step)
    ensures x in Apply(s, step).subs && Committed(Apply(s, step).subs[x])
  {
    assert SubOk(s.subs[x]) && x < s.next;
    hide SubOk, WatcherOk, Apply, Enabled;
    if Solo(step) { CommittedSolo(s, step, x); }
    else if Calls(step) { CommittedCall(s, step, x); }
    else if step.OnceStep? { CommittedOnce(s, step.x, x); }
    else { CommittedOther(s, step, x); }
  }

  /** What is not listed is never listed again. */
  lemma UnlistedStep(s: State, step: Step, x: nat)
    requires Inv(s) && x in s.subs && !Listed(s, x) && Enabled(s, step)
    ensures x in Apply(s, step).subs && !Listed(Apply(s, step), x)
  {
    StepGrows(s, step);
    assert Evolves(s.subs[x], Apply(s, step).subs[x]) && x < s.next;
    hide Inv, Apply, Enabled;
    if s.mu.Some? {
      HeldStep(s, step);
    } else if x !in s.flat {
      FlatStep(s, step, x);
    } else if s.subs[x].ch.closed {
      assert Apply(s, step).subs[x].ch.closed;
    } else {
      UntrackedStep(s, step, x);
    }
  }

  /** While the lock is held it stays so, until the index is emptied. */
  lemma HeldStep(s: State, step: Step)
    requires s.mu.Some? && Enabled(s, step)
    ensures Apply(s, step).mu.Some? || Apply(s, step).flat == []
  {
    hide Receives, NoDup, Accepts, NewSub, Call, Advance, TakeHead, DoneSub, Without, WorkerAt, HasCalled, Terminal;
  }

  lemma FlatStep(s: State, step: Step, x: nat)
    requires x < s.next && x !in s.flat && Enabled(s, step)
    ensures x !in Apply(s, step).flat
  {
    hide Receives, NoDup, Accepts, NewSub, Call, Advance, TakeHead, DoneSub, WorkerAt, HasCalled, Terminal;
  }

  lemma UntrackedStep(s: State, step: Step, x: nat)
    requires x in s.subs && s.subs[x].tracked && x !in s.active && Enabled(s, step)
    ensures x !in Apply(s, step).active
  {
    hide Receives, NoDup, Accepts, NewSub, Call, Advance, TakeHead, DoneSub, WorkerAt, HasCalled, Terminal;
  }

  // ---- at rest ----------------------------------------------------------------------------

  /** When the parent context is cancelled and everything has come to rest, the subscription is torn
      down or its watcher took the branch that does not unsubscribe and nobody else did. */
  lemma RestMeans(s: State, x: nat)
    requires Inv(s) && AtRest(s, x) && !s.subs[x].raw
    ensures Torn(s, x) <==> !s.subs[x].phase.Fresh?
    ensures Torn(s, x) || s.subs[x].watcher.Skipped?
    ensures s.subs[x].tracked && AllExited(s.subs[x])
  {
    RestingWatcher(s, x);
    RestingWorkers(s, x);
    if !s.subs[x].phase.Fresh? && !s.subs[x].phase.Finished? {
      hide Inv, Enabled;
      OnceMoves(s, x);
      assert false;
    }
  }

  lemma RestingWatcher(s: State, x: nat)
    requires Inv(s) && AtRest(s, x) && !s.subs[x].raw
    ensures var u := s.subs[x];
      u.subDone && u.tracked && (u.watcher.Skipped? || !u.phase.Fresh?)
  {
    var u := s.subs[x];
    assert SubOk(u);
    hide Inv;
    assert !Enabled(s, SpawnWorker(x)) && !Enabled(s, SpawnWatcher(x)) && !Enabled(s, Propagate(x));
    assert !Enabled(s, Poll(x, true)) && !Enabled(s, WatcherCall(x)) && !Enabled(s, Track(x));
  }

  lemma RestingWorkers(s: State, x: nat)
    requires Inv(s) && x in s.subs && s.subs[x].subDone && Quiet(s, x)
    ensures AllExited(s.subs[x])
  {
    assert SubOk(s.subs[x]);
    LiveZero(s.subs[x].workers, Exited);
    hide SubOk, Enabled;
    if s.subs[x].wg != 0 {
      WorkerMoves(s, x);
      assert false;
    }
  }

  lemma {:induction false} CommittedStays(run: seq<State>, more: seq<State>, x: nat)
    requires Continues(run, more) && x in Last(run).subs && Committed(Last(run).subs[x])
    ensures x in Last(more).subs && Committed(Last(more).subs[x])
    decreases |more|
  {
    hide Inv, Enabled, Apply, Committed;
    if |run| < |more| {
      var before := more[..|more| - 1];
      Shorter(run, more);
      CommittedStays(run, before, x);
      RunInv(before, |before| - 1);
      var step := StepAt(more, |more| - 2);
      CommittedStep(Last(before), step, x);
    }
  }

  lemma {:induction false} UnlistedStays(run: seq<State>, more: seq<State>, x: nat)
    requires Continues(run, more) && x in Last(run).subs && !Listed(Last(run), x)
    ensures x in Last(more).subs && !Listed(Last(more), x)
    decreases |more|
  {
    hide Inv, Enabled, Apply, Listed;
    if |run| < |more| {
      var before := more[..|more| - 1];
      Shorter(run, more);
      UnlistedStays(run, before, x);
      RunInv(before, |before| - 1);
      var step := StepAt(more, |more| - 2);
      UnlistedStep(Last(before), step, x);
    }
  }

  // ---- the way to be left behind ----------------------------------------------------------

  /** Steps until everything about a subscription that nobody unsubscribes has come to rest. */
  function Left(u: SubState): int {
    (match u.watcher case Unborn => 3 * (u.wanted - |u.workers|) + 2 case Polling => 1 case _ => 0)
    + (if u.ctxDone then 0 else 1) + (if u.subDone then 0 else 1) + (if u.tracked then 0 else 1)
    + Total(u.workers, Weight)
  }

  predicate Drifting(s: State, x: nat) { x in s.subs && !s.subs[x].raw && !Committed(s.subs[x]) && s.mu.None? }

  ghost predicate Drifted(u: SubState) { u.ctxDone && u.subDone && u.tracked && u.watcher.Skipped? && AllExited(u) }

  /** The step brings the subscription nearer to rest, uncommitted and listed if it was. */
  ghost predicate Drifts(s: State, step: Step, x: nat)
    requires Drifting(s, x)
  {
    && Enabled(s, step) && Drifting(Apply(s, step), x)
    && (Listed(s, x) ==> Listed(Apply(s, step), x))
    && 0 <= Left(Apply(s, step).subs[x]) < Left(s.subs[x])
  }

  lemma DriftUnborn(s: State, x: nat) returns (step: Step)
    requires Drifting(s, x) && SubOk(s.subs[x]) && s.subs[x].watcher.Unborn?
    ensures Drifts(s, step, x)
  {
    hide Drifts;
    if |s.subs[x].workers| < s.subs[x].wanted {
      step := SpawnWorker(x);
      DriftSpawn(s, x);
    } else {
      step := SpawnWatcher(x);
      DriftWatch(s, x);
    }
  }

  lemma DriftSpawn(s: State, x: nat)
    requires Drifting(s, x) && s.subs[x].watcher.Unborn? && |s.subs[x].workers| < s.subs[x].wanted
    ensures Drifts(s, SpawnWorker(x), x)
  {
    TotalAppend(s.subs[x].workers, Selecting, Weight);
    hide Total;
  }

  lemma DriftWatch(s: State, x: nat)
    requires Drifting(s, x) && s.subs[x].watcher.Unborn? && |s.subs[x].workers| == s.subs[x].wanted
    ensures Drifts(s, SpawnWatcher(x), x)
  {
    hide Total;
  }

  /** The context is cancelled, and a watcher that reaches its select takes the wrong branch. */
  lemma DriftContext(s: State, x: nat) returns (step: Step)
    requires Drifting(s, x) && SubOk(s.subs[x]) && !s.subs[x].watcher.Unborn?
    requires !(s.subs[x].ctxDone && s.subs[x].subDone && s.subs[x].watcher.Skipped?)
    ensures Drifts(s, step, x)
  {
    hide Total;
    var u := s.subs[x];
    step := if !u.ctxDone then CancelParent(x) else if !u.subDone then Propagate(x) else Poll(x, false);
  }

  lemma DriftTrack(s: State, x: nat)
    requires Drifting(s, x) && SubOk(s.subs[x]) && !s.subs[x].watcher.Unborn? && !s.subs[x].tracked
    ensures Drifts(s, Track(x), x)
  {
    hide Total;
  }

  lemma DriftWorker(s: State, x: nat, w: nat) returns (step: Step)
    requires Drifting(s, x) && SubOk(s.subs[x]) && s.subs[x].subDone
    requires w < |s.subs[x].workers| && !s.subs[x].workers[w].Exited?
    ensures Drifts(s, step, x)
  {
    var u := s.subs[x];
    var pc := if u.workers[w].Handling? then Selecting else Exited;
    step := if u.workers[w].Handling? then Finish(x, w) else Exit(x, w);
    TotalUpdate(u.workers, w, pc, Weight);
    hide Total;
  }

  lemma DriftStep(s: State, x: nat) returns (step: Step)
    requires Inv(s) && Drifting(s, x) && !Drifted(s.subs[x])
    ensures Drifts(s, step, x)
  {
    var u := s.subs[x];
    assert SubOk(u);
    hide Inv, SubOk, Drifts, Drifting, Enabled;
    if u.watcher.Unborn? {
      step := DriftUnborn(s, x);
    } else if !u.ctxDone || !u.subDone || !u.watcher.Skipped? {
      step := DriftContext(s, x);
    } else if !u.tracked {
      step := Track(x);
      DriftTrack(s, x);
    } else {
      var w :| 0 <= w < |u.workers| && !u.workers[w].Exited?;
      step := DriftWorker(s, x, w);
    }
  }

  lemma DriftedIsAtRest(s: State, x: nat)
    requires Inv(s) && Drifting(s, x) && Drifted(s.subs[x])
    ensures AtRest(s, x) && !Torn(s, x)
  {
    assert SubOk(s.subs[x]);
  }

  lemma Drift(run: seq<State>, x: nat) returns (more: seq<State>)
    requires IsRun(run) && Drifting(Last(run), x)
    ensures Continues(run, more) && AtRest(Last(more), x) && !Torn(Last(more), x)
    ensures Last(more).subs[x].tracked && !Last(more).subs[x].raw
    ensures Listed(Last(run), x) ==> Listed(Last(more), x)
    decreases Left(Last(run).subs[x])
  {
    var s := Last(run);
    RunInv(run, |run| - 1);
    if Drifted(s.subs[x]) {
      more := run;
      DriftedIsAtRest(s, x);
    } else {
      hide Inv, Enabled, Apply, Listed, Left, AtRest;
      var step := DriftStep(s, x);
      more := Extend(run, step);
      more := Drift(more, x);
    }
  }

  // ---- main results -----------------------------------------------------------------------

  /** The promise of automatic cleanup, for every run: whatever happens from here on, once the parent
      context is cancelled and everything has come to rest the subscription is torn down, if and only
      if its watcher waits in its select or has been woken there, or somebody has called Unsubscribe. */
  lemma CleanupIffCommitted(run: seq<State>, x: nat)
    requires IsRun(run) && x in Last(run).subs && !Last(run).subs[x].raw
    ensures (forall more :: Continues(run, more) && AtRest(Last(more), x) ==> Torn(Last(more), x))
       <==> Committed(Last(run).subs[x])
  {
    hide AtRest, Torn, Inv;
    if Committed(Last(run).subs[x]) {
      forall more | Continues(run, more) && AtRest(Last(more), x) ensures Torn(Last(more), x) {
        CommittedStays(run, more, x);
        RunInv(more, |more| - 1);
        RawStays(run, more, x);
        CommittedAtRest(Last(more), x);
      }
    } else {
      var free := ReleaseLock(run, x);
      var more := Drift(free, x);
      assert Continues(run, more);
    }
  }

  lemma CommittedAtRest(s: State, x: nat)
    requires Inv(s) && AtRest(s, x) && !s.subs[x].raw && Committed(s.subs[x])
    ensures Torn(s, x)
  {
    RestMeans(s, x);
  }

  lemma {:induction false} RawStays(run: seq<State>, more: seq<State>, x: nat)
    requires Continues(run, more) && x in Last(run).subs
    ensures x in Last(more).subs && Last(more).subs[x].raw == Last(run).subs[x].raw
    decreases |more|
  {
    hide Inv, Enabled, Apply;
    if |run| < |more| {
      var before := more[..|more| - 1];
      Shorter(run, more);
      RawStays(run, before, x);
      RunInv(before, |before| - 1);
      var step := StepAt(more, |more| - 2);
      StepGrows(Last(before), step);
    }
  }

  /** And for every run: the subscription can be left behind from here on, at rest with its context
      cancelled but listed and its channel open, if and only if it is listed now and not committed. */
  lemma LeakIffNotCommitted(run: seq<State>, x: nat)
    requires IsRun(run) && x in Last(run).subs && !Last(run).subs[x].raw
    ensures (exists more :: Continues(run, more) && Leaked(Last(more), x))
       <==> Listed(Last(run), x) && !Committed(Last(run).subs[x])
  {
    hide AtRest, Torn, Inv, Listed, Committed;
    if Listed(Last(run), x) && !Committed(Last(run).subs[x]) {
      assert Drifting(Last(run), x) by { ListedIsFree(Last(run), x); }
      var more := Drift(run, x);
      assert Leaked(Last(more), x);
    } else {
      forall more | Continues(run, more) ensures !Leaked(Last(more), x) {
        if Leaked(Last(more), x) {
          if !Listed(Last(run), x) {
            UnlistedStays(run, more, x);
          } else {
            CommittedStays(run, more, x);
            RunInv(more, |more| - 1);
            CommittedAtRest(Last(more), x);
          }
          assert false;
        }
      }
    }
  }

  // ---- left behind for as long as nobody asks ---------------------------------------------------

  /** Somebody calls Unsubscribe on x, or Close takes the tracked list or the lock. */
  predicate Reclaims(s: State, step: Step, x: nat)
    requires Enabled(s, step)
  {
    step.CloseStart? || step.Lock? || ((step.UserCall? || step.LoopCall?) && Subject(s, step) == x)
  }

  /** The state of a subscription that is left behind, spelled out. */
  ghost predicate Stranded(s: State, x: nat) { Listed(s, x) && Drifting(s, x) && Drifted(s.subs[x]) }

  lemma LeakedIsStranded(s: State, x: nat)
    requires Inv(s) && x in s.subs
    ensures Leaked(s, x) <==> Stranded(s, x)
  {
    if Leaked(s, x) {
      RestMeans(s, x);
      RestingWatcher(s, x);
    } else if Stranded(s, x) {
      DriftedIsAtRest(s, x);
    }
  }

  lemma StrandedRecord(s: State, step: Step)
    requires Enabled(s, step) && Changes(step) && !step.UserCall? && !step.LoopCall? && !step.Sweep?
    requires Subject(s, step) in s.subs && Subject(s, step) in Apply(s, step).subs
    requires Drifting(s, Subject(s, step)) && Drifted(s.subs[Subject(s, step)]) && SubOk(s.subs[Subject(s, step)])
    ensures var u, u' := s.subs[Subject(s, step)], Apply(s, step).subs[Subject(s, step)];
      u' == u.(ch := u'.ch) && u'.ch.closed == u.ch.closed
  {
    if step.Deliver? { hide Accepts; } else { hide LifeOk; }
  }

  lemma StrandedLists(s: State, step: Step, x: nat)
    requires Enabled(s, step) && Stranded(s, x) && !step.CloseStart? && !step.Lock? && !step.Unlock?
    ensures Apply(s, step).mu == s.mu && x in Apply(s, step).flat && x in Apply(s, step).active
  {
    hide Receives, NoDup, Accepts, NewSub, Call, TakeHead, DoneSub, Terminal, HasCalled, AllExited;
  }

  lemma StrandedFrom(s: State, s': State, x: nat)
    requires Stranded(s, x) && x in s'.subs && s'.mu == s.mu && x in s'.flat && x in s'.active
    requires s'.subs[x] == s.subs[x].(ch := s'.subs[x].ch) && s'.subs[x].ch.closed == s.subs[x].ch.closed
    ensures Stranded(s', x)
  {
  }

  lemma StrandedStays(s: State, step: Step, x: nat)
    requires Inv(s) && Enabled(s, step) && Stranded(s, x) && !Reclaims(s, step, x) && !step.Sweep?
    ensures x in Apply(s, step).subs
    ensures var u, u' := s.subs[x], Apply(s, step).subs[x];
      u' == u.(ch := u'.ch) && u'.ch.closed == u.ch.closed
  {
    assert SubOk(s.subs[x]) && x < s.next;
    SubjectOnly(s, step);
    hide Inv, SubOk, AllExited, Apply, Enabled, Listed;
    if Changes(step) {
      if x == Subject(s, step) { StrandedRecord(s, step); }
    } else if step.Subscribe? {
      SubscribeLeaves(s, step, x);
    }
  }

  lemma StrandedStep(s: State, step: Step, x: nat)
    requires Inv(s) && Enabled(s, step) && Stranded(s, x) && !Reclaims(s, step, x)
    ensures Stranded(Apply(s, step), x)
  {
    SweepsWithLock(s, step);
    assert s.mu.None?;
    hide Inv, Apply, Enabled, Stranded;
    StrandedStays(s, step, x);
    StrandedLists(s, step, x);
    StrandedFrom(s, Apply(s, step), x);
  }

  /** Only the Close call that holds the lock sweeps. */
  lemma SweepsWithLock(s: State, step: Step)
    requires ClosersOk(s) && Enabled(s, step)
    ensures step.Sweep? || step.Unlock? ==> s.mu.Some?
  {
    if step.Sweep? || step.Unlock? { assert CloserOk(s, step.c, s.closers[step.c]); }
  }

  /** Of every run: a subscription that has been left behind stays so, at rest, listed and its channel
      open, until somebody calls Unsubscribe on it or Close. */
  lemma {:induction false} LeftBehind(run: seq<State>, steps: seq<Step>, i: nat, j: nat, x: nat)
    requires Labels(run, steps) && run[0] == INIT && i <= j <= |steps| && Leaked(run[i], x)
    requires forall k :: i <= k < j ==> !Reclaims(run[k], steps[k], x)
    ensures Leaked(run[j], x)
    decreases j
  {
    hide Inv, Enabled, Apply, Stranded, Leaked, Reclaims;
    if i < j {
      LeftBehind(run, steps, i, j - 1, x);
      LabelsRun(run, steps);
      RunInv(run, j - 1);
      RunInv(run, j);
      LeftBehindStep(run[j - 1], steps[j - 1], x);
    }
  }

  lemma LeftBehindStep(s: State, step: Step, x: nat)
    requires Inv(s) && Enabled(s, step) && Inv(Apply(s, step)) && Leaked(s, x) && !Reclaims(s, step, x)
    ensures Leaked(Apply(s, step), x)
  {
    hide Inv, Enabled, Apply, Reclaims;
    LeakedIsStranded(s, x);
    StrandedStep(s, step, x);
    LeakedIsStranded(Apply(s, step), x);
  }

  lemma ListedIsFree(s: State, x: nat)
    requires Listed(s, x)
    ensures s.mu.None?
  {
  }

  /** One such run: the context is cancelled before the watcher reaches its select. */
  lemma LateWatcherLeaks() returns (run: seq<State>, x: nat)
    ensures IsRun(run) && Leaked(Last(run), x)
  {
    run, x := StartRun(), 0;
    hide IsRun;
    run := Extend(run, Subscribe("t", false, 1));
    run := Extend(run, SpawnWorker(0));
    run := Extend(run, SpawnWatcher(0));
    run := Extend(run, CancelParent(0));
    assert Listed(Last(run), 0) && Drifting(Last(run), 0);
    run := Drift(run, 0);
  }
}
