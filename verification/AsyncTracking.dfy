/** Which torn-down subscriptions the bus still tracks. One that is torn down before it is tracked
    stays in the list, so "an unsubscribed subscription is never in activeSubs" is false; here is
    exactly when it fails. */
module AsyncTracking {
  import opened Wrappers
  import opened Wildcard
  import opened Workers
  import opened AsyncProtocol

  /** Until SubscribeAsync returns, which is after trackSub, only the watcher can have called Unsubscribe. */
  predicate OnlyWatcher(u: SubState) {
    !u.raw && !u.tracked ==>
      (u.runner == None || u.runner == Some(Watcher)) && u.blocked <= {Watcher} && u.returned <= {Watcher}
  }

  ghost predicate Captured(s: State, x: nat) { exists c :: c in s.closers && x in s.closers[c].captured }

  /** A subscription tracked too late is in the list or in one that a Close call has taken out of it;
      none is in both. */
  ghost predicate TrackedOk(s: State) {
    && (forall x :: x in s.subs ==> OnlyWatcher(s.subs[x]))
    && (forall x :: x in s.subs && s.subs[x].late ==> x in s.active || Captured(s, x))
    && (forall x :: x in s.active ==> !Captured(s, x))
  }

  /** Torn down while SubscribeAsync has yet to track it. */
  ghost predicate TornUntracked(s: State, x: nat) { Torn(s, x) && !s.subs[x].raw && !s.subs[x].tracked }

  // ---- preservation -------------------------------------------------------------------------

  lemma WatcherSolo(s: State, step: Step)
    requires Enabled(s, step) && Solo(step) && OnlyWatcher(s.subs[step.x])
    ensures step.x in Apply(s, step).subs && OnlyWatcher(Apply(s, step).subs[step.x])
  {
    hide Terminal;
  }

  lemma WatcherOnce(u: SubState)
    requires OnlyWatcher(u)
    ensures OnlyWatcher(Advance(u))
  {
  }

  lemma WatcherLoopCall(s: State, c: nat)
    requires ClosersOk(s) && Enabled(s, LoopCall(c))
    ensures var x := Subject(s, LoopCall(c));
      x in s.subs && s.subs[x].tracked && x in Apply(s, LoopCall(c)).subs && Apply(s, LoopCall(c)).subs[x].tracked
  {
    assert CloserOk(s, c, s.closers[c]);
  }

  lemma WatcherCaller(s: State, step: Step)
    requires Enabled(s, step) && (step.WatcherCall? || step.UserCall?) && OnlyWatcher(s.subs[step.x])
    ensures step.x in Apply(s, step).subs && OnlyWatcher(Apply(s, step).subs[step.x])
  {
    hide HasCalled;
  }

  lemma WatcherEvent(s: State, step: Step)
    requires Enabled(s, step) && (step.Track? || step.Deliver? || step.Sweep?)
    requires Subject(s, step) in s.subs && OnlyWatcher(s.subs[Subject(s, step)])
    ensures Subject(s, step) in Apply(s, step).subs && OnlyWatcher(Apply(s, step).subs[Subject(s, step)])
  {
    hide Accepts;
  }

  lemma WatcherTouch(s: State, step: Step)
    requires ClosersOk(s) && Enabled(s, step) && Touches(step)
    requires Subject(s, step) in s.subs && OnlyWatcher(s.subs[Subject(s, step)])
    ensures Subject(s, step) in Apply(s, step).subs && OnlyWatcher(Apply(s, step).subs[Subject(s, step)])
  {
    hide ClosersOk, Enabled, Apply;
    if step.LoopCall? {
      WatcherLoopCall(s, step.c);
    } else {
      hide OnlyWatcher;
      if step.WatcherCall? || step.UserCall? { WatcherCaller(s, step); } else { WatcherEvent(s, step); }
    }
  }

  lemma WatcherSubject(s: State, step: Step)
    requires ClosersOk(s) && Enabled(s, step) && Changes(step)
    requires Subject(s, step) in s.subs && OnlyWatcher(s.subs[Subject(s, step)])
    ensures Subject(s, step) in Apply(s, step).subs && OnlyWatcher(Apply(s, step).subs[Subject(s, step)])
  {
    hide ClosersOk, OnlyWatcher, Without, Advance;
    if Solo(step) { WatcherSolo(s, step); }
    else if step.OnceStep? { WatcherOnce(s.subs[step.x]); }
    else { hide Apply, Enabled; WatcherTouch(s, step); }
  }

  lemma WatcherNew(s: State, step: Step)
    requires Enabled(s, step) && step.Subscribe?
    ensures Apply(s, step).subs == s.subs[s.next := NewSub(step.topic, step.raw, step.wanted)]
    ensures OnlyWatcher(NewSub(step.topic, step.raw, step.wanted)) && !NewSub(step.topic, step.raw, step.wanted).late
  {
  }

  lemma WatcherStep(s: State, step: Step)
    requires ClosersOk(s) && Enabled(s, step)
    requires forall x :: x in s.subs ==> OnlyWatcher(s.subs[x])
    ensures forall x :: x in Apply(s, step).subs ==> OnlyWatcher(Apply(s, step).subs[x])
  {
    hide ClosersOk, OnlyWatcher, Enabled, Apply;
    SubjectOnly(s, step);
    if Changes(step) { WatcherSubject(s, step); }
    else if step.Subscribe? { WatcherNew(s, step); }
  }

  /** What a step may do to the list of tracked subscriptions. */
  lemma ActiveStep(s: State, step: Step)
    requires Enabled(s, step)
    ensures forall y :: y in Apply(s, step).active ==> y in s.active || step == Track(y)
    ensures forall y :: y in s.active && y !in Apply(s, step).active ==>
      step.CloseStart? || (step == OnceStep(y) && y in s.subs && s.subs[y].phase.Untracking?)
    ensures step.CloseStart? ==> Apply(s, step).active == []
    ensures step.Track? ==> step.x in Apply(s, step).active
  {
    hide Receives, NoDup, Accepts, NewSub, Call, Advance, TakeHead, DoneSub, Terminal, HasCalled, WorkerAt;
  }

  /** And to the lists that Close calls have taken. */
  lemma ClosersStep(s: State, step: Step, c: nat)
    requires Enabled(s, step)
    ensures c in s.closers ==>
      c in Apply(s, step).closers && Apply(s, step).closers[c].captured == s.closers[c].captured
    ensures c in Apply(s, step).closers && c !in s.closers ==>
      step == CloseStart(c) && Apply(s, step).closers[c].captured == s.active
    ensures step == CloseStart(c) ==> c in Apply(s, step).closers && Apply(s, step).closers[c].captured == s.active
  {
    if c in s.closers { CapturedStep(s, step, c); }
    hide Receives, NoDup, Accepts, NewSub, Call, Advance, TakeHead, DoneSub, Terminal, HasCalled, WorkerAt, Without;
  }

  lemma CapturedMeans(s: State, step: Step, x: nat)
    requires Enabled(s, step)
    ensures Captured(Apply(s, step), x) <==> Captured(s, x) || (step.CloseStart? && x in s.active)
  {
    forall c ensures (c in Apply(s, step).closers && x in Apply(s, step).closers[c].captured)
      <==> (c in s.closers && x in s.closers[c].captured) || (step == CloseStart(c) && x in s.active)
    {
      ClosersStep(s, step, c);
    }
  }

  /** Once a subscription is captured or tracked it is not tracked again. */
  lemma CapturedIsTracked(s: State, x: nat)
    requires ClosersOk(s) && Captured(s, x)
    ensures x in s.subs && s.subs[x].tracked
  {
    var c :| c in s.closers && x in s.closers[c].captured;
    assert CloserOk(s, c, s.closers[c]);
  }

  lemma ListStep(s: State, step: Step)
    requires ClosersOk(s) && Enabled(s, step) && forall x :: x in s.active ==> !Captured(s, x)
    ensures forall x :: x in Apply(s, step).active ==> !Captured(Apply(s, step), x)
  {
    ActiveStep(s, step);
    forall x | x in Apply(s, step).active ensures !Captured(Apply(s, step), x) {
      CapturedMeans(s, step, x);
      if step == Track(x) && Captured(s, x) {
        CapturedIsTracked(s, x);
        assert false;
      }
    }
  }

  predicate SameFlags(u: SubState, u': SubState) { u'.late == u.late && u'.tracked == u.tracked }

  lemma FlagsSolo(s: State, step: Step)
    requires Enabled(s, step) && Solo(step)
    ensures step.x in s.subs && step.x in Apply(s, step).subs && SameFlags(s.subs[step.x], Apply(s, step).subs[step.x])
  {
    hide Terminal;
  }

  lemma FlagsOnce(s: State, x: nat)
    requires Enabled(s, OnceStep(x))
    ensures x in s.subs && x in Apply(s, OnceStep(x)).subs && SameFlags(s.subs[x], Apply(s, OnceStep(x)).subs[x])
  {
    OnceRecord(s, x);
    hide Enabled, Apply;
  }

  lemma FlagsCall(s: State, step: Step)
    requires Enabled(s, step) && (step.WatcherCall? || step.UserCall?)
    ensures step.x in s.subs && step.x in Apply(s, step).subs && SameFlags(s.subs[step.x], Apply(s, step).subs[step.x])
  {
    hide HasCalled;
  }

  lemma FlagsTouch(s: State, step: Step)
    requires Enabled(s, step) && (step.Deliver? || step.LoopCall? || step.Sweep?)
    requires Subject(s, step) in s.subs && Subject(s, step) in Apply(s, step).subs
    ensures SameFlags(s.subs[Subject(s, step)], Apply(s, step).subs[Subject(s, step)])
  {
    hide Accepts, HasCalled;
  }

  lemma FlagsStay(s: State, step: Step)
    requires Enabled(s, step) && Changes(step) && !step.Track?
    requires Subject(s, step) in s.subs && Subject(s, step) in Apply(s, step).subs
    ensures SameFlags(s.subs[Subject(s, step)], Apply(s, step).subs[Subject(s, step)])
  {
    hide Apply, Enabled, SameFlags;
    if Solo(step) { FlagsSolo(s, step); }
    else if step.OnceStep? { FlagsOnce(s, step.x); }
    else if step.WatcherCall? || step.UserCall? { FlagsCall(s, step); }
    else { FlagsTouch(s, step); }
  }

  /** trackSub alone changes whether a subscription is tracked, and too late or not. */
  lemma FlagsStep(s: State, step: Step, x: nat)
    requires Enabled(s, step) && x in s.subs && !step.Subscribe? && step != Track(x)
    ensures x in Apply(s, step).subs && SameFlags(s.subs[x], Apply(s, step).subs[x])
  {
    hide Apply, Enabled, Subject;
    SubjectOnly(s, step);
    if Changes(step) && !step.Track? { FlagsStay(s, step); }
    if step.Track? { TrackSubject(s, step.x); }
  }

  lemma TrackSubject(s: State, x: nat)
    requires Enabled(s, Track(x))
    ensures Subject(s, Track(x)) == x && x in s.subs && !s.subs[x].tracked && x in Apply(s, Track(x)).subs
    ensures Apply(s, Track(x)).subs[x].late == s.subs[x].phase.Finished? && Apply(s, Track(x)).subs[x].tracked
  {
  }

  lemma LateRecord(s: State, step: Step, x: nat)
    requires Enabled(s, step) && x in Apply(s, step).subs && Apply(s, step).subs[x].late
    ensures (x in s.subs && s.subs[x].late) || step == Track(x)
  {
    hide Apply, Enabled;
    if step.Subscribe? {
      WatcherNew(s, step);
    } else if step != Track(x) {
      SubjectOnly(s, step);
      FlagsStep(s, step, x);
    }
  }

  lemma LateStep(s: State, step: Step, x: nat)
    requires Inv(s) && Enabled(s, step) && TrackedOk(s)
    requires x in Apply(s, step).subs && Apply(s, step).subs[x].late
    ensures x in Apply(s, step).active || Captured(Apply(s, step), x)
  {
    LateRecord(s, step, x);
    ActiveStep(s, step);
    CapturedMeans(s, step, x);
    if x in s.subs && s.subs[x].late { assert SubOk(s.subs[x]); }
    hide Enabled, Apply, Captured;
  }

  lemma TrackedStep(s: State, step: Step)
    requires Inv(s) && TrackedOk(s) && Enabled(s, step)
    ensures TrackedOk(Apply(s, step))
  {
    WatcherStep(s, step);
    ListStep(s, step);
    hide Enabled, Apply, OnlyWatcher, Captured;
    forall x | x in Apply(s, step).subs && Apply(s, step).subs[x].late
      ensures x in Apply(s, step).active || Captured(Apply(s, step), x)
    {
      LateStep(s, step, x);
    }
  }

  lemma InitTracked()
    ensures TrackedOk(INIT)
  {
  }

  lemma {:induction false} RunTracked(run: seq<State>, i: nat)
    requires IsRun(run) && i < |run|
    ensures TrackedOk(run[i])
  {
    hide Inv, TrackedOk, Enabled, Apply;
    InitTracked();
    if i > 0 {
      RunTracked(run, i - 1);
      RunInv(run, i - 1);
      var step := StepAt(run, i - 1);
      TrackedStep(run[i - 1], step);
    }
  }

  // ---- what a caller can rule out -------------------------------------------------------------

  /** A subscription is tracked too late only if its context was cancelled before SubscribeAsync
      returned, and then it is its watcher that tore it down. */
  lemma LateNeedsCancel(run: seq<State>, i: nat, x: nat)
    requires IsRun(run) && i < |run| && TornUntracked(run[i], x)
    ensures run[i].subs[x].ctxDone && run[i].subs[x].watcher.Called?
  {
    RunInv(run, i);
    RunTracked(run, i);
    assert SubOk(run[i].subs[x]) && OnlyWatcher(run[i].subs[x]);
    var u := run[i].subs[x];
    assert u.blocked + u.returned != {};
    var who :| who in u.blocked + u.returned;
    assert who == Watcher;
  }

  /** The watcher of a subscription that is still to be tracked has taken the branch that does not
      unsubscribe; so nobody does before it is tracked. */
  predicate PassedBy(u: SubState) { u.watcher.Skipped? && (u.tracked || u.phase.Fresh?) }

  lemma PassedByOnce(u: SubState)
    requires PassedBy(u) && !u.phase.Fresh?
    ensures PassedBy(Advance(u))
  {
  }

  lemma PassedByCaller(s: State, step: Step)
    requires Enabled(s, step) && (step.WatcherCall? || step.UserCall?) && PassedBy(s.subs[step.x])
    ensures step.x in Apply(s, step).subs && PassedBy(Apply(s, step).subs[step.x])
  {
    hide HasCalled;
  }

  lemma PassedByEvent(s: State, step: Step)
    requires Enabled(s, step) && (step.Track? || step.Deliver? || step.Sweep?)
    requires Subject(s, step) in s.subs && PassedBy(s.subs[Subject(s, step)])
    ensures Subject(s, step) in Apply(s, step).subs && PassedBy(Apply(s, step).subs[Subject(s, step)])
  {
    hide Accepts;
  }

  lemma PassedByLoopCall(s: State, c: nat)
    requires ClosersOk(s) && Enabled(s, LoopCall(c)) && Subject(s, LoopCall(c)) in s.subs
    requires PassedBy(s.subs[Subject(s, LoopCall(c))])
    ensures var x := Subject(s, LoopCall(c)); x in Apply(s, LoopCall(c)).subs && PassedBy(Apply(s, LoopCall(c)).subs[x])
  {
    assert CloserOk(s, c, s.closers[c]);
    hide ClosersOk, HasCalled;
  }

  lemma PassedByTouch(s: State, step: Step)
    requires ClosersOk(s) && Enabled(s, step) && Touches(step)
    requires Subject(s, step) in s.subs && PassedBy(s.subs[Subject(s, step)])
    ensures Subject(s, step) in Apply(s, step).subs && PassedBy(Apply(s, step).subs[Subject(s, step)])
  {
    hide ClosersOk, Enabled, Apply, PassedBy;
    if step.LoopCall? { PassedByLoopCall(s, step.c); }
    else if step.WatcherCall? || step.UserCall? { PassedByCaller(s, step); }
    else { PassedByEvent(s, step); }
  }

  lemma PassedBySolo(s: State, step: Step)
    requires Enabled(s, step) && Solo(step) && PassedBy(s.subs[step.x])
    ensures step.x in Apply(s, step).subs && PassedBy(Apply(s, step).subs[step.x])
  {
    hide Terminal;
  }

  lemma PassedBySubject(s: State, step: Step)
    requires ClosersOk(s) && Enabled(s, step) && Changes(step)
    requires Subject(s, step) in s.subs && PassedBy(s.subs[Subject(s, step)])
    ensures Subject(s, step) in Apply(s, step).subs && PassedBy(Apply(s, step).subs[Subject(s, step)])
  {
    hide ClosersOk, PassedBy, Without, Advance;
    if Solo(step) { PassedBySolo(s, step); }
    else if step.OnceStep? { PassedByOnce(s.subs[step.x]); }
    else { hide Apply, Enabled; PassedByTouch(s, step); }
  }

  lemma PassedByStep(s: State, step: Step, x: nat)
    requires ClosersOk(s) && x < s.next && Enabled(s, step) && x in s.subs && PassedBy(s.subs[x])
    ensures x in Apply(s, step).subs && PassedBy(Apply(s, step).subs[x])
  {
    hide ClosersOk, PassedBy, Enabled, Apply, NewSub;
    SubjectOnly(s, step);
    if Changes(step) {
      if x == Subject(s, step) { PassedBySubject(s, step); }
    } else if step.Subscribe? {
      WatcherNew(s, step);
    }
  }

  lemma {:induction false} PassedByStays(run: seq<State>, more: seq<State>, x: nat)
    requires Continues(run, more) && x in Last(run).subs && PassedBy(Last(run).subs[x])
    ensures x in Last(more).subs && PassedBy(Last(more).subs[x])
    decreases |more|
  {
    hide ClosersOk, Enabled, Apply, PassedBy;
    if |run| < |more| {
      var before := more[..|more| - 1];
      Shorter(run, more);
      PassedByStays(run, before, x);
      RunInv(before, |before| - 1);
      var step := StepAt(more, |more| - 2);
      PassedByStep(Last(before), step, x);
    }
  }

  // ---- and what happens otherwise -------------------------------------------------------------

  /** Steps until the watcher of an untracked subscription with a cancelled context has torn it down. */
  function Sink(u: SubState): int {
    (match u.watcher
     case Unborn => 10 + 3 * (u.wanted - |u.workers|)
     case Polling => 9
     case Woken => 8
     case _ => 0)
    + PhaseWork(u.phase) + Total(u.workers, Weight)
  }

  predicate Sinking(s: State, x: nat) {
    && x in s.subs && s.mu.None?
    && (var u := s.subs[x]; !u.raw && !u.tracked && u.ctxDone && !u.watcher.Skipped? && !u.watcher.Parked?)
  }

  ghost predicate Sinks(s: State, step: Step, x: nat)
    requires Sinking(s, x)
  {
    Enabled(s, step) && Sinking(Apply(s, step), x) && 0 <= Sink(Apply(s, step).subs[x]) < Sink(s.subs[x])
  }

  lemma SinkUnborn(s: State, x: nat) returns (step: Step)
    requires Sinking(s, x) && SubOk(s.subs[x]) && s.subs[x].watcher.Unborn?
    ensures Sinks(s, step, x)
  {
    hide Total, OnceOk, WatcherOk, PhaseWork;
    if |s.subs[x].workers| < s.subs[x].wanted {
      step := SpawnWorker(x);
      TotalAppend(s.subs[x].workers, Selecting, Weight);
    } else {
      step := SpawnWatcher(x);
    }
  }

  lemma SinkWatcher(s: State, x: nat) returns (step: Step)
    requires Sinking(s, x) && SubOk(s.subs[x]) && OnlyWatcher(s.subs[x])
    requires s.subs[x].watcher.Polling? || s.subs[x].watcher.Woken?
    ensures Sinks(s, step, x)
  {
    hide Total;
    var u := s.subs[x];
    assert u.phase.Fresh?;
    step := if u.watcher.Polling? then Poll(x, true) else WatcherCall(x);
  }

  lemma SinkOnce(s: State, x: nat)
    requires Sinking(s, x) && SubOk(s.subs[x]) && s.subs[x].watcher.Called? && !s.subs[x].phase.Finished?
    requires !(s.subs[x].phase.Waiting? && s.subs[x].wg != 0)
    ensures Sinks(s, OnceStep(x), x)
  {
    hide Total;
  }

  lemma SinkWorker(s: State, x: nat) returns (step: Step)
    requires Sinking(s, x) && SubOk(s.subs[x]) && s.subs[x].phase.Waiting? && s.subs[x].wg != 0
    ensures Sinks(s, step, x)
  {
    var u := s.subs[x];
    LiveZero(u.workers, Exited);
    var w :| 0 <= w < |u.workers| && !u.workers[w].Exited?;
    var pc := if u.workers[w].Handling? then Selecting else Exited;
    step := if u.workers[w].Handling? then Finish(x, w) else Exit(x, w);
    TotalUpdate(u.workers, w, pc, Weight);
    hide Total, Live;
  }

  lemma SinkStep(s: State, x: nat) returns (step: Step)
    requires Sinking(s, x) && SubOk(s.subs[x]) && OnlyWatcher(s.subs[x]) && !s.subs[x].phase.Finished?
    ensures Sinks(s, step, x)
  {
    hide SubOk, OnlyWatcher, Sinks, Enabled, Apply;
    var u := s.subs[x];
    if u.watcher.Unborn? { step := SinkUnborn(s, x); }
    else if u.watcher.Polling? || u.watcher.Woken? { step := SinkWatcher(s, x); }
    else if u.phase.Waiting? && u.wg != 0 { step := SinkWorker(s, x); }
    else {
      step := OnceStep(x);
      SinkOnce(s, x);
    }
  }

  lemma SinkTo(run: seq<State>, x: nat) returns (more: seq<State>)
    requires IsRun(run) && Sinking(Last(run), x)
    ensures Continues(run, more) && TornUntracked(Last(more), x) && Last(more).subs[x].ctxDone
    decreases Sink(Last(run).subs[x])
  {
    var s := Last(run);
    RunInv(run, |run| - 1);
    RunTracked(run, |run| - 1);
    assert SubOk(s.subs[x]);
    more := run;
    hide Inv, TrackedOk, OnlyWatcher, SubOk, Enabled, Apply, Sink;
    if !s.subs[x].phase.Finished? {
      var step := SinkStep(s, x);
      more := Extend(run, step);
      more := SinkTo(more, x);
    }
  }

  /** For every run that has not tracked x yet: it can still come to be torn down before it is tracked,
      without anyone cancelling its context from here on, if and only if its context is cancelled
      already and its watcher has not taken the branch that does not unsubscribe. */
  lemma LateIffCancelled(run: seq<State>, x: nat)
    requires IsRun(run) && x in Last(run).subs && !Last(run).subs[x].raw && !Last(run).subs[x].tracked
    ensures (exists more :: Continues(run, more) && TornUntracked(Last(more), x)
                            && Last(more).subs[x].ctxDone == Last(run).subs[x].ctxDone)
       <==> Last(run).subs[x].ctxDone && !Last(run).subs[x].watcher.Skipped?
  {
    var u := Last(run).subs[x];
    RunInv(run, |run| - 1);
    RunTracked(run, |run| - 1);
    assert SubOk(u) && OnlyWatcher(u);
    if u.ctxDone && !u.watcher.Skipped? {
      var free := ReleaseLock(run, x);
      var more := SinkTo(free, x);
      assert Continues(run, more);
    } else {
      assert u.watcher.Skipped? ==> PassedBy(u);
      hide Inv, TrackedOk, SubOk, OnlyWatcher, PassedBy;
      forall more | Continues(run, more) && TornUntracked(Last(more), x)
        ensures Last(more).subs[x].ctxDone != u.ctxDone
      {
        LateNeedsCancel(more, |more| - 1, x);
        if u.watcher.Skipped? { PassedByNeverCalls(run, more, x); }
      }
    }
  }

  lemma PassedByNeverCalls(run: seq<State>, more: seq<State>, x: nat)
    requires Continues(run, more) && x in Last(run).subs && PassedBy(Last(run).subs[x])
    ensures x in Last(more).subs && !Last(more).subs[x].watcher.Called?
  {
    PassedByStays(run, more, x);
  }

  // ---- the history of a run -----------------------------------------------------------------

  lemma TornStays(run: seq<State>, i: nat, j: nat, x: nat)
    requires IsRun(run) && i <= j < |run| && Torn(run[i], x)
    ensures Torn(run[j], x)
    decreases j
  {
    hide Inv, Enabled, Apply;
    if i < j {
      TornStays(run, i, j - 1, x);
      RunInv(run, j - 1);
      var step := StepAt(run, j - 1);
      StepGrows(run[j - 1], step);
    }
  }

  lemma TrackRecord(s: State, step: Step, x: nat)
    requires Enabled(s, step) && x in Apply(s, step).subs
    requires Apply(s, step).subs[x].tracked && !Apply(s, step).subs[x].raw
    ensures x in s.subs
    ensures s.subs[x].tracked ==> Apply(s, step).subs[x].late == s.subs[x].late
    ensures !s.subs[x].tracked ==> step == Track(x) && (Apply(s, step).subs[x].late <==> s.subs[x].phase.Finished?)
  {
    hide Apply, Enabled;
    if step.Subscribe? {
      WatcherNew(s, step);
    } else if step == Track(x) {
      TrackSubject(s, x);
    } else {
      SubjectOnly(s, step);
      FlagsStep(s, step, x);
    }
  }

  /** The flag of the model means what it says: in the run so far the subscription was torn down at
      some point at which it was not yet tracked. */
  lemma {:induction false} LateMeans(run: seq<State>, j: nat, x: nat)
    requires IsRun(run) && j < |run| && x in run[j].subs && run[j].subs[x].tracked && !run[j].subs[x].raw
    ensures run[j].subs[x].late <==> exists i :: 0 <= i <= j && TornUntracked(run[i], x)
  {
    hide Inv, Enabled, Apply;
    if j > 0 {
      RunInv(run, j - 1);
      var step := StepAt(run, j - 1);
      StepGrows(run[j - 1], step);
      TrackRecord(run[j - 1], step, x);
      assert !TornUntracked(run[j], x);
      if run[j - 1].subs[x].tracked {
        LateMeans(run, j - 1, x);
      } else if i :| 0 <= i <= j && TornUntracked(run[i], x) {
        TornStays(run, i, j - 1, x);
      }
    }
  }

  /** Of every run: a subscription that is torn down is among the tracked ones if and only if it was
      tracked after it had been torn down and no Close call has taken it since. */
  lemma TornIsTrackedIff(run: seq<State>, j: nat, x: nat)
    requires IsRun(run) && j < |run| && Torn(run[j], x)
    ensures x in run[j].active <==>
      && run[j].subs[x].tracked && (exists i :: 0 <= i <= j && TornUntracked(run[i], x))
      && !Captured(run[j], x)
  {
    RunInv(run, j);
    RunTracked(run, j);
    assert SubOk(run[j].subs[x]);
    if run[j].subs[x].tracked { LateMeans(run, j, x); }
  }

  lemma UntrackTears(s: State, x: nat)
    requires Enabled(s, OnceStep(x)) && s.subs[x].phase.Untracking?
    ensures Torn(Apply(s, OnceStep(x)), x)
  {
    OnceRecord(s, x);
    hide Apply, Enabled;
  }

  lemma LiveStep(s: State, step: Step, x: nat)
    requires Inv(s) && Enabled(s, step) && x in Apply(s, step).subs
    requires Apply(s, step).subs[x].tracked && !Apply(s, step).subs[x].raw && !Torn(Apply(s, step), x)
    requires x in s.subs && s.subs[x].tracked && !Torn(s, x) ==> x in s.active || Captured(s, x)
    ensures x in Apply(s, step).active || Captured(Apply(s, step), x)
  {
    ActiveStep(s, step);
    CapturedMeans(s, step, x);
    if step == OnceStep(x) && x in s.subs && s.subs[x].phase.Untracking? { UntrackTears(s, x); }
    hide Enabled, Apply, Captured, Inv;
    StepGrows(s, step);
    if step.Subscribe? {
      WatcherNew(s, step);
    } else if step != Track(x) {
      SubjectOnly(s, step);
      FlagsStep(s, step, x);
    }
  }

  /** Of every run: a tracked subscription that has not been torn down is in the list, or in the one that a Close
      call has taken out of it; so no Close call misses it. */
  lemma {:induction false} LiveIsTracked(run: seq<State>, j: nat, x: nat)
    requires IsRun(run) && j < |run| && x in run[j].subs && run[j].subs[x].tracked && !run[j].subs[x].raw
    requires !Torn(run[j], x)
    ensures x in run[j].active || Captured(run[j], x)
  {
    hide Inv, Enabled, Apply, Captured, Torn;
    if j > 0 {
      RunInv(run, j - 1);
      var step := StepAt(run, j - 1);
      StepGrows(run[j - 1], step);
      if x in run[j - 1].subs && run[j - 1].subs[x].tracked && !Torn(run[j - 1], x) {
        assert Evolves(run[j - 1].subs[x], run[j].subs[x]);
        LiveIsTracked(run, j - 1, x);
      }
      LiveStep(run[j - 1], step, x);
    }
  }

  /** One such run: the context is cancelled before the subscription is tracked. */
  lemma LateTrackRun() returns (run: seq<State>, x: nat)
    ensures IsRun(run) && Torn(Last(run), x) && x in Last(run).active
  {
    run, x := StartRun(), 0;
    hide IsRun;
    run := Extend(run, Subscribe("t", false, 0));
    run := Extend(run, CancelParent(0));
    assert Sinking(Last(run), 0);
    run := SinkTo(run, 0);
    assert !Last(run).subs[0].watcher.Unborn? by {
      hide Enabled, Apply, Sinking;
      RunInv(run, |run| - 1);
      assert SubOk(Last(run).subs[0]);
    }
    run := Extend(run, Track(0));
  }
}
