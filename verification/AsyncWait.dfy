/** How long an asynchronous subscription goes on once its own context is done: Unsubscribe removes
    the channel only after it has waited for the workers, so publishers can prolong the wait, but
    only by so much for each event they deliver. */
module AsyncWait {
  import opened Workers
  import opened AsyncProtocol

  /** What the goroutines of a subscription and the Unsubscribe calls on it can still do. */
  function Work(u: SubState): int {
    (match u.watcher
     case Unborn => 12 + 3 * (u.wanted - |u.workers|)
     case Polling => 11
     case Woken => 10
     case _ => 0)
    + (if u.tracked then 0 else 1)
    + PhaseWork(u.phase) + |u.blocked| + 2 * |u.ch.buf| + Total(u.workers, Weight)
  }

  /** What one step of somebody else adds to it: a delivered event or a new call of Unsubscribe. */
  function Adds(s: State, step: Step, x: nat): nat
    requires Enabled(s, step)
  {
    if !Changes(step) || Subject(s, step) != x then 0
    else if step.Deliver? then 2
    else if step.UserCall? || step.LoopCall? then 6
    else 0
  }

  // ---- own steps --------------------------------------------------------------------------

  ghost predicate Progresses(s: State, step: Step, x: nat)
    requires x in s.subs && Enabled(s, step)
  {
    x in Apply(s, step).subs && Apply(s, step).subs[x].subDone && 0 <= Work(Apply(s, step).subs[x]) < Work(s.subs[x])
  }

  lemma SpawnProgress(s: State, step: Step)
    requires Enabled(s, step) && (step.SpawnWorker? || step.SpawnWatcher?)
    requires SubOk(s.subs[step.x]) && s.subs[step.x].subDone
    ensures Progresses(s, step, step.x)
  {
    TotalAppend(s.subs[step.x].workers, Selecting, Weight);
    hide Total;
  }

  lemma WatcherProgress(s: State, step: Step)
    requires Enabled(s, step) && (step.Poll? || step.WatcherCall? || step.Track?)
    requires SubOk(s.subs[step.x]) && s.subs[step.x].subDone
    ensures Progresses(s, step, step.x)
  {
    hide Total;
  }

  lemma AdvanceProgress(u: SubState)
    requires SubOk(u) && u.subDone && !u.phase.Fresh? && !u.phase.Finished?
    ensures Advance(u).subDone && 0 <= Work(Advance(u)) < Work(u)
  {
    hide Total;
  }

  lemma OnceProgress(s: State, x: nat)
    requires Enabled(s, OnceStep(x)) && SubOk(s.subs[x]) && s.subs[x].subDone
    ensures Progresses(s, OnceStep(x), x)
  {
    AdvanceProgress(s.subs[x]);
    OnceRecord(s, x);
    hide SubOk, Work, Apply, Advance;
  }

  lemma UnblockProgress(s: State, step: Step)
    requires Enabled(s, step) && step.Unblock? && SubOk(s.subs[step.x]) && s.subs[step.x].subDone
    ensures Progresses(s, step, step.x)
  {
    hide Total;
  }

  lemma TakeProgress(s: State, x: nat, w: nat)
    requires Enabled(s, Take(x, w)) && SubOk(s.subs[x]) && s.subs[x].subDone
    ensures Progresses(s, Take(x, w), x)
  {
    TotalUpdate(s.subs[x].workers, w, Handling, Weight);
    hide Total;
  }

  lemma FinishProgress(s: State, x: nat, w: nat)
    requires Enabled(s, Finish(x, w)) && SubOk(s.subs[x]) && s.subs[x].subDone
    ensures Progresses(s, Finish(x, w), x)
  {
    TotalUpdate(s.subs[x].workers, w, Selecting, Weight);
    hide Total;
  }

  lemma ExitProgress(s: State, x: nat, w: nat)
    requires Enabled(s, Exit(x, w)) && SubOk(s.subs[x]) && s.subs[x].subDone
    ensures Progresses(s, Exit(x, w), x)
  {
    TotalUpdate(s.subs[x].workers, w, Exited, Weight);
    hide Total;
  }

  /** Every step of the subscription's own goroutines and callers brings the work down. */
  lemma OwnProgress(s: State, step: Step, x: nat)
    requires Enabled(s, step) && OwnStep(step, x) && x in s.subs && SubOk(s.subs[x]) && s.subs[x].subDone
    ensures Progresses(s, step, x)
  {
    match step {
      case SpawnWorker(_) => SpawnProgress(s, step);
      case SpawnWatcher(_) => SpawnProgress(s, step);
      case Take(_, w) => TakeProgress(s, x, w);
      case Finish(_, w) => FinishProgress(s, x, w);
      case Exit(_, w) => ExitProgress(s, x, w);
      case OnceStep(_) => OnceProgress(s, x);
      case Unblock(_, _) => UnblockProgress(s, step);
      case Propagate(_) => assert false;
      case _ => WatcherProgress(s, step);
    }
  }

  // ---- the steps of the others ----------------------------------------------------------------

  ghost predicate AddsAtMost(u: SubState, u': SubState, n: nat) { u'.subDone && 0 <= Work(u') <= Work(u) + n }

  lemma CallAdds(u: SubState, who: Caller)
    requires SubOk(u) && u.subDone
    ensures AddsAtMost(u, Call(u, who), 6)
  {
    hide Total;
  }

  lemma DeliverAdds(u: SubState, e: Event)
    requires SubOk(u) && u.subDone
    ensures AddsAtMost(u, u.(ch := if Accepts(u.ch) then u.ch.(buf := u.ch.buf + [e]) else u.ch), 2)
  {
    hide Total;
  }

  lemma EnvironmentAdds(s: State, step: Step)
    requires Enabled(s, step) && (step.CancelParent? || step.RawTake? || step.RawClose?)
    requires SubOk(s.subs[step.x]) && s.subs[step.x].subDone
    ensures step.x in Apply(s, step).subs && AddsAtMost(s.subs[step.x], Apply(s, step).subs[step.x], 0)
  {
    hide Total;
  }

  lemma SweepAdds(u: SubState)
    requires SubOk(u) && u.subDone
    ensures AddsAtMost(u, u.(ch := u.ch.(closed := true)), 0)
  {
    hide Total;
  }

  lemma SubjectAdds(s: State, step: Step, x: nat)
    requires Enabled(s, step) && !OwnStep(step, x) && Changes(step) && x == Subject(s, step)
    requires x in s.subs && SubOk(s.subs[x]) && s.subs[x].subDone
    ensures x in Apply(s, step).subs && AddsAtMost(s.subs[x], Apply(s, step).subs[x], Adds(s, step, x))
  {
    hide SubOk, AddsAtMost, Accepts, Call, HasCalled;
    match step {
      case Deliver(d) => DeliverAdds(s.subs[x], s.dispatches[d].event);
      case UserCall(_, n) => CallAdds(s.subs[x], User(n));
      case LoopCall(c) => CallAdds(s.subs[x], Loop(c, s.closers[c].k));
      case Sweep(c) => SweepAdds(s.subs[x]);
      case _ => EnvironmentAdds(s, step);
    }
  }

  lemma OthersLeave(s: State, step: Step, x: nat)
    requires Enabled(s, step) && x in s.subs && x < s.next && (Changes(step) ==> x != Subject(s, step))
    ensures x in Apply(s, step).subs && Apply(s, step).subs[x] == s.subs[x] && Adds(s, step, x) == 0
  {
    SubjectOnly(s, step);
    hide Enabled, Apply, Subject;
    if step.Subscribe? { SubscribeLeaves(s, step, x); }
  }

  /** No other step adds more than a constant for the event or the call it brings. */
  lemma OthersAdd(s: State, step: Step, x: nat)
    requires Enabled(s, step) && !OwnStep(step, x) && x in s.subs && x < s.next && SubOk(s.subs[x]) && s.subs[x].subDone
    ensures x in Apply(s, step).subs && AddsAtMost(s.subs[x], Apply(s, step).subs[x], Adds(s, step, x))
  {
    hide SubOk, AddsAtMost, Enabled, Apply, OwnStep, Subject, Adds;
    if Changes(step) && x == Subject(s, step) {
      SubjectAdds(s, step, x);
    } else {
      OthersLeave(s, step, x);
      SelfAdds(s.subs[x]);
    }
  }

  lemma SelfAdds(u: SubState)
    requires SubOk(u) && u.subDone
    ensures AddsAtMost(u, u, 0)
  {
    hide Total;
  }

  // ---- whole runs -----------------------------------------------------------------------------

  /** Own steps from the i-th state to the j-th. */
  ghost function Owned(steps: seq<Step>, i: nat, j: nat, x: nat): nat
    requires i <= j <= |steps|
    decreases j
  {
    if i == j then 0 else Owned(steps, i, j - 1, x) + if OwnStep(steps[j - 1], x) then 1 else 0
  }

  ghost function Added(run: seq<State>, steps: seq<Step>, i: nat, j: nat, x: nat): nat
    requires Labels(run, steps) && i <= j <= |steps|
    decreases j
  {
    if i == j then 0 else Added(run, steps, i, j - 1, x) + Adds(run[j - 1], steps[j - 1], x)
  }

  /** Of every run: from the moment the own context of a subscription is done, its goroutines and the
      Unsubscribe calls on it take at most so many steps as its work then, plus two for each event
      that is delivered to it and six for each further call. */
  lemma {:induction false} WaitBound(run: seq<State>, steps: seq<Step>, i: nat, j: nat, x: nat)
    requires Labels(run, steps) && run[0] == INIT && i <= j <= |steps|
    requires x in run[i].subs && run[i].subs[x].subDone
    ensures x in run[j].subs && run[j].subs[x].subDone && Work(run[j].subs[x]) >= 0
    ensures Owned(steps, i, j, x) + Work(run[j].subs[x]) <= Work(run[i].subs[x]) + Added(run, steps, i, j, x)
    decreases j
  {
    hide Work, Inv, Adds, OwnStep, Enabled, Apply;
    LabelsRun(run, steps);
    if i == j {
      RunInv(run, i);
      WorkLeft(run[i], x);
    } else {
      WaitBound(run, steps, i, j - 1, x);
      RunInv(run, j - 1);
      WaitStep(run[j - 1], steps[j - 1], x);
    }
  }

  lemma WorkLeft(s: State, x: nat)
    requires Inv(s) && x in s.subs && s.subs[x].subDone
    ensures Work(s.subs[x]) >= 0
  {
    assert SubOk(s.subs[x]);
    SelfAdds(s.subs[x]);
  }

  lemma WaitStep(s: State, step: Step, x: nat)
    requires Inv(s) && Enabled(s, step) && x in s.subs && s.subs[x].subDone
    ensures x in Apply(s, step).subs && Apply(s, step).subs[x].subDone && Work(Apply(s, step).subs[x]) >= 0
    ensures (if OwnStep(step, x) then 1 else 0) + Work(Apply(s, step).subs[x]) <= Work(s.subs[x]) + Adds(s, step, x)
  {
    assert SubOk(s.subs[x]) && x < s.next;
    hide Inv, SubOk, Work, OwnStep, Enabled, Apply, Adds;
    if OwnStep(step, x) { OwnProgress(s, step, x); } else { OthersAdd(s, step, x); }
  }

  /** And when they can take none, with the lock free, every Unsubscribe call has returned. */
  lemma WaitEnds(run: seq<State>, i: nat, x: nat, who: Caller)
    requires IsRun(run) && i < |run| && x in run[i].subs && HasCalled(run[i].subs[x], who)
    requires run[i].mu.None? && forall step :: OwnStep(step, x) ==> !Enabled(run[i], step)
    ensures who in run[i].subs[x].returned
  {
    RunInv(run, i);
    assert SubOk(run[i].subs[x]);
    if who !in run[i].subs[x].returned {
      if run[i].subs[x].phase.Finished? {
        assert Enabled(run[i], Unblock(x, who));
      } else {
        OnceMoves(run[i], x);
      }
      assert false;
    }
  }
}
