/** A pool subscription (ext/pool/pool.go) as a protocol: the forwarder that moves events from
    the bus channel to the pool's queue, the pool's workers, the teardown behind its Once, any
    number of Unsubscribe callers behind theirs, and an environment of publishers, a parent
    context and a bus that may be closed. The initial state is the one SubscribeWithPool returns. */
module PoolProtocol {
  import opened Wrappers
  import opened Workers

  const CAPACITY := 64

  type Event = nat

  /** `left` counts the attempts that may follow the current one. */
  datatype WorkerPc = Selecting | Processing(left: nat) | Exited

  datatype ForwarderPc = Forwarding | Consuming(e: Event) | AtTeardown | InTeardown | AfterTeardown | Gone

  datatype Owner = ByForwarder | ByUnsubscribe

  datatype Stage = RemoveChannel | CancelPool | WaitWorkers | CloseChannel

  datatype Teardown = NotRun | Running(owner: Owner, stage: Stage) | Completed

  datatype Phase = Fresh | Cancelling | Waiting | Fallback | InFallback | Finished

  /** `held` counts the dispatch snapshots that contain the channel and have not been used yet,
      `bodies` how often the teardown body was entered. */
  datatype State = State(
    queueSize: nat, maxRetries: int,
    indexed: bool, buf: seq<Event>, closed: bool, held: nat,
    parentDone: bool, fwdCancelled: bool, poolCancelled: bool,
    queue: seq<Event>, workers: seq<WorkerPc>, poolWg: int,
    fwd: ForwarderPc, fwdWg: int, teardown: Teardown, bodies: nat,
    phase: Phase, runner: Option<nat>, blocked: set<nat>, returned: set<nat>)

  datatype Step =
    | CancelParent
    | BusClose
    | Snapshot
    | Send(e: Event)
    | Call(n: nat)
    | Forward
    | Consume(cancelled: bool)
    | HandOver(w: nat)
    | LeaveLoop
    | EnterTeardown
    | TeardownStep
    | ForwarderDone
    | UnsubStep
    | Unblock(n: nat)
    | Take(w: nat)
    | Retry(w: nat)
    | Settle(w: nat)
    | Exit(w: nat)

  function Init(n: nat, queueSize: nat, maxRetries: int): State {
    State(queueSize, maxRetries, true, [], false, 0, false, false, false,
          [], seq(n, _ => Selecting), n, Forwarding, 1, NotRun, 0, Fresh, None, {}, {})
  }

  predicate PoolDone(s: State) { s.parentDone || s.poolCancelled }

  predicate ForwarderCtxDone(s: State) { s.parentDone || s.fwdCancelled }

  /** One of the three reasons to stop has occurred: parent context, bus Close, Unsubscribe. */
  predicate Triggered(s: State) { ForwarderCtxDone(s) || s.closed }

  predicate At(s: State, w: nat, pc: WorkerPc) { w < |s.workers| && s.workers[w] == pc }

  predicate Busy(s: State, w: nat) { w < |s.workers| && s.workers[w].Processing? }

  /** Consume is the forwarder's select on the pool's context and queue; with an unbuffered queue
      an event goes straight to a waiting worker (HandOver) or is refused. */
  predicate Enabled(s: State, step: Step) {
    match step
    case CancelParent => !s.parentDone
    case BusClose => s.indexed
    case Snapshot => s.indexed
    case Send(_) => s.held > 0
    case Call(n) => s.runner != Some(n) && n !in s.blocked && n !in s.returned
    case Forward => s.fwd.Forwarding? && s.buf != []
    case Consume(cancelled) => s.fwd.Consuming? && (cancelled ==> PoolDone(s))
                               && (!cancelled ==> !PoolDone(s) || |s.queue| < s.queueSize)
    case HandOver(w) => s.fwd.Consuming? && s.queueSize == 0 && At(s, w, Selecting)
    case LeaveLoop => s.fwd.Forwarding? && (ForwarderCtxDone(s) || (s.closed && s.buf == []))
    case EnterTeardown => s.fwd.AtTeardown? && !s.teardown.Running?
    case TeardownStep => s.teardown.Running? && (s.teardown.stage.WaitWorkers? ==> s.poolWg == 0)
    case ForwarderDone => s.fwd.AfterTeardown?
    case UnsubStep =>
      && !s.phase.Fresh? && !s.phase.Finished? && !s.phase.InFallback?
      && (s.phase.Waiting? ==> s.fwdWg == 0)
      && (s.phase.Fallback? ==> !s.teardown.Running?)
    case Unblock(n) => s.phase.Finished? && n in s.blocked
    case Take(w) => At(s, w, Selecting) && s.queue != []
    case Retry(w) => Busy(s, w) && s.workers[w].left > 0
    case Settle(w) => Busy(s, w)
    case Exit(w) => At(s, w, Selecting) && PoolDone(s)
  }

  function SetWorker(s: State, w: nat, pc: WorkerPc): State
    requires w < |s.workers|
  {
    s.(workers := s.workers[w := pc])
  }

  /** With a negative retry limit the attempt loop does not run at all. */
  function Started(s: State): WorkerPc { if s.maxRetries < 0 then Selecting else Processing(s.maxRetries) }

  function RunTeardown(s: State): State
    requires s.teardown.Running?
  {
    match s.teardown.stage
    case RemoveChannel => s.(indexed := false, teardown := s.teardown.(stage := CancelPool))
    case CancelPool => s.(poolCancelled := true, teardown := s.teardown.(stage := WaitWorkers))
    case WaitWorkers => s.(teardown := s.teardown.(stage := CloseChannel))
    case CloseChannel =>
      var s' := s.(closed := true, teardown := Completed);
      if s.teardown.owner.ByForwarder? then s'.(fwd := AfterTeardown) else ReturnRunner(s')
  }

  function ReturnRunner(s: State): State {
    s.(phase := Finished, runner := None,
       returned := s.returned + if s.runner.Some? then {s.runner.value} else {})
  }

  function RunUnsub(s: State): State {
    match s.phase
    case Cancelling => s.(fwdCancelled := true, phase := Waiting)
    case Waiting => s.(phase := Fallback)
    case Fallback =>
      if s.teardown.NotRun? then
        s.(phase := InFallback, teardown := Running(ByUnsubscribe, RemoveChannel), bodies := s.bodies + 1)
      else ReturnRunner(s)
    case _ => s
  }

  function Apply(s: State, step: Step): State
    requires Enabled(s, step)
  {
    match step
    case CancelParent => s.(parentDone := true)
    case BusClose => s.(closed := true, indexed := false)
    case Snapshot => s.(held := s.held + 1)
    case Send(e) => s.(held := s.held - 1, buf := if s.closed || |s.buf| >= CAPACITY then s.buf else s.buf + [e])
    case Call(n) =>
      if s.phase.Fresh? then s.(phase := Cancelling, runner := Some(n))
      else if s.phase.Finished? then s.(returned := s.returned + {n})
      else s.(blocked := s.blocked + {n})
    case Forward => s.(buf := s.buf[1..], fwd := Consuming(s.buf[0]))
    case Consume(cancelled) =>
      s.(fwd := Forwarding,
         queue := if !cancelled && |s.queue| < s.queueSize then s.queue + [s.fwd.e] else s.queue)
    case HandOver(w) => SetWorker(s, w, Started(s)).(fwd := Forwarding)
    case LeaveLoop => s.(fwd := AtTeardown)
    case EnterTeardown =>
      if s.teardown.Completed? then s.(fwd := AfterTeardown)
      else s.(fwd := InTeardown, teardown := Running(ByForwarder, RemoveChannel), bodies := s.bodies + 1)
    case TeardownStep => RunTeardown(s)
    case ForwarderDone => s.(fwd := Gone, fwdWg := s.fwdWg - 1)
    case UnsubStep => RunUnsub(s)
    case Unblock(n) => s.(blocked := s.blocked - {n}, returned := s.returned + {n})
    case Take(w) =>
      SetWorker(s, w, Started(s)).(queue := s.queue[1..])
    case Retry(w) => SetWorker(s, w, Processing(s.workers[w].left - 1))
    case Settle(w) => SetWorker(s, w, Selecting)
    case Exit(w) => SetWorker(s, w, Exited).(poolWg := s.poolWg - 1)
  }

  /** Everything that is not the environment's doing. */
  predicate Internal(step: Step) {
    !step.CancelParent? && !step.BusClose? && !step.Snapshot? && !step.Send? && !step.Call?
  }

  ghost predicate IsExec(s: State, steps: seq<Step>)
    decreases |steps|
  {
    steps != [] ==> Enabled(s, steps[0]) && IsExec(Apply(s, steps[0]), steps[1..])
  }

  ghost function Final(s: State, steps: seq<Step>): State
    requires IsExec(s, steps)
    decreases |steps|
  {
    if steps == [] then s else Final(Apply(s, steps[0]), steps[1..])
  }

  ghost predicate Reachable(s: State, steps: seq<Step>, n: nat, queueSize: nat, maxRetries: int) {
    IsExec(Init(n, queueSize, maxRetries), steps) && s == Final(Init(n, queueSize, maxRetries), steps)
  }

  // ---- the invariant ----------------------------------------------------------------

  predicate OutOfLoop(s: State) { !s.fwd.Forwarding? && !s.fwd.Consuming? }

  ghost predicate TeardownOk(s: State) {
    && (s.teardown.Running? ==> s.teardown.owner.ByForwarder?)
    && (s.teardown.Running? <==> s.fwd.InTeardown?)
    && (s.teardown.Completed? <==> s.fwd.AfterTeardown? || s.fwd.Gone?)
    && s.bodies == (if s.teardown.NotRun? then 0 else 1)
    && (s.teardown.Running? && !s.teardown.stage.RemoveChannel? ==> !s.indexed)
    && (s.teardown.Running? && (s.teardown.stage.WaitWorkers? || s.teardown.stage.CloseChannel?) ==> s.poolCancelled)
    && (s.teardown.Running? && s.teardown.stage.CloseChannel? ==> s.poolWg == 0)
    && (s.teardown.Completed? ==> !s.indexed && s.poolCancelled && s.poolWg == 0 && s.closed)
    && (OutOfLoop(s) ==> Triggered(s))
  }

  ghost predicate OnceOk(s: State) {
    && (s.phase.Fresh? ==> s.runner.None? && s.blocked == {} && s.returned == {})
    && (!s.phase.Fresh? && !s.phase.Finished? ==> s.runner.Some? && s.returned == {})
    && (s.phase.Finished? ==> s.runner.None?)
    && (s.phase.Fallback? || s.phase.Finished? ==> s.fwdWg == 0)
    && !s.phase.InFallback?
    && (s.fwdCancelled <==> !s.phase.Fresh? && !s.phase.Cancelling?)
  }

  ghost predicate Inv(s: State) {
    && s.poolWg == Live(s.workers, Exited)
    && s.fwdWg == (if s.fwd.Gone? then 0 else 1)
    && |s.queue| <= s.queueSize && |s.buf| <= CAPACITY
    && TeardownOk(s) && OnceOk(s)
  }

  predicate WorkerStep(step: Step) { step.Take? || step.Retry? || step.Settle? || step.Exit? || step.HandOver? }

  lemma WorkerKeeps(s: State, step: Step)
    requires Inv(s) && Enabled(s, step) && WorkerStep(step)
    ensures Inv(Apply(s, step))
  {
    var s' := Apply(s, step);
    LiveUpdate(s.workers, step.w, s'.workers[step.w], Exited);
    assert s' == s.(workers := s'.workers, poolWg := s'.poolWg, queue := s'.queue, fwd := s'.fwd);
    assert step.Exit? ==> s.poolWg > 0;
    assert OnceOk(s');
  }

  lemma EnvironmentKeeps(s: State, step: Step)
    requires Inv(s) && Enabled(s, step) && !Internal(step)
    ensures Inv(Apply(s, step))
  {
    hide Live;
  }

  predicate ForwarderStep(step: Step) {
    step.Forward? || step.Consume? || step.LeaveLoop? || step.EnterTeardown? || step.ForwarderDone?
  }

  lemma ForwarderKeeps(s: State, step: Step)
    requires Inv(s) && Enabled(s, step) && ForwarderStep(step)
    ensures Inv(Apply(s, step))
  {
    hide Live;
  }

  lemma TeardownKeeps(s: State)
    requires Inv(s) && Enabled(s, TeardownStep)
    ensures Inv(Apply(s, TeardownStep))
  {
    hide Live, ReturnRunner;
    assert s.teardown.owner.ByForwarder?;
  }

  lemma CallerKeeps(s: State, step: Step)
    requires Inv(s) && Enabled(s, step) && (step.UnsubStep? || step.Unblock?)
    ensures Inv(Apply(s, step))
  {
    hide Live;
  }

  lemma StepKeeps(s: State, step: Step)
    requires Inv(s) && Enabled(s, step)
    ensures Inv(Apply(s, step))
  {
    hide Inv, Apply, Enabled;
    if WorkerStep(step) { WorkerKeeps(s, step); }
    else if ForwarderStep(step) { ForwarderKeeps(s, step); }
    else if step.TeardownStep? { TeardownKeeps(s); }
    else if step.UnsubStep? || step.Unblock? { CallerKeeps(s, step); }
    else { EnvironmentKeeps(s, step); }
  }

  lemma {:induction false} ExecKeeps(s: State, steps: seq<Step>)
    requires Inv(s) && IsExec(s, steps)
    ensures Inv(Final(s, steps))
    decreases |steps|
  {
    if steps != [] {
      StepKeeps(s, steps[0]);
      ExecKeeps(Apply(s, steps[0]), steps[1..]);
    }
  }

  /** Every reachable state satisfies the invariant. */
  lemma ReachableInv(s: State, steps: seq<Step>, n: nat, queueSize: nat, maxRetries: int)
    requires Reachable(s, steps, n, queueSize, maxRetries)
    ensures Inv(s)
  {
    LiveInit(n, Selecting, Exited);
    ExecKeeps(Init(n, queueSize, maxRetries), steps);
  }

  // ---- safety -------------------------------------------------------------------------

  /** The teardown body runs at most once, never from Unsubscribe's fallback, and the wait
      group that Unsubscribe waits for can only reach zero after it has completed. */
  lemma TeardownOnce(s: State, steps: seq<Step>, n: nat, queueSize: nat, maxRetries: int)
    requires Reachable(s, steps, n, queueSize, maxRetries)
    ensures s.bodies <= 1 && (s.teardown.Running? ==> s.teardown.owner.ByForwarder?)
    ensures s.fwdWg == 0 ==> s.teardown.Completed? && s.fwd.Gone?
    ensures s.phase.Fallback? ==> s.teardown.Completed?
  {
    ReachableInv(s, steps, n, queueSize, maxRetries);
  }

  ghost predicate Released(s: State) {
    && s.fwd.Gone? && s.teardown.Completed? && !s.indexed && s.closed
    && (forall w :: 0 <= w < |s.workers| ==> s.workers[w].Exited?)
  }

  lemma ReleasedStep(s: State, step: Step)
    requires Released(s) && Enabled(s, step)
    ensures Released(Apply(s, step)) && Apply(s, step).buf == s.buf && Apply(s, step).queue == s.queue
    ensures Apply(s, step).bodies == s.bodies && Apply(s, step).held <= s.held
  {
  }

  /** Main safety result: once any Unsubscribe call has returned, the forwarder and all workers
      are gone, the channel is closed and out of the index, and from then on nothing is put into
      the channel or the queue and no new snapshot contains the channel. */
  lemma {:induction false} AfterUnsubscribe(s: State, steps: seq<Step>, k: nat)
    requires Inv(s) && IsExec(s, steps) && k in s.returned
    ensures var t := Final(s, steps);
      Released(t) && t.bodies == 1 && t.buf == s.buf && t.queue == s.queue && t.held <= s.held
    decreases |steps|
  {
    LiveZero(s.workers, Exited);
    if steps != [] {
      ReleasedStep(s, steps[0]);
      StepKeeps(s, steps[0]);
      assert k in Apply(s, steps[0]).returned;
      AfterUnsubscribe(Apply(s, steps[0]), steps[1..], k);
    }
  }

  // ---- no reachable state is stuck ------------------------------------------------------

  ghost predicate AllDone(s: State) {
    Released(s) && (s.phase.Fresh? || s.phase.Finished?) && s.blocked == {}
  }

  /** While the pool is stopping, a worker that has not exited can move. */
  lemma WorkerMoves(s: State)
    requires Inv(s) && PoolDone(s) && s.poolWg != 0
    ensures exists step :: Internal(step) && Enabled(s, step)
  {
    LiveZero(s.workers, Exited);
    var w :| 0 <= w < |s.workers| && !s.workers[w].Exited?;
    if s.workers[w].Processing? {
      assert Enabled(s, Settle(w)) && Internal(Settle(w));
    } else {
      assert Enabled(s, Exit(w)) && Internal(Exit(w));
    }
  }

  /** Given that handlers return, once one of the three reasons to stop has occurred, or somebody has
      called Unsubscribe, there is always a step to take until everything is released and every
      caller is back. */
  lemma NeverStuck(s: State)
    requires Inv(s) && (Triggered(s) || !s.phase.Fresh?) && !AllDone(s)
    ensures exists step :: Internal(step) && Enabled(s, step)
  {
    LiveZero(s.workers, Exited);
    match s.fwd
    case Forwarding =>
      if s.buf != [] { assert Enabled(s, Forward); }
      else if Triggered(s) { assert Enabled(s, LeaveLoop); }
      else { assert Enabled(s, UnsubStep); }
    case Consuming(_) =>
      if PoolDone(s) { assert Enabled(s, Consume(true)); } else { assert Enabled(s, Consume(false)); }
    case AtTeardown => assert Enabled(s, EnterTeardown);
    case InTeardown =>
      if s.teardown.stage.WaitWorkers? && s.poolWg != 0 { WorkerMoves(s); } else { assert Enabled(s, TeardownStep); }
    case AfterTeardown => assert Enabled(s, ForwarderDone);
    case Gone =>
      if s.phase.Finished? {
        var k :| k in s.blocked;
        assert Enabled(s, Unblock(k));
      } else {
        assert Enabled(s, UnsubStep);
      }
  }

  // ---- stopping terminates ----------------------------------------------------------------

  function Attempts(s: State): nat { if s.maxRetries < 0 then 0 else s.maxRetries }

  function WorkerWork(pc: WorkerPc): nat {
    match pc
    case Exited => 0
    case Selecting => 1
    case Processing(left) => 2 + left
  }

  function StageWork(stage: Stage): nat {
    match stage
    case RemoveChannel => 8
    case CancelPool => 7
    case WaitWorkers => 6
    case CloseChannel => 5
  }

  function ForwarderWork(s: State): nat {
    match s.fwd
    case Forwarding => 10 + |s.buf| * (Attempts(s) + 4)
    case Consuming(_) => 10 + |s.buf| * (Attempts(s) + 4) + Attempts(s) + 3
    case AtTeardown => 9
    case InTeardown =>
      if !s.teardown.Running? then 0
      else StageWork(s.teardown.stage)
    case AfterTeardown => 4
    case Gone => 0
  }

  function CallerWork(s: State): nat {
    |s.blocked| +
    match s.phase
    case Cancelling => 5
    case Waiting => 4
    case Fallback => 3
    case _ => 0
  }

  /** The work left: queued events times the attempts each may cost, the attempts the workers
      still have, and the distance of the forwarder and the callers from their end. Events in
      the bus channel count only while the forwarder still reads it. */
  function Work(s: State): nat {
    |s.queue| * (Attempts(s) + 2) + Total(s.workers, WorkerWork) + ForwarderWork(s) + CallerWork(s)
  }

  lemma Times(a: nat, b: nat)
    ensures (a + 1) * b == a * b + b
  {
  }

  lemma WorkerProgress(s: State, step: Step)
    requires Inv(s) && Enabled(s, step) && WorkerStep(step)
    ensures Work(Apply(s, step)) < Work(s)
  {
    hide Inv;
    if step.HandOver? { HandOverProgress(s, step.w); } else { QueueProgress(s, step); }
  }

  lemma HandOverProgress(s: State, w: nat)
    requires Enabled(s, HandOver(w))
    ensures Work(Apply(s, HandOver(w))) < Work(s)
  {
    var s' := Apply(s, HandOver(w));
    TotalUpdate(s.workers, w, s'.workers[w], WorkerWork);
    WorkerLeavesCallers(s, HandOver(w));
    hide Total, CallerWork;
  }

  /** With the events of the queue among the work, taking one costs less than it brings. */
  lemma QueueProgress(s: State, step: Step)
    requires Enabled(s, step) && WorkerStep(step) && !step.HandOver?
    ensures Work(Apply(s, step)) < Work(s)
  {
    var s' := Apply(s, step);
    TotalUpdate(s.workers, step.w, s'.workers[step.w], WorkerWork);
    WorkerLeavesCallers(s, step);
    assert ForwarderWork(s') == ForwarderWork(s);
    if step.Take? { Times(|s'.queue|, Attempts(s) + 2); }
    hide Total, CallerWork, ForwarderWork;
  }

  lemma WorkerLeavesCallers(s: State, step: Step)
    requires Enabled(s, step) && WorkerStep(step)
    ensures CallerWork(Apply(s, step)) == CallerWork(s)
  {
  }

  lemma ForwarderProgress(s: State, step: Step)
    requires Inv(s) && Enabled(s, step) && ForwarderStep(step)
    ensures Work(Apply(s, step)) < Work(s)
  {
    hide Total, Live;
    var s' := Apply(s, step);
    if step.Forward? { Times(|s'.buf|, Attempts(s) + 4); }
    if step.Consume? { Times(|s.queue|, Attempts(s) + 2); }
  }

  lemma TeardownProgress(s: State)
    requires Inv(s) && Enabled(s, TeardownStep)
    ensures Work(Apply(s, TeardownStep)) < Work(s)
  {
    assert s.teardown.owner.ByForwarder? && s.fwd.InTeardown?;
    TeardownMoves(s);
    hide Inv, Enabled, Apply, Total, CallerWork, ForwarderWork;
  }

  lemma TeardownMoves(s: State)
    requires Enabled(s, TeardownStep) && s.teardown.owner.ByForwarder? && s.fwd.InTeardown?
    ensures var s' := Apply(s, TeardownStep);
      && ForwarderWork(s') < ForwarderWork(s) && CallerWork(s') == CallerWork(s)
      && s'.queue == s.queue && s'.workers == s.workers && s'.maxRetries == s.maxRetries
  {
    var s' := RunTeardown(s);
    assert Apply(s, TeardownStep) == s';
    hide ReturnRunner, Attempts, Apply, Enabled;
    match s.teardown.stage {
      case CloseChannel => assert s'.fwd == AfterTeardown;
      case _ => assert s'.fwd == s.fwd && s'.teardown.Running?;
    }
  }

  lemma CallerProgress(s: State, step: Step)
    requires Inv(s) && Enabled(s, step) && (step.UnsubStep? || step.Unblock?)
    ensures Work(Apply(s, step)) < Work(s)
  {
    hide Total, Live;
    var s' := Apply(s, step);
    assert ForwarderWork(s') == ForwarderWork(s);
  }

  /** Every step that is not the environment's brings the work down, even if a worker's select
      keeps preferring the queue over the cancelled context. */
  lemma Progress(s: State, step: Step)
    requires Inv(s) && Enabled(s, step) && Internal(step)
    ensures Work(Apply(s, step)) < Work(s)
  {
    hide Inv, Apply, Enabled, Work;
    if WorkerStep(step) { WorkerProgress(s, step); }
    else if ForwarderStep(step) { ForwarderProgress(s, step); }
    else if step.TeardownStep? { TeardownProgress(s); }
    else { CallerProgress(s, step); }
  }

  /** With the forwarder out of its loop the environment cannot add work, except that each new
      Unsubscribe call is itself a few steps. */
  lemma EnvironmentAddsNothing(s: State, step: Step)
    requires Inv(s) && Enabled(s, step) && !Internal(step) && OutOfLoop(s)
    ensures Work(Apply(s, step)) <= Work(s) + if step.Call? then 5 else 0
  {
  }

  ghost function CountInternal(steps: seq<Step>): nat {
    if steps == [] then 0 else (if Internal(steps[0]) then 1 else 0) + CountInternal(steps[1..])
  }

  ghost function CountCalls(steps: seq<Step>): nat {
    if steps == [] then 0 else (if steps[0].Call? then 1 else 0) + CountCalls(steps[1..])
  }

  lemma LoopIsLeftForGood(s: State, step: Step)
    requires Inv(s) && Enabled(s, step) && OutOfLoop(s)
    ensures OutOfLoop(Apply(s, step)) && Triggered(Apply(s, step))
  {
  }

  lemma {:induction false} StopBound(s: State, steps: seq<Step>)
    requires Inv(s) && OutOfLoop(s) && IsExec(s, steps)
    ensures CountInternal(steps) + Work(Final(s, steps)) <= Work(s) + 5 * CountCalls(steps)
    ensures Inv(Final(s, steps)) && OutOfLoop(Final(s, steps))
    decreases |steps|
  {
    hide Inv, Apply, Enabled, Work, OutOfLoop;
    if steps != [] {
      StepKeeps(s, steps[0]);
      LoopIsLeftForGood(s, steps[0]);
      StopBound(Apply(s, steps[0]), steps[1..]);
      if Internal(steps[0]) { Progress(s, steps[0]); } else { EnvironmentAddsNothing(s, steps[0]); }
    }
  }

  /** Main progress result: from the moment the forwarder has left its loop, whatever publishers,
      contexts and the bus do, the subscription takes at most Work(s) steps of its own, plus five
      for each further Unsubscribe call; and when it can take none, everything is released. */
  lemma StopTerminates(s: State, steps: seq<Step>)
    requires Inv(s) && OutOfLoop(s) && IsExec(s, steps)
    ensures CountInternal(steps) <= Work(s) + 5 * CountCalls(steps)
    ensures (forall step :: Internal(step) ==> !Enabled(Final(s, steps), step)) ==> AllDone(Final(s, steps))
  {
    StopBound(s, steps);
    var t := Final(s, steps);
    if !AllDone(t) { NeverStuck(t); }
  }

  /** Before that, the same bound holds of any stretch in which the environment is silent. */
  lemma {:induction false} SilentBound(s: State, steps: seq<Step>)
    requires Inv(s) && IsExec(s, steps) && CountInternal(steps) == |steps|
    ensures |steps| + Work(Final(s, steps)) <= Work(s)
    decreases |steps|
  {
    if steps != [] {
      CountAtMost(steps[1..]);
      StepKeeps(s, steps[0]);
      Progress(s, steps[0]);
      SilentBound(Apply(s, steps[0]), steps[1..]);
    }
  }

  lemma {:induction false} CountAtMost(steps: seq<Step>)
    ensures CountInternal(steps) <= |steps|
  {
    if steps != [] { CountAtMost(steps[1..]); }
  }

  lemma {:induction false} Extend(s: State, steps: seq<Step>, t: State, step: Step)
    requires IsExec(s, steps) && t == Final(s, steps) && Enabled(t, step)
    ensures IsExec(s, steps + [step]) && Final(s, steps + [step]) == Apply(t, step)
    decreases |steps|
  {
    hide Enabled, Apply;
    var longer := steps + [step];
    if steps == [] {
      assert longer[1..] == [];
    } else {
      Extend(Apply(s, steps[0]), steps[1..], t, step);
      assert longer[1..] == steps[1..] + [step];
    }
  }

  lemma Then(s: State, steps: seq<Step>, t: State, step: Step) returns (longer: seq<Step>, t': State)
    requires IsExec(s, steps) && t == Final(s, steps) && Enabled(t, step)
    ensures IsExec(s, longer) && t' == Final(s, longer) && t' == Apply(t, step)
  {
    Extend(s, steps, t, step);
    longer, t' := steps + [step], Apply(t, step);
  }

  lemma SendOne() returns (s: State, steps: seq<Step>, t: State)
    ensures s == Init(1, 1, 0) && IsExec(s, steps) && t == Final(s, steps)
    ensures t == Init(1, 1, 0).(buf := [7])
  {
    s, steps := Init(1, 1, 0), [];
    t := s;
    assert IsExec(s, steps) && t == Final(s, steps);
    hide IsExec, Final, RunTeardown, RunUnsub, SetWorker;
    steps, t := Then(s, steps, t, Snapshot);
    assert t == Init(1, 1, 0).(held := 1);
    steps, t := Then(s, steps, t, Send(7));
    assert [] + [7] == [7];
  }

  lemma QueueOne() returns (s: State, steps: seq<Step>, t: State)
    ensures s == Init(1, 1, 0) && IsExec(s, steps) && t == Final(s, steps)
    ensures t == Init(1, 1, 0).(queue := [7], workers := [Selecting])
  {
    hide IsExec, Final, RunTeardown, RunUnsub, SetWorker;
    s, steps, t := SendOne();
    steps, t := Then(s, steps, t, Forward);
    steps, t := Then(s, steps, t, Consume(false));
    assert t.workers == [Selecting] && t.queue == [7] && t.buf == [];
  }

  lemma QueueOneAndLeave() returns (s: State, steps: seq<Step>, t: State)
    ensures s == Init(1, 1, 0) && IsExec(s, steps) && t == Final(s, steps)
    ensures t == Init(1, 1, 0).(queue := [7], workers := [Exited], poolWg := 0, parentDone := true, fwd := AtTeardown)
  {
    hide IsExec, Final, RunUnsub, RunTeardown;
    s, steps, t := QueueOne();
    steps, t := Then(s, steps, t, CancelParent);
    steps, t := Then(s, steps, t, Exit(0));
    steps, t := Then(s, steps, t, LeaveLoop);
    assert t.workers == [Exited];
  }

  /** Stopping does not drain: with a cancelled context a worker may exit at once, and the event
      that is queued is abandoned. */
  lemma StopAbandonsQueue() returns (t: State, steps: seq<Step>)
    ensures Reachable(t, steps, 1, 1, 0) && Released(t) && |t.queue| == 1
  {
    hide IsExec, Final, RunUnsub, ReturnRunner;
    var s;
    s, steps, t := QueueOneAndLeave();
    steps, t := Then(s, steps, t, EnterTeardown);
    steps, t := Then(s, steps, t, TeardownStep);
    steps, t := Then(s, steps, t, TeardownStep);
    steps, t := Then(s, steps, t, TeardownStep);
    steps, t := Then(s, steps, t, TeardownStep);
    steps, t := Then(s, steps, t, ForwarderDone);
  }
}
