/** What becomes of an event on its way through a pool subscription (ext/pool/pool.go): from the channel over
    the forwarder and the queue to a worker, and how often it is tried there. */
module PoolDelivery {
  import opened Workers
  import opened PoolProtocol

  ghost predicate Labels(run: seq<State>, steps: seq<Step>) {
    && |run| == |steps| + 1
    && forall k :: 0 <= k < |steps| ==> Enabled(run[k], steps[k]) && run[k + 1] == Apply(run[k], steps[k])
  }

  ghost predicate Starts(run: seq<State>, n: nat, queueSize: nat, maxRetries: int) {
    run != [] && run[0] == Init(n, queueSize, maxRetries)
  }

  lemma {:induction false} RunInv(run: seq<State>, steps: seq<Step>, n: nat, queueSize: nat, maxRetries: int, i: nat)
    requires Labels(run, steps) && Starts(run, n, queueSize, maxRetries) && i < |run|
    ensures Inv(run[i])
  {
    hide Inv, Enabled, Apply;
    if i == 0 {
      InitInv(n, queueSize, maxRetries);
    } else {
      RunInv(run, steps, n, queueSize, maxRetries, i - 1);
      StepKeeps(run[i - 1], steps[i - 1]);
    }
  }

  lemma InitInv(n: nat, queueSize: nat, maxRetries: int)
    ensures Inv(Init(n, queueSize, maxRetries))
  {
    LiveInit(n, Selecting, Exited);
  }

  // ---- what a step does with events -------------------------------------------------------

  /** An event enters the channel, if that is open and holds fewer than 64. */
  function Arrives(s: State, step: Step): seq<Event> {
    if step.Send? && !s.closed && |s.buf| < 64 then [step.e] else []
  }

  /** The oldest event of the channel is the forwarder's. */
  function Moves(s: State, step: Step): seq<Event> {
    if step.Forward? && s.buf != [] then [s.buf[0]] else []
  }

  /** The forwarder's event enters the queue, goes straight to a worker, or is refused. */
  function Enters(s: State, step: Step): seq<Event> {
    if step.Consume? && s.fwd.Consuming? && !step.cancelled && |s.queue| < s.queueSize then [s.fwd.e] else []
  }

  function Passes(s: State, step: Step): seq<Event> {
    if (step.Consume? || step.HandOver?) && s.fwd.Consuming? then [s.fwd.e] else []
  }

  /** The oldest event of the queue is a worker's. */
  function Leaves(s: State, step: Step): seq<Event> {
    if step.Take? && s.queue != [] then [s.queue[0]] else []
  }

  /** What the first i steps of a run have done so. */
  ghost function Over(run: seq<State>, steps: seq<Step>, what: (State, Step) -> seq<Event>, i: nat): seq<Event>
    requires i <= |steps| && |run| == |steps| + 1
  {
    if i == 0 then [] else Over(run, steps, what, i - 1) + what(run[i - 1], steps[i - 1])
  }

  function InForwarder(s: State): seq<Event> { if s.fwd.Consuming? then [s.fwd.e] else [] }

  /** The steps that have to do with events. */
  predicate Carries(step: Step) { step.Send? || step.Forward? || step.Consume? || WorkerStep(step) }

  predicate Idle(s: State, s': State) {
    && s'.buf == s.buf && s'.queue == s.queue && s'.workers == s.workers
    && s'.maxRetries == s.maxRetries && s'.queueSize == s.queueSize
  }

  lemma TeardownIdle(s: State)
    requires s.teardown.Running?
    ensures Idle(s, RunTeardown(s))
  {
  }

  lemma UnsubIdle(s: State)
    ensures Idle(s, RunUnsub(s))
  {
  }

  lemma ControlIdle(s: State, step: Step)
    requires Enabled(s, step) && !Carries(step)
    ensures Idle(s, Apply(s, step))
  {
    if step.TeardownStep? {
      TeardownIdle(s);
      hide RunTeardown, RunUnsub, Idle;
    } else if step.UnsubStep? {
      UnsubIdle(s);
      hide RunTeardown, RunUnsub, Idle;
    } else {
      hide Apply, Enabled;
      OtherIdle(s, step);
    }
  }

  lemma OtherIdle(s: State, step: Step)
    requires Enabled(s, step) && !Carries(step) && !step.TeardownStep? && !step.UnsubStep?
    ensures Idle(s, Apply(s, step))
  {
    hide PoolDone, ForwarderCtxDone, RunTeardown, RunUnsub, ReturnRunner;
    if step.Call? || step.Unblock? {
      CallIdle(s, step);
      hide Apply, Enabled;
    }
  }

  lemma CallIdle(s: State, step: Step)
    requires Enabled(s, step) && (step.Call? || step.Unblock?)
    ensures Idle(s, Apply(s, step))
  {
  }

  lemma LimitStays(s: State, step: Step)
    requires Enabled(s, step)
    ensures Apply(s, step).maxRetries == s.maxRetries && Apply(s, step).queueSize == s.queueSize
  {
    if Carries(step) {
      hide PoolDone, ForwarderCtxDone, RunTeardown, RunUnsub;
    } else {
      ControlIdle(s, step);
      hide Apply, Enabled;
    }
  }

  lemma BufStays(s: State, step: Step)
    requires Enabled(s, step) && !step.Send? && !step.Forward?
    ensures Apply(s, step).buf == s.buf
  {
    if Carries(step) {
      hide PoolDone, ForwarderCtxDone, RunTeardown, RunUnsub;
    } else {
      ControlIdle(s, step);
      hide Apply, Enabled;
    }
  }

  lemma BufAccounts(s: State, step: Step)
    requires Enabled(s, step)
    ensures s.buf + Arrives(s, step) == Moves(s, step) + Apply(s, step).buf
  {
    if step.Send? || step.Forward? {
      assert step.Forward? ==> s.buf == [s.buf[0]] + s.buf[1..];
    } else {
      BufStays(s, step);
      hide Apply, Enabled;
    }
  }

  predicate ForHand(step: Step) { step.Forward? || step.Consume? || step.HandOver? }

  lemma HandStays(s: State, step: Step)
    requires Inv(s) && Enabled(s, step) && !ForHand(step)
    ensures Apply(s, step).fwd.Consuming? <==> s.fwd.Consuming?
    ensures InForwarder(Apply(s, step)) == InForwarder(s)
  {
    hide Enabled, Apply, Inv, InForwarder;
    if step.TeardownStep? {
      TeardownHand(s);
    } else {
      OtherHand(s, step);
    }
    SameHand(s, Apply(s, step));
  }

  lemma TeardownHand(s: State)
    requires Inv(s) && Enabled(s, TeardownStep)
    ensures SameFwd(s, Apply(s, TeardownStep))
  {
    hide OnceOk;
    assert s.teardown.owner.ByForwarder? && s.fwd.InTeardown?;
    hide Inv;
  }

  predicate SameFwd(s: State, s': State) {
    (s'.fwd.Consuming? <==> s.fwd.Consuming?) && (s.fwd.Consuming? ==> s'.fwd.e == s.fwd.e)
  }

  lemma OtherHand(s: State, step: Step)
    requires Enabled(s, step) && !ForHand(step) && !step.TeardownStep?
    ensures SameFwd(s, Apply(s, step))
  {
    hide PoolDone, ForwarderCtxDone, Started, RunTeardown, RunUnsub, ReturnRunner;
    if step.UnsubStep? { UnsubHand(s); }
  }

  lemma UnsubHand(s: State)
    ensures SameFwd(s, RunUnsub(s))
  {
  }

  lemma SameHand(s: State, s': State)
    requires SameFwd(s, s')
    ensures InForwarder(s') == InForwarder(s)
  {
  }

  lemma HandAccounts(s: State, step: Step)
    requires Inv(s) && Enabled(s, step)
    ensures InForwarder(s) + Moves(s, step) == Passes(s, step) + InForwarder(Apply(s, step))
  {
    if !ForHand(step) {
      HandStays(s, step);
      hide Apply, Enabled;
    }
  }

  lemma QueueStays(s: State, step: Step)
    requires Enabled(s, step) && !step.Consume? && !step.Take?
    ensures Apply(s, step).queue == s.queue
  {
    if Carries(step) {
      hide PoolDone, ForwarderCtxDone, RunTeardown, RunUnsub;
    } else {
      ControlIdle(s, step);
      hide Apply, Enabled;
    }
  }

  lemma QueueAccounts(s: State, step: Step)
    requires Enabled(s, step)
    ensures s.queue + Enters(s, step) == Leaves(s, step) + Apply(s, step).queue
  {
    if step.Consume? || step.Take? {
      assert step.Take? ==> s.queue == [s.queue[0]] + s.queue[1..];
    } else {
      QueueStays(s, step);
      hide Apply, Enabled;
    }
  }

  lemma Balance<T>(before: seq<T>, more: seq<T>, gone: seq<T>, held: seq<T>, out: seq<T>, held': seq<T>)
    requires before == gone + held && held + more == out + held'
    ensures before + more == gone + out + held'
  {
    assert gone + held + more == gone + (held + more);
    assert gone + (out + held') == gone + out + held';
  }

  /** Of every run: the events that entered the channel are those moved on, in order, and those still in it; those
      moved on are those the forwarder has passed on and the one in its hand; and those that entered the queue
      are those a worker has taken, in order, and those still in it. */
  lemma {:induction false} EventsInOrder(run: seq<State>, steps: seq<Step>, n: nat, queueSize: nat, maxRetries: int,
                                         i: nat)
    requires Labels(run, steps) && Starts(run, n, queueSize, maxRetries) && i < |run|
    ensures Over(run, steps, Arrives, i) == Over(run, steps, Moves, i) + run[i].buf
    ensures Over(run, steps, Moves, i) == Over(run, steps, Passes, i) + InForwarder(run[i])
    ensures Over(run, steps, Enters, i) == Over(run, steps, Leaves, i) + run[i].queue
  {
    if i > 0 {
      EventsInOrder(run, steps, n, queueSize, maxRetries, i - 1);
      var s, step := run[i - 1], steps[i - 1];
      assert Enabled(s, step) && run[i] == Apply(s, step);
      RunInv(run, steps, n, queueSize, maxRetries, i - 1);
      hide Inv, Apply, Enabled, Labels, Arrives, Moves, Passes, Enters, Leaves, InForwarder;
      BufAccounts(s, step);
      HandAccounts(s, step);
      QueueAccounts(s, step);
      Balance(Over(run, steps, Arrives, i - 1), Arrives(s, step), Over(run, steps, Moves, i - 1), s.buf,
              Moves(s, step), run[i].buf);
      Balance(Over(run, steps, Moves, i - 1), Moves(s, step), Over(run, steps, Passes, i - 1), InForwarder(s),
              Passes(s, step), InForwarder(run[i]));
      Balance(Over(run, steps, Enters, i - 1), Enters(s, step), Over(run, steps, Leaves, i - 1), s.queue,
              Leaves(s, step), run[i].queue);
    }
  }

  /** What the forwarder makes of the event in its hand: into the queue, if that has room and the pool has not
      been stopped; straight to a waiting worker, if the queue has no places at all; and refused only if the
      pool has been stopped or the queue is full. */
  lemma PassMeans(run: seq<State>, steps: seq<Step>, n: nat, queueSize: nat, maxRetries: int, i: nat)
    requires Labels(run, steps) && Starts(run, n, queueSize, maxRetries) && i < |steps|
    requires run[i].fwd.Consuming? && !run[i + 1].fwd.Consuming?
    ensures var s, s', e := run[i], run[i + 1], run[i].fwd.e;
      var stopped := s.parentDone || s.poolCancelled;
      || s'.queue == s.queue + [e]
      || (s'.queue == s.queue && (stopped || |s.queue| >= s.queueSize))
    ensures var s, s' := run[i], run[i + 1];
      !s.parentDone && !s.poolCancelled && |s.queue| < s.queueSize ==> s'.queue == s.queue + [s.fwd.e]
    ensures |run[i + 1].queue| <= |run[i].queue| + 1
  {
    assert Enabled(run[i], steps[i]) && run[i + 1] == Apply(run[i], steps[i]);
    RunInv(run, steps, n, queueSize, maxRetries, i);
    hide Labels, Starts, Inv, Apply, Enabled;
    PassStep(run[i], steps[i]);
  }

  lemma PassStep(s: State, step: Step)
    requires Inv(s) && Enabled(s, step) && s.fwd.Consuming? && !Apply(s, step).fwd.Consuming?
    ensures var q := Apply(s, step).queue;
      || (q == s.queue + [s.fwd.e] && |q| == |s.queue| + 1)
      || (q == s.queue && (s.parentDone || s.poolCancelled || |s.queue| >= s.queueSize))
  {
    if ForHand(step) {
      hide Inv, RunTeardown, RunUnsub;
    } else {
      hide Apply, Enabled, Inv;
      HandStays(s, step);
    }
  }

  // ---- attempts ---------------------------------------------------------------------------

  /** How often the handler has been called for the event that worker w has, or had last. */
  ghost function Tries(run: seq<State>, steps: seq<Step>, w: nat, i: nat): nat
    requires i <= |steps| && |run| == |steps| + 1
  {
    if i == 0 then 0
    else
      var step := steps[i - 1];
      if step == Take(w) || step == HandOver(w) then 1
      else Tries(run, steps, w, i - 1) + if step == Retry(w) then 1 else 0
  }

  lemma WorkersStay(s: State, step: Step)
    requires Enabled(s, step) && !WorkerStep(step)
    ensures Apply(s, step).workers == s.workers
  {
    if Carries(step) {
      hide PoolDone, ForwarderCtxDone, RunTeardown, RunUnsub;
    } else {
      ControlIdle(s, step);
      hide Apply, Enabled;
    }
  }

  lemma WorkerMovesTo(s: State, step: Step) returns (pc: WorkerPc)
    requires Enabled(s, step) && WorkerStep(step)
    ensures step.w < |s.workers| && Apply(s, step).workers == s.workers[step.w := pc]
    ensures (step.Take? || step.HandOver?) && pc.Processing? ==> pc.left == s.maxRetries
    ensures step.Retry? ==> s.workers[step.w].Processing? && pc == Processing(s.workers[step.w].left - 1)
    ensures step.Settle? || step.Exit? ==> !pc.Processing?
  {
    hide PoolDone, ForwarderCtxDone, RunUnsub, RunTeardown;
    pc := Apply(s, step).workers[step.w];
  }

  lemma StepTries(s: State, step: Step, w: nat)
    requires Enabled(s, step)
    ensures var s' := Apply(s, step);
      && s'.maxRetries == s.maxRetries && |s'.workers| == |s.workers|
      && (Busy(s', w) ==>
            if step == Take(w) || step == HandOver(w) then s'.workers[w].left == s.maxRetries
            else Busy(s, w) && s'.workers[w].left == s.workers[w].left - if step == Retry(w) then 1 else 0)
  {
    hide Apply, Enabled;
    LimitStays(s, step);
    if WorkerStep(step) {
      var pc := WorkerMovesTo(s, step);
    } else {
      WorkersStay(s, step);
    }
  }

  /** Of every run: a worker that is processing an event has called the handler for it at most maxRetries + 1
      times, and may call it again exactly if it has called it less often than that. */
  lemma {:induction false} TriesBounded(run: seq<State>, steps: seq<Step>, n: nat, queueSize: nat, maxRetries: int,
                                        i: nat, w: nat)
    requires Labels(run, steps) && Starts(run, n, queueSize, maxRetries) && i < |run|
    ensures run[i].maxRetries == maxRetries && |run[i].workers| == n
    ensures Busy(run[i], w) ==> 1 <= Tries(run, steps, w, i) <= maxRetries + 1
    ensures Busy(run[i], w) ==> Tries(run, steps, w, i) + run[i].workers[w].left == maxRetries + 1
    ensures Busy(run[i], w) ==> (Enabled(run[i], Retry(w)) <==> Tries(run, steps, w, i) <= maxRetries)
  {
    if i > 0 {
      TriesBounded(run, steps, n, queueSize, maxRetries, i - 1, w);
      assert Enabled(run[i - 1], steps[i - 1]) && run[i] == Apply(run[i - 1], steps[i - 1]);
      StepTries(run[i - 1], steps[i - 1], w);
      hide Apply, Labels;
    }
  }
}
