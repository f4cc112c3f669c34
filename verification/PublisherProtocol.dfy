/** The MQ side of Publisher (ext/amqp/publisher.go) as a protocol: any number of concurrent
    enqueue and Close calls, the read-write lock between them, the bounded queue with its worker,
    and the fallback goroutines behind a semaphore. An enqueue call and its event share a number. */
module PublisherProtocol {
  import opened Wrappers

  const QUEUE := 1000
  const TOKENS := 100

  /** Where an enqueue call stands; from Locked to Unlocking it holds the read lock. */
  datatype CallPc = WantLock | Locked | Checked | Full | Holding | Unlocking | Done

  datatype WorkerPc = Ranging | Sending(n: nat) | Left | Exited

  /** The body of the Once in Close, by the statement it is about to run. */
  datatype Phase = Fresh | WantWrite | SetFlag | CloseQueue | Unlock | Waiting | Finished

  /** `viaQueue` lists the calls that used the queue in order, `workerSent` what the worker has sent;
      `spawned` are the calls that started a fallback, `live` those whose fallback has not called
      Done, `tokens` those holding a semaphore slot, `sending` those still publishing.
      `panicked` and `lateAdd` record the two misuses that the lock is there to exclude. */
  datatype State = State(
    configured: bool, closed: bool, queueClosed: bool, writer: bool, readers: set<nat>,
    calls: map<nat, CallPc>, queue: seq<nat>, worker: WorkerPc, wg: int,
    spawned: set<nat>, live: set<nat>, tokens: set<nat>, sending: set<nat>,
    viaQueue: seq<nat>, workerSent: seq<nat>, dropped: set<nat>,
    phase: Phase, runner: Option<nat>, blocked: set<nat>, returned: set<nat>,
    panicked: bool, lateAdd: bool)

  datatype Step =
    | Begin(n: nat)
    | RLock(n: nat)
    | Check(n: nat)
    | TryQueue(n: nat)
    | TrySem(n: nat)
    | Spawn(n: nat)
    | RUnlock(n: nat)
    | CallClose(c: nat)
    | CloseStep
    | Unblock(c: nat)
    | WorkerTake
    | WorkerSend
    | WorkerLeave
    | WorkerDone
    | FallbackSend(n: nat)
    | FallbackRelease(n: nat)
    | FallbackDone(n: nat)

  /** Without an AMQP publisher there is no queue and no worker, and nothing is ever enqueued. */
  function Init(configured: bool): State {
    State(configured, false, false, false, {}, map[], [], if configured then Ranging else Exited,
          if configured then 1 else 0, {}, {}, {}, {}, [], [], {}, Fresh, None, {}, {}, false, false)
  }

  predicate At(s: State, n: nat, pc: CallPc) { n in s.calls && s.calls[n] == pc }

  predicate Enabled(s: State, step: Step) {
    match step
    case Begin(n) => s.configured && n !in s.calls
    case RLock(n) => At(s, n, WantLock) && !s.writer && !s.phase.WantWrite?
    case Check(n) => At(s, n, Locked)
    case TryQueue(n) => At(s, n, Checked)
    case TrySem(n) => At(s, n, Full)
    case Spawn(n) => At(s, n, Holding)
    case RUnlock(n) => At(s, n, Unlocking)
    case CallClose(c) => s.runner != Some(c) && c !in s.blocked && c !in s.returned
    case CloseStep =>
      && !s.phase.Fresh? && !s.phase.Finished?
      && (s.phase.WantWrite? ==> s.readers == {})
      && (s.phase.Waiting? ==> s.wg == 0)
    case Unblock(c) => s.phase.Finished? && c in s.blocked
    case WorkerTake => s.worker.Ranging? && s.queue != []
    case WorkerSend => s.worker.Sending?
    case WorkerLeave => s.worker.Ranging? && s.queueClosed && s.queue == []
    case WorkerDone => s.worker.Left?
    case FallbackSend(n) => n in s.sending
    case FallbackRelease(n) => n in s.tokens && n in s.live && n !in s.sending
    case FallbackDone(n) => n in s.live && n !in s.tokens
  }

  function Move(s: State, n: nat, pc: CallPc): State { s.(calls := s.calls[n := pc]) }

  function RunClose(s: State): State {
    match s.phase
    case WantWrite => s.(writer := true, phase := SetFlag)
    case SetFlag => s.(closed := true, phase := CloseQueue)
    case CloseQueue =>
      s.(queueClosed := s.configured, panicked := s.panicked || s.queueClosed, phase := Unlock)
    case Unlock => s.(writer := false, phase := Waiting)
    case Waiting =>
      s.(phase := Finished, runner := None,
         returned := s.returned + if s.runner.Some? then {s.runner.value} else {})
    case _ => s
  }

  function Apply(s: State, step: Step): State
    requires Enabled(s, step)
  {
    match step
    case Begin(n) => Move(s, n, WantLock)
    case RLock(n) => Move(s, n, Locked).(readers := s.readers + {n})
    case Check(n) =>
      if s.closed then Move(s, n, Unlocking).(dropped := s.dropped + {n}) else Move(s, n, Checked)
    case TryQueue(n) =>
      if s.queueClosed then s.(panicked := true)
      else if |s.queue| < QUEUE then
        Move(s, n, Unlocking).(queue := s.queue + [n], viaQueue := s.viaQueue + [n])
      else Move(s, n, Full)
    case TrySem(n) =>
      if |s.tokens| < TOKENS then Move(s, n, Holding).(tokens := s.tokens + {n})
      else Move(s, n, Unlocking).(dropped := s.dropped + {n})
    case Spawn(n) =>
      Move(s, n, Unlocking).(wg := s.wg + 1, live := s.live + {n}, sending := s.sending + {n},
                             spawned := s.spawned + {n},
                             lateAdd := s.lateAdd || s.phase.Waiting? || s.phase.Finished?)
    case RUnlock(n) => Move(s, n, Done).(readers := s.readers - {n})
    case CallClose(c) =>
      if s.phase.Fresh? then s.(phase := WantWrite, runner := Some(c))
      else if s.phase.Finished? then s.(returned := s.returned + {c})
      else s.(blocked := s.blocked + {c})
    case CloseStep => RunClose(s)
    case Unblock(c) => s.(blocked := s.blocked - {c}, returned := s.returned + {c})
    case WorkerTake => s.(queue := s.queue[1..], worker := Sending(s.queue[0]))
    case WorkerSend => s.(worker := Ranging, workerSent := s.workerSent + [s.worker.n])
    case WorkerLeave => s.(worker := Left)
    case WorkerDone => s.(worker := Exited, wg := s.wg - 1)
    case FallbackSend(n) => s.(sending := s.sending - {n})
    case FallbackRelease(n) => s.(tokens := s.tokens - {n})
    case FallbackDone(n) => s.(live := s.live - {n}, wg := s.wg - 1)
  }

  ghost predicate IsExec(s: State, steps: seq<Step>)
    decreases |steps|
  {
    steps != [] ==> Enabled(s, steps[0]) && IsExec(Apply(s, steps[0]), steps[1..])
  }

  ghost function Final(s: State, steps: seq<Step>): State
    requires IsExec(s, steps)
    decreases |steps|
  {
    if steps == [] then s else Final(Apply(s, steps[0]), steps[1..])
  }

  ghost predicate Reachable(s: State, steps: seq<Step>, configured: bool) {
    IsExec(Init(configured), steps) && s == Final(Init(configured), steps)
  }

  // ---- the invariant ----------------------------------------------------------------

  predicate InsideLock(pc: CallPc) { pc.Locked? || pc.Checked? || pc.Full? || pc.Holding? || pc.Unlocking? }

  predicate Decided(pc: CallPc) { pc.Unlocking? || pc.Done? }

  ghost predicate LockOk(s: State) {
    && (forall n :: n in s.readers ==> n in s.calls && InsideLock(s.calls[n]))
    && (forall n :: n in s.calls && InsideLock(s.calls[n]) ==> n in s.readers)
    && (s.writer ==> s.readers == {})
    && (s.writer <==> s.phase.SetFlag? || s.phase.CloseQueue? || s.phase.Unlock?)
    && (s.closed <==> s.phase.CloseQueue? || s.phase.Unlock? || s.phase.Waiting? || s.phase.Finished?)
    && (s.queueClosed <==> s.configured && (s.phase.Unlock? || s.phase.Waiting? || s.phase.Finished?))
    && (s.closed ==> forall n :: n in s.calls ==> !s.calls[n].Checked? && !s.calls[n].Full? && !s.calls[n].Holding?)
    && !s.panicked && !s.lateAdd
  }

  ghost predicate OnceOk(s: State) {
    && (s.phase.Fresh? ==> s.runner.None? && s.blocked == {} && s.returned == {})
    && (!s.phase.Fresh? && !s.phase.Finished? ==> s.runner.Some? && s.returned == {})
    && (s.phase.Finished? ==> s.runner.None? && s.wg == 0)
  }

  ghost predicate CountersOk(s: State) {
    && s.wg == (if s.worker.Exited? then 0 else 1) + |s.live|
    && s.sending <= s.tokens && s.sending <= s.live && s.live <= s.spawned
    && |s.tokens| <= TOKENS && |s.queue| <= QUEUE
    && (forall n :: n in s.tokens ==> n in s.live || At(s, n, Holding))
    && (forall n :: At(s, n, Holding) ==> n in s.tokens && n !in s.live)
    && (s.worker.Left? || s.worker.Exited? ==> s.queue == [] && (s.configured ==> s.queueClosed))
    && (!s.configured ==> s.worker.Exited? && s.calls == map[])
  }

  predicate NoDup(q: seq<nat>) { forall i, j :: 0 <= i < j < |q| ==> q[i] != q[j] }

  function InHand(w: WorkerPc): seq<nat> { if w.Sending? then [w.n] else [] }

  /** Every call that has made its decision took exactly one of three ways, and the queue's way is in order. */
  ghost predicate LedgerOk(s: State) {
    && s.viaQueue == s.workerSent + InHand(s.worker) + s.queue
    && NoDup(s.viaQueue)
    && (forall n :: n in s.viaQueue ==> n !in s.spawned && n !in s.dropped)
    && s.spawned !! s.dropped
    && (forall n :: (n in s.viaQueue || n in s.spawned || n in s.dropped) <==> (n in s.calls && Decided(s.calls[n])))
  }

  ghost predicate Inv(s: State) { LockOk(s) && OnceOk(s) && CountersOk(s) && LedgerOk(s) }

  // ---- preservation -----------------------------------------------------------------

  predicate CloseGroup(step: Step) { step.CallClose? || step.CloseStep? || step.Unblock? }

  predicate WorkerGroup(step: Step) { step.WorkerTake? || step.WorkerSend? || step.WorkerLeave? || step.WorkerDone? }

  predicate FallbackGroup(step: Step) { step.FallbackSend? || step.FallbackRelease? || step.FallbackDone? }

  predicate InsideGroup(step: Step) { step.Check? || step.TryQueue? || step.TrySem? || step.Spawn? }

  /** The read-write lock does its work: no send on a closed queue, no Add once Close waits. */
  lemma LockKeeps(s: State, step: Step)
    requires LockOk(s) && Enabled(s, step)
    ensures LockOk(Apply(s, step))
  {
    if CloseGroup(step) { LockClose(s, step); }
    else if WorkerGroup(step) || FallbackGroup(step) { LockElsewhere(s, step); }
    else if InsideGroup(step) { LockInside(s, step); }
    else { LockEdges(s, step); }
  }

  lemma LockClose(s: State, step: Step)
    requires LockOk(s) && Enabled(s, step) && CloseGroup(step)
    ensures LockOk(Apply(s, step))
  {
  }

  lemma LockEdges(s: State, step: Step)
    requires LockOk(s) && Enabled(s, step) && (step.Begin? || step.RLock? || step.RUnlock?)
    ensures LockOk(Apply(s, step))
  {
    hide RunClose;
  }

  /** The steps of a call that holds the read lock and keeps it. */
  lemma LockInside(s: State, step: Step)
    requires LockOk(s) && Enabled(s, step) && InsideGroup(step)
    ensures LockOk(Apply(s, step))
  {
    hide RunClose, LockOk;
    var n, s' := step.n, Apply(s, step);
    InsideSays(s, step);
    hide Apply, Enabled, Move, InsideLock;
    SameLockKeeps(s, s', n);
  }

  lemma InsideSays(s: State, step: Step)
    requires LockOk(s) && Enabled(s, step) && InsideGroup(step)
    ensures SameLock(s, Apply(s, step), step.n)
  {
    hide RunClose;
  }

  /** One call went on under the read lock, and nothing about the lock or Close has changed. */
  ghost predicate SameLock(s: State, s': State, n: nat) {
    && s'.readers == s.readers && s'.writer == s.writer && s'.phase == s.phase && s'.configured == s.configured
    && s'.closed == s.closed && s'.queueClosed == s.queueClosed && !s'.panicked && !s'.lateAdd
    && n in s.calls && InsideLock(s.calls[n]) && n in s'.calls && InsideLock(s'.calls[n])
    && s'.calls == s.calls[n := s'.calls[n]]
    && (s.closed ==> s'.calls[n].Unlocking?)
  }

  lemma SameLockKeeps(s: State, s': State, n: nat)
    requires LockOk(s) && SameLock(s, s', n)
    ensures LockOk(s')
  {
  }

  lemma LockElsewhere(s: State, step: Step)
    requires LockOk(s) && Enabled(s, step) && (WorkerGroup(step) || FallbackGroup(step))
    ensures LockOk(Apply(s, step))
  {
    hide RunClose, Move;
  }

  lemma OnceKeeps(s: State, step: Step)
    requires Inv(s) && Enabled(s, step)
    ensures OnceOk(Apply(s, step))
  {
    hide LedgerOk;
    assert s.phase.Finished? ==> s.live == {} && s.worker.Exited?;
  }

  lemma WorkerKeeps(s: State, step: Step)
    requires CountersOk(s) && LedgerOk(s) && Enabled(s, step) && WorkerGroup(step)
    ensures CountersOk(Apply(s, step)) && LedgerOk(Apply(s, step))
  {
    hide CountersOk, LedgerOk, RunClose, Move;
    WorkerCounters(s, step);
    WorkerLedger(s, step);
  }

  lemma WorkerTakeCounters(s: State)
    requires CountersOk(s) && s.worker.Ranging? && s.queue != []
    ensures CountersOk(s.(queue := s.queue[1..], worker := Sending(s.queue[0])))
  {
  }

  lemma WorkerMoveCounters(s: State, pc: WorkerPc, sent: seq<nat>)
    requires CountersOk(s) && !s.worker.Exited? && !pc.Exited?
    requires pc.Left? ==> s.queue == [] && s.queueClosed
    ensures CountersOk(s.(worker := pc, workerSent := sent))
  {
  }

  lemma WorkerDoneCounters(s: State)
    requires CountersOk(s) && s.worker.Left?
    ensures CountersOk(s.(worker := Exited, wg := s.wg - 1))
  {
  }

  lemma WorkerCounters(s: State, step: Step)
    requires CountersOk(s) && Enabled(s, step) && WorkerGroup(step)
    ensures CountersOk(Apply(s, step))
  {
    hide CountersOk, RunClose, Move;
    match step {
      case WorkerTake => WorkerTakeCounters(s);
      case WorkerSend => WorkerMoveCounters(s, Ranging, s.workerSent + [s.worker.n]);
      case WorkerLeave => WorkerMoveCounters(s, Left, s.workerSent);
      case WorkerDone => WorkerDoneCounters(s);
    }
  }

  lemma WorkerLedger(s: State, step: Step)
    requires LedgerOk(s) && Enabled(s, step) && WorkerGroup(step)
    ensures LedgerOk(Apply(s, step))
  {
    hide RunClose, Move, NoDup, Decided;
  }

  /** The ledger does not speak of the wait group, the semaphore, the lock or Close. */
  lemma LedgerFrame(s: State, s': State)
    requires LedgerOk(s)
    requires s'.viaQueue == s.viaQueue && s'.workerSent == s.workerSent && s'.worker == s.worker && s'.queue == s.queue
    requires s'.spawned == s.spawned && s'.dropped == s.dropped && s'.calls == s.calls
    ensures LedgerOk(s')
  {
    hide NoDup, Decided, InHand;
  }

  lemma FallbackSendCounters(s: State, n: nat)
    requires CountersOk(s)
    ensures CountersOk(s.(sending := s.sending - {n}))
  {
  }

  lemma FallbackReleaseCounters(s: State, n: nat)
    requires CountersOk(s) && n in s.tokens && n in s.live && n !in s.sending
    ensures CountersOk(s.(tokens := s.tokens - {n}))
  {
  }

  lemma FallbackDoneCounters(s: State, n: nat)
    requires CountersOk(s) && n in s.live && n !in s.tokens
    ensures CountersOk(s.(live := s.live - {n}, wg := s.wg - 1))
  {
  }

  lemma FallbackCounters(s: State, step: Step)
    requires CountersOk(s) && Enabled(s, step) && FallbackGroup(step)
    ensures CountersOk(Apply(s, step))
  {
    hide CountersOk, RunClose, Move;
    match step {
      case FallbackSend(n) => FallbackSendCounters(s, n);
      case FallbackRelease(n) => FallbackReleaseCounters(s, n);
      case FallbackDone(n) => FallbackDoneCounters(s, n);
    }
  }

  lemma FallbackLedger(s: State, step: Step)
    requires LedgerOk(s) && Enabled(s, step) && FallbackGroup(step)
    ensures LedgerOk(Apply(s, step))
  {
    hide LedgerOk, RunClose, Move, At;
    match step {
      case FallbackSend(n) => LedgerFrame(s, s.(sending := s.sending - {n}));
      case FallbackRelease(n) => LedgerFrame(s, s.(tokens := s.tokens - {n}));
      case FallbackDone(n) => LedgerFrame(s, s.(live := s.live - {n}, wg := s.wg - 1));
    }
  }

  lemma FallbackKeeps(s: State, step: Step)
    requires CountersOk(s) && LedgerOk(s) && Enabled(s, step) && FallbackGroup(step)
    ensures CountersOk(Apply(s, step)) && LedgerOk(Apply(s, step))
  {
    hide LedgerOk, CountersOk, Apply, Enabled;
    FallbackCounters(s, step);
    FallbackLedger(s, step);
  }

  lemma CounterFrame(s: State, s': State)
    requires CountersOk(s) && s'.wg == s.wg && s'.worker == s.worker && s'.live == s.live && s'.sending == s.sending
    requires s'.tokens == s.tokens && s'.spawned == s.spawned && s'.queue == s.queue && s'.calls == s.calls
    requires s'.configured == s.configured && (s.queueClosed ==> s'.queueClosed)
    ensures CountersOk(s')
  {
  }

  lemma CloseKeeps(s: State, step: Step)
    requires LockOk(s) && CountersOk(s) && LedgerOk(s) && Enabled(s, step) && CloseGroup(step)
    ensures CountersOk(Apply(s, step)) && LedgerOk(Apply(s, step))
  {
    hide LedgerOk, CountersOk, Move;
    LedgerFrame(s, Apply(s, step));
    CounterFrame(s, Apply(s, step));
  }

  predicate CallGroup(step: Step) { !CloseGroup(step) && !WorkerGroup(step) && !FallbackGroup(step) }

  lemma SpawnCounters(s: State, n: nat)
    requires CountersOk(s) && Enabled(s, Spawn(n))
    ensures CountersOk(Apply(s, Spawn(n)))
  {
  }

  lemma TrySemCounters(s: State, n: nat)
    requires CountersOk(s) && At(s, n, Full) && n !in s.live
    ensures CountersOk(Move(s, n, Holding).(tokens := s.tokens + {n})) || |s.tokens| >= TOKENS
    ensures CountersOk(Move(s, n, Unlocking).(dropped := s.dropped + {n}))
  {
  }

  lemma FullNotLive(s: State, n: nat)
    requires CountersOk(s) && LedgerOk(s) && At(s, n, Full)
    ensures n !in s.live
  {
    hide NoDup;
  }

  lemma CallCounters(s: State, step: Step)
    requires CountersOk(s) && LedgerOk(s) && LockOk(s) && Enabled(s, step) && CallGroup(step)
    ensures CountersOk(Apply(s, step))
  {
    if step.Spawn? { hide Apply, Enabled; SpawnCounters(s, step.n); }
    else if step.TrySem? {
      hide CountersOk, LedgerOk, LockOk;
      FullNotLive(s, step.n);
      TrySemCounters(s, step.n);
    }
    else { OtherCallCounters(s, step); }
  }

  lemma OtherCallCounters(s: State, step: Step)
    requires CountersOk(s) && LockOk(s) && Enabled(s, step) && CallGroup(step) && !step.Spawn? && !step.TrySem?
    ensures CountersOk(Apply(s, step))
  {
    hide RunClose;
    if step.TryQueue? {
      assert !s.closed && !s.queueClosed;
      hide LockOk;
    } else {
      hide LockOk;
    }
  }

  lemma QueueLedger(s: State, n: nat)
    requires LedgerOk(s) && At(s, n, Checked)
    ensures LedgerOk(Move(s, n, Unlocking).(queue := s.queue + [n], viaQueue := s.viaQueue + [n]))
  {
  }

  /** Calls that have not decided may move on without leaving a trace in the ledger. */
  lemma UndecidedLedger(s: State, n: nat, pc: CallPc)
    requires LedgerOk(s) && !Decided(pc) && (n in s.calls ==> !Decided(s.calls[n]))
    ensures LedgerOk(Move(s, n, pc))
  {
    hide NoDup, InHand;
  }

  lemma TryQueueLedger(s: State, n: nat)
    requires LockOk(s) && LedgerOk(s) && Enabled(s, TryQueue(n))
    ensures LedgerOk(Apply(s, TryQueue(n)))
  {
    assert !s.queueClosed;
    hide LedgerOk, LockOk;
    QueueLedger(s, n);
    UndecidedLedger(s, n, Full);
  }

  lemma DropLedger(s: State, n: nat)
    requires LedgerOk(s) && n in s.calls && !Decided(s.calls[n])
    ensures LedgerOk(Move(s, n, Unlocking).(dropped := s.dropped + {n}))
  {
    hide NoDup, InHand;
  }

  lemma SpawnLedger(s: State, n: nat)
    requires LedgerOk(s) && n in s.calls && !Decided(s.calls[n])
    ensures LedgerOk(Move(s, n, Unlocking).(spawned := s.spawned + {n}))
  {
    hide NoDup, InHand;
  }

  lemma DoneLedger(s: State, n: nat)
    requires LedgerOk(s) && n in s.calls && Decided(s.calls[n])
    ensures LedgerOk(Move(s, n, Done))
  {
    hide NoDup, InHand;
  }

  lemma OtherCallLedger(s: State, step: Step)
    requires LedgerOk(s) && Enabled(s, step) && CallGroup(step) && !step.TryQueue?
    ensures LedgerOk(Apply(s, step))
  {
    hide LedgerOk, RunClose;
    var n, s' := step.n, Apply(s, step);
    match step
    case Begin(_) => UndecidedLedger(s, n, WantLock);
    case RLock(_) => UndecidedLedger(s, n, Locked); LedgerFrame(Move(s, n, Locked), s');
    case Check(_) => if s.closed { DropLedger(s, n); } else { UndecidedLedger(s, n, Checked); }
    case TrySem(_) =>
      if |s.tokens| < TOKENS { UndecidedLedger(s, n, Holding); LedgerFrame(Move(s, n, Holding), s'); }
      else { DropLedger(s, n); }
    case Spawn(_) =>
      SpawnLedger(s, n);
      LedgerFrame(Move(s, n, Unlocking).(spawned := s.spawned + {n}), s');
    case RUnlock(_) => DoneLedger(s, n); LedgerFrame(Move(s, n, Done), s');
  }

  lemma CallLedger(s: State, step: Step)
    requires LockOk(s) && LedgerOk(s) && Enabled(s, step) && CallGroup(step)
    ensures LedgerOk(Apply(s, step))
  {
    hide Apply, Enabled, LockOk, LedgerOk;
    if step.TryQueue? { TryQueueLedger(s, step.n); } else { OtherCallLedger(s, step); }
  }

  lemma StepKeeps(s: State, step: Step)
    requires Inv(s) && Enabled(s, step)
    ensures Inv(Apply(s, step))
  {
    hide LockOk, OnceOk, CountersOk, LedgerOk, Apply, Enabled;
    LockKeeps(s, step);
    OnceKeeps(s, step);
    if WorkerGroup(step) { WorkerKeeps(s, step); }
    else if FallbackGroup(step) { FallbackKeeps(s, step); }
    else if CloseGroup(step) { CloseKeeps(s, step); }
    else { CallCounters(s, step); CallLedger(s, step); }
  }

  lemma {:induction false} ExecKeeps(s: State, steps: seq<Step>)
    requires Inv(s) && IsExec(s, steps)
    ensures Inv(Final(s, steps))
    decreases |steps|
  {
    hide Inv, Apply, Enabled;
    if steps != [] {
      StepKeeps(s, steps[0]);
      ExecKeeps(Apply(s, steps[0]), steps[1..]);
    }
  }

  /** Every reachable state satisfies the invariant. */
  lemma ReachableInv(s: State, steps: seq<Step>, configured: bool)
    requires Reachable(s, steps, configured)
    ensures Inv(s)
  {
    ExecKeeps(Init(configured), steps);
  }

  // ---- safety -------------------------------------------------------------------------

  /** No send and no second close ever hits a closed queue, no Add happens once Close has begun to
      wait, and the wait group counts the worker and the live fallback goroutines. */
  lemma NoMisuse(s: State, steps: seq<Step>, configured: bool)
    requires Reachable(s, steps, configured)
    ensures !s.panicked && !s.lateAdd
    ensures s.wg == (if s.worker.Exited? then 0 else 1) + |s.live|
    ensures |s.queue| <= QUEUE && |s.tokens| <= TOKENS
    ensures forall n :: n in s.tokens ==> n in s.live || At(s, n, Holding)
  {
    ReachableInv(s, steps, configured);
  }

  function Ways(s: State, n: nat): nat {
    (if n in s.workerSent then 1 else 0) + (if n in InHand(s.worker) then 1 else 0)
    + (if n in s.queue then 1 else 0) + (if n in s.spawned then 1 else 0) + (if n in s.dropped then 1 else 0)
  }

  /** Conservation: the event of a call that has decided is in exactly one place (sent by the worker,
      in its hand, queued, given to a fallback, dropped), that of any other call in none; no event
      occurs twice, and the queue is served in the order in which it was entered. */
  lemma Conservation(s: State, steps: seq<Step>, configured: bool, n: nat)
    requires Reachable(s, steps, configured)
    ensures Ways(s, n) == if n in s.calls && Decided(s.calls[n]) then 1 else 0
    ensures NoDup(s.workerSent + InHand(s.worker) + s.queue) && s.workerSent <= s.viaQueue
    ensures s.sending <= s.live <= s.spawned
  {
    ReachableInv(s, steps, configured);
    var a, b, c := s.workerSent, InHand(s.worker), s.queue;
    var v := s.viaQueue;
    assert n in v <==> n in a || n in b || n in c;
    assert forall i :: 0 <= i < |a| ==> v[i] == a[i];
    assert forall i :: 0 <= i < |b| ==> v[|a| + i] == b[i];
    assert forall i :: 0 <= i < |c| ==> v[|a| + |b| + i] == c[i];
  }

  ghost predicate Closed(s: State) {
    && s.closed && s.phase.Finished? && s.queue == [] && s.worker.Exited?
    && s.live == {} && s.tokens == {} && s.sending == {}
  }

  lemma FinishedIsClosed(s: State)
    requires Inv(s) && s.phase.Finished?
    ensures Closed(s)
  {
    hide LedgerOk;
    assert s.live == {};
  }

  lemma ClosedStep(s: State, step: Step)
    requires Inv(s) && s.phase.Finished? && Enabled(s, step)
    ensures var s' := Apply(s, step);
      s'.phase.Finished? && s'.viaQueue == s.viaQueue && s'.workerSent == s.workerSent
      && s'.spawned == s.spawned && s.dropped <= s'.dropped
      && (forall c :: c in s.returned ==> c in s'.returned)
  {
    hide LedgerOk;
    FinishedIsClosed(s);
  }

  /** Main result: when any Close call has returned, the queue is empty and nothing is in flight;
      from then on nothing more is queued or sent, and an enqueue call can only drop its event. */
  lemma {:induction false} AfterClose(s: State, steps: seq<Step>, c: nat)
    requires Inv(s) && IsExec(s, steps) && c in s.returned
    ensures var t := Final(s, steps);
      Closed(t) && t.viaQueue == s.viaQueue && t.workerSent == s.workerSent
      && t.spawned == s.spawned && s.dropped <= t.dropped
    decreases |steps|
  {
    assert s.phase.Finished?;
    FinishedIsClosed(s);
    hide Inv, Apply, Enabled;
    if steps != [] {
      StepKeeps(s, steps[0]);
      ClosedStep(s, steps[0]);
      AfterClose(Apply(s, steps[0]), steps[1..], c);
    }
  }

  // ---- nothing gets stuck ---------------------------------------------------------------

  predicate Internal(step: Step) { !step.Begin? && !step.CallClose? }

  lemma WaitGroupMoves(s: State)
    requires Inv(s) && s.queueClosed && s.wg != 0
    ensures exists step :: Internal(step) && Enabled(s, step)
  {
    if !s.worker.Exited? {
      match s.worker
      case Ranging => if s.queue == [] { assert Enabled(s, WorkerLeave); } else { assert Enabled(s, WorkerTake); }
      case Sending(_) => assert Enabled(s, WorkerSend);
      case Left => assert Enabled(s, WorkerDone);
    } else {
      assert s.live != {};
      var n :| n in s.live;
      if n in s.sending { assert Enabled(s, FallbackSend(n)); }
      else if n in s.tokens { assert Enabled(s, FallbackRelease(n)); }
      else { assert Enabled(s, FallbackDone(n)); }
    }
  }

  lemma CallMoves(s: State, n: nat)
    requires Inv(s) && n in s.calls && InsideLock(s.calls[n])
    ensures exists step :: Internal(step) && Enabled(s, step)
  {
    match s.calls[n]
    case Locked => assert Enabled(s, Check(n));
    case Checked => assert Enabled(s, TryQueue(n));
    case Full => assert Enabled(s, TrySem(n));
    case Holding => assert Enabled(s, Spawn(n));
    case Unlocking => assert Enabled(s, RUnlock(n));
  }

  lemma CloseMoves(s: State)
    requires Inv(s) && !s.phase.Fresh? && !s.phase.Finished?
    ensures exists step :: Internal(step) && Enabled(s, step)
  {
    if s.phase.WantWrite? && s.readers != {} {
      var n :| n in s.readers;
      CallMoves(s, n);
    } else if s.phase.Waiting? && s.wg != 0 {
      WaitGroupMoves(s);
    } else {
      assert Enabled(s, CloseStep);
    }
  }

  /** Given that MQ publishing returns, while an enqueue or Close call has not returned there is
      always a step that can be taken. */
  lemma NeverStuck(s: State, steps: seq<Step>, configured: bool, n: nat)
    requires Reachable(s, steps, configured)
    requires (n in s.calls && !s.calls[n].Done?) || s.runner == Some(n) || n in s.blocked
    ensures exists step :: Internal(step) && Enabled(s, step)
  {
    ReachableInv(s, steps, configured);
    if !s.phase.Fresh? && !s.phase.Finished? {
      CloseMoves(s);
    } else if n in s.calls && !s.calls[n].Done? {
      if s.calls[n].WantLock? { assert Enabled(s, RLock(n)); } else { CallMoves(s, n); }
    } else {
      assert Enabled(s, Unblock(n));
    }
  }

  // ---- Close's wait ends ------------------------------------------------------------------

  function WorkerWork(w: WorkerPc): nat {
    match w case Ranging => 2 case Sending(_) => 3 case Left => 1 case Exited => 0
  }

  /** What Close still waits for: two steps for each queued event, the worker's way out, three
      steps for each fallback. */
  function Work(s: State): nat { 2 * |s.queue| + WorkerWork(s.worker) + |s.sending| + |s.tokens| + |s.live| }

  /** While Close waits, every step of the worker or a fallback brings the work down, and
      nothing brings it up, whatever enqueue and Close calls still do. */
  lemma WaitProgress(s: State, step: Step)
    requires Inv(s) && s.phase.Waiting? && Enabled(s, step)
    ensures WorkerGroup(step) || FallbackGroup(step) ==> Work(Apply(s, step)) < Work(s)
    ensures Work(Apply(s, step)) <= Work(s)
    ensures Apply(s, step).phase.Waiting? || Apply(s, step).phase.Finished?
  {
    hide LedgerOk;
  }

  ghost function Drains(steps: seq<Step>): nat {
    if steps == [] then 0
    else (if WorkerGroup(steps[0]) || FallbackGroup(steps[0]) then 1 else 0) + Drains(steps[1..])
  }

  lemma ClosedHasNoDrain(s: State, step: Step)
    requires Inv(s) && s.phase.Finished? && Enabled(s, step)
    ensures !WorkerGroup(step) && !FallbackGroup(step)
    ensures Work(s) == 0
  {
    FinishedIsClosed(s);
  }

  /** From the moment Close waits, at most Work(s) steps of the worker and the fallbacks remain. */
  lemma {:induction false} WaitBound(s: State, steps: seq<Step>)
    requires Inv(s) && (s.phase.Waiting? || s.phase.Finished?) && IsExec(s, steps)
    ensures Drains(steps) + Work(Final(s, steps)) <= Work(s)
    decreases |steps|
  {
    hide Inv, Apply, Enabled, Work, WorkerGroup, FallbackGroup;
    if steps != [] {
      StepKeeps(s, steps[0]);
      if s.phase.Waiting? {
        WaitProgress(s, steps[0]);
      } else {
        ClosedHasNoDrain(s, steps[0]);
        ClosedStep(s, steps[0]);
        WorkZero(Apply(s, steps[0]));
      }
      WaitBound(Apply(s, steps[0]), steps[1..]);
    }
  }

  lemma WorkZero(s: State)
    requires Inv(s) && s.phase.Finished?
    ensures Work(s) == 0
  {
    FinishedIsClosed(s);
  }
}
