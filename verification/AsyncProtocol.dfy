/** Asynchronous subscriptions of bus.go as a protocol: any number of subscriptions with their
    workers and context watchers, publishers, Unsubscribe callers and Close calls, interleaved
    step by step. A critical section is one step, except the pass of Close over the residual
    channels, which holds the lock while publishers that have left theirs go on sending. */
module AsyncProtocol {
  import opened Wrappers
  import opened Wildcard
  import opened Workers

  const CAPACITY := 64

  datatype Event = Event(id: nat, topic: string)

  datatype Chan = Chan(buf: seq<Event>, closed: bool, taken: seq<Event>)

  datatype WorkerPc = Selecting | Handling | Exited

  /** The goroutine that waits for the parent context or the subscription's own.
      Polling has not reached its select yet; Skipped took the branch that does not unsubscribe. */
  datatype WatcherPc = Unborn | Polling | Parked | Woken | Called | Skipped

  /** The body of the Once in Unsubscribe, by the statement it is about to run. */
  datatype Phase = Fresh | Cancelling | Waiting | Removing | Closing | Untracking | Finished

  datatype Caller = User(n: nat) | Watcher | Loop(closer: nat, k: nat)

  /** `raw` is a channel from Subscribe, without workers; `wanted` is the concurrency.
      `late` records that trackSub ran after the subscription had been torn down. */
  datatype SubState = SubState(
    topic: string, raw: bool, wanted: nat,
    ch: Chan, ctxDone: bool, subDone: bool,
    workers: seq<WorkerPc>, wg: int, watcher: WatcherPc, tracked: bool, late: bool,
    phase: Phase, runner: Option<Caller>, blocked: set<Caller>, returned: set<Caller>)

  datatype Receipt = Receipt(sub: nat, event: Event, queued: bool)

  datatype Dispatch = Dispatch(event: Event, targets: seq<nat>, pos: nat)

  datatype CloserPc =
    | Calling(captured: seq<nat>, k: nat)
    | WantLock(captured: seq<nat>)
    | Sweeping(captured: seq<nat>, k: nat)
    | Done(captured: seq<nat>)

  /** `flat` is the index as its flat list, `mu` the Close call that holds the write lock. */
  datatype State = State(
    subs: map<nat, SubState>, next: nat, flat: seq<nat>, active: seq<nat>, mu: Option<nat>,
    closers: map<nat, CloserPc>, dispatches: map<nat, Dispatch>, log: seq<Receipt>)

  datatype Step =
    | Subscribe(topic: string, raw: bool, wanted: nat)
    | SpawnWorker(x: nat)
    | SpawnWatcher(x: nat)
    | Track(x: nat)
    | CancelParent(x: nat)
    | Propagate(x: nat)
    | Poll(x: nat, parent: bool)
    | WatcherCall(x: nat)
    | UserCall(x: nat, n: nat)
    | OnceStep(x: nat)
    | Unblock(x: nat, who: Caller)
    | Take(x: nat, w: nat)
    | Finish(x: nat, w: nat)
    | Exit(x: nat, w: nat)
    | RawTake(x: nat)
    | RawClose(x: nat)
    | RawRemove(x: nat)
    | Start(d: nat, event: Event, targets: seq<nat>)
    | Deliver(d: nat)
    | CloseStart(c: nat)
    | LoopCall(c: nat)
    | LoopNext(c: nat)
    | Lock(c: nat)
    | Sweep(c: nat)
    | Unlock(c: nat)

  // ---- pieces of steps ------------------------------------------------------------

  predicate NoDup(s: seq<nat>) { forall i, j :: 0 <= i < j < |s| ==> s[i] != s[j] }

  function Without(s: seq<nat>, x: nat): (r: seq<nat>)
    ensures forall y :: y in r ==> y in s
    ensures NoDup(s) ==> NoDup(r) && x !in r
    ensures forall y :: y in s && y != x ==> y in r
  {
    if s == [] then []
    else if s[0] == x then s[1..]
    else
      var rest := Without(s[1..], x);
      assert NoDup(s) ==> NoDup(s[1..]) && s[0] !in s[1..];
      [s[0]] + rest
  }

  function NewSub(topic: string, raw: bool, wanted: nat): SubState {
    SubState(topic, raw, wanted, Chan([], false, []), false, false, [], 0, Unborn, raw, false, Fresh, None, {}, {})
  }

  predicate Terminal(u: SubState) { u.subDone || (u.ch.closed && u.ch.buf == []) }

  /** Once.Do: the first caller runs the body, later ones wait for it or return at once. */
  function Call(u: SubState, who: Caller): SubState {
    if u.phase.Fresh? then u.(phase := Cancelling, runner := Some(who))
    else if u.phase.Finished? then u.(returned := u.returned + {who})
    else u.(blocked := u.blocked + {who})
  }

  predicate HasCalled(u: SubState, who: Caller) {
    u.runner == Some(who) || who in u.blocked || who in u.returned
  }

  /** The own context of the subscription becomes done; a parked watcher sees only that one. */
  function DoneSub(u: SubState): SubState {
    u.(subDone := true, watcher := if u.watcher.Parked? then Skipped else u.watcher)
  }

  function Advance(u: SubState): SubState {
    match u.phase
    case Cancelling => DoneSub(u).(phase := Waiting)
    case Waiting => u.(phase := Removing)
    case Removing => u.(phase := Closing)
    case Closing => u.(phase := Untracking, ch := u.ch.(closed := true))
    case Untracking =>
      u.(phase := Finished, runner := None,
         returned := u.returned + if u.runner.Some? then {u.runner.value} else {})
    case _ => u
  }

  /** sendSafe: a full or a closed channel refuses the event. */
  predicate Accepts(ch: Chan) { !ch.closed && |ch.buf| < CAPACITY }

  function Put(s: State, x: nat, u: SubState): State { s.(subs := s.subs[x := u]) }

  function TakeHead(u: SubState): SubState
    requires u.ch.buf != []
  {
    u.(ch := u.ch.(buf := u.ch.buf[1..], taken := u.ch.taken + [u.ch.buf[0]]))
  }

  // ---- the steps ------------------------------------------------------------------

  predicate WorkerAt(s: State, x: nat, w: nat, pc: WorkerPc) {
    x in s.subs && w < |s.subs[x].workers| && s.subs[x].workers[w] == pc
  }

  predicate Enabled(s: State, step: Step) {
    match step
    case Subscribe(_, raw, wanted) => s.mu.None? && (raw ==> wanted == 0)
    case SpawnWorker(x) =>
      x in s.subs && !s.subs[x].raw && s.subs[x].watcher.Unborn? && |s.subs[x].workers| < s.subs[x].wanted
    case SpawnWatcher(x) =>
      x in s.subs && !s.subs[x].raw && s.subs[x].watcher.Unborn? && |s.subs[x].workers| == s.subs[x].wanted
    case Track(x) => x in s.subs && !s.subs[x].raw && !s.subs[x].watcher.Unborn? && !s.subs[x].tracked
    case CancelParent(x) => x in s.subs && !s.subs[x].ctxDone
    case Propagate(x) => x in s.subs && s.subs[x].ctxDone && !s.subs[x].subDone
    case Poll(x, parent) =>
      x in s.subs && s.subs[x].watcher.Polling? && (parent ==> s.subs[x].ctxDone)
      && (!parent ==> s.subs[x].subDone || !s.subs[x].ctxDone)
    case WatcherCall(x) => x in s.subs && s.subs[x].watcher.Woken?
    case UserCall(x, n) => x in s.subs && !s.subs[x].raw && s.subs[x].tracked && !HasCalled(s.subs[x], User(n))
    case OnceStep(x) =>
      x in s.subs && !s.subs[x].phase.Fresh? && !s.subs[x].phase.Finished?
      && (s.subs[x].phase.Waiting? ==> s.subs[x].wg == 0)
      && (s.subs[x].phase.Removing? ==> s.mu.None?)
    case Unblock(x, who) => x in s.subs && s.subs[x].phase.Finished? && who in s.subs[x].blocked
    case Take(x, w) => WorkerAt(s, x, w, Selecting) && s.subs[x].ch.buf != []
    case Finish(x, w) => WorkerAt(s, x, w, Handling)
    case Exit(x, w) => WorkerAt(s, x, w, Selecting) && Terminal(s.subs[x])
    case RawTake(x) => x in s.subs && s.subs[x].raw && s.subs[x].ch.buf != []
    case RawClose(x) => x in s.subs && s.subs[x].raw && !s.subs[x].ch.closed
    case RawRemove(x) => x in s.subs && s.subs[x].raw && s.mu.None?
    case Start(d, event, targets) =>
      d !in s.dispatches && s.mu.None? && NoDup(targets)
      && (forall x :: x in targets ==> x in s.flat)
      && (forall x :: x in s.flat ==> x in s.subs && (x in targets <==> Receives(s.subs[x].topic, event.topic)))
    case Deliver(d) =>
      d in s.dispatches && s.dispatches[d].pos < |s.dispatches[d].targets|
      && s.dispatches[d].targets[s.dispatches[d].pos] in s.subs
    case CloseStart(c) => c !in s.closers
    case LoopCall(c) =>
      c in s.closers && s.closers[c].Calling? && s.closers[c].k < |s.closers[c].captured|
      && (var x := s.closers[c].captured[s.closers[c].k];
          x in s.subs && !HasCalled(s.subs[x], Loop(c, s.closers[c].k)))
    case LoopNext(c) =>
      c in s.closers && s.closers[c].Calling?
      && (s.closers[c].k < |s.closers[c].captured| ==>
            var x := s.closers[c].captured[s.closers[c].k];
            x in s.subs && Loop(c, s.closers[c].k) in s.subs[x].returned)
    case Lock(c) => c in s.closers && s.closers[c].WantLock? && s.mu.None?
    case Sweep(c) =>
      c in s.closers && s.closers[c].Sweeping? && s.closers[c].k < |s.flat| && s.flat[s.closers[c].k] in s.subs
    case Unlock(c) => c in s.closers && s.closers[c].Sweeping? && s.closers[c].k == |s.flat|
  }

  function Apply(s: State, step: Step): State
    requires Enabled(s, step)
  {
    match step
    case Subscribe(topic, raw, wanted) =>
      s.(subs := s.subs[s.next := NewSub(topic, raw, wanted)], next := s.next + 1, flat := s.flat + [s.next])
    case SpawnWorker(x) =>
      var u := s.subs[x]; Put(s, x, u.(workers := u.workers + [Selecting], wg := u.wg + 1))
    case SpawnWatcher(x) => Put(s, x, s.subs[x].(watcher := Polling))
    case Track(x) =>
      Put(s, x, s.subs[x].(tracked := true, late := s.subs[x].phase.Finished?)).(active := s.active + [x])
    case CancelParent(x) =>
      var u := s.subs[x];
      Put(s, x, u.(ctxDone := true, watcher := if u.watcher.Parked? then Woken else u.watcher))
    case Propagate(x) => Put(s, x, DoneSub(s.subs[x]))
    case Poll(x, parent) =>
      var u := s.subs[x];
      Put(s, x, u.(watcher := if parent then Woken else if u.subDone then Skipped else Parked))
    case WatcherCall(x) => Put(s, x, Call(s.subs[x], Watcher).(watcher := Called))
    case UserCall(x, n) => Put(s, x, Call(s.subs[x], User(n)))
    case OnceStep(x) =>
      var s' := Put(s, x, Advance(s.subs[x]));
      if s.subs[x].phase.Removing? then s'.(flat := Without(s.flat, x))
      else if s.subs[x].phase.Untracking? then s'.(active := Without(s.active, x))
      else s'
    case Unblock(x, who) =>
      Put(s, x, s.subs[x].(blocked := s.subs[x].blocked - {who}, returned := s.subs[x].returned + {who}))
    case Take(x, w) =>
      var u := TakeHead(s.subs[x]); Put(s, x, u.(workers := u.workers[w := Handling]))
    case Finish(x, w) => Put(s, x, s.subs[x].(workers := s.subs[x].workers[w := Selecting]))
    case Exit(x, w) =>
      Put(s, x, s.subs[x].(workers := s.subs[x].workers[w := Exited], wg := s.subs[x].wg - 1))
    case RawTake(x) => Put(s, x, TakeHead(s.subs[x]))
    case RawClose(x) => Put(s, x, s.subs[x].(ch := s.subs[x].ch.(closed := true)))
    case RawRemove(x) => s.(flat := Without(s.flat, x))
    case Start(d, event, targets) => s.(dispatches := s.dispatches[d := Dispatch(event, targets, 0)])
    case Deliver(d) =>
      var disp := s.dispatches[d];
      var x := disp.targets[disp.pos];
      var ch := s.subs[x].ch;
      var ok := Accepts(ch);
      Put(s, x, s.subs[x].(ch := if ok then ch.(buf := ch.buf + [disp.event]) else ch))
        .(dispatches := s.dispatches[d := disp.(pos := disp.pos + 1)],
          log := s.log + [Receipt(x, disp.event, ok)])
    case CloseStart(c) => s.(closers := s.closers[c := Calling(s.active, 0)], active := [])
    case LoopCall(c) =>
      var x := s.closers[c].captured[s.closers[c].k];
      Put(s, x, Call(s.subs[x], Loop(c, s.closers[c].k)))
    case LoopNext(c) =>
      var pc := s.closers[c];
      s.(closers := s.closers[c := if pc.k < |pc.captured| then pc.(k := pc.k + 1) else WantLock(pc.captured)])
    case Lock(c) => s.(mu := Some(c), closers := s.closers[c := Sweeping(s.closers[c].captured, 0)])
    case Sweep(c) =>
      var x := s.flat[s.closers[c].k];
      Put(s, x, s.subs[x].(ch := s.subs[x].ch.(closed := true)))
        .(closers := s.closers[c := s.closers[c].(k := s.closers[c].k + 1)])
    case Unlock(c) =>
      s.(mu := None, flat := [], closers := s.closers[c := Done(s.closers[c].captured)])
  }

  ghost predicate Next(s: State, s': State) { exists step :: Enabled(s, step) && s' == Apply(s, step) }

  const INIT := State(map[], 0, [], [], None, map[], map[], [])

  ghost predicate IsRun(run: seq<State>) {
    && |run| > 0 && run[0] == INIT
    && forall i :: 0 <= i < |run| - 1 ==> Next(run[i], run[i + 1])
  }

  // ---- the invariant ----------------------------------------------------------------

  predicate Past(p: Phase) { p.Removing? || p.Closing? || p.Untracking? || p.Finished? }

  ghost predicate AllExited(u: SubState) { forall w :: 0 <= w < |u.workers| ==> u.workers[w].Exited? }

  ghost predicate OnceOk(u: SubState) {
    && (u.phase.Fresh? ==> u.runner.None? && u.blocked == {} && u.returned == {})
    && (!u.phase.Fresh? && !u.phase.Finished? ==> u.runner.Some? && u.returned == {})
    && (u.phase.Finished? ==> u.runner.None?)
    && (u.phase.Finished? ==> u.blocked + u.returned != {})
  }

  ghost predicate WatcherOk(u: SubState) {
    && (u.watcher.Woken? || u.watcher.Called? ==> u.ctxDone)
    && (u.watcher.Skipped? ==> u.subDone)
    && (u.watcher.Parked? ==> !u.ctxDone && !u.subDone)
    && (u.watcher.Called? <==> HasCalled(u, Watcher))
    && (u.subDone ==> u.ctxDone || (!u.phase.Fresh? && !u.phase.Cancelling?))
  }

  ghost predicate LifeOk(u: SubState) {
    && u.wg == Live(u.workers, Exited)
    && |u.workers| <= u.wanted
    && (u.raw ==> u.wanted == 0 && u.watcher.Unborn? && u.phase.Fresh?)
    && (!u.watcher.Unborn? ==> |u.workers| == u.wanted)
    && (u.watcher.Unborn? && !u.raw ==> !u.tracked)
    && (!u.phase.Fresh? ==> !u.watcher.Unborn?)
    && (u.phase.Waiting? || Past(u.phase) ==> u.subDone)
    && (Past(u.phase) ==> u.wg == 0)
    && (u.phase.Untracking? || u.phase.Finished? ==> u.ch.closed)
    && |u.ch.buf| <= CAPACITY
    && (u.late ==> u.phase.Finished?)
  }

  ghost predicate SubOk(u: SubState) { OnceOk(u) && WatcherOk(u) && LifeOk(u) }

  predicate Gone(p: Phase) { p.Closing? || p.Untracking? || p.Finished? }

  /** The events the log says were queued for x, in order. */
  function Queued(log: seq<Receipt>, x: nat): seq<Event> {
    if log == [] then []
    else
      var last := log[|log| - 1];
      Queued(log[..|log| - 1], x) + if last.sub == x && last.queued then [last.event] else []
  }

  ghost predicate LogOk(s: State) {
    && (forall x :: x in s.subs ==> Queued(s.log, x) == s.subs[x].ch.taken + s.subs[x].ch.buf)
    && (forall k :: 0 <= k < |s.log| ==> s.log[k].sub in s.subs)
  }

  ghost predicate IndexOk(s: State) {
    && NoDup(s.flat) && NoDup(s.active)
    && (forall x :: x in s.subs ==> x < s.next)
    && (forall x :: x in s.flat ==> x in s.subs && !Gone(s.subs[x].phase))
    && (forall x :: x in s.active ==> x in s.subs && s.subs[x].tracked && !s.subs[x].raw)
    && (forall x :: x in s.active && s.subs[x].phase.Finished? ==> s.subs[x].late)
  }

  ghost predicate Torn(s: State, x: nat) { x in s.subs && s.subs[x].phase.Finished? }

  ghost predicate CloserOk(s: State, c: nat, pc: CloserPc) {
    && (forall x :: x in pc.captured ==> x in s.subs && s.subs[x].tracked && !s.subs[x].raw)
    && (pc.Calling? ==> pc.k <= |pc.captured| && forall j :: 0 <= j < pc.k ==> Torn(s, pc.captured[j]))
    && (!pc.Calling? ==> forall j :: 0 <= j < |pc.captured| ==> Torn(s, pc.captured[j]))
    && (pc.Sweeping? <==> s.mu == Some(c))
    && (pc.Sweeping? ==> pc.k <= |s.flat|)
    && (pc.Sweeping? ==> forall j :: 0 <= j < pc.k ==> s.flat[j] in s.subs && s.subs[s.flat[j]].ch.closed)
  }

  ghost predicate ClosersOk(s: State) {
    && (forall c :: c in s.closers ==> CloserOk(s, c, s.closers[c]))
    && (s.mu.Some? ==> s.mu.value in s.closers)
  }

  ghost predicate DispatchesOk(s: State) {
    forall d :: d in s.dispatches ==>
      s.dispatches[d].pos <= |s.dispatches[d].targets| && forall x :: x in s.dispatches[d].targets ==> x in s.subs
  }

  ghost predicate Inv(s: State) {
    && (forall x :: x in s.subs ==> SubOk(s.subs[x]))
    && LogOk(s) && IndexOk(s) && ClosersOk(s) && DispatchesOk(s)
  }

  // ---- preservation: one record -----------------------------------------------------

  /** What a step may do to the record of one subscription as the rest of the state sees it. */
  ghost predicate Evolves(u: SubState, u': SubState) {
    && u'.topic == u.topic && u'.raw == u.raw && u'.wanted == u.wanted
    && (u.tracked ==> u'.tracked)
    && (u.ctxDone ==> u'.ctxDone)
    && (u.ch.closed ==> u'.ch.closed)
    && (u.phase.Finished? ==> u'.phase.Finished?)
    && (u.late ==> u'.late)
  }

  ghost predicate SameEvents(u: SubState, u': SubState) {
    u'.ch.taken + u'.ch.buf == u.ch.taken + u.ch.buf
  }

  lemma CallOk(u: SubState, who: Caller, u': SubState)
    requires SubOk(u) && !HasCalled(u, who) && !u.raw && !u.watcher.Unborn?
    requires who.Watcher? ==> u.watcher.Woken?
    requires u' == Call(u, who).(watcher := if who.Watcher? then Called else u.watcher)
    ensures SubOk(u') && Evolves(u, u') && u'.ch == u.ch
  {
  }

  lemma AdvanceOk(u: SubState)
    requires SubOk(u) && (u.phase.Waiting? ==> u.wg == 0)
    ensures SubOk(Advance(u)) && Evolves(u, Advance(u)) && SameEvents(u, Advance(u))
  {
    hide AllExited, NoDup;
    if u.phase.Cancelling? { assert Advance(u) == DoneSub(u).(phase := Waiting); }
  }

  lemma WorkerOk(u: SubState, w: nat, pc: WorkerPc, u': SubState)
    requires SubOk(u) && w < |u.workers| && !u.workers[w].Exited?
    requires u' == u.(workers := u.workers[w := pc], wg := if pc.Exited? then u.wg - 1 else u.wg)
    ensures SubOk(u') && Evolves(u, u')
  {
    LiveUpdate(u.workers, w, pc, Exited);
  }

  lemma WorkerStepOk(s: State, step: Step)
    requires Enabled(s, step) && (step.Take? || step.Finish? || step.Exit?) && SubOk(s.subs[step.x])
    ensures var u, u' := s.subs[step.x], Apply(s, step).subs[step.x];
      SubOk(u') && Evolves(u, u') && SameEvents(u, u') && u'.phase == u.phase
  {
    var u := s.subs[step.x];
    var v := if step.Take? then TakeHead(u) else u;
    assert SubOk(v) && SameEvents(u, v);
    hide SubOk;
    var pc := if step.Take? then Handling else if step.Finish? then Selecting else Exited;
    WorkerOk(v, step.w, pc, Apply(s, step).subs[step.x]);
  }

  predicate Solo(step: Step) {
    step.SpawnWorker? || step.SpawnWatcher? || step.CancelParent? || step.Propagate? || step.Poll?
    || step.Unblock? || step.Take? || step.Finish? || step.Exit? || step.RawTake? || step.RawClose?
  }

  lemma OtherSoloOk(s: State, step: Step)
    requires Enabled(s, step) && Solo(step) && !step.Take? && !step.Finish? && !step.Exit? && SubOk(s.subs[step.x])
    ensures var u, u' := s.subs[step.x], Apply(s, step).subs[step.x];
      && SubOk(u') && Evolves(u, u') && SameEvents(u, u') && u'.phase == u.phase
      && Apply(s, step) == Put(s, step.x, u')
  {
    if step.SpawnWorker? { LiveAppend(s.subs[step.x].workers, Selecting, Exited); }
  }

  lemma SoloOk(s: State, step: Step)
    requires Enabled(s, step) && Solo(step) && SubOk(s.subs[step.x])
    ensures var u, u' := s.subs[step.x], Apply(s, step).subs[step.x];
      && SubOk(u') && Evolves(u, u') && SameEvents(u, u')
      && u'.phase == u.phase
      && Apply(s, step) == Put(s, step.x, u')
  {
    if step.Take? || step.Finish? || step.Exit? {
      hide SubOk, Evolves, SameEvents;
      WorkerStepOk(s, step);
    } else {
      OtherSoloOk(s, step);
    }
  }

  // ---- preservation: the rest of the state ------------------------------------------

  /** Every record of s is still there and has evolved. */
  ghost predicate Grows(s: State, s': State) {
    forall x :: x in s.subs ==> x in s'.subs && Evolves(s.subs[x], s'.subs[x])
  }

  lemma GrowsSelf(s: State)
    ensures Grows(s, s)
  {
  }

  lemma PutGrows(s: State, x: nat, u: SubState)
    requires x in s.subs && Evolves(s.subs[x], u)
    ensures Grows(s, Put(s, x, u))
  {
  }

  lemma CloserFrame(s: State, s': State)
    requires ClosersOk(s) && Grows(s, s')
    requires s'.closers == s.closers && s'.mu == s.mu && (s.mu.Some? ==> s'.flat == s.flat)
    ensures ClosersOk(s')
  {
    forall c | c in s'.closers ensures CloserOk(s', c, s'.closers[c]) {
      assert CloserOk(s, c, s.closers[c]);
    }
  }

  lemma LogFrame(s: State, s': State)
    requires LogOk(s) && s'.log == s.log && s'.subs.Keys == s.subs.Keys
    requires forall x :: x in s.subs ==> SameEvents(s.subs[x], s'.subs[x])
    ensures LogOk(s')
  {
  }

  /** The index may lose entries; what it keeps must not have been removed by its owner. */
  lemma IndexFrame(s: State, s': State)
    requires IndexOk(s) && Grows(s, s') && s'.subs.Keys == s.subs.Keys && s'.next == s.next
    requires NoDup(s'.flat) && forall x :: x in s'.flat ==> x in s.flat && !Gone(s'.subs[x].phase)
    requires NoDup(s'.active) && forall x :: x in s'.active ==> x in s.active
    requires forall x :: x in s'.active && s'.subs[x].phase.Finished? ==> s.subs[x].phase.Finished?
    ensures IndexOk(s')
  {
  }

  lemma DispatchFrame(s: State, s': State)
    requires DispatchesOk(s) && s'.dispatches == s.dispatches && s.subs.Keys <= s'.subs.Keys
    ensures DispatchesOk(s')
  {
  }

  /** Changing one record, but not its events and not the index, keeps the invariant. */
  lemma PutKeeps(s: State, x: nat, u: SubState)
    requires Inv(s) && x in s.subs && SubOk(u) && Evolves(s.subs[x], u) && SameEvents(s.subs[x], u)
    requires Gone(u.phase) ==> Gone(s.subs[x].phase)
    requires u.phase.Finished? ==> s.subs[x].phase.Finished?
    ensures Inv(Put(s, x, u))
  {
    hide SubOk, LogOk, ClosersOk, DispatchesOk;
    var s' := Put(s, x, u);
    PutGrows(s, x, u);
    assert s'.subs.Keys == s.subs.Keys;
    assert ClosersOk(s') by { CloserFrame(s, s'); }
    assert LogOk(s') by { LogFrame(s, s'); }
    assert IndexOk(s') by { IndexFrame(s, s'); }
    assert DispatchesOk(s') by { DispatchFrame(s, s'); }
  }

  lemma SoloKeeps(s: State, step: Step)
    requires Inv(s) && Enabled(s, step) && Solo(step)
    ensures Inv(Apply(s, step))
  {
    assert SubOk(s.subs[step.x]);
    SoloOk(s, step);
    hide SubOk, LogOk, IndexOk, ClosersOk, DispatchesOk, Evolves, SameEvents, Apply;
    PutKeeps(s, step.x, Apply(s, step).subs[step.x]);
  }

  lemma CallKeeps(s: State, x: nat, who: Caller)
    requires Inv(s) && x in s.subs && !HasCalled(s.subs[x], who) && !s.subs[x].raw
    requires !s.subs[x].watcher.Unborn?
    requires who.Watcher? ==> s.subs[x].watcher.Woken?
    ensures Inv(Put(s, x, Call(s.subs[x], who).(watcher := if who.Watcher? then Called else s.subs[x].watcher)))
  {
    var u := s.subs[x];
    assert SubOk(u);
    var u' := Call(u, who).(watcher := if who.Watcher? then Called else u.watcher);
    CallOk(u, who, u');
    PutKeeps(s, x, u');
  }

  lemma OnceKeeps(s: State, x: nat)
    requires Inv(s) && Enabled(s, OnceStep(x))
    ensures Inv(Apply(s, OnceStep(x)))
  {
    hide SubOk, LogOk, IndexOk, ClosersOk, DispatchesOk, Evolves;
    var u, s' := s.subs[x], Apply(s, OnceStep(x));
    assert SubOk(u);
    AdvanceOk(u);
    PutGrows(s, x, Advance(u));
    assert Grows(s, s') && s'.subs.Keys == s.subs.Keys;
    assert ClosersOk(s') by { CloserFrame(s, s'); }
    assert LogOk(s') by { LogFrame(s, s'); }
    assert DispatchesOk(s') by { DispatchFrame(s, s'); }
    OnceIndex(s, x);
  }

  lemma OnceIndex(s: State, x: nat)
    requires IndexOk(s) && Enabled(s, OnceStep(x))
    requires Grows(s, Apply(s, OnceStep(x)))
    ensures IndexOk(Apply(s, OnceStep(x)))
  {
    hide SubOk, Evolves;
    IndexFrame(s, Apply(s, OnceStep(x)));
  }

  lemma RawRemoveKeeps(s: State, x: nat)
    requires Inv(s) && s.mu.None?
    ensures Inv(s.(flat := Without(s.flat, x)))
  {
    var s' := s.(flat := Without(s.flat, x));
    assert ClosersOk(s') by { CloserFrame(s, s'); }
    assert IndexOk(s') by { IndexFrame(s, s'); }
  }

  lemma {:induction false} QueuedNone(log: seq<Receipt>, x: nat)
    requires forall k :: 0 <= k < |log| ==> log[k].sub != x
    ensures Queued(log, x) == []
  {
    if log != [] { QueuedNone(log[..|log| - 1], x); }
  }

  lemma NewSubOk(topic: string, raw: bool, wanted: nat)
    requires raw ==> wanted == 0
    ensures SubOk(NewSub(topic, raw, wanted))
  {
  }

  lemma SubscribeIndex(s: State, step: Step)
    requires IndexOk(s) && LogOk(s) && Enabled(s, step) && step.Subscribe?
    ensures IndexOk(Apply(s, step)) && LogOk(Apply(s, step))
  {
    QueuedNone(s.log, s.next);
  }

  lemma SubscribeKeeps(s: State, step: Step)
    requires Inv(s) && Enabled(s, step) && step.Subscribe?
    ensures Inv(Apply(s, step))
  {
    hide SubOk, ClosersOk, DispatchesOk, LogOk;
    var s' := Apply(s, step);
    assert s.next !in s.subs;
    NewSubOk(step.topic, step.raw, step.wanted);
    SubscribeIndex(s, step);
    assert Grows(s, s') by { GrowsSelf(s); }
    assert ClosersOk(s') by { CloserFrame(s, s'); }
    assert DispatchesOk(s') by { DispatchFrame(s, s'); }
  }

  lemma TrackOk(u: SubState, u': SubState)
    requires SubOk(u) && !u.raw && !u.watcher.Unborn? && u' == u.(tracked := true, late := u.phase.Finished?)
    ensures SubOk(u') && Evolves(u, u') && SameEvents(u, u')
  {
  }

  lemma TrackIndex(s: State, x: nat)
    requires IndexOk(s) && x in s.subs && s.subs[x].tracked && !s.subs[x].raw && x !in s.active
    requires s.subs[x].phase.Finished? ==> s.subs[x].late
    ensures IndexOk(s.(active := s.active + [x]))
  {
  }

  lemma TrackKeeps(s: State, x: nat)
    requires Inv(s) && Enabled(s, Track(x))
    ensures Inv(Apply(s, Track(x)))
  {
    var u := s.subs[x];
    var u' := u.(tracked := true, late := u.phase.Finished?);
    assert x !in s.active;
    TrackOk(u, u');
    hide SubOk, LogOk, ClosersOk, DispatchesOk, IndexOk;
    PutKeeps(s, x, u');
    TrackRest(Put(s, x, u'), x);
  }

  lemma TrackRest(s: State, x: nat)
    requires Inv(s) && x in s.subs && s.subs[x].tracked && !s.subs[x].raw && x !in s.active
    requires s.subs[x].phase.Finished? ==> s.subs[x].late
    ensures Inv(s.(active := s.active + [x]))
  {
    hide SubOk, LogOk, ClosersOk, DispatchesOk, IndexOk;
    var s' := s.(active := s.active + [x]);
    TrackIndex(s, x);
    GrowsSelf(s);
    assert Grows(s, s');
    assert LogOk(s') by { LogFrame(s, s'); }
    assert DispatchesOk(s') by { DispatchFrame(s, s'); }
    assert ClosersOk(s') by { CloserFrame(s, s'); }
  }

  lemma StartFrame(s: State, s': State)
    requires LogOk(s) && IndexOk(s) && s' == s.(dispatches := s'.dispatches)
    ensures LogOk(s') && IndexOk(s')
  {
  }

  lemma StartDispatches(s: State, step: Step)
    requires DispatchesOk(s) && IndexOk(s) && Enabled(s, step) && step.Start?
    ensures DispatchesOk(Apply(s, step))
  {
    hide Receives, NoDup;
  }

  lemma StartKeeps(s: State, step: Step)
    requires Inv(s) && Enabled(s, step) && step.Start?
    ensures Inv(Apply(s, step))
  {
    var s' := Apply(s, step);
    hide SubOk, Evolves, ClosersOk, LogOk, IndexOk, DispatchesOk, Receives, NoDup;
    StartFrame(s, s');
    StartDispatches(s, step);
    assert ClosersOk(s') by { assert Grows(s, s') by { GrowsSelf(s); } CloserFrame(s, s'); }
  }

  lemma DeliverKeeps(s: State, d: nat)
    requires Inv(s) && Enabled(s, Deliver(d))
    ensures Inv(Apply(s, Deliver(d)))
  {
    hide LogOk, IndexOk, ClosersOk, SubOk, Evolves, Accepts;
    var s' := Apply(s, Deliver(d));
    var x := s.dispatches[d].targets[s.dispatches[d].pos];
    PushOk(s.subs[x], s.dispatches[d].event, s'.subs[x]);
    PutGrows(s, x, s'.subs[x]);
    assert Grows(s, s') && s'.subs.Keys == s.subs.Keys;
    assert ClosersOk(s') by { CloserFrame(s, s'); }
    assert IndexOk(s') by { DeliverIndex(s, d); }
    assert LogOk(s') by { DeliverLog(s, d); }
  }

  lemma PushOk(u: SubState, e: Event, u': SubState)
    requires SubOk(u) && u' == u.(ch := if Accepts(u.ch) then u.ch.(buf := u.ch.buf + [e]) else u.ch)
    ensures SubOk(u') && Evolves(u, u')
  {
  }

  lemma DeliverIndex(s: State, d: nat)
    requires IndexOk(s) && Enabled(s, Deliver(d)) && Grows(s, Apply(s, Deliver(d)))
    ensures IndexOk(Apply(s, Deliver(d)))
  {
    hide Evolves, Accepts;
    IndexFrame(s, Apply(s, Deliver(d)));
  }

  /** A receipt says queued exactly when the event became the tail of the channel. */
  lemma DeliverLog(s: State, d: nat)
    requires LogOk(s) && Enabled(s, Deliver(d))
    ensures LogOk(Apply(s, Deliver(d)))
  {
    var s' := Apply(s, Deliver(d));
    assert s'.log[..|s.log|] == s.log;
  }

  lemma LoopNextCloser(s: State, c: nat, other: nat)
    requires Enabled(s, LoopNext(c)) && other in s.closers && CloserOk(s, other, s.closers[other])
    requires var pc := s.closers[c];
      pc.k < |pc.captured| ==> Torn(s, pc.captured[pc.k])
    ensures other in Apply(s, LoopNext(c)).closers
    ensures CloserOk(Apply(s, LoopNext(c)), other, Apply(s, LoopNext(c)).closers[other])
  {
  }

  lemma LoopNextClosers(s: State, c: nat)
    requires ClosersOk(s) && Enabled(s, LoopNext(c))
    requires var pc := s.closers[c];
      pc.k < |pc.captured| ==> Torn(s, pc.captured[pc.k])
    ensures ClosersOk(Apply(s, LoopNext(c)))
  {
    var s' := Apply(s, LoopNext(c));
    assert s'.closers.Keys == s.closers.Keys && s'.mu == s.mu;
    hide CloserOk, Torn, Apply;
    forall other | other in s'.closers ensures CloserOk(s', other, s'.closers[other]) {
      LoopNextCloser(s, c, other);
    }
  }

  lemma LoopNextKeeps(s: State, c: nat)
    requires Inv(s) && Enabled(s, LoopNext(c))
    ensures Inv(Apply(s, LoopNext(c)))
  {
    hide LogOk, DispatchesOk, IndexOk, ClosersOk;
    var s', pc := Apply(s, LoopNext(c)), s.closers[c];
    SweepFrame(s, s');
    if pc.k < |pc.captured| { assert SubOk(s.subs[pc.captured[pc.k]]); }
    LoopNextClosers(s, c);
  }

  lemma CloseStartFrame(s: State, s': State)
    requires LogOk(s) && IndexOk(s) && DispatchesOk(s) && s' == s.(closers := s'.closers, active := [])
    ensures LogOk(s') && IndexOk(s') && DispatchesOk(s')
  {
  }

  lemma CloseStartKeeps(s: State, c: nat)
    requires Inv(s) && Enabled(s, CloseStart(c))
    ensures Inv(Apply(s, CloseStart(c)))
  {
    hide SubOk, LogOk, DispatchesOk;
    var s' := Apply(s, CloseStart(c));
    CloseStartFrame(s, s');
    forall c' | c' in s'.closers ensures CloserOk(s', c', s'.closers[c']) {
      if c' != c { assert CloserOk(s, c', s.closers[c']); }
    }
  }

  lemma LockKeeps(s: State, c: nat)
    requires Inv(s) && Enabled(s, Lock(c))
    ensures Inv(Apply(s, Lock(c)))
  {
    hide LogOk, IndexOk, DispatchesOk, SubOk;
    var s' := Apply(s, Lock(c));
    SweepFrame(s, s');
    forall c' | c' in s'.closers ensures CloserOk(s', c', s'.closers[c']) {
      assert CloserOk(s, c', s.closers[c']);
    }
  }

  lemma CloseOk(u: SubState, u': SubState)
    requires SubOk(u) && u' == u.(ch := u.ch.(closed := true))
    ensures SubOk(u') && Evolves(u, u') && SameEvents(u, u')
  {
  }

  /** Moving the program counters of Close calls alone leaves these parts as they were. */
  lemma SweepFrame(s: State, s': State)
    requires LogOk(s) && IndexOk(s) && DispatchesOk(s) && s' == s.(closers := s'.closers, mu := s'.mu)
    ensures LogOk(s') && IndexOk(s') && DispatchesOk(s')
  {
  }

  lemma SweepKeeps(s: State, c: nat)
    requires Inv(s) && Enabled(s, Sweep(c))
    ensures Inv(Apply(s, Sweep(c)))
  {
    hide LogOk, IndexOk, DispatchesOk, ClosersOk;
    var x := s.flat[s.closers[c].k];
    var u := s.subs[x].(ch := s.subs[x].ch.(closed := true));
    CloseOk(s.subs[x], u);
    hide SubOk;
    PutKeeps(s, x, u);
    SweepFrame(Put(s, x, u), Apply(s, Sweep(c)));
    SweepClosers(Put(s, x, u), c);
  }

  lemma SweepClosers(s: State, c: nat)
    requires ClosersOk(s) && Enabled(s, Sweep(c)) && s.subs[s.flat[s.closers[c].k]].ch.closed
    ensures ClosersOk(s.(closers := s.closers[c := s.closers[c].(k := s.closers[c].k + 1)]))
  {
    var s' := s.(closers := s.closers[c := s.closers[c].(k := s.closers[c].k + 1)]);
    forall c' | c' in s'.closers ensures CloserOk(s', c', s'.closers[c']) {
      assert CloserOk(s, c', s.closers[c']);
    }
  }

  lemma UnlockKeeps(s: State, c: nat)
    requires Inv(s) && Enabled(s, Unlock(c))
    ensures Inv(Apply(s, Unlock(c)))
  {
    hide SubOk, LogOk, DispatchesOk;
    var s' := Apply(s, Unlock(c));
    assert LogOk(s') by { LogFrame(s, s'); }
    assert DispatchesOk(s') by { DispatchFrame(s, s'); }
    forall c' | c' in s'.closers ensures CloserOk(s', c', s'.closers[c']) {
      assert CloserOk(s, c', s.closers[c']) && CloserOk(s, c, s.closers[c]);
    }
  }

  lemma LoopCallKeeps(s: State, c: nat)
    requires Inv(s) && Enabled(s, LoopCall(c))
    ensures Inv(Apply(s, LoopCall(c)))
  {
    assert CloserOk(s, c, s.closers[c]);
    var x := s.closers[c].captured[s.closers[c].k];
    assert SubOk(s.subs[x]);
    CallKeeps(s, x, Loop(c, s.closers[c].k));
  }

  lemma CallerKeeps(s: State, step: Step)
    requires Inv(s) && Enabled(s, step) && (step.WatcherCall? || step.UserCall?)
    ensures Inv(Apply(s, step))
  {
    assert SubOk(s.subs[step.x]);
    CallKeeps(s, step.x, if step.WatcherCall? then Watcher else User(step.n));
  }

  /** Every step keeps the invariant. */
  lemma StepKeeps(s: State, step: Step)
    requires Inv(s) && Enabled(s, step)
    ensures Inv(Apply(s, step))
  {
    hide Inv;
    match step
    case Subscribe(_, _, _) => SubscribeKeeps(s, step);
    case Track(x) => TrackKeeps(s, x);
    case WatcherCall(_) => CallerKeeps(s, step);
    case UserCall(_, _) => CallerKeeps(s, step);
    case OnceStep(x) => OnceKeeps(s, x);
    case RawRemove(x) => RawRemoveKeeps(s, x);
    case Start(_, _, _) => StartKeeps(s, step);
    case Deliver(d) => DeliverKeeps(s, d);
    case CloseStart(c) => CloseStartKeeps(s, c);
    case LoopCall(c) => LoopCallKeeps(s, c);
    case LoopNext(c) => LoopNextKeeps(s, c);
    case Lock(c) => LockKeeps(s, c);
    case Sweep(c) => SweepKeeps(s, c);
    case Unlock(c) => UnlockKeeps(s, c);
    case _ => SoloKeeps(s, step);
  }

  predicate Touches(step: Step) {
    step.Track? || step.WatcherCall? || step.UserCall? || step.LoopCall? || step.Deliver? || step.Sweep?
  }

  /** The steps that change the record of one subscription and of no other. */
  predicate Changes(step: Step) { Solo(step) || step.OnceStep? || Touches(step) }

  function Subject(s: State, step: Step): nat
    requires Enabled(s, step)
  {
    match step
    case Deliver(d) => s.dispatches[d].targets[s.dispatches[d].pos]
    case LoopCall(c) => s.closers[c].captured[s.closers[c].k]
    case Sweep(c) => s.flat[s.closers[c].k]
    case SpawnWorker(x) => x
    case SpawnWatcher(x) => x
    case Track(x) => x
    case CancelParent(x) => x
    case Propagate(x) => x
    case Poll(x, _) => x
    case WatcherCall(x) => x
    case UserCall(x, _) => x
    case OnceStep(x) => x
    case Unblock(x, _) => x
    case Take(x, _) => x
    case Finish(x, _) => x
    case Exit(x, _) => x
    case RawTake(x) => x
    case RawClose(x) => x
    case _ => 0
  }

  lemma SubscribeLeaves(s: State, step: Step, x: nat)
    requires Enabled(s, step) && step.Subscribe? && x in s.subs && x < s.next
    ensures x in Apply(s, step).subs && Apply(s, step).subs[x] == s.subs[x]
  {
    hide NewSub;
  }

  lemma SubjectOnly(s: State, step: Step)
    requires Enabled(s, step)
    ensures Changes(step) ==> (
      var x, s' := Subject(s, step), Apply(s, step);
      x in s.subs && x in s'.subs && s'.subs == s.subs[x := s'.subs[x]])
    ensures !Changes(step) && !step.Subscribe? ==> Apply(s, step).subs == s.subs
  {
    hide Enabled, Apply, Subject;
    if Changes(step) { ChangesSubject(s, step); }
    else if !step.Subscribe? { ChangesNone(s, step); }
  }

  lemma ChangesSubject(s: State, step: Step)
    requires Enabled(s, step) && Changes(step)
    ensures var x, s' := Subject(s, step), Apply(s, step);
      x in s.subs && x in s'.subs && s'.subs == s.subs[x := s'.subs[x]]
  {
    if Solo(step) { SoloSubject(s, step); hide Enabled, Apply, Subject; }
    else { hide Accepts, HasCalled, Call, Advance, DoneSub, Without, Receives, NoDup, WorkerAt; }
  }

  lemma SoloSubject(s: State, step: Step)
    requires Enabled(s, step) && Solo(step)
    ensures var x, s' := Subject(s, step), Apply(s, step);
      x in s.subs && x in s'.subs && s'.subs == s.subs[x := s'.subs[x]]
  {
    hide DoneSub, Terminal, TakeHead;
  }

  lemma ChangesNone(s: State, step: Step)
    requires Enabled(s, step) && !Changes(step) && !step.Subscribe?
    ensures Apply(s, step).subs == s.subs
  {
    hide Receives, NoDup, Without;
  }

  lemma OnceRecord(s: State, y: nat)
    requires Enabled(s, OnceStep(y))
    ensures y in s.subs && !s.subs[y].phase.Fresh? && Apply(s, OnceStep(y)).subs == s.subs[y := Advance(s.subs[y])]
  {
  }

  /** Every record evolves at every step. */
  lemma StepGrows(s: State, step: Step)
    requires Inv(s) && Enabled(s, step)
    ensures Grows(s, Apply(s, step))
  {
    SubjectOnly(s, step);
    if Changes(step) {
      assert SubOk(s.subs[Subject(s, step)]);
      SubjectEvolves(s, step);
      hide Apply, Enabled, Evolves, Inv;
      RecordGrows(s, Apply(s, step), Subject(s, step));
    } else {
      hide Apply, Enabled, NewSub;
      GrowsSelf(s);
      if step.Subscribe? { SubscribeGrows(s, step); }
    }
  }

  lemma SubscribeGrows(s: State, step: Step)
    requires IndexOk(s) && Enabled(s, step) && step.Subscribe?
    ensures Grows(s, Apply(s, step))
  {
    hide NewSub, NoDup;
    assert s.next !in s.subs;
  }

  lemma SubjectEvolves(s: State, step: Step)
    requires Enabled(s, step) && Changes(step)
    requires Subject(s, step) in s.subs && Subject(s, step) in Apply(s, step).subs && SubOk(s.subs[Subject(s, step)])
    ensures Evolves(s.subs[Subject(s, step)], Apply(s, step).subs[Subject(s, step)])
  {
    assert LifeOk(s.subs[Subject(s, step)]);
    hide SubOk, LifeOk, Evolves, Apply, Enabled;
    if Solo(step) {
      SoloEvolves(s, step);
    } else if step.OnceStep? {
      OnceEvolves(s, step.x);
    } else {
      TouchEvolves(s, step);
    }
  }

  lemma SoloEvolves(s: State, step: Step)
    requires Enabled(s, step) && Solo(step) && SubOk(s.subs[step.x]) && step.x in Apply(s, step).subs
    ensures Subject(s, step) == step.x && Evolves(s.subs[step.x], Apply(s, step).subs[step.x])
  {
    hide SubOk, Evolves, Apply;
    SoloOk(s, step);
  }

  lemma OnceEvolves(s: State, x: nat)
    requires Enabled(s, OnceStep(x)) && SubOk(s.subs[x]) && x in Apply(s, OnceStep(x)).subs
    ensures Subject(s, OnceStep(x)) == x && Evolves(s.subs[x], Apply(s, OnceStep(x)).subs[x])
  {
    hide SubOk, Evolves, Without, Advance;
    AdvanceOk(s.subs[x]);
  }

  lemma TouchEvolves(s: State, step: Step)
    requires Enabled(s, step) && Touches(step)
    requires Subject(s, step) in s.subs && Subject(s, step) in Apply(s, step).subs && LifeOk(s.subs[Subject(s, step)])
    ensures Evolves(s.subs[Subject(s, step)], Apply(s, step).subs[Subject(s, step)])
  {
    hide Evolves, LifeOk, Apply, Enabled;
    if step.Track? { TrackEvolves(s, step.x); }
    else if step.Deliver? || step.Sweep? { EventEvolves(s, step); }
    else { CallEvolves(s, step); }
  }

  lemma EventEvolves(s: State, step: Step)
    requires Enabled(s, step) && (step.Deliver? || step.Sweep?)
    requires Subject(s, step) in s.subs && Subject(s, step) in Apply(s, step).subs
    ensures Evolves(s.subs[Subject(s, step)], Apply(s, step).subs[Subject(s, step)])
  {
    hide Accepts;
  }

  lemma CalledEvolves(u: SubState, who: Caller)
    ensures Evolves(u, Call(u, who)) && Evolves(u, Call(u, who).(watcher := Called))
  {
  }

  lemma CallEvolves(s: State, step: Step)
    requires Enabled(s, step) && (step.WatcherCall? || step.UserCall? || step.LoopCall?)
    requires Subject(s, step) in s.subs && Subject(s, step) in Apply(s, step).subs
    ensures Evolves(s.subs[Subject(s, step)], Apply(s, step).subs[Subject(s, step)])
  {
    hide HasCalled, Evolves, Call;
    var x := Subject(s, step);
    if step.LoopCall? { CalledEvolves(s.subs[x], Loop(step.c, s.closers[step.c].k)); }
    else { CalledEvolves(s.subs[x], if step.WatcherCall? then Watcher else User(step.n)); }
  }

  lemma TrackEvolves(s: State, x: nat)
    requires Enabled(s, Track(x)) && LifeOk(s.subs[x])
    ensures Subject(s, Track(x)) == x && x in Apply(s, Track(x)).subs && Evolves(s.subs[x], Apply(s, Track(x)).subs[x])
  {
  }

  lemma RecordGrows(s: State, s': State, x: nat)
    requires x in s.subs && x in s'.subs && s'.subs == s.subs[x := s'.subs[x]] && Evolves(s.subs[x], s'.subs[x])
    ensures Grows(s, s')
  {
  }

  /** Every state of every run satisfies the invariant. */
  lemma {:induction false} RunInv(run: seq<State>, i: nat)
    requires IsRun(run) && i < |run|
    ensures Inv(run[i])
  {
    hide Enabled, Apply;
    if i > 0 {
      RunInv(run, i - 1);
      var step := StepAt(run, i - 1);
      StepKeeps(run[i - 1], step);
    }
  }

  // ---- after Unsubscribe ----------------------------------------------------------

  /** What the invariant says about a subscription whose teardown has finished. */
  lemma TornMeans(s: State, x: nat)
    requires Inv(s) && Torn(s, x)
    ensures AllExited(s.subs[x]) && s.subs[x].ch.closed && x !in s.flat && !s.subs[x].raw
    ensures s.subs[x].wg == 0 && x < s.next
  {
    assert SubOk(s.subs[x]);
    LiveZero(s.subs[x].workers, Exited);
  }

  /** From s on to t: no worker, no index entry, the channel exactly as it was left, every
      attempt to send on it refused, and no dispatch begun since then aims at it. */
  ghost predicate StillGone(s: State, t: State, x: nat) {
    && Torn(s, x) && Torn(t, x)
    && AllExited(t.subs[x]) && x !in t.flat
    && t.subs[x].ch.closed && t.subs[x].ch == s.subs[x].ch
    && s.log <= t.log
    && (forall k :: |s.log| <= k < |t.log| && t.log[k].sub == x ==> !t.log[k].queued)
    && s.dispatches.Keys <= t.dispatches.Keys
    && (forall d :: d in s.dispatches ==> t.dispatches[d].targets == s.dispatches[d].targets)
    && (forall d :: d in t.dispatches && d !in s.dispatches ==> x !in t.dispatches[d].targets)
  }

  ghost predicate Ended(s: State, x: nat) {
    && Torn(s, x) && AllExited(s.subs[x]) && s.subs[x].ch.closed && x !in s.flat
    && !s.subs[x].raw && x < s.next
  }

  lemma RestSubject(t: State, step: Step)
    requires Enabled(t, step) && Changes(step) && Ended(t, Subject(t, step)) && Subject(t, step) in Apply(t, step).subs
    ensures var x, t' := Subject(t, step), Apply(t, step);
      t'.subs[x].phase.Finished? && t'.subs[x].ch == t.subs[x].ch
  {
    hide HasCalled, Without, Terminal, NewSub;
    if Solo(step) {
      hide Call, Advance;
    } else {
      hide AllExited;
    }
  }

  /** One step of anything else leaves the channel of x as it is. */
  lemma RestStep(t: State, step: Step, x: nat)
    requires Ended(t, x) && Enabled(t, step)
    ensures Torn(Apply(t, step), x) && Apply(t, step).subs[x].ch == t.subs[x].ch
  {
    SubjectOnly(t, step);
    if Changes(step) {
      hide Apply, Enabled;
      if x == Subject(t, step) { RestSubject(t, step); }
    } else if step.Subscribe? {
      hide NewSub;
    }
  }

  lemma RestLog(t: State, step: Step, x: nat)
    requires Ended(t, x) && Enabled(t, step)
    ensures var t' := Apply(t, step);
      && t.log <= t'.log && (forall k :: |t.log| <= k < |t'.log| && t'.log[k].sub == x ==> !t'.log[k].queued)
      && t.dispatches.Keys <= t'.dispatches.Keys
      && (forall d :: d in t.dispatches ==> t'.dispatches[d].targets == t.dispatches[d].targets)
      && (forall d :: d in t'.dispatches && d !in t.dispatches ==> x !in t'.dispatches[d].targets)
  {
    if step.Start? || step.Deliver? {
      hide Receives, AllExited;
    } else {
      hide Enabled, Apply;
      LogUntouched(t, step);
    }
  }

  lemma LogUntouched(s: State, step: Step)
    requires Enabled(s, step) && !step.Start? && !step.Deliver?
    ensures Apply(s, step).log == s.log && Apply(s, step).dispatches == s.dispatches
  {
    if Solo(step) {
      hide DoneSub, TakeHead, Terminal;
    } else if Touches(step) || step.OnceStep? {
      hide Call, Advance, Without, HasCalled;
    } else {
      hide NewSub, Without;
    }
  }

  lemma TornStep(t: State, step: Step, x: nat)
    requires Inv(t) && Torn(t, x) && Enabled(t, step)
    ensures StillGone(t, Apply(t, step), x)
  {
    hide Inv, Enabled, Apply;
    StepKeeps(t, step);
    TornMeans(t, x);
    RestStep(t, step, x);
    RestLog(t, step, x);
    TornMeans(Apply(t, step), x);
  }

  lemma StillGoneTrans(s: State, t: State, t': State, x: nat)
    requires StillGone(s, t, x) && StillGone(t, t', x)
    ensures StillGone(s, t', x)
  {
    hide AllExited;
    forall k | |s.log| <= k < |t'.log| && t'.log[k].sub == x ensures !t'.log[k].queued {
      if k < |t.log| { assert t'.log[k] == t.log[k]; }
    }
  }

  lemma StillGoneTorn(s: State, t: State, x: nat)
    requires StillGone(s, t, x)
    ensures Torn(t, x)
  {
  }

  lemma ReturnedIsTorn(s: State, x: nat, who: Caller)
    requires Inv(s) && x in s.subs && who in s.subs[x].returned
    ensures StillGone(s, s, x)
  {
    assert SubOk(s.subs[x]);
    TornMeans(s, x);
  }

  /** Main result: once any Unsubscribe call has returned, and for the rest of the run, every
      worker has exited, the channel is closed, out of the index and never changes again, no
      later snapshot contains it, and an older snapshot can only have its event dropped. */
  lemma {:induction false} AfterUnsubscribe(run: seq<State>, i: nat, j: nat, x: nat, who: Caller)
    requires IsRun(run) && i <= j < |run|
    requires x in run[i].subs && who in run[i].subs[x].returned
    ensures StillGone(run[i], run[j], x)
  {
    hide Inv, StillGone, Enabled, Apply;
    RunInv(run, i);
    ReturnedIsTorn(run[i], x, who);
    if i < j {
      AfterUnsubscribe(run, i, j - 1, x, who);
      RunInv(run, j - 1);
      var step := StepAt(run, j - 1);
      StillGoneTorn(run[i], run[j - 1], x);
      TornStep(run[j - 1], step, x);
      StillGoneTrans(run[i], run[j - 1], run[j], x);
    }
  }

  /** Every channel is a bounded FIFO: what the receipts call queued is what was received
      followed by what is still buffered, in order. */
  lemma ChannelAccounting(run: seq<State>, i: nat, x: nat)
    requires IsRun(run) && i < |run| && x in run[i].subs
    ensures Queued(run[i].log, x) == run[i].subs[x].ch.taken + run[i].subs[x].ch.buf
    ensures |run[i].subs[x].ch.buf| <= CAPACITY
  {
    RunInv(run, i);
    assert SubOk(run[i].subs[x]);
  }

  // ---- Close ----------------------------------------------------------------------

  predicate MovesCloser(step: Step) {
    step.CloseStart? || step.LoopNext? || step.Lock? || step.Sweep? || step.Unlock?
  }

  lemma ClosersUntouched(s: State, step: Step)
    requires Enabled(s, step) && !MovesCloser(step)
    ensures Apply(s, step).closers == s.closers
  {
    hide Receives, NoDup, Accepts, NewSub, Call, Advance, DoneSub, TakeHead, Without, WorkerAt, HasCalled, Terminal;
  }

  lemma CapturedStep(s: State, step: Step, c: nat)
    requires Enabled(s, step) && c in s.closers
    ensures c in Apply(s, step).closers && Apply(s, step).closers[c].captured == s.closers[c].captured
  {
    if !MovesCloser(step) {
      hide Enabled, Apply;
      ClosersUntouched(s, step);
    }
  }

  lemma {:induction false} CapturedStays(run: seq<State>, i: nat, j: nat, c: nat)
    requires IsRun(run) && i <= j < |run| && c in run[i].closers
    ensures c in run[j].closers && run[j].closers[c].captured == run[i].closers[c].captured
  {
    hide Apply, Enabled;
    if i < j {
      CapturedStays(run, i, j - 1, c);
      var step := StepAt(run, j - 1);
      CapturedStep(run[j - 1], step, c);
    }
  }

  /** Close reaches every tracked subscription: when a Close call has left its loop, everything
      tracked at the moment it swapped the list out is torn down, whatever ran in between. */
  lemma CloseReachesTracked(run: seq<State>, i: nat, j: nat, c: nat, x: nat)
    requires IsRun(run) && i < j < |run|
    requires Enabled(run[i], CloseStart(c)) && run[i + 1] == Apply(run[i], CloseStart(c))
    requires x in run[i].active
    requires c in run[j].closers && !run[j].closers[c].Calling?
    ensures Torn(run[j], x) && AllExited(run[j].subs[x]) && run[j].subs[x].ch.closed && x !in run[j].flat
  {
    CapturedStays(run, i + 1, j, c);
    RunInv(run, j);
    assert CloserOk(run[j], c, run[j].closers[c]);
    TornMeans(run[j], x);
  }

  /** The residual pass leaves an empty index, and closed every channel it took out of it. */
  lemma CloseSweepsRest(run: seq<State>, i: nat, c: nat)
    requires IsRun(run) && i < |run| && Enabled(run[i], Unlock(c))
    ensures Apply(run[i], Unlock(c)).flat == []
    ensures forall x :: x in run[i].flat ==> x in run[i].subs && run[i].subs[x].ch.closed
  {
    RunInv(run, i);
    assert CloserOk(run[i], c, run[i].closers[c]);
  }

  // ---- no caller is stuck -----------------------------------------------------------

  predicate OwnStep(step: Step, x: nat) {
    match step
    case SpawnWorker(y) => x == y
    case SpawnWatcher(y) => x == y
    case Track(y) => x == y
    case Propagate(y) => x == y
    case Poll(y, _) => x == y
    case WatcherCall(y) => x == y
    case OnceStep(y) => x == y
    case Unblock(y, _) => x == y
    case Take(y, _) => x == y
    case Finish(y, _) => x == y
    case Exit(y, _) => x == y
    case _ => false
  }

  predicate CloserStep(step: Step) { step.LoopCall? || step.LoopNext? || step.Lock? || step.Sweep? || step.Unlock? }

  /** The Close call that holds the lock can go on. */
  lemma HolderMoves(s: State)
    requires Inv(s) && s.mu.Some?
    ensures Enabled(s, Sweep(s.mu.value)) || Enabled(s, Unlock(s.mu.value))
    ensures exists step :: CloserStep(step) && Enabled(s, step)
  {
    hide SubOk, LogOk, DispatchesOk;
    var c := s.mu.value;
    assert CloserOk(s, c, s.closers[c]);
    hide ClosersOk;
    if s.closers[c].k < |s.flat| {
      assert s.flat[s.closers[c].k] in s.flat;
      assert Enabled(s, Sweep(c));
    } else {
      assert Enabled(s, Unlock(c));
    }
  }

  /** A worker that still counts in the wait group of a cancelled subscription can move. */
  lemma WorkerMoves(s: State, x: nat)
    requires Inv(s) && x in s.subs && s.subs[x].subDone && s.subs[x].wg != 0
    ensures exists step :: OwnStep(step, x) && Enabled(s, step)
  {
    assert SubOk(s.subs[x]);
    LiveZero(s.subs[x].workers, Exited);
    var w :| 0 <= w < |s.subs[x].workers| && !s.subs[x].workers[w].Exited?;
    if s.subs[x].workers[w].Handling? {
      assert Enabled(s, Finish(x, w));
    } else {
      assert Enabled(s, Exit(x, w));
    }
  }

  lemma OnceMoves(s: State, x: nat)
    requires Inv(s) && x in s.subs && !s.subs[x].phase.Fresh? && !s.subs[x].phase.Finished?
    ensures exists step :: (OwnStep(step, x) || CloserStep(step)) && Enabled(s, step)
    ensures s.mu.None? ==> exists step :: OwnStep(step, x) && Enabled(s, step)
  {
    var u := s.subs[x];
    if u.phase.Waiting? && u.wg != 0 {
      assert SubOk(u);
      WorkerMoves(s, x);
    } else if u.phase.Removing? && s.mu.Some? {
      HolderMoves(s);
    } else {
      assert Enabled(s, OnceStep(x));
    }
  }

  /** Given that handlers return, no Unsubscribe call is ever stuck: while one has not
      returned, a worker, the teardown or a Close call can take a step. */
  lemma UnsubscribeNeverStuck(run: seq<State>, i: nat, x: nat, who: Caller)
    requires IsRun(run) && i < |run| && x in run[i].subs
    requires HasCalled(run[i].subs[x], who) && who !in run[i].subs[x].returned
    ensures exists step :: (OwnStep(step, x) || CloserStep(step)) && Enabled(run[i], step)
  {
    RunInv(run, i);
    assert SubOk(run[i].subs[x]);
    if run[i].subs[x].phase.Finished? {
      assert Enabled(run[i], Unblock(x, who));
    } else {
      OnceMoves(run[i], x);
    }
  }

  /** A step of a Close call, or of the subscription whose Unsubscribe the call c waits for. */
  predicate Helps(s: State, c: nat, step: Step)
    requires c in s.closers
  {
    var pc := s.closers[c];
    CloserStep(step) || (pc.Calling? && pc.k < |pc.captured| && OwnStep(step, pc.captured[pc.k]))
  }

  /** Nor is any Close call. */
  lemma CloseNeverStuck(run: seq<State>, i: nat, c: nat)
    requires IsRun(run) && i < |run| && c in run[i].closers && !run[i].closers[c].Done?
    ensures exists step :: Helps(run[i], c, step) && Enabled(run[i], step)
  {
    var s := run[i];
    RunInv(run, i);
    assert CloserOk(s, c, s.closers[c]);
    var pc := s.closers[c];
    if pc.Calling? && pc.k < |pc.captured| {
      var x, me := pc.captured[pc.k], Loop(c, pc.k);
      assert x in pc.captured && x in s.subs;
      if !HasCalled(s.subs[x], me) {
        assert Enabled(s, LoopCall(c)) && Helps(s, c, LoopCall(c));
      } else if me in s.subs[x].returned {
        assert Enabled(s, LoopNext(c)) && Helps(s, c, LoopNext(c));
      } else {
        UnsubscribeNeverStuck(run, i, x, me);
        var step :| (OwnStep(step, x) || CloserStep(step)) && Enabled(s, step);
        assert Helps(s, c, step);
      }
    } else if pc.Calling? {
      assert Enabled(s, LoopNext(c)) && Helps(s, c, LoopNext(c));
    } else if s.mu.None? {
      assert Enabled(s, Lock(c)) && Helps(s, c, Lock(c));
    } else {
      HolderMoves(s);
      var step :| CloserStep(step) && Enabled(s, step);
      assert Helps(s, c, step);
    }
  }

  // ---- building runs ------------------------------------------------------------------

  function StartRun(): seq<State> { [INIT] }

  function Last(run: seq<State>): State
    requires |run| > 0
  {
    run[|run| - 1]
  }

  ghost predicate Continues(run: seq<State>, more: seq<State>) { IsRun(more) && |run| > 0 && run <= more }

  lemma Extend(run: seq<State>, step: Step) returns (longer: seq<State>)
    requires IsRun(run) && Enabled(Last(run), step)
    ensures Continues(run, longer) && longer == run + [Apply(Last(run), step)]
  {
    longer := run + [Apply(Last(run), step)];
    forall i | 0 <= i < |longer| - 1 ensures Next(longer[i], longer[i + 1]) {
      if i < |run| - 1 { assert Next(run[i], run[i + 1]); }
    }
  }

  /** The steps by which a run goes on. */
  ghost predicate Labels(run: seq<State>, steps: seq<Step>) {
    && |run| == |steps| + 1
    && forall k :: 0 <= k < |steps| ==> Enabled(run[k], steps[k]) && run[k + 1] == Apply(run[k], steps[k])
  }

  lemma LabelsRun(run: seq<State>, steps: seq<Step>)
    requires Labels(run, steps) && run[0] == INIT
    ensures IsRun(run)
  {
    forall k | 0 <= k < |run| - 1 ensures Next(run[k], run[k + 1]) {
      assert Enabled(run[k], steps[k]) && run[k + 1] == Apply(run[k], steps[k]);
    }
  }

  lemma StepAt(run: seq<State>, i: nat) returns (step: Step)
    requires IsRun(run) && i + 1 < |run|
    ensures Enabled(run[i], step) && run[i + 1] == Apply(run[i], step)
  {
    assert Next(run[i], run[i + 1]);
    step :| Enabled(run[i], step) && run[i + 1] == Apply(run[i], step);
  }

  lemma Shorter(run: seq<State>, more: seq<State>)
    requires Continues(run, more) && |run| < |more|
    ensures Continues(run, more[..|more| - 1]) && Last(more[..|more| - 1]) == more[|more| - 2]
  {
    var before := more[..|more| - 1];
    forall i | 0 <= i < |before| - 1 ensures Next(before[i], before[i + 1]) { assert Next(more[i], more[i + 1]); }
  }

  /** Steps a worker takes at most until it has exited, once its context is done. */
  function Weight(pc: WorkerPc): nat { match pc case Handling => 2 case Selecting => 1 case Exited => 0 }

  /** Steps of the Once in Unsubscribe that are still to come, and one more for its runner. */
  function PhaseWork(p: Phase): nat {
    match p
    case Cancelling => 6
    case Waiting => 5
    case Removing => 4
    case Closing => 3
    case Untracking => 2
    case _ => 0
  }

  function LockWork(s: State): int {
    if s.mu.Some? && s.mu.value in s.closers && s.closers[s.mu.value].Sweeping?
    then 1 + |s.flat| - s.closers[s.mu.value].k else 0
  }

  ghost predicate Unlocks(s: State, step: Step, x: nat) {
    && x in s.subs && Enabled(s, step) && x in Apply(s, step).subs
    && Apply(s, step).subs[x] == s.subs[x].(ch := Apply(s, step).subs[x].ch)
    && 0 <= LockWork(Apply(s, step)) < LockWork(s)
  }

  lemma SweepUnlocks(s: State, c: nat, x: nat)
    requires x in s.subs && Enabled(s, Sweep(c)) && s.mu == Some(c)
    ensures Unlocks(s, Sweep(c), x)
  {
  }

  lemma UnlockUnlocks(s: State, c: nat, x: nat)
    requires x in s.subs && Enabled(s, Unlock(c)) && s.mu == Some(c)
    ensures Unlocks(s, Unlock(c), x)
  {
  }

  /** The Close call that holds the lock sweeps on or releases it. */
  lemma HolderStep(s: State, x: nat) returns (step: Step)
    requires Inv(s) && s.mu.Some? && x in s.subs
    ensures Unlocks(s, step, x)
  {
    HolderMoves(s);
    hide Inv, Unlocks;
    var c := s.mu.value;
    if Enabled(s, Sweep(c)) {
      step := Sweep(c);
      SweepUnlocks(s, c, x);
    } else {
      step := Unlock(c);
      UnlockUnlocks(s, c, x);
    }
  }

  /** No other step is needed until the lock is free. */
  lemma ReleaseLock(run: seq<State>, x: nat) returns (more: seq<State>)
    requires IsRun(run) && x in Last(run).subs
    ensures Continues(run, more) && Last(more).mu.None? && x in Last(more).subs
    ensures Last(more).subs[x] == Last(run).subs[x].(ch := Last(more).subs[x].ch)
    ensures Last(run).mu.None? ==> more == run
    decreases if Last(run).mu.Some? then LockWork(Last(run)) else 0
  {
    more := run;
    if Last(run).mu.Some? {
      RunInv(run, |run| - 1);
      var step := HolderStep(Last(run), x);
      assert Enabled(Last(run), step);
      hide Inv, Enabled, Apply, LockWork;
      more := Extend(run, step);
      more := ReleaseLock(more, x);
    }
  }
}
