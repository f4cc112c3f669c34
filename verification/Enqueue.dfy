/** What becomes of the event of an enqueue call (ext/amqp/publisher.go), by what the call finds on its way:
    whether the publisher is open, the queue has room and the semaphore a free slot. */
module Enqueue {
  import opened Wrappers
  import opened PublisherProtocol

  /** The steps by which a run goes on. */
  ghost predicate Labels(run: seq<State>, steps: seq<Step>) {
    && |run| == |steps| + 1
    && forall k :: 0 <= k < |steps| ==> Enabled(run[k], steps[k]) && run[k + 1] == Apply(run[k], steps[k])
  }

  lemma {:induction false} RunInv(run: seq<State>, steps: seq<Step>, configured: bool, i: nat)
    requires Labels(run, steps) && run[0] == Init(configured) && i < |run|
    ensures Inv(run[i])
  {
    hide Inv, Enabled, Apply;
    if i == 0 {
      InitInv(configured);
    } else {
      RunInv(run, steps, configured, i - 1);
      StepKeeps(run[i - 1], steps[i - 1]);
    }
  }

  lemma InitInv(configured: bool)
    ensures Inv(Init(configured))
  {
  }

  datatype Finding = Open | Shut | Room | NoRoom | Token | NoToken

  /** What the n-th call learns in a step. */
  function Finds(s: State, step: Step, n: nat): seq<Finding> {
    if step == Check(n) then [if s.closed then Shut else Open]
    else if step == TryQueue(n) then [if |s.queue| < 1000 then Room else NoRoom]
    else if step == TrySem(n) then [if |s.tokens| < 100 then Token else NoToken]
    else []
  }

  /** And in the first i steps of a run. */
  ghost function Found(run: seq<State>, steps: seq<Step>, n: nat, i: nat): seq<Finding>
    requires i <= |steps| && |run| == |steps| + 1
  {
    if i == 0 then [] else Found(run, steps, n, i - 1) + Finds(run[i - 1], steps[i - 1], n)
  }

  ghost predicate Placed(s: State, n: nat, f: seq<Finding>) {
    && (n in s.viaQueue <==> f == [Open, Room])
    && (n in s.dropped <==> f == [Shut] || f == [Open, NoRoom, NoToken])
    && (n in s.spawned <==> f == [Open, NoRoom, Token] && !At(s, n, Holding))
  }

  ghost predicate Stands(s: State, n: nat, f: seq<Finding>) {
    if n !in s.calls then f == []
    else
      match s.calls[n]
      case WantLock => f == []
      case Locked => f == []
      case Checked => f == [Open]
      case Full => f == [Open, NoRoom]
      case Holding => f == [Open, NoRoom, Token]
      case _ => f == [Shut] || f == [Open, Room] || f == [Open, NoRoom, Token] || f == [Open, NoRoom, NoToken]
  }

  /** Where the event of the n-th call is, and where the call stands, by what it has found. */
  ghost predicate Fits(s: State, n: nat, f: seq<Finding>) { Placed(s, n, f) && Stands(s, n, f) }

  predicate Concerns(step: Step, n: nat) { CallGroup(step) && step.n == n }

  /** Nothing has happened to the n-th call and its event. */
  ghost predicate Passes(s: State, s': State, n: nat) {
    && (n in s'.calls <==> n in s.calls) && (n in s.calls ==> s'.calls[n] == s.calls[n])
    && (n in s'.viaQueue <==> n in s.viaQueue) && (n in s'.dropped <==> n in s.dropped)
    && (n in s'.spawned <==> n in s.spawned)
  }

  lemma SamePasses(s: State, s': State, n: nat)
    requires s'.calls == s.calls && s'.viaQueue == s.viaQueue && s'.dropped == s.dropped && s'.spawned == s.spawned
    ensures Passes(s, s', n)
  {
  }

  lemma WorkerPasses(s: State, step: Step, n: nat)
    requires Enabled(s, step) && WorkerGroup(step)
    ensures Passes(s, Apply(s, step), n)
  {
    hide Passes, RunClose, Move, At;
    match step {
      case WorkerTake => SamePasses(s, s.(queue := s.queue[1..], worker := Sending(s.queue[0])), n);
      case WorkerSend => SamePasses(s, s.(worker := Ranging, workerSent := s.workerSent + [s.worker.n]), n);
      case WorkerLeave => SamePasses(s, s.(worker := Left), n);
      case WorkerDone => SamePasses(s, s.(worker := Exited, wg := s.wg - 1), n);
    }
  }

  lemma FallbackPasses(s: State, step: Step, n: nat)
    requires Enabled(s, step) && FallbackGroup(step)
    ensures Passes(s, Apply(s, step), n)
  {
    hide Passes, RunClose, Move, At;
    match step {
      case FallbackSend(m) => SamePasses(s, s.(sending := s.sending - {m}), n);
      case FallbackRelease(m) => SamePasses(s, s.(tokens := s.tokens - {m}), n);
      case FallbackDone(m) => SamePasses(s, s.(live := s.live - {m}, wg := s.wg - 1), n);
    }
  }

  lemma CloserPasses(s: State, n: nat)
    ensures Passes(s, RunClose(s), n)
  {
    hide Passes;
    match s.phase {
      case WantWrite => SamePasses(s, s.(writer := true, phase := SetFlag), n);
      case SetFlag => SamePasses(s, s.(closed := true, phase := CloseQueue), n);
      case CloseQueue =>
        SamePasses(s, s.(queueClosed := s.configured, panicked := s.panicked || s.queueClosed, phase := Unlock), n);
      case Unlock => SamePasses(s, s.(writer := false, phase := Waiting), n);
      case Waiting =>
        var returned := s.returned + if s.runner.Some? then {s.runner.value} else {};
        SamePasses(s, s.(phase := Finished, runner := None, returned := returned), n);
      case _ => SamePasses(s, s, n);
    }
  }

  lemma ClosePasses(s: State, step: Step, n: nat)
    requires Enabled(s, step) && CloseGroup(step)
    ensures Passes(s, Apply(s, step), n)
  {
    hide Passes, RunClose, Move, At;
    match step {
      case CallClose(c) =>
        SamePasses(s, s.(phase := WantWrite, runner := Some(c)), n);
        SamePasses(s, s.(returned := s.returned + {c}), n);
        SamePasses(s, s.(blocked := s.blocked + {c}), n);
      case CloseStep => CloserPasses(s, n);
      case Unblock(c) => SamePasses(s, s.(blocked := s.blocked - {c}, returned := s.returned + {c}), n);
    }
  }

  lemma MovePasses(s: State, m: nat, pc: CallPc, s': State, n: nat)
    requires m != n && s'.calls == s.calls[m := pc]
    requires n in s'.viaQueue <==> n in s.viaQueue
    requires n in s'.dropped <==> n in s.dropped
    requires n in s'.spawned <==> n in s.spawned
    ensures Passes(s, s', n)
  {
  }

  lemma CallPasses(s: State, step: Step, n: nat)
    requires Enabled(s, step) && CallGroup(step) && step.n != n
    ensures Passes(s, Apply(s, step), n)
  {
    hide Passes, RunClose, At;
    var m, s' := step.n, Apply(s, step);
    match step {
      case Begin(_) => MovePasses(s, m, WantLock, s', n);
      case RLock(_) => MovePasses(s, m, Locked, s', n);
      case Check(_) => MovePasses(s, m, if s.closed then Unlocking else Checked, s', n);
      case TryQueue(_) =>
        if s.queueClosed { SamePasses(s, s', n); }
        else { MovePasses(s, m, if |s.queue| < QUEUE then Unlocking else Full, s', n); }
      case TrySem(_) => MovePasses(s, m, if |s.tokens| < TOKENS then Holding else Unlocking, s', n);
      case Spawn(_) => MovePasses(s, m, Unlocking, s', n);
      case RUnlock(_) => MovePasses(s, m, Done, s', n);
    }
  }

  lemma OthersPass(s: State, step: Step, n: nat)
    requires Enabled(s, step) && !Concerns(step, n)
    ensures Passes(s, Apply(s, step), n)
  {
    hide Apply, Enabled, Passes;
    if WorkerGroup(step) { WorkerPasses(s, step, n); }
    else if FallbackGroup(step) { FallbackPasses(s, step, n); }
    else if CloseGroup(step) { ClosePasses(s, step, n); }
    else { CallPasses(s, step, n); }
  }

  lemma PassesFits(s: State, s': State, n: nat, f: seq<Finding>)
    requires Passes(s, s', n) && Fits(s, n, f)
    ensures Fits(s', n, f)
  {
  }

  /** The n-th call moves on, its event perhaps into one of the three places. */
  lemma MoveFits(s: State, s': State, n: nat, pc: CallPc, f: seq<Finding>)
    requires n in s'.calls && s'.calls[n] == pc && Stands(s', n, f) && !(pc.Holding? && n in s'.spawned)
    requires n in s'.viaQueue <==> f == [Open, Room]
    requires n in s'.dropped <==> f == [Shut] || f == [Open, NoRoom, NoToken]
    requires n in s'.spawned <==> f == [Open, NoRoom, Token] && !pc.Holding?
    ensures Fits(s', n, f)
  {
  }

  predicate Learns(step: Step) { step.Check? || step.TryQueue? || step.TrySem? }

  lemma CheckFits(s: State, n: nat, f: seq<Finding>)
    requires Enabled(s, Check(n)) && Fits(s, n, f)
    ensures Fits(Apply(s, Check(n)), n, f + Finds(s, Check(n), n))
  {
    var found := if s.closed then Shut else Open;
    assert f + [found] == [found];
    hide Fits, RunClose;
    MoveFits(s, Apply(s, Check(n)), n, if s.closed then Unlocking else Checked, [found]);
  }

  lemma TryQueueFits(s: State, n: nat, f: seq<Finding>)
    requires !s.queueClosed && Enabled(s, TryQueue(n)) && Fits(s, n, f)
    ensures Fits(Apply(s, TryQueue(n)), n, f + Finds(s, TryQueue(n), n))
  {
    var found := if |s.queue| < 1000 then Room else NoRoom;
    assert f + [found] == [Open, found];
    hide Fits, RunClose;
    MoveFits(s, Apply(s, TryQueue(n)), n, if |s.queue| < 1000 then Unlocking else Full, [Open, found]);
  }

  lemma TrySemFits(s: State, n: nat, f: seq<Finding>)
    requires Enabled(s, TrySem(n)) && Fits(s, n, f)
    ensures Fits(Apply(s, TrySem(n)), n, f + Finds(s, TrySem(n), n))
  {
    var found := if |s.tokens| < 100 then Token else NoToken;
    assert f + [found] == [Open, NoRoom, found];
    hide Fits, RunClose;
    MoveFits(s, Apply(s, TrySem(n)), n, if |s.tokens| < 100 then Holding else Unlocking, [Open, NoRoom, found]);
  }

  lemma GoOnFits(s: State, step: Step, n: nat, f: seq<Finding>)
    requires Enabled(s, step) && Concerns(step, n) && !Learns(step) && Fits(s, n, f)
    ensures Fits(Apply(s, step), n, f)
  {
    var s' := Apply(s, step);
    hide Fits, RunClose;
    match step {
      case Begin(_) => MoveFits(s, s', n, WantLock, f);
      case RLock(_) => MoveFits(s, s', n, Locked, f);
      case Spawn(_) => MoveFits(s, s', n, Unlocking, f);
      case RUnlock(_) => MoveFits(s, s', n, Done, f);
    }
  }

  lemma StepFits(s: State, step: Step, n: nat, f: seq<Finding>)
    requires Inv(s) && Enabled(s, step) && Fits(s, n, f)
    ensures Fits(Apply(s, step), n, f + Finds(s, step, n))
  {
    hide LedgerOk, CountersOk, OnceOk;
    if Concerns(step, n) && Learns(step) {
      if step.TryQueue? { OpenAtQueue(s, step); }
      hide Enabled, Apply, Fits, Inv, Finds;
      match step {
        case Check(_) => CheckFits(s, n, f);
        case TryQueue(_) => TryQueueFits(s, n, f);
        case TrySem(_) => TrySemFits(s, n, f);
      }
    } else {
      assert Finds(s, step, n) == [] && f + [] == f;
      hide Enabled, Apply, Fits, Inv, Finds;
      if Concerns(step, n) {
        GoOnFits(s, step, n, f);
      } else {
        OthersPass(s, step, n);
        PassesFits(s, Apply(s, step), n, f);
      }
    }
  }

  lemma OpenAtQueue(s: State, step: Step)
    requires Inv(s) && Enabled(s, step) && step.TryQueue?
    ensures !s.queueClosed
  {
    assert s.calls[step.n].Checked?;
  }

  lemma {:induction false} FoundFits(run: seq<State>, steps: seq<Step>, configured: bool, n: nat, i: nat)
    requires Labels(run, steps) && run[0] == Init(configured) && i < |run|
    ensures Fits(run[i], n, Found(run, steps, n, i))
  {
    hide Inv, Enabled, Apply, Fits;
    if i == 0 {
      InitFits(configured, n);
    } else {
      RunInv(run, steps, configured, i - 1);
      FoundFits(run, steps, configured, n, i - 1);
      StepFits(run[i - 1], steps[i - 1], n, Found(run, steps, n, i - 1));
    }
  }

  lemma InitFits(configured: bool, n: nat)
    ensures Fits(Init(configured), n, [])
  {
  }

  /** Of every run: an event is dropped exactly if its call has found the publisher shut, or the queue full and
      then no free token; it is in the queue's line exactly if the call found the publisher open and room in
      the queue; and it is given to a fallback exactly if the call found the queue full and took a token, once
      it has gone on from there. A call that is through has found one of these. */
  lemma EnqueueFate(run: seq<State>, steps: seq<Step>, configured: bool, n: nat, i: nat)
    requires Labels(run, steps) && run[0] == Init(configured) && i < |run|
    ensures var s, f := run[i], Found(run, steps, n, i);
      && (n in s.dropped <==> f == [Shut] || f == [Open, NoRoom, NoToken])
      && (n in s.viaQueue <==> f == [Open, Room])
      && (n in s.spawned <==> f == [Open, NoRoom, Token] && !At(s, n, Holding))
      && (n in s.calls && s.calls[n] == Done ==>
            f in {[Shut], [Open, Room], [Open, NoRoom, Token], [Open, NoRoom, NoToken]})
  {
    FoundFits(run, steps, configured, n, i);
  }
}
