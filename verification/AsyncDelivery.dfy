/** What publishers get out of the asynchronous protocol: which subscriptions a dispatch aims at, when
    their channels take the event, and what its receipts say. */
module AsyncDelivery {
  import opened Wildcard
  import opened AsyncProtocol

  lemma StepOf(run: seq<State>, steps: seq<Step>, i: nat)
    requires Labels(run, steps) && run[0] == INIT && i < |steps|
    ensures |run| == |steps| + 1 && Enabled(run[i], steps[i]) && run[i + 1] == Apply(run[i], steps[i]) && Inv(run[i])
  {
    LabelsRun(run, steps);
    RunInv(run, i);
  }

  // ---- one channel ------------------------------------------------------------------------

  /** Of every run: a delivery leaves one receipt, which says queued exactly if the channel was open and held
      fewer than 64 events; the event is then its newest, and otherwise the channel is as it was. */
  lemma DeliverMeans(run: seq<State>, steps: seq<Step>, i: nat)
    requires Labels(run, steps) && i < |steps| && steps[i].Deliver?
    ensures var s, s', d := run[i], run[i + 1], steps[i].d;
      && d in s.dispatches && s.dispatches[d].pos < |s.dispatches[d].targets|
      && (var x, e := s.dispatches[d].targets[s.dispatches[d].pos], s.dispatches[d].event;
          && x in s.subs && x in s'.subs
          && (var ch, ch' := s.subs[x].ch, s'.subs[x].ch;
              var room := !ch.closed && |ch.buf| < 64;
              && s'.log == s.log + [Receipt(x, e, room)]
              && ch'.buf == ch.buf + (if room then [e] else [])
              && ch'.closed == ch.closed && ch'.taken == ch.taken))
  {
  }

  /** The receipt says queued exactly if in s the channel is open and fewer than 64 of the events queued on it
      have not been received. */
  predicate Truthful(s: State, r: Receipt) {
    && r.sub in s.subs
    && (r.queued <==> !s.subs[r.sub].ch.closed && |Queued(s.log, r.sub)| - |s.subs[r.sub].ch.taken| < 64)
  }

  /** Of every run: the receipt with number k, whenever it is looked at, tells the truth of the moment of the
      delivery that left it. */
  lemma {:induction false} ReceiptMeans(run: seq<State>, steps: seq<Step>, i: nat, k: nat) returns (j: nat)
    requires Labels(run, steps) && run[0] == INIT && i < |run| && k < |run[i].log|
    ensures j < i && j < |steps| && steps[j].Deliver? && |run[j].log| == k && Truthful(run[j], run[i].log[k])
  {
    hide Labels, Enabled, Apply, Inv, Truthful;
    RunLength(run, steps);
    j := i - 1;
    StepOf(run, steps, j);
    LogGrows(run[j], steps[j]);
    if k == |run[j].log| {
      TruthfulAt(run, steps, j, run[i].log[k]);
    } else {
      j := ReceiptMeans(run, steps, i - 1, k);
    }
  }

  lemma RunLength(run: seq<State>, steps: seq<Step>)
    requires Labels(run, steps) && run[0] == INIT
    ensures |run| == |steps| + 1 && run[0].log == []
  {
  }

  lemma TruthfulAt(run: seq<State>, steps: seq<Step>, j: nat, r: Receipt)
    requires Labels(run, steps) && run[0] == INIT && j < |run| && r.sub in run[j].subs
    requires r.queued <==> !run[j].subs[r.sub].ch.closed && |run[j].subs[r.sub].ch.buf| < 64
    ensures Truthful(run[j], r)
  {
    hide Labels, IsRun, Queued;
    LabelsRun(run, steps);
    ChannelAccounting(run, j, r.sub);
  }

  lemma LogGrows(s: State, step: Step)
    requires Enabled(s, step)
    ensures var log, log' := s.log, Apply(s, step).log;
      && |log| <= |log'| <= |log| + 1 && (forall k :: 0 <= k < |log| ==> log'[k] == log[k])
      && (|log'| > |log| ==>
            var x := log'[|log|].sub;
            step.Deliver? && x in s.subs
            && (log'[|log|].queued <==> !s.subs[x].ch.closed && |s.subs[x].ch.buf| < 64))
  {
    if !step.Deliver? {
      hide Enabled, Apply;
      LogKept(s, step);
    }
  }

  lemma LogKept(s: State, step: Step)
    requires Enabled(s, step) && !step.Deliver?
    ensures Apply(s, step).log == s.log
  {
    if !step.Start? {
      hide Enabled, Apply;
      LogUntouched(s, step);
    }
  }

  /** The step lets go of x: its teardown or a RemoveChannel call takes it out, or Close empties the index. */
  predicate LetsGo(s: State, step: Step, x: nat) {
    || step.Unlock?
    || step == RawRemove(x)
    || (step == OnceStep(x) && x in s.subs && s.subs[x].phase.Removing?)
  }

  lemma ListedStep(s: State, step: Step, x: nat)
    requires NoDup(s.flat) && x < s.next && Enabled(s, step)
    ensures x in Apply(s, step).flat <==> x in s.flat && !LetsGo(s, step, x)
    ensures x < Apply(s, step).next
  {
    hide Receives, Accepts, NewSub, Call, Advance, TakeHead, DoneSub, WorkerAt, HasCalled, Terminal;
  }

  lemma SubscribeLists(s: State, step: Step)
    requires Enabled(s, step) && step.Subscribe?
    ensures var x, s' := s.next, Apply(s, step);
      x in s'.subs && s'.subs[x].topic == step.topic && x < s'.next && x in s'.flat
  {
  }

  ghost predicate ListedSo(run: seq<State>, steps: seq<Step>, i: nat, j: nat)
    requires i < j <= |steps| == |run| - 1 && steps[i].Subscribe?
  {
    var x := run[i].next;
    && x in run[j].subs && run[j].subs[x].topic == steps[i].topic && x < run[j].next
    && (x in run[j].flat <==> Unremoved(run, steps, i, j, x))
  }

  /** A subscription keeps its topic, and is listed until a step lets go of it. */
  lemma {:induction false} ListedUntil(run: seq<State>, steps: seq<Step>, i: nat, j: nat)
    requires Labels(run, steps) && run[0] == INIT && i < j <= |steps| && steps[i].Subscribe?
    ensures |run| == |steps| + 1 && ListedSo(run, steps, i, j)
    decreases j
  {
    hide Labels, ListedSo, Enabled, Apply, Inv;
    StepOf(run, steps, j - 1);
    if j == i + 1 {
      ListedAtOnce(run, steps, i);
    } else {
      ListedUntil(run, steps, i, j - 1);
      ListedNext(run, steps, i, j);
    }
  }

  lemma ListedAtOnce(run: seq<State>, steps: seq<Step>, i: nat)
    requires i < |steps| == |run| - 1 && steps[i].Subscribe?
    requires Enabled(run[i], steps[i]) && run[i + 1] == Apply(run[i], steps[i])
    ensures ListedSo(run, steps, i, i + 1)
  {
    SubscribeLists(run[i], steps[i]);
    hide Enabled, Apply, LetsGo;
  }

  lemma ListedNext(run: seq<State>, steps: seq<Step>, i: nat, j: nat)
    requires i + 1 < j <= |steps| == |run| - 1 && steps[i].Subscribe? && ListedSo(run, steps, i, j - 1)
    requires Inv(run[j - 1]) && Enabled(run[j - 1], steps[j - 1]) && run[j] == Apply(run[j - 1], steps[j - 1])
    ensures ListedSo(run, steps, i, j)
  {
    var x := run[i].next;
    hide Enabled, Apply, LetsGo, Inv, Unremoved;
    ListedOn(run[j - 1], steps[j - 1], x);
    UnremovedMore(run, steps, i, j, x);
  }

  lemma ListedOn(s: State, step: Step, x: nat)
    requires Inv(s) && Enabled(s, step) && x in s.subs && x < s.next
    ensures var s' := Apply(s, step);
      && x in s'.subs && s'.subs[x].topic == s.subs[x].topic && x < s'.next
      && (x in s'.flat <==> x in s.flat && !LetsGo(s, step, x))
  {
    InvIndex(s);
    hide Enabled, Apply, LetsGo, Inv, NoDup;
    ListedStep(s, step, x);
    StepGrows(s, step);
    assert Evolves(s.subs[x], Apply(s, step).subs[x]);
  }

  predicate Unremoved(run: seq<State>, steps: seq<Step>, i: nat, j: nat, x: nat)
    requires j <= |steps| == |run| - 1
  {
    forall k :: i < k < j ==> !LetsGo(run[k], steps[k], x)
  }

  lemma UnremovedMore(run: seq<State>, steps: seq<Step>, i: nat, j: nat, x: nat)
    requires i + 1 < j <= |steps| == |run| - 1
    ensures Unremoved(run, steps, i, j, x) <==>
      Unremoved(run, steps, i, j - 1, x) && !LetsGo(run[j - 1], steps[j - 1], x)
  {
    hide LetsGo;
  }

  lemma InvIndex(s: State)
    requires Inv(s)
    ensures NoDup(s.flat)
  {
  }

  /** Of every run: a dispatch aims at the subscription made in step i exactly if that receives the event and no
      step since then has let go of it. */
  lemma AimsAt(run: seq<State>, steps: seq<Step>, i: nat, j: nat)
    requires Labels(run, steps) && run[0] == INIT && i < j < |steps|
    requires steps[i].Subscribe? && steps[j].Start?
    ensures var x := run[i].next;
      x in steps[j].targets <==>
        Receives(steps[i].topic, steps[j].event.topic) && forall k :: i < k < j ==> !LetsGo(run[k], steps[k], x)
    ensures NoDup(steps[j].targets)
    ensures steps[j].d in run[j + 1].dispatches
         && run[j + 1].dispatches[steps[j].d] == Dispatch(steps[j].event, steps[j].targets, 0)
  {
    ListedUntil(run, steps, i, j);
    assert Enabled(run[j], steps[j]);
    hide NoDup, Receives, LetsGo;
  }

  // ---- the receipts of a dispatch ------------------------------------------------------------

  /** The dispatches that have delivered, one entry for each delivery. */
  function Deliveries(steps: seq<Step>): seq<nat> {
    if steps == [] then []
    else
      var last := steps[|steps| - 1];
      Deliveries(steps[..|steps| - 1]) + if last.Deliver? then [last.d] else []
  }

  /** The k-th receipt is that of the delivery ds[k], for the target which that dispatch had reached. */
  ghost predicate InStep(s: State, ds: seq<nat>) {
    && |ds| == |s.log|
    && (forall d :: d in s.dispatches ==> s.dispatches[d].pos == multiset(ds)[d] <= |s.dispatches[d].targets|)
    && (forall k :: 0 <= k < |ds| ==> ReceiptFits(s, ds, k))
  }

  ghost predicate ReceiptFits(s: State, ds: seq<nat>, k: nat)
    requires k < |ds| == |s.log|
  {
    && ds[k] in s.dispatches
    && (var disp, p := s.dispatches[ds[k]], multiset(ds[..k])[ds[k]];
        p < |disp.targets| && s.log[k].sub == disp.targets[p] && s.log[k].event == disp.event)
  }

  lemma DeliverSays(s: State, d: nat)
    requires d in s.dispatches && Enabled(s, Deliver(d))
    ensures var s', disp := Apply(s, Deliver(d)), s.dispatches[d];
      && disp.pos < |disp.targets|
      && s'.dispatches == s.dispatches[d := disp.(pos := disp.pos + 1)]
      && |s'.log| == |s.log| + 1 && s'.log[..|s.log|] == s.log
      && s'.log[|s.log|].sub == disp.targets[disp.pos] && s'.log[|s.log|].event == disp.event
  {
    hide Accepts;
  }

  lemma DeliverInStep(s: State, d: nat, ds: seq<nat>)
    requires InStep(s, ds) && Enabled(s, Deliver(d))
    ensures InStep(Apply(s, Deliver(d)), ds + [d])
  {
    assert d in s.dispatches;
    DeliverSays(s, d);
    hide Enabled, Apply;
    DeliveredInStep(s, Apply(s, Deliver(d)), d, ds);
  }

  lemma DeliveredInStep(s: State, s': State, d: nat, ds: seq<nat>)
    requires InStep(s, ds) && d in s.dispatches && s.dispatches[d].pos < |s.dispatches[d].targets|
    requires s'.dispatches == s.dispatches[d := s.dispatches[d].(pos := s.dispatches[d].pos + 1)]
    requires |s'.log| == |s.log| + 1 && s'.log[..|s.log|] == s.log
    requires s'.log[|s.log|].sub == s.dispatches[d].targets[s.dispatches[d].pos]
    requires s'.log[|s.log|].event == s.dispatches[d].event
    ensures InStep(s', ds + [d])
  {
    var ds' := ds + [d];
    assert forall e :: e in s'.dispatches ==> s'.dispatches[e].targets == s.dispatches[e].targets
                                              && s'.dispatches[e].event == s.dispatches[e].event;
    forall e | e in s'.dispatches ensures s'.dispatches[e].pos == multiset(ds')[e] <= |s'.dispatches[e].targets| {}
    forall k | 0 <= k < |ds'| ensures ReceiptFits(s', ds', k) {
      if k < |ds| {
        assert ReceiptFits(s, ds, k);
        assert ds'[..k] == ds[..k] && s'.log[k] == s'.log[..|s.log|][k];
      } else {
        assert ds'[..k] == ds;
      }
    }
  }

  lemma StartInStep(s: State, step: Step, ds: seq<nat>)
    requires InStep(s, ds) && Enabled(s, step) && step.Start?
    ensures InStep(Apply(s, step), ds)
  {
    hide Receives, NoDup;
    forall k | 0 <= k < |ds| ensures ds[k] != step.d && ReceiptFits(Apply(s, step), ds, k) {
      assert ReceiptFits(s, ds, k);
    }
    assert step.d !in ds;
  }

  /** Of every run: the receipts of each dispatch are one for each target it has passed, in their order, and
      for its event. So a dispatch that is through has one receipt for every target. */
  lemma {:induction false} ReceiptsInOrder(run: seq<State>, steps: seq<Step>, i: nat)
    requires Labels(run, steps) && run[0] == INIT && i < |run|
    ensures i <= |steps| && InStep(run[i], Deliveries(steps[..i]))
  {
    hide Labels, InStep, Deliveries, Enabled, Apply, Inv;
    RunLength(run, steps);
    if i == 0 {
      NothingInStep();
    } else {
      StepOf(run, steps, i - 1);
      ReceiptsInOrder(run, steps, i - 1);
      DeliveriesMore(steps, i);
      OneMore(run[i - 1], steps[i - 1], Deliveries(steps[..i - 1]));
    }
  }

  lemma NothingInStep()
    ensures InStep(INIT, Deliveries([]))
  {
  }

  lemma DeliveriesMore(steps: seq<Step>, i: nat)
    requires 0 < i <= |steps|
    ensures Deliveries(steps[..i])
         == Deliveries(steps[..i - 1]) + if steps[i - 1].Deliver? then [steps[i - 1].d] else []
  {
    assert steps[..i][..i - 1] == steps[..i - 1];
  }

  lemma OneMore(s: State, step: Step, ds: seq<nat>)
    requires InStep(s, ds) && Enabled(s, step)
    ensures InStep(Apply(s, step), ds + if step.Deliver? then [step.d] else [])
  {
    hide InStep, Enabled, Apply;
    assert ds + [] == ds;
    if step.Deliver? {
      DeliverInStep(s, step.d, ds);
    } else if step.Start? {
      StartInStep(s, step, ds);
    } else {
      LogUntouched(s, step);
      SameInStep(s, Apply(s, step), ds);
    }
  }

  lemma SameInStep(s: State, s': State, ds: seq<nat>)
    requires InStep(s, ds) && s'.log == s.log && s'.dispatches == s.dispatches
    ensures InStep(s', ds)
  {
    forall k | 0 <= k < |ds| ensures ReceiptFits(s', ds, k) { assert ReceiptFits(s, ds, k); }
  }

  // ---- what else happens to a channel -------------------------------------------------------------

  predicate Closes(s: State, step: Step, x: nat) {
    || step == RawClose(x)
    || (step == OnceStep(x) && x in s.subs && s.subs[x].phase.Closing?)
    || (step.Sweep? && step.c in s.closers && s.closers[step.c].Sweeping?
        && s.closers[step.c].k < |s.flat| && s.flat[s.closers[step.c].k] == x)
  }

  /** The step gives an event of x to a receiver. */
  predicate Hands(step: Step, x: nat) { step == RawTake(x) || (step.Take? && step.x == x) }

  /** What a step other than a delivery makes of a channel. */
  predicate MovesTo(s: State, step: Step, x: nat, ch: Chan, ch': Chan) {
    && (ch'.closed <==> ch.closed || Closes(s, step, x))
    && (if Hands(step, x)
        then ch.buf != [] && ch'.taken == ch.taken + [ch.buf[0]] && ch'.buf == ch.buf[1..]
        else ch'.taken == ch.taken && ch'.buf == ch.buf)
  }

  lemma SoloChannel(s: State, step: Step)
    requires Enabled(s, step) && Solo(step) && step.x in s.subs && step.x in Apply(s, step).subs
    ensures MovesTo(s, step, step.x, s.subs[step.x].ch, Apply(s, step).subs[step.x].ch)
  {
    hide MovesTo, Apply, Enabled;
    if step.Take? || step.RawTake? || step.RawClose? {
      TakeChannel(s, step);
    } else {
      SoloKeepsChannel(s, step);
      StaysTo(s, step, step.x, s.subs[step.x].ch);
    }
  }

  lemma TakeChannel(s: State, step: Step)
    requires Enabled(s, step) && (step.Take? || step.RawTake? || step.RawClose?) && step.x in Apply(s, step).subs
    ensures MovesTo(s, step, step.x, s.subs[step.x].ch, Apply(s, step).subs[step.x].ch)
  {
  }

  lemma SoloKeepsChannel(s: State, step: Step)
    requires Enabled(s, step) && Solo(step) && !step.Take? && !step.RawTake? && !step.RawClose?
    requires step.x in s.subs && step.x in Apply(s, step).subs
    ensures Apply(s, step).subs[step.x].ch == s.subs[step.x].ch
  {
    hide Terminal, WorkerAt;
    if step.SpawnWorker? || step.Finish? || step.Exit? { hide DoneSub; }
  }

  lemma AdvanceChannel(u: SubState)
    ensures Advance(u).ch == u.ch.(closed := u.ch.closed || u.phase.Closing?)
  {
  }

  lemma OnceChannel(s: State, x: nat)
    requires Enabled(s, OnceStep(x)) && x in Apply(s, OnceStep(x)).subs
    ensures MovesTo(s, OnceStep(x), x, s.subs[x].ch, Apply(s, OnceStep(x)).subs[x].ch)
  {
    OnceRecord(s, x);
    AdvanceChannel(s.subs[x]);
    hide Apply, Enabled, Advance;
  }

  lemma SweepChannel(s: State, c: nat)
    requires Enabled(s, Sweep(c)) && Subject(s, Sweep(c)) in Apply(s, Sweep(c)).subs
    ensures var x := Subject(s, Sweep(c)); MovesTo(s, Sweep(c), x, s.subs[x].ch, Apply(s, Sweep(c)).subs[x].ch)
  {
  }

  lemma CallChannel(s: State, step: Step)
    requires Enabled(s, step) && Touches(step) && !step.Deliver? && !step.Sweep?
    requires Subject(s, step) in s.subs && Subject(s, step) in Apply(s, step).subs
    ensures var x := Subject(s, step); MovesTo(s, step, x, s.subs[x].ch, Apply(s, step).subs[x].ch)
  {
    hide HasCalled, Call, MovesTo;
    var x := Subject(s, step);
    assert Apply(s, step).subs[x].ch == s.subs[x].ch by {
      if step.LoopCall? { CallKeepsChannel(s.subs[x], Loop(step.c, s.closers[step.c].k)); }
      else if !step.Track? { CallKeepsChannel(s.subs[x], if step.WatcherCall? then Watcher else User(step.n)); }
    }
    hide Apply, Enabled, Subject;
    StaysTo(s, step, x, s.subs[x].ch);
  }

  lemma CallKeepsChannel(u: SubState, who: Caller)
    ensures Call(u, who).ch == u.ch
  {
  }

  lemma StaysTo(s: State, step: Step, x: nat, ch: Chan)
    requires !step.Sweep? && !step.OnceStep? && !step.RawClose? && !step.Take? && !step.RawTake?
    ensures MovesTo(s, step, x, ch, ch)
  {
  }

  /** Of every run: between deliveries a channel is closed only by its own teardown, by its owner or by a sweep
      of Close, and gives up its events only to a receiver, oldest first. */
  lemma ChannelMoves(run: seq<State>, steps: seq<Step>, i: nat, x: nat)
    requires Labels(run, steps) && run[0] == INIT && i < |steps| && !steps[i].Deliver? && x in run[i].subs
    ensures x in run[i + 1].subs
    ensures MovesTo(run[i], steps[i], x, run[i].subs[x].ch, run[i + 1].subs[x].ch)
  {
    var s, step := run[i], steps[i];
    StepOf(run, steps, i);
    assert x < s.next;
    SubjectOnly(s, step);
    assert Solo(step) || step.OnceStep? ==> Subject(s, step) == step.x;
    hide Labels, Inv, Enabled, Apply, Subject;
    if Changes(step) && x == Subject(s, step) {
      if Solo(step) { SoloChannel(s, step); }
      else if step.OnceStep? { OnceChannel(s, step.x); }
      else if step.Sweep? { SweepChannel(s, step.c); }
      else { CallChannel(s, step); }
    } else {
      hide MovesTo;
      OtherSubject(s, step, x);
      if step.Subscribe? { SubscribeLeaves(s, step, x); }
    }
  }

  lemma OtherSubject(s: State, step: Step, x: nat)
    requires Enabled(s, step) && (Changes(step) ==> x != Subject(s, step))
    ensures forall ch :: MovesTo(s, step, x, ch, ch)
  {
    hide HasCalled, Terminal, Receives, NoDup, WorkerAt;
    assert !Closes(s, step, x) && !Hands(step, x);
  }
}
