/** The receiving side (ext/amqp/amqpclt/subscribe.go and the Start loops of ext/amqp) against an
    abstract broker. SubscribeManual's forwarder takes raw messages, refuses those it cannot decode
    and hands the others over an unbuffered channel to a second stage. That is the loop of a
    Consumer, attempt by attempt; that of a Listener, which settles a delivery in one go; or
    Subscribe's forwarder, which passes the message on and then acknowledges it. The broker may
    close the channel at any time. */
module Forwarding {
  import opened Wrappers
  import Channels
  import Listener
  import Settlement

  datatype Msg = Msg(id: nat, decodable: bool)

  datatype Verdict = Ack | Nack(requeue: bool)

  datatype ForwarderPc = Receiving | Holding(m: Msg) | Closed

  /** `trail` is what the handler has returned for the message so far. */
  datatype StagePc =
    | Idle
    | Handling(m: Msg, trail: seq<Settlement.Outcome>)
    | Sleeping(m: Msg, trail: seq<Settlement.Outcome>)
    | Offering(m: Msg)
    | Passed(m: Msg)
    | Gone

  datatype Mode = Consume(opts: Settlement.Options) | Listen(recorder: Listener.Recorder) | Auto

  /** How a message came to be settled: after the handler's last attempt, with the context done or not;
      in the sleep after an attempt; by what the bus reported; or by passing it on. */
  datatype Account =
    | AfterAttempt(trail: seq<Settlement.Outcome>, done: bool)
    | InSleep(trail: seq<Settlement.Outcome>)
    | Reported(receipts: seq<Channels.Receipt>, err: bool)
    | Direct

  datatype Settled = Settled(m: Msg, v: Verdict, how: Account)

  /** The broker's books: every published message is ready, unacknowledged on the open channel,
      acknowledged, or dead. */
  datatype Broker = Broker(
    open: bool, published: multiset<Msg>, ready: multiset<Msg>, unacked: multiset<Msg>,
    acked: multiset<Msg>, dead: multiset<Msg>)

  /** `pushed` is the library's channel of raw messages. `taken` lists what the forwarder received,
      `refused` what it nacked, `settled` the calls of the second stage, `passed` what Subscribe gave
      to its reader, and `leftover` the message in the forwarder's hand when it gave up. */
  datatype State = State(
    mode: Mode, ctxDone: bool, broker: Broker,
    pushed: seq<Msg>, fwd: ForwarderPc, stage: StagePc,
    taken: seq<Msg>, refused: seq<Msg>, settled: seq<Settled>, passed: seq<Msg>, leftover: seq<Msg>)

  datatype Step =
    | Publish(m: Msg)
    | Push(m: Msg)
    | CloseChannel
    | Cancel
    | Take
    | Leave
    | HandOver
    | GiveUp
    | Settle(receipts: seq<Channels.Receipt>, err: bool)
    | Finish(o: Settlement.Outcome)
    | Retry(o: Settlement.Outcome)
    | Wake
    | SleepCancelled
    | StageLeave
    | PassOn
    | AckPassed
    | StageGiveUp
    | Cleanup

  function Init(mode: Mode): State {
    State(mode, false, Broker(true, multiset{}, multiset{}, multiset{}, multiset{}, multiset{}),
          [], Receiving, Idle, [], [], [], [], [])
  }

  /** Consumer.handle after attempt k has returned o: the settling call, unless it goes on to sleep. */
  function Decides(opts: Settlement.Options, k: nat, o: Settlement.Outcome, done: bool): Option<Verdict> {
    if o.Ok? then Some(Ack)
    else if done then Some(Nack(true))
    else
      match Settlement.Classify(opts.classifier, Settlement.ErrorOf(o))
      case Drop => Some(Ack)
      case DeadLetter => Some(Nack(false))
      case Retry => if k >= opts.maxRetries then Some(Nack(false)) else None
  }

  /** The settling call of Listener.handle, which is its last, for what the bus has reported. */
  function Concludes(receipts: seq<Channels.Receipt>, err: bool, recorder: Listener.Recorder): Verdict {
    var calls := Listener.Settle(receipts, err, recorder);
    var last := calls[|calls| - 1];
    if last.Nack? then Nack(last.requeue) else Ack
  }

  predicate Enabled(s: State, step: Step) {
    match step
    case Publish(_) => true
    case Push(m) => s.broker.open && m in s.broker.ready
    case CloseChannel => s.broker.open
    case Cancel => !s.ctxDone
    case Take => s.fwd.Receiving? && s.pushed != []
    case Leave => s.fwd.Receiving? && (s.ctxDone || (!s.broker.open && s.pushed == []))
    case HandOver => s.fwd.Holding? && s.stage.Idle?
    case GiveUp => s.fwd.Holding? && s.ctxDone
    case Settle(_, _) => s.stage.Handling? && s.mode.Listen?
    case Finish(o) =>
      s.stage.Handling? && s.mode.Consume? && Decides(s.mode.opts, |s.stage.trail|, o, s.ctxDone) != None
    case Retry(o) =>
      s.stage.Handling? && s.mode.Consume? && Decides(s.mode.opts, |s.stage.trail|, o, s.ctxDone) == None
    case Wake => s.stage.Sleeping?
    case SleepCancelled => s.stage.Sleeping? && s.ctxDone
    case StageLeave => s.stage.Idle? && (s.ctxDone || s.fwd.Closed?)
    case PassOn => s.stage.Offering?
    case AckPassed => s.stage.Passed?
    case StageGiveUp => s.stage.Offering? && s.ctxDone
    case Cleanup => !s.mode.Auto? && s.stage.Gone? && s.broker.open
  }

  function Add(b: Broker, m: Msg): Broker {
    b.(published := b.published + multiset{m}, ready := b.ready + multiset{m})
  }

  function PushOut(b: Broker, m: Msg): Broker {
    b.(ready := b.ready - multiset{m}, unacked := b.unacked + multiset{m})
  }

  /** A settling call reaches the broker only while the channel is open. */
  function Book(b: Broker, m: Msg, v: Verdict): Broker {
    if !b.open then b
    else
      var left := b.unacked - multiset{m};
      match v
      case Ack => b.(unacked := left, acked := b.acked + multiset{m})
      case Nack(requeue) =>
        if requeue then b.(unacked := left, ready := b.ready + multiset{m})
        else b.(unacked := left, dead := b.dead + multiset{m})
  }

  /** Closing the channel puts everything unacknowledged back. */
  function Shut(b: Broker): Broker {
    b.(open := false, ready := b.ready + b.unacked, unacked := multiset{})
  }

  function StageSettle(s: State, m: Msg, v: Verdict, how: Account, pc: StagePc): State {
    s.(broker := Book(s.broker, m, v), settled := s.settled + [Settled(m, v, how)], stage := pc)
  }

  predicate StageStep(step: Step) {
    step.Settle? || step.Finish? || step.SleepCancelled? || step.AckPassed? || step.StageGiveUp?
  }

  /** The entry that a settling step of the second stage makes. */
  function Entry(s: State, step: Step): Settled
    requires Enabled(s, step) && StageStep(step)
  {
    var m := s.stage.m;
    match step
    case Settle(receipts, err) =>
      Settled(m, Concludes(receipts, err, s.mode.recorder), Reported(receipts, err))
    case Finish(o) =>
      var trail := s.stage.trail;
      Settled(m, Decides(s.mode.opts, |trail|, o, s.ctxDone).value, AfterAttempt(trail + [o], s.ctxDone))
    case SleepCancelled => Settled(m, Nack(true), InSleep(s.stage.trail))
    case AckPassed => Settled(m, Ack, Direct)
    case _ => Settled(m, Nack(true), Direct)
  }

  function Stage(s: State, step: Step): State
    requires Enabled(s, step) && StageStep(step)
  {
    var e := Entry(s, step);
    StageSettle(s, e.m, e.v, e.how, if step.StageGiveUp? then Gone else Idle)
  }

  function Apply(s: State, step: Step): State
    requires Enabled(s, step)
  {
    match step
    case Publish(m) => s.(broker := Add(s.broker, m))
    case Push(m) => s.(broker := PushOut(s.broker, m), pushed := s.pushed + [m])
    case CloseChannel => s.(broker := Shut(s.broker))
    case Cancel => s.(ctxDone := true)
    case Take =>
      var m := s.pushed[0];
      var s' := s.(pushed := s.pushed[1..], taken := s.taken + [m]);
      if m.decodable then s'.(fwd := Holding(m))
      else s'.(broker := Book(s.broker, m, Nack(false)), refused := s.refused + [m])
    case Leave => s.(fwd := Closed)
    case HandOver =>
      s.(fwd := Receiving, stage := if s.mode.Auto? then Offering(s.fwd.m) else Handling(s.fwd.m, []))
    case GiveUp => s.(fwd := Closed, leftover := [s.fwd.m])
    case Retry(o) => s.(stage := Sleeping(s.stage.m, s.stage.trail + [o]))
    case Wake => s.(stage := Handling(s.stage.m, s.stage.trail))
    case StageLeave => s.(stage := Gone)
    case PassOn => s.(stage := Passed(s.stage.m), passed := s.passed + [s.stage.m])
    case Cleanup => s.(broker := Shut(s.broker))
    case _ => Stage(s, step)
  }

  ghost predicate IsExec(s: State, steps: seq<Step>)
    decreases |steps|
  {
    steps != [] ==> Enabled(s, steps[0]) && IsExec(Apply(s, steps[0]), steps[1..])
  }

  ghost function Final(s: State, steps: seq<Step>): State
    requires IsExec(s, steps)
    decreases |steps|
  {
    if steps == [] then s else Final(Apply(s, steps[0]), steps[1..])
  }

  ghost predicate Reachable(s: State, steps: seq<Step>, mode: Mode) {
    IsExec(Init(mode), steps) && s == Final(Init(mode), steps)
  }

  // ---- the invariant ------------------------------------------------------------------

  function InForwarder(s: State): seq<Msg> { if s.fwd.Holding? then [s.fwd.m] else s.leftover }

  function InStage(s: State): seq<Msg> {
    match s.stage
    case Handling(m, _) => [m]
    case Sleeping(m, _) => [m]
    case Offering(m) => [m]
    case Passed(m) => [m]
    case _ => []
  }

  function Hands(s: State): multiset<Msg> { multiset(InStage(s)) + multiset(InForwarder(s)) }

  function Messages(log: seq<Settled>): seq<Msg> {
    if log == [] then [] else Messages(log[..|log| - 1]) + [log[|log| - 1].m]
  }

  function Acked(log: seq<Settled>): seq<Msg> {
    if log == [] then []
    else Acked(log[..|log| - 1]) + if log[|log| - 1].v == Ack then [log[|log| - 1].m] else []
  }

  function Sorted(ms: seq<Msg>, decodable: bool): seq<Msg> {
    if ms == [] then []
    else Sorted(ms[..|ms| - 1], decodable) + if ms[|ms| - 1].decodable == decodable then [ms[|ms| - 1]] else []
  }

  predicate Balanced(b: Broker) {
    b.published == b.ready + b.unacked + b.acked + b.dead && (!b.open ==> b.unacked == multiset{})
  }

  /** The books balance, and while the channel is open its unacknowledged messages are those in the
      library's channel and in the two hands. */
  ghost predicate BooksOk(s: State) {
    Balanced(s.broker) && (s.broker.open ==> s.broker.unacked == multiset(s.pushed) + Hands(s))
  }

  /** In order: what could be decoded was settled, or is in the stage's hand, or in the forwarder's. */
  ghost predicate OrderOk(s: State) {
    && Sorted(s.taken, true) == Messages(s.settled) + InStage(s) + InForwarder(s)
    && Sorted(s.taken, false) == s.refused
    && |s.leftover| <= 1
    && (s.leftover != [] ==> s.fwd.Closed? && s.ctxDone)
  }

  ghost predicate AutoOk(s: State) {
    && (!s.mode.Auto? ==> !s.stage.Offering? && !s.stage.Passed? && s.passed == [])
    && (s.mode.Auto? ==>
          && !s.stage.Handling? && !s.stage.Sleeping?
          && s.passed == Acked(s.settled) + (if s.stage.Passed? then [s.stage.m] else [])
          && (forall k :: 0 <= k < |s.settled| - 1 ==> s.settled[k].v == Ack)
          && (s.settled != [] && s.settled[|s.settled| - 1].v != Ack ==>
                s.stage.Gone? && s.settled[|s.settled| - 1].v == Nack(true)))
  }

  /** Consumer.handle goes on after each of these attempts. */
  ghost predicate GoesOn(opts: Settlement.Options, trail: seq<Settlement.Outcome>) {
    forall j :: 0 <= j < |trail| ==> Decides(opts, j, trail[j], false) == None
  }

  ghost predicate Accounted(opts: Settlement.Options, e: Settled) {
    match e.how
    case AfterAttempt(trail, done) =>
      trail != [] && (var n := |trail| - 1; GoesOn(opts, trail[..n]) && Decides(opts, n, trail[n], done) == Some(e.v))
    case InSleep(trail) => trail != [] && GoesOn(opts, trail) && e.v == Nack(true)
    case _ => false
  }

  ghost predicate ConsumeOk(s: State) {
    s.mode.Consume? ==>
      && (s.stage.Handling? || s.stage.Sleeping? ==> GoesOn(s.mode.opts, s.stage.trail))
      && (s.stage.Sleeping? ==> s.stage.trail != [])
      && (forall k :: 0 <= k < |s.settled| ==> Accounted(s.mode.opts, s.settled[k]))
      && (forall k :: 0 <= k < |s.settled| && s.settled[k].v == Nack(true) ==> s.ctxDone)
  }

  ghost predicate ListenOk(s: State) {
    s.mode.Listen? ==>
      && !s.stage.Sleeping?
      && forall k :: 0 <= k < |s.settled| ==>
           var e := s.settled[k];
           e.how.Reported? && e.v == Concludes(e.how.receipts, e.how.err, s.mode.recorder)
  }

  ghost predicate Inv(s: State) { BooksOk(s) && OrderOk(s) && AutoOk(s) && ConsumeOk(s) && ListenOk(s) }

  // ---- preservation -------------------------------------------------------------------

  lemma Snoc(log: seq<Settled>, e: Settled)
    ensures Messages(log + [e]) == Messages(log) + [e.m]
    ensures Acked(log + [e]) == Acked(log) + if e.v == Ack then [e.m] else []
  {
    assert (log + [e])[..|log|] == log;
  }

  lemma SortedSnoc(ms: seq<Msg>, m: Msg, decodable: bool)
    ensures Sorted(ms + [m], decodable) == Sorted(ms, decodable) + if m.decodable == decodable then [m] else []
  {
    assert (ms + [m])[..|ms|] == ms;
  }

  lemma BookBalances(b: Broker, m: Msg, v: Verdict)
    requires Balanced(b) && (b.open ==> m in b.unacked)
    ensures var b' := Book(b, m, v);
      Balanced(b') && b'.open == b.open && (b.open ==> b'.unacked + multiset{m} == b.unacked)
  {
    if b.open {
      var b', left := Book(b, m, v), b.unacked - multiset{m};
      assert left + multiset{m} == b.unacked;
      assert b.published == (b.ready + (left + multiset{m}) + b.acked) + b.dead;
      match v
      case Ack => assert b'.acked == b.acked + multiset{m};
      case Nack(requeue) =>
        assert if requeue then b'.ready == b.ready + multiset{m} else b'.dead == b.dead + multiset{m};
    }
  }

  lemma PushBalances(b: Broker, m: Msg)
    requires Balanced(b) && b.open && m in b.ready
    ensures Balanced(PushOut(b, m))
  {
  }

  lemma ShutBalances(b: Broker)
    requires Balanced(b)
    ensures Balanced(Shut(b))
  {
  }

  predicate BrokerStep(step: Step) { step.Publish? || step.Push? || step.CloseChannel? || step.Cleanup? }

  /** The books of s' follow from those of s if its broker balances and its open messages match. */
  lemma BooksFrom(s: State, s': State)
    requires Balanced(s'.broker)
    requires s'.broker.open ==> s'.broker.unacked == multiset(s'.pushed) + Hands(s')
    ensures BooksOk(s')
  {
  }

  lemma BooksSay(s: State)
    requires BooksOk(s)
    ensures Balanced(s.broker) && (s.broker.open ==> s.broker.unacked == multiset(s.pushed) + Hands(s))
  {
  }

  lemma LessOne(whole: multiset<Msg>, rest: multiset<Msg>, a: multiset<Msg>, b: multiset<Msg>, m: Msg)
    requires rest + multiset{m} == whole && (whole == (a + multiset{m}) + b || whole == a + (b + multiset{m}))
    ensures rest == a + b
  {
    forall x ensures rest[x] == (a + b)[x] {
      assert (rest + multiset{m})[x] == whole[x];
    }
  }

  lemma LessOneOf(b: Broker, b': Broker, rest: multiset<Msg>, m: Msg)
    requires b.open ==> b'.unacked + multiset{m} == b.unacked && b.unacked == rest + multiset{m}
    ensures b.open ==> b'.unacked == rest
  {
    if b.open { LessOne(b.unacked, b'.unacked, rest, multiset{}, m); }
  }

  lemma TakeInHand(s: State)
    requires OrderOk(s) && Enabled(s, Take)
    ensures s.pushed != [] && s.pushed == [s.pushed[0]] + Apply(s, Take).pushed
    ensures InStage(Apply(s, Take)) == InStage(s) && InForwarder(s) == []
    ensures InForwarder(Apply(s, Take)) == if s.pushed[0].decodable then [s.pushed[0]] else []
  {
    hide Sorted, Messages, Book;
  }

  lemma TakeHands(s: State)
    requires OrderOk(s) && Enabled(s, Take)
    ensures Hands(Apply(s, Take)) == Hands(s) + if s.pushed[0].decodable then multiset{s.pushed[0]} else multiset{}
    ensures multiset(s.pushed) == multiset(Apply(s, Take).pushed) + multiset{s.pushed[0]}
  {
    TakeInHand(s);
    hide OrderOk, Apply, Enabled, InStage, InForwarder;
    assert multiset(s.pushed) == multiset([s.pushed[0]]) + multiset(Apply(s, Take).pushed);
  }

  /** A message moves from one place to another, or, if `gone`, out of sight. */
  lemma Moved(from: multiset<Msg>, from': multiset<Msg>, to: multiset<Msg>, to': multiset<Msg>, m: Msg, gone: bool)
    requires from == from' + multiset{m}
    requires to' == if gone then to else to + multiset{m}
    ensures from + to == if gone then (from' + to') + multiset{m} else from' + to'
  {
    forall x ensures (from + to)[x] == (from' + to')[x] + if gone && x == m then 1 else 0 {
      assert from[x] == from'[x] + multiset{m}[x];
    }
  }

  lemma TakeSays(s: State)
    requires Enabled(s, Take)
    ensures s.pushed != []
    ensures var m := s.pushed[0];
      Apply(s, Take).broker == if m.decodable then s.broker else Book(s.broker, m, Nack(false))
  {
  }

  lemma TakeBooks(s: State)
    requires BooksOk(s) && OrderOk(s) && Enabled(s, Take)
    ensures BooksOk(Apply(s, Take))
  {
    hide Apply, Enabled, OrderOk, BooksOk, Balanced, Book, Hands;
    TakeSays(s);
    TakeHands(s);
    BooksSay(s);
    var m, s' := s.pushed[0], Apply(s, Take);
    Moved(multiset(s.pushed), multiset(s'.pushed), Hands(s), Hands(s'), m, !m.decodable);
    if !m.decodable {
      assert s.broker.open ==> m in s.broker.unacked;
      BookBalances(s.broker, m, Nack(false));
      LessOneOf(s.broker, s'.broker, multiset(s'.pushed) + Hands(s'), m);
    }
    BooksFrom(s, s');
  }

  lemma StageSays(s: State, step: Step)
    requires Enabled(s, step) && StageStep(step)
    ensures InStage(s) == [Entry(s, step).m] && InStage(Apply(s, step)) == []
    ensures Apply(s, step).settled == s.settled + [Entry(s, step)]
    ensures Apply(s, step).broker == Book(s.broker, Entry(s, step).m, Entry(s, step).v)
    ensures var s' := Apply(s, step);
      && s'.taken == s.taken && s'.refused == s.refused && s'.pushed == s.pushed && s'.fwd == s.fwd
      && s'.leftover == s.leftover && s'.ctxDone == s.ctxDone
  {
    hide Book;
  }

  lemma StageHands(s: State, step: Step)
    requires Enabled(s, step) && StageStep(step)
    ensures Hands(s) == Hands(Apply(s, step)) + multiset{Entry(s, step).m}
    ensures Entry(s, step).m in Hands(s)
  {
    hide Apply, Enabled, InStage, Entry, StageStep, Book;
    StageSays(s, step);
    assert InForwarder(Apply(s, step)) == InForwarder(s);
  }

  lemma StageBooks(s: State, step: Step)
    requires BooksOk(s) && Enabled(s, step) && StageStep(step)
    ensures BooksOk(Apply(s, step))
  {
    hide BooksOk, Balanced, Book, Hands, Apply, Enabled, InStage, Entry, StageStep;
    StageHands(s, step);
    StageSays(s, step);
    BooksSay(s);
    var e, s' := Entry(s, step), Apply(s, step);
    assert s.broker.open ==> e.m in s.broker.unacked;
    BookBalances(s.broker, e.m, e.v);
    if s.broker.open {
      LessOne(s.broker.unacked, s'.broker.unacked, multiset(s'.pushed), Hands(s'), e.m);
    }
    BooksFrom(s, s');
  }

  lemma BrokerHands(s: State, step: Step)
    requires Enabled(s, step) && BrokerStep(step)
    ensures Hands(Apply(s, step)) == Hands(s)
  {
    var s' := Apply(s, step);
    assert s'.fwd == s.fwd && s'.stage == s.stage && s'.leftover == s.leftover;
  }

  lemma PushBooks(s: State, m: Msg)
    requires BooksOk(s) && Enabled(s, Push(m)) && Hands(Apply(s, Push(m))) == Hands(s)
    ensures BooksOk(Apply(s, Push(m)))
  {
    hide Hands, Balanced, BooksOk;
    var s' := Apply(s, Push(m));
    BooksSay(s);
    PushBalances(s.broker, m);
    assert multiset(s'.pushed) == multiset(s.pushed) + multiset{m};
    MoreOne(s.broker.unacked, multiset(s.pushed), Hands(s), m);
    BooksFrom(s, s');
  }

  lemma BrokerBooks(s: State, step: Step)
    requires BooksOk(s) && Enabled(s, step) && BrokerStep(step)
    ensures BooksOk(Apply(s, step))
  {
    hide Hands, Balanced, BooksOk;
    BrokerHands(s, step);
    if step.Push? {
      PushBooks(s, step.m);
    } else {
      BooksSay(s);
      AddBalances(s.broker, if step.Publish? then step.m else Msg(0, true));
      ShutBalances(s.broker);
      BooksFrom(s, Apply(s, step));
    }
  }

  lemma MoreOne(whole: multiset<Msg>, a: multiset<Msg>, b: multiset<Msg>, m: Msg)
    requires whole == a + b
    ensures whole + multiset{m} == a + multiset{m} + b
  {
  }

  lemma AddBalances(b: Broker, m: Msg)
    requires Balanced(b)
    ensures Balanced(Add(b, m))
  {
  }

  /** What is in the two hands, in order, is not changed by any step but taking and settling. */
  lemma OtherSays(s: State, step: Step)
    requires OrderOk(s) && Enabled(s, step) && !step.Take? && !StageStep(step)
    ensures var s' := Apply(s, step);
      && InStage(s') + InForwarder(s') == InStage(s) + InForwarder(s)
      && s'.taken == s.taken && s'.refused == s.refused && s'.settled == s.settled && |s'.leftover| <= 1
      && (s'.leftover != [] ==> s'.fwd.Closed? && s'.ctxDone)
  {
    hide Sorted, Messages, Book;
  }

  lemma HandHands(s: State, step: Step)
    requires OrderOk(s) && Enabled(s, step)
    requires !step.Take? && !StageStep(step) && !BrokerStep(step)
    ensures Hands(Apply(s, step)) == Hands(s)
  {
    OtherSays(s, step);
    hide Apply, Enabled, OrderOk, InStage, InForwarder;
    var s' := Apply(s, step);
    assert multiset(InStage(s') + InForwarder(s')) == Hands(s');
    assert multiset(InStage(s) + InForwarder(s)) == Hands(s);
  }

  lemma HandBooks(s: State, step: Step)
    requires BooksOk(s) && OrderOk(s) && Enabled(s, step)
    requires !step.Take? && !StageStep(step) && !BrokerStep(step)
    ensures BooksOk(Apply(s, step))
  {
    hide BooksOk, OrderOk, Hands, Balanced;
    HandHands(s, step);
    BooksSay(s);
    BooksFrom(s, Apply(s, step));
  }

  lemma BooksKeep(s: State, step: Step)
    requires BooksOk(s) && OrderOk(s) && Enabled(s, step)
    ensures BooksOk(Apply(s, step))
  {
    hide BooksOk, OrderOk, Apply, Enabled;
    if step.Take? { TakeBooks(s); }
    else if StageStep(step) { StageBooks(s, step); }
    else if BrokerStep(step) { BrokerBooks(s, step); }
    else { HandBooks(s, step); }
  }

  lemma TakeOrder(s: State)
    requires OrderOk(s) && Enabled(s, Take)
    ensures OrderOk(Apply(s, Take))
  {
    hide Sorted, Messages;
    SortedSnoc(s.taken, s.pushed[0], true);
    SortedSnoc(s.taken, s.pushed[0], false);
    assert InForwarder(s) == [];
    assert InForwarder(Apply(s, Take)) == if s.pushed[0].decodable then [s.pushed[0]] else [];
  }

  lemma StageOrder(s: State, step: Step)
    requires OrderOk(s) && Enabled(s, step) && StageStep(step)
    ensures OrderOk(Apply(s, step))
  {
    hide Apply, Enabled, StageStep, InStage, Entry, Sorted, Messages;
    StageSays(s, step);
    var s' := Apply(s, step);
    Snoc(s.settled, Entry(s, step));
    assert Messages(s'.settled) + InStage(s') == Messages(s.settled) + InStage(s);
  }

  lemma OtherOrder(s: State, step: Step)
    requires OrderOk(s) && Enabled(s, step) && !step.Take? && !StageStep(step)
    ensures OrderOk(Apply(s, step))
  {
    OtherSays(s, step);
    hide Sorted, Messages, Apply, Enabled, InStage, InForwarder, StageStep;
    var s' := Apply(s, step);
    assert Messages(s.settled) + InStage(s) + InForwarder(s) == Messages(s.settled) + (InStage(s) + InForwarder(s));
    assert Messages(s'.settled) + InStage(s') + InForwarder(s')
        == Messages(s.settled) + (InStage(s') + InForwarder(s'));
  }

  lemma OrderKeeps(s: State, step: Step)
    requires OrderOk(s) && Enabled(s, step)
    ensures OrderOk(Apply(s, step))
  {
    hide OrderOk, Apply, Enabled;
    if step.Take? { TakeOrder(s); }
    else if StageStep(step) { StageOrder(s, step); }
    else { OtherOrder(s, step); }
  }

  lemma AutoSettles(s: State, step: Step)
    requires AutoOk(s) && Enabled(s, step) && (step.AckPassed? || step.StageGiveUp?)
    ensures AutoOk(Apply(s, step))
  {
    hide Acked, Book;
    Snoc(s.settled, Entry(s, step));
    assert Apply(s, step).settled == s.settled + [Entry(s, step)];
  }

  lemma AutoKeeps(s: State, step: Step)
    requires AutoOk(s) && Enabled(s, step)
    ensures AutoOk(Apply(s, step))
  {
    if step.AckPassed? || step.StageGiveUp? {
      hide AutoOk, Apply, Enabled;
      AutoSettles(s, step);
    } else {
      hide Acked;
    }
  }

  lemma EntryAccounted(s: State, step: Step)
    requires ConsumeOk(s) && AutoOk(s) && s.mode.Consume? && Enabled(s, step) && StageStep(step)
    ensures Accounted(s.mode.opts, Entry(s, step)) && (Entry(s, step).v == Nack(true) ==> s.ctxDone)
  {
    if step.Finish? {
      var trail := s.stage.trail + [step.o];
      assert trail[..|trail| - 1] == s.stage.trail;
    }
  }

  lemma ConsumeKeeps(s: State, step: Step)
    requires ConsumeOk(s) && AutoOk(s) && Enabled(s, step)
    ensures ConsumeOk(Apply(s, step))
  {
    var s' := Apply(s, step);
    if s.mode.Consume? {
      if StageStep(step) {
        EntryAccounted(s, step);
        StageSays(s, step);
        hide Accounted, GoesOn, Entry;
        assert s'.mode == s.mode && !s'.stage.Handling? && !s'.stage.Sleeping?;
      } else {
        hide Accounted, Book, AutoOk;
        assert s'.settled == s.settled && s'.mode == s.mode && (s.ctxDone ==> s'.ctxDone);
      }
    }
  }

  lemma ListenKeeps(s: State, step: Step)
    requires ListenOk(s) && AutoOk(s) && Enabled(s, step)
    ensures ListenOk(Apply(s, step))
  {
    var s' := Apply(s, step);
    if s.mode.Listen? {
      if StageStep(step) {
        StageSays(s, step);
        hide Book, Concludes;
        assert step.Settle? && !s'.stage.Sleeping? && s'.mode == s.mode;
      } else {
        hide Book, AutoOk, Concludes;
        assert s'.settled == s.settled && s'.mode == s.mode;
      }
    }
  }

  lemma {:induction false} ExecKeeps(s: State, steps: seq<Step>)
    requires Inv(s) && IsExec(s, steps)
    ensures Inv(Final(s, steps))
    decreases |steps|
  {
    hide BooksOk, OrderOk, AutoOk, ConsumeOk, ListenOk, Apply, Enabled;
    if steps != [] {
      BooksKeep(s, steps[0]);
      OrderKeeps(s, steps[0]);
      AutoKeeps(s, steps[0]);
      ConsumeKeeps(s, steps[0]);
      ListenKeeps(s, steps[0]);
      ExecKeeps(Apply(s, steps[0]), steps[1..]);
    }
  }

  lemma ReachableInv(s: State, steps: seq<Step>, mode: Mode)
    requires Reachable(s, steps, mode)
    ensures Inv(s)
  {
    hide IsExec, Final, BooksOk, OrderOk, AutoOk, ConsumeOk, ListenOk;
    InitOk(mode);
    ExecKeeps(Init(mode), steps);
  }

  lemma InitOk(mode: Mode)
    ensures Inv(Init(mode))
  {
  }

  // ---- results --------------------------------------------------------------------------

  /** No message is lost or duplicated in the broker's books, and once the channel is closed
      everything neither acknowledged nor dead-lettered is ready for redelivery. */
  lemma NothingIsLost(s: State, steps: seq<Step>, mode: Mode)
    requires Reachable(s, steps, mode)
    ensures var b := s.broker;
      && b.published == b.ready + b.unacked + b.acked + b.dead
      && (!b.open ==> b.ready == b.published - b.acked - b.dead)
  {
    ReachableInv(s, steps, mode);
  }

  /** Main result: what was taken and could not be decoded was nacked, once each and in order; what
      could be decoded was settled by the second stage, once each and in order, except for at most
      one message in the stage's hand and one in the forwarder's. So at most two are unsettled. */
  lemma SettledInOrder(s: State, steps: seq<Step>, mode: Mode)
    requires Reachable(s, steps, mode)
    ensures s.refused == Sorted(s.taken, false)
    ensures Messages(s.settled) <= Sorted(s.taken, true)
    ensures Sorted(s.taken, true) == Messages(s.settled) + InStage(s) + InForwarder(s)
    ensures |s.taken| - |s.refused| - |s.settled| <= 2
  {
    ReachableInv(s, steps, mode);
    SortedLength(s.taken);
    MessagesLength(s.settled);
  }

  lemma {:induction false} SortedLength(ms: seq<Msg>)
    ensures |Sorted(ms, true)| + |Sorted(ms, false)| == |ms|
  {
    if ms != [] { SortedLength(ms[..|ms| - 1]); }
  }

  lemma {:induction false} MessagesLength(log: seq<Settled>)
    ensures |Messages(log)| == |log|
  {
    if log != [] { MessagesLength(log[..|log| - 1]); }
  }

  function TrailOf(how: Account): seq<Settlement.Outcome> {
    if how.AfterAttempt? || how.InSleep? then how.trail else []
  }

  /** The world in which Consumer.handle sees what led to a settlement. */
  function WorldOf(how: Account): Settlement.World {
    var trail := TrailOf(how);
    Settlement.World(
      k => if 0 <= k < |trail| then trail[k] else Settlement.Ok,
      k => k == |trail| - 1 && how.AfterAttempt? && how.done,
      k => k == |trail| - 1 && how.InSleep?)
  }

  function EffectOf(v: Verdict): Settlement.Effect {
    match v case Ack => Settlement.Ack case Nack(requeue) => Settlement.Nack(requeue)
  }

  /** What led to the settlement is a complete run of Consumer.handle, which ends in that settlement. */
  lemma AccountIsRun(opts: Settlement.Options, e: Settled)
    requires Accounted(opts, e)
    ensures var w, n := WorldOf(e.how), |TrailOf(e.how)| - 1;
      && 0 <= n == Settlement.ConsumerLast(opts, w)
      && (var log := Settlement.ConsumerRun(Settlement.Full, opts, w);
          |log| > 0 && log[|log| - 1] == EffectOf(e.v) && Settlement.Endings(log) == [EffectOf(e.v)])
  {
    var w, trail := WorldOf(e.how), TrailOf(e.how);
    var n := |trail| - 1;
    forall j | 0 <= j < n ensures !Settlement.ConsumerStops(opts, w, j) {
      assert e.how.AfterAttempt? ==> trail[..n][j] == trail[j];
      assert Decides(opts, j, trail[j], false) == None;
    }
    assert e.how.InSleep? ==> Decides(opts, n, trail[n], false) == None;
    assert Settlement.ConsumerStops(opts, w, n);
    assert n > 0 ==> !Settlement.ConsumerStops(opts, w, n - 1);
    assert Settlement.ConsumerLast(opts, w) == n;
    var verdict := Settlement.ConsumerVerdict(opts, w, n);
    assert verdict != [] && verdict[|verdict| - 1] == EffectOf(e.v);
    Settlement.SettledExactlyOnce(Settlement.Full, opts, w);
  }

  /** The loop of a Consumer composed with its handler: of every run, each message settled is settled
      as by one complete run of Consumer.handle on what its handler returned, with exactly one
      settlement, and requeued only if the context is done. */
  lemma SettledByConsumer(s: State, steps: seq<Step>, opts: Settlement.Options, k: nat)
    requires Reachable(s, steps, Consume(opts)) && k < |s.settled|
    ensures var e := s.settled[k];
      var log := Settlement.ConsumerRun(Settlement.Full, opts, WorldOf(e.how));
      && TrailOf(e.how) != [] && Settlement.ConsumerLast(opts, WorldOf(e.how)) == |TrailOf(e.how)| - 1
      && Settlement.Endings(log) == [EffectOf(e.v)]
      && (e.v == Nack(true) ==> s.ctxDone)
  {
    ReachableInv(s, steps, Consume(opts));
    ModeStays(Init(Consume(opts)), steps);
    AccountIsRun(opts, s.settled[k]);
  }

  /** The loop of a Listener composed with its handler: of every run, each message settled is settled as
      Listener.handle does on what the bus reported, with exactly one settlement, after everything else,
      and acknowledged only if a configured recorder has accepted the report before. */
  lemma SettledByListener(s: State, steps: seq<Step>, recorder: Listener.Recorder, k: nat)
    requires Reachable(s, steps, Listen(recorder)) && k < |s.settled|
    ensures var e := s.settled[k];
      && e.how.Reported?
      && (var calls := Listener.Settle(e.how.receipts, e.how.err, recorder);
          && |calls| > 0 && calls[|calls| - 1] == (match e.v case Ack => Listener.Ack case Nack(q) => Listener.Nack(q))
          && (forall i :: 0 <= i < |calls| - 1 ==> !Listener.IsSettlement(calls[i]))
          && (e.v == Ack && recorder.Recorder? ==> calls == [Listener.Recorded(e.how.receipts, true), Listener.Ack]))
  {
    ReachableInv(s, steps, Listen(recorder));
    ModeStays(Init(Listen(recorder)), steps);
    var how := s.settled[k].how;
    Listener.SettledOnceAndLast(how.receipts, how.err, recorder);
    Listener.AckFollowsRecord(how.receipts, how.err, recorder);
  }

  /** When both stages have ended, the only message taken and not settled is the one the forwarder
      held when the context was cancelled, and closing the channel makes it ready again. */
  lemma OnlyLeftoverUnsettled(s: State, steps: seq<Step>, mode: Mode)
    requires Reachable(s, steps, mode) && s.fwd.Closed? && s.stage.Gone?
    ensures Sorted(s.taken, true) == Messages(s.settled) + s.leftover && |s.leftover| <= 1
    ensures !s.ctxDone ==> s.leftover == []
    ensures s.broker.open && s.leftover != [] ==> s.leftover[0] in Shut(s.broker).ready
  {
    ReachableInv(s, steps, mode);
    assert s.leftover != [] ==> s.leftover[0] in multiset(s.leftover);
  }

  /** Subscribe acknowledges exactly what it passed on, in order and after passing it on; a message
      it could not pass on is requeued, and is the last it touches. */
  lemma AutoAcksWhatItPassed(s: State, steps: seq<Step>)
    requires Reachable(s, steps, Auto)
    ensures s.passed == Acked(s.settled) + (if s.stage.Passed? then [s.stage.m] else [])
    ensures forall k :: 0 <= k < |s.settled| ==>
      s.settled[k].v == Ack || (k == |s.settled| - 1 && s.settled[k].v == Nack(true))
  {
    ReachableInv(s, steps, Auto);
    ModeStays(Init(Auto), steps);
  }

  lemma {:induction false} ModeStays(s: State, steps: seq<Step>)
    requires IsExec(s, steps)
    ensures Final(s, steps).mode == s.mode
    decreases |steps|
  {
    if steps != [] { ModeStays(Apply(s, steps[0]), steps[1..]); }
  }

  predicate Internal(step: Step) { !step.Publish? && !step.Push? && !step.CloseChannel? && !step.Cancel? }

  /** Once the context is cancelled the two stages can always go on until both have ended. */
  lemma NeverStuck(s: State, steps: seq<Step>, mode: Mode)
    requires Reachable(s, steps, mode) && s.ctxDone && !(s.fwd.Closed? && s.stage.Gone?)
    ensures exists step :: Internal(step) && Enabled(s, step)
  {
    ReachableInv(s, steps, mode);
    match s.stage
    case Idle => assert Enabled(s, StageLeave);
    case Handling(_, _) =>
      if s.mode.Listen? { assert Enabled(s, Settle([], true)); } else { assert Enabled(s, Finish(Settlement.Ok)); }
    case Sleeping(_, _) => assert Enabled(s, Wake);
    case Offering(_) => assert Enabled(s, StageGiveUp);
    case Passed(_) => assert Enabled(s, AckPassed);
    case Gone => if s.fwd.Holding? { assert Enabled(s, GiveUp); } else { assert Enabled(s, Leave); }
  }

  // ---- shutting down ends -----------------------------------------------------------------

  /** A bound on the steps the two stages still take once the context is done: four for each raw message
      not read yet, and the way of either stage and of the broker's channel to their end. */
  function Work(s: State): nat {
    4 * |s.pushed|
    + (match s.fwd case Receiving => 1 case Holding(_) => 4 case Closed => 0)
    + (match s.stage
       case Idle => 2
       case Handling(_, _) => 3
       case Sleeping(_, _) => 4
       case Offering(_) => 4
       case Passed(_) => 3
       case Gone => 0)
    + if s.broker.open && !s.mode.Auto? then 1 else 0
  }

  lemma TakeProgress(s: State)
    requires Enabled(s, Take)
    ensures Work(Apply(s, Take)) < Work(s)
  {
    assert |Apply(s, Take).pushed| == |s.pushed| - 1;
  }

  lemma ForwarderProgress(s: State, step: Step)
    requires Enabled(s, step) && (step.Leave? || step.HandOver? || step.GiveUp?)
    ensures Work(Apply(s, step)) < Work(s)
  {
  }

  lemma SettleProgress(s: State, step: Step)
    requires Enabled(s, step) && StageStep(step)
    ensures Work(Apply(s, step)) < Work(s)
  {
    hide Entry;
    assert Apply(s, step).broker.open == s.broker.open;
  }

  lemma StageProgress(s: State, step: Step)
    requires s.ctxDone && Enabled(s, step)
    requires step.Retry? || step.Wake? || step.StageLeave? || step.PassOn? || step.Cleanup?
    ensures Work(Apply(s, step)) < Work(s)
  {
  }

  lemma DoneStays(s: State, step: Step)
    requires s.ctxDone && Enabled(s, step)
    ensures Apply(s, step).ctxDone
  {
    hide Book, Entry;
  }

  /** Once the context is done every step of the two stages brings the work down; an attempt that
      fails is then the last. */
  lemma Progress(s: State, step: Step)
    requires s.ctxDone && Enabled(s, step) && Internal(step)
    ensures Apply(s, step).ctxDone && Work(Apply(s, step)) < Work(s)
  {
    hide Apply, Enabled, Work;
    DoneStays(s, step);
    if step.Take? { TakeProgress(s); }
    else if step.Leave? || step.HandOver? || step.GiveUp? { ForwarderProgress(s, step); }
    else if StageStep(step) { SettleProgress(s, step); }
    else { StageProgress(s, step); }
  }

  lemma EnvironmentAdds(s: State, step: Step)
    requires s.ctxDone && Enabled(s, step) && !Internal(step)
    ensures Apply(s, step).ctxDone && Work(Apply(s, step)) <= Work(s) + if step.Push? then 4 else 0
  {
  }

  ghost function CountInternal(steps: seq<Step>): nat {
    if steps == [] then 0 else (if Internal(steps[0]) then 1 else 0) + CountInternal(steps[1..])
  }

  ghost function CountPushes(steps: seq<Step>): nat {
    if steps == [] then 0 else (if steps[0].Push? then 1 else 0) + CountPushes(steps[1..])
  }

  /** From the moment the context is done, the two stages take at most as many steps as the work then,
      plus four for each message the broker still pushes. */
  lemma {:induction false} StopBound(s: State, steps: seq<Step>)
    requires s.ctxDone && IsExec(s, steps)
    ensures CountInternal(steps) + Work(Final(s, steps)) <= Work(s) + 4 * CountPushes(steps)
    decreases |steps|
  {
    hide Apply, Enabled, Work, Internal;
    if steps != [] {
      if Internal(steps[0]) { Progress(s, steps[0]); } else { EnvironmentAdds(s, steps[0]); }
      StopBound(Apply(s, steps[0]), steps[1..]);
    }
  }
}
