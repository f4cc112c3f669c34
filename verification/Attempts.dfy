/** What follows each attempt of the two retry loops, read off their logs: the decision of the classifier,
    the nil one included, the sleep and the next attempt, or the end of the message. */
module Attempts {
  import opened Backoff
  import opened Settlement

  lemma {:induction false} RoundsAt(opts: Options, n: nat, k: nat)
    requires k < n
    ensures |Rounds(opts, n)| == 2 * n
    ensures Rounds(opts, n)[2 * k] == Handle(k) && Rounds(opts, n)[2 * k + 1] == Sleeping(Sleep(opts.backoff, k))
    decreases n
  {
    if k < n - 1 { RoundsAt(opts, n - 1, k); } else { RoundsLength(opts, n - 1); }
  }

  lemma {:induction false} RoundsLength(opts: Options, n: nat)
    ensures |Rounds(opts, n)| == 2 * n
  {
    if n > 0 { RoundsLength(opts, n - 1); }
  }

  /** A loop's log, cut at the call of attempt k. */
  lemma CutAt(opts: Options, n: nat, end: seq<Effect>, k: nat)
    requires k <= n
    ensures var log := Rounds(opts, n) + [Handle(n)] + end;
      && 2 * k < |log| && log[2 * k] == Handle(k)
      && (k == n ==> log[2 * k + 1..] == end)
      && (k < n ==> |log| > 2 * k + 2 && log[2 * k + 2] == Handle(k + 1))
      && (k < n ==> log[2 * k + 1] == Sleeping(Sleep(opts.backoff, k)))
  {
    var log := Rounds(opts, n) + [Handle(n)] + end;
    RoundsLength(opts, n);
    if k < n { RoundsAt(opts, n, k); }
    if k + 1 < n { RoundsAt(opts, n, k + 1); }
  }

  /** After an attempt that is to be retried: the sleep and the next attempt, if the limit and the context
      allow it. */
  predicate Retries(opts: Options, w: World, k: nat, rest: seq<Effect>, exhausted: seq<Effect>, ended: seq<Effect>) {
    var pause := Sleeping(Sleep(opts.backoff, k));
    if k >= opts.maxRetries then rest == exhausted
    else if w.doneInSleep(k) then rest == [pause] + ended
    else |rest| > 1 && rest[0] == pause && rest[1] == Handle(k + 1)
  }

  /** What follows each call of the handler in Consumer.handle. */
  lemma ConsumerAttempt(opts: Options, w: World, k: nat)
    requires k < HandlerCalls(ConsumerRun(Full, opts, w))
    ensures var log, o := ConsumerRun(Full, opts, w), w.handler(k);
      && 2 * k < |log| && log[2 * k] == Handle(k)
      && (var rest := log[2 * k + 1..];
          if o.Ok? then rest == Hooks(opts.hooks) + [Ack]
          else if w.doneAfter(k) then rest == [Nack(true)]
          else
            var e := if o.Panicked? then HandlerPanic else o.err;
            match opts.classifier
            case Default =>
              if e.Unrecoverable? then rest == [Nack(false)] else Retries(opts, w, k, rest, [Nack(false)], [Nack(true)])
            case Custom(decide) =>
              match decide(e)
              case Drop => rest == [Ack]
              case DeadLetter => rest == [Nack(false)]
              case Retry => Retries(opts, w, k, rest, [Nack(false)], [Nack(true)]))
  {
    var n := ConsumerLast(opts, w);
    ConsumerRunShape(opts, w);
    CutAt(opts, n, ConsumerVerdict(opts, w, n), k);
    assert k < n ==> !ConsumerStops(opts, w, k);
    assert ConsumerStops(opts, w, n);
    hide Hooks, Sleep, Rounds, HandlerCalls;
  }

  /** And in ConsumerPool.process. */
  lemma PoolAttempt(opts: Options, w: World, k: nat)
    requires k < HandlerCalls(PoolRun(opts, w))
    ensures var log, o := PoolRun(opts, w), w.handler(k);
      && 2 * k < |log| && log[2 * k] == Handle(k)
      && (var rest := log[2 * k + 1..];
          if o.Ok? then rest == []
          else if o.Panicked? then rest == [DeadLettered]
          else
            match opts.classifier
            case Default =>
              if o.err.Unrecoverable? then rest == [DeadLettered]
              else Retries(opts, w, k, rest, [DeadLettered], [DeadLettered])
            case Custom(decide) =>
              match decide(o.err)
              case Drop => rest == []
              case DeadLetter => rest == [DeadLettered]
              case Retry => Retries(opts, w, k, rest, [DeadLettered], [DeadLettered]))
  {
    var n := PoolLast(opts, w);
    PoolRunShape(opts, w);
    CutAt(opts, n, PoolVerdict(opts, w, n), k);
    assert k < n ==> !PoolStops(opts, w, k);
    assert PoolStops(opts, w, n);
    hide Sleep, Rounds, HandlerCalls;
  }

  lemma ConsumerLosesNothing(opts: Options, w: World)
    requires opts.classifier.Default?
    ensures var log := ConsumerRun(Full, opts, w);
      |log| > 0 && HandlerCalls(log) > 0 && (log[|log| - 1] == Ack <==> w.handler(HandlerCalls(log) - 1).Ok?)
  {
    var log := ConsumerRun(Full, opts, w);
    ConsumerRunShape(opts, w);
    SettledExactlyOnce(Full, opts, w);
    ConsumerAttempt(opts, w, HandlerCalls(log) - 1);
    hide ConsumerRun, HandlerCalls, Hooks, ConsumerLast;
  }

  lemma PoolLosesNothing(opts: Options, w: World)
    requires opts.classifier.Default? && opts.maxRetries >= 0
    ensures var log := PoolRun(opts, w);
      |log| > 0 && HandlerCalls(log) > 0 && (log[|log| - 1] == DeadLettered <==> !w.handler(HandlerCalls(log) - 1).Ok?)
  {
    var log := PoolRun(opts, w);
    PoolRunShape(opts, w);
    PoolAttempt(opts, w, HandlerCalls(log) - 1);
  }

  /** With the nil classifier nothing that failed is taken for done: the delivery is acknowledged exactly if
      the last attempt succeeded, and the pool dead-letters exactly if it did not. */
  lemma DefaultLosesNothing(opts: Options, w: World)
    requires opts.classifier.Default?
    ensures var log := ConsumerRun(Full, opts, w);
      |log| > 0 && HandlerCalls(log) > 0 && (log[|log| - 1] == Ack <==> w.handler(HandlerCalls(log) - 1).Ok?)
    ensures opts.maxRetries >= 0 ==>
      var log := PoolRun(opts, w);
      |log| > 0 && HandlerCalls(log) > 0 && (log[|log| - 1] == DeadLettered <==> !w.handler(HandlerCalls(log) - 1).Ok?)
  {
    hide ConsumerRun, PoolRun, HandlerCalls;
    ConsumerLosesNothing(opts, w);
    if opts.maxRetries >= 0 { PoolLosesNothing(opts, w); }
  }

  /** The hooks that are set are called once each, in order, and no others. */
  lemma {:induction false} HooksMean(hooks: seq<bool>)
    ensures forall c :: c in Hooks(hooks) ==> c.Hook?
    ensures forall i: nat :: Hook(i) in Hooks(hooks) <==> i < |hooks| && hooks[i]
    ensures forall a, b :: 0 <= a < b < |Hooks(hooks)| ==> Hooks(hooks)[a].i < Hooks(hooks)[b].i
  {
    if hooks != [] {
      var before, n := hooks[..|hooks| - 1], |hooks| - 1;
      HooksMean(before);
      forall a | 0 <= a < |Hooks(before)| ensures Hooks(before)[a].i < n {
        assert Hooks(before)[a] in Hooks(before) && Hooks(before)[a] == Hook(Hooks(before)[a].i);
      }
    }
  }
}
