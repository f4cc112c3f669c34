/** Publishing to the broker (ext/amqp/amqpclt/publish.go): the confirm-and-retry loop, and the
    batch and asynchronous forms built on it. */
module Publish {
  import opened Backoff
  import opened Journals

  /** What the broker answers to one attempt. */
  datatype Answer = SendFailed | ConfirmFailed | Acked | Nacked

  /** `doneInSleep(k)`: the context rather than the timer ends the sleep after attempt k. */
  datatype World = World(answer: nat -> Answer, doneInSleep: nat -> bool)

  datatype Error = Encoding | Context | Confirm | Exhausted

  datatype Result = Success | Failure(error: Error)

  datatype Effect = Send(attempt: nat) | Sleeping(d: int)

  datatype Options = Options(maxRetries: int, backoff: int)

  /** A message the encoder may refuse, with the broker's answers to it. */
  datatype Message = Message(encodable: bool, world: World)

  // ---- one message ------------------------------------------------------------------

  predicate GoesOn(opts: Options, w: World, k: nat) {
    (w.answer(k).SendFailed? || w.answer(k).Nacked?) && k < opts.maxRetries && !w.doneInSleep(k)
  }

  function LastFrom(opts: Options, w: World, k: nat): (n: nat)
    requires k <= opts.maxRetries
    ensures k <= n <= opts.maxRetries && !GoesOn(opts, w, n) && forall j :: k <= j < n ==> GoesOn(opts, w, j)
    decreases opts.maxRetries - k
  {
    if GoesOn(opts, w, k) then LastFrom(opts, w, k + 1) else k
  }

  function Rounds(opts: Options, n: nat): seq<Effect> {
    if n == 0 then [] else Rounds(opts, n - 1) + [Send(n - 1), Sleeping(Sleep(opts.backoff, n - 1))]
  }

  /** The effects of publishing one message: with a negative limit there is no attempt at all. */
  function Effects(opts: Options, m: Message): seq<Effect> {
    if !m.encodable || opts.maxRetries < 0 then []
    else
      var n := LastFrom(opts, m.world, 0);
      Rounds(opts, n) + [Send(n)]
      + if m.world.answer(n) in {SendFailed, Nacked} && n < opts.maxRetries
        then [Sleeping(Sleep(opts.backoff, n))] else []
  }

  function Outcome(opts: Options, m: Message): Result {
    if !m.encodable then Failure(Encoding)
    else if opts.maxRetries < 0 then Failure(Exhausted)
    else
      var n := LastFrom(opts, m.world, 0);
      match m.world.answer(n)
      case Acked => Success
      case ConfirmFailed => Failure(Confirm)
      case _ => if n < opts.maxRetries then Failure(Context) else Failure(Exhausted)
  }

  method PublishWithRetry(opts: Options, w: World, j: Journal<Effect>) returns (r: Result)
    modifies j
    ensures r == Outcome(opts, Message(true, w))
    ensures j.log == old(j.log) + Effects(opts, Message(true, w))
  {
    var attempt := 0;
    ghost var last := if opts.maxRetries < 0 then 0 else LastFrom(opts, w, 0);
    while attempt < opts.maxRetries + 1
      invariant 0 <= attempt && (opts.maxRetries >= 0 ==> attempt <= last) && (opts.maxRetries < 0 ==> attempt == 0)
      invariant j.log == old(j.log) + Rounds(opts, attempt)
      decreases opts.maxRetries - attempt
    {
      assert GoesOn(opts, w, attempt) <==> attempt < last;
      j.Note(Send(attempt));
      match w.answer(attempt) {
        case SendFailed =>
        case ConfirmFailed => return Failure(Confirm);
        case Acked => return Success;
        case Nacked =>
      }
      if attempt < opts.maxRetries {
        j.Note(Sleeping(Sleep(opts.backoff, attempt)));
        if w.doneInSleep(attempt) { return Failure(Context); }
      } else {
        return Failure(Exhausted);
      }
      attempt := attempt + 1;
    }
    return Failure(Exhausted);
  }

  /** Success means, and is the same as, that some attempt within the limit was acked and that
      every attempt before it failed in a way that is retried, without the context ending. */
  lemma SuccessIffAcked(opts: Options, w: World)
    ensures Outcome(opts, Message(true, w)) == Success
       <==> exists n: nat ::
              && n <= opts.maxRetries && w.answer(n) == Acked
              && forall j :: 0 <= j < n ==> w.answer(j) in {SendFailed, Nacked} && !w.doneInSleep(j)
  {
    if opts.maxRetries >= 0 {
      var last := LastFrom(opts, w, 0);
      forall j | 0 <= j < last ensures w.answer(j) in {SendFailed, Nacked} && !w.doneInSleep(j) {
        assert GoesOn(opts, w, j);
      }
      if n: nat :| n <= opts.maxRetries && w.answer(n) == Acked
                   && forall j :: 0 <= j < n ==> w.answer(j) in {SendFailed, Nacked} && !w.doneInSleep(j) {
        assert forall j :: 0 <= j < n ==> GoesOn(opts, w, j);
        assert !GoesOn(opts, w, last) && !GoesOn(opts, w, n);
      }
    }
  }

  function Sends(log: seq<Effect>): nat {
    if log == [] then 0 else Sends(log[..|log| - 1]) + if log[|log| - 1].Send? then 1 else 0
  }

  lemma SendsAppend(log: seq<Effect>, e: Effect)
    ensures Sends(log + [e]) == Sends(log) + if e.Send? then 1 else 0
  {
    assert (log + [e])[..|log|] == log;
  }

  lemma {:induction false} RoundSends(opts: Options, n: nat)
    ensures Sends(Rounds(opts, n)) == n
  {
    if n > 0 {
      RoundSends(opts, n - 1);
      var before := Rounds(opts, n - 1);
      SendsAppend(before, Send(n - 1));
      SendsAppend(before + [Send(n - 1)], Sleeping(Sleep(opts.backoff, n - 1)));
      assert before + [Send(n - 1)] + [Sleeping(Sleep(opts.backoff, n - 1))] == Rounds(opts, n);
    }
  }

  lemma {:induction false} RoundsAt(opts: Options, n: nat)
    ensures |Rounds(opts, n)| == 2 * n
    ensures forall k :: 0 <= k < n ==>
      Rounds(opts, n)[2 * k] == Send(k) && Rounds(opts, n)[2 * k + 1] == Sleeping(Sleep(opts.backoff, k))
  {
    if n > 0 { RoundsAt(opts, n - 1); }
  }

  /** What follows each attempt, and with what result the last one ends the call. */
  lemma SendAttempt(opts: Options, m: Message, k: nat)
    requires k < Sends(Effects(opts, m))
    ensures var log, pause := Effects(opts, m), Sleeping(Sleep(opts.backoff, k));
      && 2 * k < |log| && log[2 * k] == Send(k)
      && (var rest := log[2 * k + 1..];
          match m.world.answer(k)
          case Acked => rest == [] && Outcome(opts, m) == Success
          case ConfirmFailed => rest == [] && Outcome(opts, m) == Failure(Confirm)
          case _ =>
            if k >= opts.maxRetries then rest == [] && Outcome(opts, m) == Failure(Exhausted)
            else if m.world.doneInSleep(k) then rest == [pause] && Outcome(opts, m) == Failure(Context)
            else |rest| > 1 && rest[0] == pause && rest[1] == Send(k + 1))
  {
    var n := LastFrom(opts, m.world, 0);
    var log := Effects(opts, m);
    SendsOf(opts, m);
    RoundsAt(opts, n);
    assert k < n ==> GoesOn(opts, m.world, k);
    hide Rounds, Sends, Sleep;
    assert log[2 * n] == Send(n);
    assert k < n ==> log[2 * k] == Send(k) && log[2 * k + 1] == Sleeping(Sleep(opts.backoff, k));
    if k + 1 < n { assert log[2 * (k + 1)] == Send(k + 1); }
  }

  lemma SendsOf(opts: Options, m: Message)
    ensures Sends(Effects(opts, m)) ==
      if m.encodable && opts.maxRetries >= 0 then LastFrom(opts, m.world, 0) + 1 else 0
  {
    if m.encodable && opts.maxRetries >= 0 {
      var n := LastFrom(opts, m.world, 0);
      RoundSends(opts, n);
      SendsAppend(Rounds(opts, n), Send(n));
      SendsAppend(Rounds(opts, n) + [Send(n)], Sleeping(Sleep(opts.backoff, n)));
      assert Rounds(opts, n) + [Send(n)] + [] == Rounds(opts, n) + [Send(n)];
    }
  }

  /** A message is sent at most max(MaxRetries + 1, 0) times, and an acked one never again. */
  lemma SendsAreBounded(opts: Options, m: Message)
    ensures Sends(Effects(opts, m)) <= if opts.maxRetries < 0 then 0 else opts.maxRetries + 1
    ensures Outcome(opts, m) == Success ==>
      var log := Effects(opts, m);
      log != [] && log[|log| - 1] == Send(Sends(log) - 1) && m.world.answer(Sends(log) - 1) == Acked
    ensures !m.encodable ==> Effects(opts, m) == [] && Outcome(opts, m) == Failure(Encoding)
    ensures m.encodable && opts.maxRetries < 0 ==> Effects(opts, m) == [] && Outcome(opts, m) == Failure(Exhausted)
    ensures m.encodable && opts.maxRetries >= 0 ==> Sends(Effects(opts, m)) > 0
  {
    SendsOf(opts, m);
  }

  // ---- batch and asynchronous publishing ------------------------------------------------

  predicate Fails(opts: Options, m: Message) { Outcome(opts, m) != Success }

  function AllEffects(opts: Options, ms: seq<Message>): seq<Effect> {
    if ms == [] then [] else AllEffects(opts, ms[..|ms| - 1]) + Effects(opts, ms[|ms| - 1])
  }

  method PublishOne(opts: Options, m: Message, j: Journal<Effect>) returns (r: Result)
    modifies j
    ensures r == Outcome(opts, m)
    ensures j.log == old(j.log) + Effects(opts, m)
  {
    if !m.encodable { return Failure(Encoding); }
    r := PublishWithRetry(opts, m.world, j);
  }

  predicate Increasing(s: seq<nat>) { forall i, j :: 0 <= i < j < |s| ==> s[i] < s[j] }

  /** The indices of the failing messages among the first n. */
  function FailedBelow(opts: Options, ms: seq<Message>, n: nat): seq<nat>
    requires n <= |ms|
  {
    if n == 0 then [] else FailedBelow(opts, ms, n - 1) + if Fails(opts, ms[n - 1]) then [n - 1] else []
  }

  lemma {:induction false} FailedBelowMeans(opts: Options, ms: seq<Message>, n: nat)
    requires n <= |ms|
    ensures Increasing(FailedBelow(opts, ms, n))
    ensures forall i: nat :: i in FailedBelow(opts, ms, n) <==> i < n && Fails(opts, ms[i])
  {
    hide Fails;
    if n > 0 {
      FailedBelowMeans(opts, ms, n - 1);
      var before := FailedBelow(opts, ms, n - 1);
      forall k | 0 <= k < |before| ensures before[k] < n - 1 { assert before[k] in before; }
    }
  }

  /** The indices reported are exactly those of the messages that failed, in increasing order. */
  method PublishBatch(opts: Options, ms: seq<Message>, j: Journal<Effect>) returns (failed: seq<nat>)
    modifies j
    ensures failed == FailedBelow(opts, ms, |ms|)
    ensures Increasing(failed)
    ensures forall i: nat :: i in failed <==> i < |ms| && Fails(opts, ms[i])
    ensures j.log == old(j.log) + AllEffects(opts, ms)
  {
    hide Outcome, Effects, Increasing;
    failed := [];
    for i := 0 to |ms|
      invariant failed == FailedBelow(opts, ms, i)
      invariant j.log == old(j.log) + AllEffects(opts, ms[..i])
    {
      assert ms[..i + 1][..i] == ms[..i];
      var r := PublishOne(opts, ms[i], j);
      if r != Success { failed := failed + [i]; }
    }
    assert ms[..|ms|] == ms;
    FailedBelowMeans(opts, ms, |ms|);
  }

  datatype Report = Report(index: nat, result: Result)

  class ReportChannel {
    var out: seq<Report>
    var closed: bool
  }

  /** First index at which the context is seen to be done before publishing, or the length. */
  function StopAt(ms: seq<Message>, done: nat -> bool, i: nat): (n: nat)
    requires i <= |ms|
    ensures i <= n <= |ms| && (n < |ms| ==> done(n)) && forall k :: i <= k < n ==> !done(k)
    decreases |ms| - i
  {
    if i == |ms| || done(i) then i else StopAt(ms, done, i + 1)
  }

  function Reports(opts: Options, ms: seq<Message>, n: nat): seq<Report>
    requires n <= |ms|
  {
    if n == 0 then [] else Reports(opts, ms, n - 1) + [Report(n - 1, Outcome(opts, ms[n - 1]))]
  }

  function AsyncReports(opts: Options, ms: seq<Message>, done: nat -> bool): seq<Report> {
    var n := StopAt(ms, done, 0);
    Reports(opts, ms, n) + if n < |ms| then [Report(n, Failure(Context))] else []
  }

  method PublishAsync(opts: Options, ms: seq<Message>, done: nat -> bool, ch: ReportChannel, j: Journal<Effect>)
    requires !ch.closed
    modifies ch, j
    ensures ch.closed && ch.out == old(ch.out) + AsyncReports(opts, ms, done)
    ensures j.log == old(j.log) + AllEffects(opts, ms[..StopAt(ms, done, 0)])
  {
    hide Outcome, Effects;
    if |ms| == 0 {
      ch.closed := true;
      return;
    }
    ghost var stop := StopAt(ms, done, 0);
    for i := 0 to |ms|
      invariant i <= stop && !ch.closed
      invariant ch.out == old(ch.out) + Reports(opts, ms, i)
      invariant j.log == old(j.log) + AllEffects(opts, ms[..i])
    {
      if done(i) {
        ch.out := ch.out + [Report(i, Failure(Context))];
        ch.closed := true;
        return;
      }
      assert ms[..i + 1][..i] == ms[..i];
      var r := PublishOne(opts, ms[i], j);
      ch.out := ch.out + [Report(i, r)];
    }
    ch.closed := true;
  }

  /** The indices of failed messages in a list of reports, in order. */
  function FailedIn(rs: seq<Report>): seq<nat> {
    if rs == [] then []
    else FailedIn(rs[..|rs| - 1]) + if rs[|rs| - 1].result == Success then [] else [rs[|rs| - 1].index]
  }

  lemma FailedInAppend(rs: seq<Report>, r: Report)
    ensures FailedIn(rs + [r]) == FailedIn(rs) + if r.result == Success then [] else [r.index]
  {
    assert (rs + [r])[..|rs|] == rs;
  }

  lemma {:induction false} ReportsFail(opts: Options, ms: seq<Message>, n: nat)
    requires n <= |ms|
    ensures FailedIn(Reports(opts, ms, n)) == FailedBelow(opts, ms, n)
  {
    hide Outcome;
    if n > 0 {
      ReportsFail(opts, ms, n - 1);
      FailedInAppend(Reports(opts, ms, n - 1), Report(n - 1, Outcome(opts, ms[n - 1])));
    }
  }

  /** What the asynchronous form reports as failed: the failures before the stop, and the stop. */
  lemma AsyncFailures(opts: Options, ms: seq<Message>, done: nat -> bool)
    ensures var n := StopAt(ms, done, 0);
      FailedIn(AsyncReports(opts, ms, done)) == FailedBelow(opts, ms, n) + if n < |ms| then [n] else []
  {
    hide Outcome;
    var n := StopAt(ms, done, 0);
    ReportsFail(opts, ms, n);
    FailedInAppend(Reports(opts, ms, n), Report(n, Failure(Context)));
    assert n == |ms| ==> AsyncReports(opts, ms, done) == Reports(opts, ms, n);
  }

  /** Past n, the list of failures grows exactly by the failures from n on. */
  lemma {:induction false} FailedBelowSplit(opts: Options, ms: seq<Message>, n: nat, m: nat)
    requires n <= m <= |ms|
    ensures |FailedBelow(opts, ms, n)| <= |FailedBelow(opts, ms, m)|
    ensures FailedBelow(opts, ms, n) == FailedBelow(opts, ms, m)[..|FailedBelow(opts, ms, n)|]
    ensures FailedBelow(opts, ms, n) == FailedBelow(opts, ms, m) <==> forall i :: n <= i < m ==> !Fails(opts, ms[i])
    decreases m
  {
    hide Fails;
    if n < m { FailedBelowSplit(opts, ms, n, m - 1); }
  }

  /** The batch and the asynchronous form report the same failed indices if and only if the context
      was not seen to be done, or only before a message that fails and is the last to fail. */
  lemma BatchAgreesWithAsync(opts: Options, ms: seq<Message>, done: nat -> bool)
    ensures var n := StopAt(ms, done, 0);
      FailedIn(AsyncReports(opts, ms, done)) == FailedBelow(opts, ms, |ms|)
      <==> n == |ms| || (Fails(opts, ms[n]) && forall i :: n < i < |ms| ==> !Fails(opts, ms[i]))
  {
    hide Fails, AsyncReports, FailedIn;
    var n := StopAt(ms, done, 0);
    AsyncFailures(opts, ms, done);
    if n < |ms| {
      var before, batch := FailedBelow(opts, ms, n), FailedBelow(opts, ms, |ms|);
      FailedBelowSplit(opts, ms, n, |ms|);
      FailedBelowSplit(opts, ms, n + 1, |ms|);
      FailedBelowMeans(opts, ms, |ms|);
      assert Fails(opts, ms[n]) <==> n in batch;
      assert n in before + [n];
    }
  }

  lemma StoppedAtOnce(opts: Options, ms: seq<Message>, done: nat -> bool)
    requires |ms| == 1 && done(0) && !Fails(opts, ms[0])
    ensures FailedIn(AsyncReports(opts, ms, done)) == [0] && FailedBelow(opts, ms, |ms|) == []
  {
    hide Fails, AsyncReports, FailedIn;
    AsyncFailures(opts, ms, done);
    assert FailedBelow(opts, ms, 0) == [];
  }

  /** One pair of runs that differ: the context is done before a message that would have been acked. */
  lemma BatchAndAsyncDiffer() returns (opts: Options, ms: seq<Message>, done: nat -> bool)
    ensures FailedIn(AsyncReports(opts, ms, done)) == [0] && FailedBelow(opts, ms, |ms|) == []
  {
    opts, ms, done := Options(0, 0), [Message(true, World(_ => Acked, _ => false))], _ => true;
    assert !Fails(opts, ms[0]);
    StoppedAtOnce(opts, ms, done);
  }
}
