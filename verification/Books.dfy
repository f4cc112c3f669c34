/** The broker's books against the settling calls it has been sent (Delivery.Ack and Delivery.Nack in
    ext/amqp/amqpclt/subscribe.go). */
module Books {
  import opened Forwarding

  /** The messages settled with that call, in order. */
  function With(log: seq<Settled>, v: Verdict): seq<Msg> {
    if log == [] then []
    else With(log[..|log| - 1], v) + if log[|log| - 1].v == v then [log[|log| - 1].m] else []
  }

  lemma WithMore(log: seq<Settled>, e: Settled, v: Verdict)
    ensures With(log + [e], v) == With(log, v) + if e.v == v then [e.m] else []
  {
    assert (log + [e])[..|log|] == log;
  }

  ghost predicate Marked(s: State) {
    var acked, dead := multiset(With(s.settled, Ack)), multiset(s.refused) + multiset(With(s.settled, Nack(false)));
    && s.broker.acked <= acked && s.broker.dead <= dead
    && (s.broker.open ==> s.broker.acked == acked && s.broker.dead == dead)
  }

  lemma BookSays(b: Broker, m: Msg, v: Verdict)
    ensures var b' := Book(b, m, v);
      && b'.open == b.open && b'.published == b.published
      && b'.acked == b.acked + (if b.open && v == Ack then multiset{m} else multiset{})
      && b'.dead == b.dead + (if b.open && v == Nack(false) then multiset{m} else multiset{})
      && b'.ready == b.ready + (if b.open && v == Nack(true) then multiset{m} else multiset{})
  {
  }

  lemma WithCounts(log: seq<Settled>, e: Settled, v: Verdict)
    ensures multiset(With(log + [e], v)) == multiset(With(log, v)) + if e.v == v then multiset{e.m} else multiset{}
  {
    WithMore(log, e, v);
  }

  lemma StageMarks(s: State, step: Step)
    requires Marked(s) && Enabled(s, step) && StageStep(step)
    ensures Marked(Apply(s, step))
  {
    var e := Entry(s, step);
    StageSays(s, step);
    hide Book, Entry, Apply, Enabled, With, StageStep;
    BookSays(s.broker, e.m, e.v);
    WithCounts(s.settled, e, Ack);
    WithCounts(s.settled, e, Nack(false));
  }

  lemma TakeRefuses(s: State)
    requires Enabled(s, Take)
    ensures s.pushed != [] && Apply(s, Take).settled == s.settled
    ensures Apply(s, Take).refused == if s.pushed[0].decodable then s.refused else s.refused + [s.pushed[0]]
  {
    hide Book;
  }

  lemma TakeMarks(s: State)
    requires Marked(s) && Enabled(s, Take)
    ensures Marked(Apply(s, Take))
  {
    TakeRefuses(s);
    TakeSays(s);
    BookSays(s.broker, s.pushed[0], Nack(false));
    hide Book, With, Apply, Enabled;
    if !s.pushed[0].decodable {
      assert multiset(s.refused + [s.pushed[0]]) == multiset(s.refused) + multiset{s.pushed[0]};
    }
  }

  lemma OtherMarks(s: State, step: Step)
    requires Marked(s) && Enabled(s, step) && !step.Take? && !StageStep(step)
    ensures Marked(Apply(s, step))
  {
    hide Book, With;
  }

  lemma {:induction false} ExecMarks(s: State, steps: seq<Step>)
    requires Marked(s) && IsExec(s, steps)
    ensures Marked(Final(s, steps))
    decreases |steps|
  {
    hide Marked, Apply, Enabled, StageStep;
    if steps != [] {
      if StageStep(steps[0]) { StageMarks(s, steps[0]); }
      else if steps[0].Take? { TakeMarks(s); }
      else { OtherMarks(s, steps[0]); }
      ExecMarks(Apply(s, steps[0]), steps[1..]);
    }
  }

  /** Of every run: while the channel is open, the broker has as acknowledged exactly the messages for which Ack
      was called, and as dead exactly those refused as undecodable and those for which Nack was called without
      requeue; and a settling call after the channel was closed adds nothing to its books. */
  lemma BooksFollowCalls(s: State, steps: seq<Step>, mode: Mode)
    requires Reachable(s, steps, mode)
    ensures var b := s.broker;
      var acked, dead := multiset(With(s.settled, Ack)), multiset(s.refused) + multiset(With(s.settled, Nack(false)));
      && b.acked <= acked && b.dead <= dead
      && (b.open ==> b.acked == acked && b.dead == dead)
  {
    ExecMarks(Init(mode), steps);
  }

  /** The messages the broker has pushed. */
  ghost function Pushes(steps: seq<Step>): seq<Msg> {
    if steps == [] then [] else (if steps[0].Push? then [steps[0].m] else []) + Pushes(steps[1..])
  }

  lemma PushOrTake(s: State, step: Step)
    requires Enabled(s, step)
    ensures Apply(s, step).taken + Apply(s, step).pushed
         == s.taken + s.pushed + if step.Push? then [step.m] else []
  {
    hide Book, Entry;
    var s' := Apply(s, step);
    if step.Take? {
      assert s.pushed == [s.pushed[0]] + s.pushed[1..];
    } else if !step.Push? {
      assert s'.taken == s.taken && s'.pushed == s.pushed;
    }
  }

  lemma {:induction false} ExecTakes(s: State, steps: seq<Step>)
    requires IsExec(s, steps)
    ensures Final(s, steps).taken + Final(s, steps).pushed == s.taken + s.pushed + Pushes(steps)
    decreases |steps|
  {
    hide Apply, Enabled;
    if steps != [] {
      var more := if steps[0].Push? then [steps[0].m] else [];
      PushOrTake(s, steps[0]);
      ExecTakes(Apply(s, steps[0]), steps[1..]);
      assert s.taken + s.pushed + (more + Pushes(steps[1..])) == (s.taken + s.pushed + more) + Pushes(steps[1..]);
    }
  }

  /** Of every run: the forwarder takes the messages in the order in which the broker has pushed them. */
  lemma TakenAsPushed(s: State, steps: seq<Step>, mode: Mode)
    requires Reachable(s, steps, mode)
    ensures s.taken + s.pushed == Pushes(steps)
  {
    ExecTakes(Init(mode), steps);
  }
}
