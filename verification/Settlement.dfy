/** The two retry loops that end a message's life: Consumer.handle (ext/amqp/consumer.go), which
    must settle its delivery, and ConsumerPool.process (ext/pool/pool.go), which must not. */
module Settlement {
  import opened Backoff
  import opened Journals

  datatype Error = Plain(code: int) | Unrecoverable(code: int) | HandlerPanic

  datatype Outcome = Ok | Failed(err: Error) | Panicked

  datatype Decision = Retry | DeadLetter | Drop

  datatype Classifier = Default | Custom(decide: Error -> Decision)

  /** A nil classifier stands for the default one, which gives up on unrecoverable errors. */
  function Classify(c: Classifier, e: Error): Decision {
    match c
    case Default => if e.Unrecoverable? then DeadLetter else Retry
    case Custom(decide) => decide(e)
  }

  datatype Options = Options(maxRetries: int, backoff: int, classifier: Classifier, hooks: seq<bool>)

  /** What the surroundings answer: the handler on each attempt, whether the context turns out to be
      done after it, and whether the context rather than the timer ends the sleep after it. */
  datatype World = World(handler: nat -> Outcome, doneAfter: nat -> bool, doneInSleep: nat -> bool)

  datatype Effect =
    | Handle(attempt: nat)
    | Sleeping(d: int)
    | Hook(i: nat)
    | Ack
    | Nack(requeue: bool)
    | DeadLettered

  // ---- specification ---------------------------------------------------------------

  /** callHandler turns a panic into an error; the pool does not get that far. */
  function ErrorOf(o: Outcome): Error
    requires !o.Ok?
  {
    if o.Panicked? then HandlerPanic else o.err
  }

  /** Consumer.handle does not go on to attempt k + 1. */
  predicate ConsumerStops(opts: Options, w: World, k: nat) {
    || w.handler(k).Ok?
    || w.doneAfter(k)
    || Classify(opts.classifier, ErrorOf(w.handler(k))) != Retry
    || k >= opts.maxRetries
    || w.doneInSleep(k)
  }

  /** ConsumerPool.process does not go on to attempt k + 1. */
  predicate PoolStops(opts: Options, w: World, k: nat) {
    || w.handler(k).Ok?
    || w.handler(k).Panicked?
    || Classify(opts.classifier, ErrorOf(w.handler(k))) != Retry
    || k >= opts.maxRetries
    || w.doneInSleep(k)
  }

  function Limit(opts: Options): nat { if opts.maxRetries < 0 then 0 else opts.maxRetries }

  function ConsumerFrom(opts: Options, w: World, k: nat): (n: nat)
    requires k <= Limit(opts)
    ensures k <= n <= Limit(opts) && ConsumerStops(opts, w, n)
    ensures forall j :: k <= j < n ==> !ConsumerStops(opts, w, j)
    decreases Limit(opts) - k
  {
    if ConsumerStops(opts, w, k) then k else ConsumerFrom(opts, w, k + 1)
  }

  function PoolFrom(opts: Options, w: World, k: nat): (n: nat)
    requires k <= Limit(opts)
    ensures k <= n <= Limit(opts) && PoolStops(opts, w, n)
    ensures forall j :: k <= j < n ==> !PoolStops(opts, w, j)
    decreases Limit(opts) - k
  {
    if PoolStops(opts, w, k) then k else PoolFrom(opts, w, k + 1)
  }

  /** The last attempt of each loop: the first one it does not go on from. */
  function ConsumerLast(opts: Options, w: World): nat { ConsumerFrom(opts, w, 0) }

  function PoolLast(opts: Options, w: World): nat { PoolFrom(opts, w, 0) }

  /** n failed attempts, each followed by its sleep. */
  function Rounds(opts: Options, n: nat): seq<Effect> {
    if n == 0 then [] else Rounds(opts, n - 1) + [Handle(n - 1), Sleeping(Sleep(opts.backoff, n - 1))]
  }

  function Hooks(hooks: seq<bool>): seq<Effect> {
    if hooks == [] then []
    else Hooks(hooks[..|hooks| - 1]) + if hooks[|hooks| - 1] then [Hook(|hooks| - 1)] else []
  }

  function ConsumerVerdict(opts: Options, w: World, n: nat): seq<Effect> {
    if w.handler(n).Ok? then Hooks(opts.hooks) + [Ack]
    else if w.doneAfter(n) then [Nack(true)]
    else
      match Classify(opts.classifier, ErrorOf(w.handler(n)))
      case Drop => [Ack]
      case DeadLetter => [Nack(false)]
      case Retry => if n >= opts.maxRetries then [Nack(false)] else [Sleeping(Sleep(opts.backoff, n)), Nack(true)]
  }

  function PoolVerdict(opts: Options, w: World, n: nat): seq<Effect> {
    if w.handler(n).Ok? then []
    else if w.handler(n).Panicked? then [DeadLettered]
    else
      match Classify(opts.classifier, ErrorOf(w.handler(n)))
      case Drop => []
      case DeadLetter => [DeadLettered]
      case Retry => if n >= opts.maxRetries then [DeadLettered] else [Sleeping(Sleep(opts.backoff, n)), DeadLettered]
  }

  datatype Delivery = Missing | Empty | Full

  function ConsumerRun(d: Delivery, opts: Options, w: World): seq<Effect> {
    match d
    case Missing => []
    case Empty => [Nack(false)]
    case Full =>
      var n := ConsumerLast(opts, w);
      Rounds(opts, n) + [Handle(n)] + ConsumerVerdict(opts, w, n)
  }

  /** A negative limit leaves the pool's loop without a single iteration. */
  function PoolRun(opts: Options, w: World): seq<Effect> {
    if opts.maxRetries < 0 then []
    else var n := PoolLast(opts, w); Rounds(opts, n) + [Handle(n)] + PoolVerdict(opts, w, n)
  }

  // ---- the loops -------------------------------------------------------------------

  method RunAfterCommit(opts: Options, j: Journal<Effect>)
    modifies j
    ensures j.log == old(j.log) + Hooks(opts.hooks)
  {
    for i := 0 to |opts.hooks|
      invariant j.log == old(j.log) + Hooks(opts.hooks[..i])
    {
      assert opts.hooks[..i + 1][..i] == opts.hooks[..i];
      if opts.hooks[i] { j.Note(Hook(i)); }
    }
    assert opts.hooks[..|opts.hooks|] == opts.hooks;
  }

  /** What Consumer.handle does once the handler has returned from attempt k. */
  method AfterAttempt(opts: Options, w: World, k: nat, j: Journal<Effect>) returns (stop: bool)
    modifies j
    ensures stop == ConsumerStops(opts, w, k)
    ensures j.log == old(j.log) + if stop then ConsumerVerdict(opts, w, k) else [Sleeping(Sleep(opts.backoff, k))]
  {
    hide Hooks, Sleep;
    var outcome := w.handler(k);
    if outcome.Ok? {
      RunAfterCommit(opts, j);
      j.Note(Ack);
      return true;
    }
    if w.doneAfter(k) { j.Note(Nack(true)); return true; }
    match Classify(opts.classifier, ErrorOf(outcome)) {
      case Drop => j.Note(Ack); return true;
      case DeadLetter => j.Note(Nack(false)); return true;
      case Retry =>
    }
    if k >= opts.maxRetries { j.Note(Nack(false)); return true; }
    j.Note(Sleeping(Sleep(opts.backoff, k)));
    if w.doneInSleep(k) { j.Note(Nack(true)); return true; }
    return false;
  }

  method ConsumerHandle(d: Delivery, opts: Options, w: World, j: Journal<Effect>)
    modifies j
    ensures j.log == old(j.log) + ConsumerRun(d, opts, w)
    ensures d.Missing? ==> j.log == old(j.log)
  {
    if d.Missing? { return; }
    if d.Empty? { j.Note(Nack(false)); return; }
    hide Hooks, Sleep, ConsumerVerdict, ConsumerStops;
    ghost var last := ConsumerLast(opts, w);
    ghost var start := j.log;
    var attempt := 0;
    while true
      invariant 0 <= attempt <= last
      invariant j.log == start + Rounds(opts, attempt)
      decreases last - attempt
    {
      j.Note(Handle(attempt));
      var stop := AfterAttempt(opts, w, attempt, j);
      if stop { return; }
      attempt := attempt + 1;
    }
  }

  method PoolProcess(opts: Options, w: World, j: Journal<Effect>)
    modifies j
    ensures j.log == old(j.log) + PoolRun(opts, w)
    ensures opts.maxRetries < 0 ==> j.log == old(j.log)
  {
    ghost var last := PoolLast(opts, w);
    ghost var start := j.log;
    var attempt := 0;
    while attempt < opts.maxRetries + 1
      invariant 0 <= attempt && (opts.maxRetries >= 0 ==> attempt <= last) && (opts.maxRetries < 0 ==> attempt == 0)
      invariant j.log == start + Rounds(opts, attempt)
      decreases last - attempt
    {
      var outcome := w.handler(attempt);
      j.Note(Handle(attempt));
      assert opts.maxRetries >= 0 && (PoolStops(opts, w, attempt) <==> attempt == last);
      if outcome.Panicked? { j.Note(DeadLettered); return; }
      if outcome.Ok? { return; }
      match Classify(opts.classifier, ErrorOf(outcome)) {
        case DeadLetter => j.Note(DeadLettered); return;
        case Drop => return;
        case Retry =>
      }
      if attempt == opts.maxRetries { j.Note(DeadLettered); return; }
      j.Note(Sleeping(Sleep(opts.backoff, attempt)));
      if w.doneInSleep(attempt) { j.Note(DeadLettered); return; }
      attempt := attempt + 1;
    }
  }

  // ---- what the logs mean -------------------------------------------------------------

  function HandlerCalls(log: seq<Effect>): nat {
    if log == [] then 0 else (if log[0].Handle? then 1 else 0) + HandlerCalls(log[1..])
  }

  /** The Ack, Nack and dead-letter effects of a log, in order. */
  function Endings(log: seq<Effect>): seq<Effect> {
    if log == [] then []
    else (if log[0].Ack? || log[0].Nack? || log[0].DeadLettered? then [log[0]] else []) + Endings(log[1..])
  }

  /** The handler calls and sleeps of a log, in order. */
  function Work(log: seq<Effect>): seq<Effect> {
    if log == [] then []
    else (if log[0].Handle? || log[0].Sleeping? then [log[0]] else []) + Work(log[1..])
  }

  lemma {:induction false} AppendCalls(a: seq<Effect>, b: seq<Effect>)
    ensures HandlerCalls(a + b) == HandlerCalls(a) + HandlerCalls(b)
  {
    if a == [] {
      assert a + b == b;
    } else {
      assert (a + b)[1..] == a[1..] + b;
      AppendCalls(a[1..], b);
    }
  }

  lemma {:induction false} AppendEndings(a: seq<Effect>, b: seq<Effect>)
    ensures Endings(a + b) == Endings(a) + Endings(b)
  {
    if a == [] {
      assert a + b == b;
    } else {
      var kept := if a[0].Ack? || a[0].Nack? || a[0].DeadLettered? then [a[0]] else [];
      assert (a + b)[1..] == a[1..] + b;
      AppendEndings(a[1..], b);
      assert kept + (Endings(a[1..]) + Endings(b)) == (kept + Endings(a[1..])) + Endings(b);
    }
  }

  lemma {:induction false} AppendWork(a: seq<Effect>, b: seq<Effect>)
    ensures Work(a + b) == Work(a) + Work(b)
  {
    if a == [] {
      assert a + b == b;
    } else {
      var kept := if a[0].Handle? || a[0].Sleeping? then [a[0]] else [];
      assert (a + b)[1..] == a[1..] + b;
      AppendWork(a[1..], b);
      assert kept + (Work(a[1..]) + Work(b)) == (kept + Work(a[1..])) + Work(b);
    }
  }

  lemma Append(a: seq<Effect>, b: seq<Effect>)
    ensures HandlerCalls(a + b) == HandlerCalls(a) + HandlerCalls(b)
    ensures Endings(a + b) == Endings(a) + Endings(b)
    ensures Work(a + b) == Work(a) + Work(b)
  {
    AppendCalls(a, b);
    AppendEndings(a, b);
    AppendWork(a, b);
  }

  lemma One(e: Effect)
    ensures HandlerCalls([e]) == if e.Handle? then 1 else 0
    ensures Endings([e]) == if e.Ack? || e.Nack? || e.DeadLettered? then [e] else []
    ensures Work([e]) == if e.Handle? || e.Sleeping? then [e] else []
  {
    assert [e][1..] == [];
  }

  lemma {:induction false} RoundsShape(opts: Options, n: nat)
    ensures HandlerCalls(Rounds(opts, n)) == n
    ensures Endings(Rounds(opts, n)) == []
    ensures Work(Rounds(opts, n)) == Rounds(opts, n)
  {
    if n > 0 {
      RoundsShape(opts, n - 1);
      var a, b := [Handle(n - 1)], [Sleeping(Sleep(opts.backoff, n - 1))];
      One(a[0]);
      One(b[0]);
      Append(a, b);
      Append(Rounds(opts, n - 1), a + b);
      assert a + b == [a[0], b[0]];
    }
  }

  lemma {:induction false} HooksShape(hooks: seq<bool>)
    ensures HandlerCalls(Hooks(hooks)) == 0 && Endings(Hooks(hooks)) == [] && Work(Hooks(hooks)) == []
  {
    if hooks != [] {
      HooksShape(hooks[..|hooks| - 1]);
      One(Hook(|hooks| - 1));
      Append(Hooks(hooks[..|hooks| - 1]), if hooks[|hooks| - 1] then [Hook(|hooks| - 1)] else []);
    }
  }

  lemma ConsumerVerdictShape(opts: Options, w: World, n: nat)
    ensures var v := ConsumerVerdict(opts, w, n);
      && |v| > 0 && Endings(v) == [v[|v| - 1]] && HandlerCalls(v) == 0
      && Work(v) == if v[0].Sleeping? then [v[0]] else []
  {
    var v := ConsumerVerdict(opts, w, n);
    HooksShape(opts.hooks);
    One(v[|v| - 1]);
    Append(v[..|v| - 1], [v[|v| - 1]]);
    assert v == v[..|v| - 1] + [v[|v| - 1]];
    if w.handler(n).Ok? {
      assert v[..|v| - 1] == Hooks(opts.hooks);
      HookFirst(opts.hooks);
    } else if |v| == 2 {
      assert v[..1] == [v[0]];
      One(v[0]);
    } else {
      assert v[..0] == [];
    }
  }

  lemma {:induction false} HookFirst(hooks: seq<bool>)
    ensures Hooks(hooks) != [] ==> Hooks(hooks)[0].Hook?
  {
    if hooks != [] { HookFirst(hooks[..|hooks| - 1]); }
  }

  /** The whole log of handling a full delivery, by its parts. */
  lemma ConsumerRunShape(opts: Options, w: World)
    ensures var n, log := ConsumerLast(opts, w), ConsumerRun(Full, opts, w);
      && HandlerCalls(log) == n + 1
      && Endings(log) == Endings(ConsumerVerdict(opts, w, n))
      && Work(log) == Rounds(opts, n) + [Handle(n)] + Work(ConsumerVerdict(opts, w, n))
  {
    var n := ConsumerLast(opts, w);
    var v := ConsumerVerdict(opts, w, n);
    RoundsShape(opts, n);
    ConsumerVerdictShape(opts, w, n);
    One(Handle(n));
    Append(Rounds(opts, n), [Handle(n)]);
    Append(Rounds(opts, n) + [Handle(n)], v);
  }

  lemma PoolVerdictShape(opts: Options, w: World, n: nat)
    ensures HandlerCalls(PoolVerdict(opts, w, n)) == 0
  {
    var d := Sleep(opts.backoff, n);
    One(DeadLettered);
    One(Sleeping(d));
    Append([Sleeping(d)], [DeadLettered]);
    assert [Sleeping(d)] + [DeadLettered] == [Sleeping(d), DeadLettered];
  }

  lemma PoolRunShape(opts: Options, w: World)
    requires opts.maxRetries >= 0
    ensures var n, log := PoolLast(opts, w), PoolRun(opts, w);
      && HandlerCalls(log) == n + 1
      && Endings(log) == Endings(PoolVerdict(opts, w, n))
      && Work(log) == Rounds(opts, n) + [Handle(n)] + Work(PoolVerdict(opts, w, n))
  {
    var n := PoolLast(opts, w);
    var v := PoolVerdict(opts, w, n);
    hide PoolVerdict, PoolLast;
    RoundsShape(opts, n);
    PoolVerdictShape(opts, w, n);
    One(Handle(n));
    Append(Rounds(opts, n), [Handle(n)]);
    Append(Rounds(opts, n) + [Handle(n)], v);
  }

  // ---- properties of Consumer.handle ------------------------------------------------------

  /** The attempt that decided was classified as Drop. */
  predicate Dropped(opts: Options, w: World, n: nat) {
    !w.handler(n).Ok? && !w.doneAfter(n) && Classify(opts.classifier, ErrorOf(w.handler(n))).Drop?
  }

  /** The context was seen to be done after that attempt, or in the sleep before the next. */
  predicate Cancelled(opts: Options, w: World, n: nat) {
    !w.handler(n).Ok? &&
    (w.doneAfter(n) ||
     (Classify(opts.classifier, ErrorOf(w.handler(n))).Retry? && n < opts.maxRetries && w.doneInSleep(n)))
  }

  /** Every non-nil delivery is settled by exactly one call, and that call comes last. It is Ack if
      and only if the last attempt succeeded or was dropped; it requeues if and only if the context
      was seen to be done; and the handler is called at most max(MaxRetries, 0) + 1 times. */
  lemma SettledExactlyOnce(d: Delivery, opts: Options, w: World)
    requires !d.Missing?
    ensures var log, n := ConsumerRun(d, opts, w), ConsumerLast(opts, w);
      && |log| > 0 && Endings(log) == [log[|log| - 1]]
      && HandlerCalls(log) <= Limit(opts) + 1
      && (d.Empty? ==> log == [Nack(false)])
      && (d.Full? ==> (log[|log| - 1] == Ack <==> w.handler(n).Ok? || Dropped(opts, w, n)))
      && (d.Full? ==> (log[|log| - 1] == Nack(true) <==>
            Cancelled(opts, w, n)))
  {
    if d.Empty? {
      One(Nack(false));
    } else {
      ConsumerRunShape(opts, w);
      ConsumerVerdictShape(opts, w, ConsumerLast(opts, w));
      assert ConsumerStops(opts, w, ConsumerLast(opts, w));
    }
  }

  function SleepSum(log: seq<Effect>): int {
    if log == [] then 0 else SleepSum(log[..|log| - 1]) + if log[|log| - 1].Sleeping? then log[|log| - 1].d else 0
  }

  lemma SleepSumAppend(log: seq<Effect>, e: Effect)
    ensures SleepSum(log + [e]) == SleepSum(log) + if e.Sleeping? then e.d else 0
  {
    assert (log + [e])[..|log|] == log;
  }

  /** Where no sleep overflows, n retries take the geometric total. */
  lemma {:induction false} RoundsTakeTotal(opts: Options, n: nat)
    requires Is64(opts.backoff * 1024)
    ensures SleepSum(Rounds(opts, n)) == Total(opts.backoff, n)
  {
    NoOverflowIffLongestFits(opts.backoff);
    hide Sleep, Ideal, Is64;
    if n > 0 {
      RoundsTakeTotal(opts, n - 1);
      var before, pause := Rounds(opts, n - 1), Sleeping(Sleep(opts.backoff, n - 1));
      SleepSumAppend(before, Handle(n - 1));
      SleepSumAppend(before + [Handle(n - 1)], pause);
      assert before + [Handle(n - 1)] + [pause] == Rounds(opts, n);
      assert Sleep(opts.backoff, n - 1) == Ideal(opts.backoff, n - 1);
    }
  }

  // ---- the two loops compared ---------------------------------------------------------------

  predicate NoCancellation(w: World, opts: Options) {
    forall k :: 0 <= k <= Limit(opts) ==> !w.doneAfter(k) && !w.doneInSleep(k)
  }

  /** Same handler calls, same sleeps, and the delivery is dead-lettered in both or in neither. */
  predicate Corresponds(consumer: seq<Effect>, pool: seq<Effect>) {
    && Work(consumer) == Work(pool)
    && (Endings(consumer) == [Ack] || Endings(consumer) == [Nack(false)])
    && (Endings(consumer) == [Nack(false)] <==> Endings(pool) == [DeadLettered])
    && (Endings(consumer) == [Ack] <==> Endings(pool) == [])
  }

  /** A panic ends the pool's loop in the dead letter; the consumer treats it as an error. */
  predicate PanicIsFatal(opts: Options, w: World) {
    var n := PoolLast(opts, w);
    w.handler(n).Panicked? ==>
      (match Classify(opts.classifier, HandlerPanic)
       case DeadLetter => true
       case Drop => false
       case Retry => n == opts.maxRetries)
  }

  lemma SameLast(opts: Options, w: World)
    requires NoCancellation(w, opts) && opts.maxRetries >= 0
    ensures var n := PoolLast(opts, w);
      && n <= ConsumerLast(opts, w)
      && (ConsumerStops(opts, w, n) ==> ConsumerLast(opts, w) == n)
  {
    var n, m := PoolLast(opts, w), ConsumerLast(opts, w);
    forall k | 0 <= k < n ensures !ConsumerStops(opts, w, k) {
      assert !PoolStops(opts, w, k);
    }
  }

  /** For the same handler, classifier and options and without cancellation, Consumer.handle and
      ConsumerPool.process do the same work and reach corresponding ends if and only if the retry
      limit is not negative and no panic reaches the pool that the consumer would not also treat
      as the end of the message. */
  lemma LoopsCorrespond(opts: Options, w: World)
    requires NoCancellation(w, opts)
    ensures Corresponds(ConsumerRun(Full, opts, w), PoolRun(opts, w))
       <==> opts.maxRetries >= 0 && PanicIsFatal(opts, w)
  {
    var m := ConsumerLast(opts, w);
    var c, p := ConsumerRun(Full, opts, w), PoolRun(opts, w);
    ConsumerRunShape(opts, w);
    ConsumerVerdictShape(opts, w, m);
    if opts.maxRetries < 0 {
      WorkNonEmpty(opts, m, Work(ConsumerVerdict(opts, w, m)));
    } else {
      var n := PoolLast(opts, w);
      SameLast(opts, w);
      PoolRunShape(opts, w);
      One(DeadLettered);
      assert !w.doneAfter(n) && !w.doneInSleep(n) && !w.doneAfter(m) && !w.doneInSleep(m);
      assert PoolStops(opts, w, n);
      if ConsumerStops(opts, w, n) {
        assert m == n;
        VerdictsCorrespond(opts, w, n);
      } else {
        assert w.handler(n).Panicked? && Classify(opts.classifier, HandlerPanic).Retry? && n < opts.maxRetries;
        LongerRounds(opts, n, m);
        assert |Work(c)| > |Work(p)|;
      }
    }
  }

  /** What that means for the options alone: the loops correspond for every handler if and only if the limit
      is not negative and the classifier sends a panic to the dead letter, or retries it with no retry left. */
  lemma LoopsAlwaysCorrespond(opts: Options)
    ensures (forall w :: NoCancellation(w, opts) ==> Corresponds(ConsumerRun(Full, opts, w), PoolRun(opts, w)))
       <==> opts.maxRetries >= 0
            && (var d := Classify(opts.classifier, HandlerPanic); d.DeadLetter? || (d.Retry? && opts.maxRetries == 0))
  {
    hide Corresponds, ConsumerRun, PoolRun;
    var w := World(_ => Panicked, _ => false, _ => false);
    LoopsCorrespond(opts, w);
    assert opts.maxRetries >= 0 ==> PoolLast(opts, w) == 0 by { assert PoolStops(opts, w, 0); }
    forall w | NoCancellation(w, opts)
      ensures Corresponds(ConsumerRun(Full, opts, w), PoolRun(opts, w))
         <==> opts.maxRetries >= 0 && PanicIsFatal(opts, w)
    {
      LoopsCorrespond(opts, w);
    }
  }

  lemma WorkNonEmpty(opts: Options, n: nat, rest: seq<Effect>)
    ensures Rounds(opts, n) + [Handle(n)] + rest != []
  {
    assert (Rounds(opts, n) + [Handle(n)] + rest)[|Rounds(opts, n)|] == Handle(n);
  }

  lemma {:induction false} LongerRounds(opts: Options, n: nat, m: nat)
    requires n < m
    ensures |Rounds(opts, n)| < |Rounds(opts, m)|
    decreases m
  {
    if n < m - 1 { LongerRounds(opts, n, m - 1); }
  }

  lemma VerdictsCorrespond(opts: Options, w: World, n: nat)
    requires !w.doneAfter(n) && !w.doneInSleep(n) && PoolStops(opts, w, n) && ConsumerStops(opts, w, n)
    requires n <= opts.maxRetries
    ensures var c, p := ConsumerVerdict(opts, w, n), PoolVerdict(opts, w, n);
      && Work(c) == [] && Work(p) == []
      && (Endings(c) == [Ack] || Endings(c) == [Nack(false)])
      && (Endings(p) == [DeadLettered] || Endings(p) == [])
      && ((Endings(c) == [Ack] <==> Endings(p) == []) <==>
            !(w.handler(n).Panicked? && Classify(opts.classifier, HandlerPanic).Drop?))
  {
    ConsumerVerdictShape(opts, w, n);
    HookFirst(opts.hooks);
    One(DeadLettered);
  }
}
