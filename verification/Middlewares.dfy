/** The middleware chain of bus.go and middleware.go. */
module Middlewares {
  import opened Wrappers
  import opened Channels

  /** What a middleware that has passed the event on makes of the result of the rest of the chain: the
      same, always an error, never one, or an error exactly if there was none. */
  datatype After = Relay | Fail | Mask | Flip

  /** What a middleware does with one event: end it, with an error or silently, or call the next handler
      once, with an event of its choice and with or without the context that carries the collector. */
  datatype Behaviour = Stop(err: bool) | Pass(onward: Event, keep: bool, after: After)

  type Middleware = Event -> Behaviour

  datatype Handler = ToDispatch | Wrap(mw: Middleware, next: Handler)

  function Nest(mws: seq<Middleware>): Handler {
    if mws == [] then ToDispatch else Wrap(mws[0], Nest(mws[1..]))
  }

  /** The event that gets as far as dispatch, if one does. */
  function Arrival(h: Handler, e: Event): Option<Event> {
    match h
    case ToDispatch => Some(e)
    case Wrap(mw, next) =>
      match mw(e)
      case Stop(_) => None
      case Pass(onward, _, _) => Arrival(next, onward)
  }

  predicate Reaches(h: Handler, e: Event) { Arrival(h, e).Some? }

  /** An event gets there with the collector. */
  predicate Collects(h: Handler, e: Event) {
    h.ToDispatch? || (h.mw(e).Pass? && h.mw(e).keep && Collects(h.next, h.mw(e).onward))
  }

  /** The collector does not get there without an event. */
  lemma {:induction false} CollectsReaches(h: Handler, e: Event)
    requires Collects(h, e)
    ensures Reaches(h, e)
  {
    if h.Wrap? { CollectsReaches(h.next, h.mw(e).onward); }
  }

  predicate Errs(h: Handler, e: Event) {
    match h
    case ToDispatch => false
    case Wrap(mw, next) =>
      match mw(e)
      case Stop(err) => err
      case Pass(onward, _, after) =>
        match after
        case Relay => Errs(next, onward)
        case Fail => true
        case Mask => false
        case Flip => !Errs(next, onward)
  }

  /** What the middlewares do with an event, in the order in which they see it. */
  function Behaviours(mws: seq<Middleware>, e: Event): seq<Behaviour> {
    if mws == [] then []
    else
      var b := mws[0](e);
      [b] + if b.Stop? then [] else Behaviours(mws[1..], b.onward)
  }

  /** Its answer depends on what comes back from the rest of the chain. */
  predicate Listens(b: Behaviour) { b.Pass? && (b.after.Relay? || b.after.Flip?) }

  /** The first middleware whose own answer does not depend on the rest, or else dispatch. */
  function Decider(bs: seq<Behaviour>): (k: nat)
    ensures k <= |bs| && (k < |bs| ==> !Listens(bs[k]))
    ensures forall j :: 0 <= j < k ==> Listens(bs[j])
  {
    if bs == [] || !Listens(bs[0]) then 0 else 1 + Decider(bs[1..])
  }

  function Flips(bs: seq<Behaviour>): nat {
    if bs == [] then 0 else (if bs[0].Pass? && bs[0].after.Flip? then 1 else 0) + Flips(bs[1..])
  }

  /** The decider answers with an error; dispatch never does. */
  predicate Raises(bs: seq<Behaviour>, k: nat) {
    k < |bs| && if bs[k].Stop? then bs[k].err else bs[k].after.Fail?
  }

  /** An error comes out: one was raised and flipped an even number of times on the way out, or none was
      and the number is odd. */
  predicate Raised(bs: seq<Behaviour>) {
    var k := Decider(bs);
    Raises(bs, k) != (Flips(bs[..k]) % 2 == 1)
  }

  predicate AllPass(bs: seq<Behaviour>) { forall i :: 0 <= i < |bs| ==> bs[i].Pass? }

  predicate AllKeep(bs: seq<Behaviour>) { forall i :: 0 <= i < |bs| ==> bs[i].Pass? && bs[i].keep }

  /** The event is dispatched exactly if every middleware passes it on, with the collector exactly if
      each also keeps the context; and whether an error comes out is settled by the first middleware
      that does not listen to the rest, and by the flips before it. So an error does not mean that
      nothing was dispatched, nor its absence that something was. */
  lemma {:induction false} ChainMeaning(mws: seq<Middleware>, e: Event)
    ensures var h, bs := Nest(mws), Behaviours(mws, e);
      && (Reaches(h, e) <==> AllPass(bs))
      && (Collects(h, e) <==> AllKeep(bs))
      && (Errs(h, e) <==> Raised(bs))
      && (Reaches(h, e) ==> |bs| == |mws|)
  {
    if mws != [] {
      var b := mws[0](e);
      if b.Pass? {
        var rest := Behaviours(mws[1..], b.onward);
        ChainMeaning(mws[1..], b.onward);
        RaisedBehind(b, rest);
        AllBehind(b, rest);
        hide AllPass, AllKeep, Raised;
        assert Nest(mws) == Wrap(mws[0], Nest(mws[1..])) && Behaviours(mws, e) == [b] + rest;
      } else {
        assert Behaviours(mws, e) == [b] && [b][0].Stop?;
      }
    }
  }

  predicate Follows(mws: seq<Middleware>, bs: seq<Behaviour>, j: nat)
    requires 0 < j < |bs| <= |mws|
  {
    bs[j - 1].Pass? && bs[j] == mws[j](bs[j - 1].onward)
  }

  /** Each middleware sees what the one before it has passed on, the first what was published, and none comes
      after one that ends the event. */
  lemma {:induction false} BehavioursMean(mws: seq<Middleware>, e: Event)
    ensures var bs := Behaviours(mws, e);
      && |bs| <= |mws|
      && (|bs| < |mws| ==> bs != [] && bs[|bs| - 1].Stop?)
      && (bs != [] ==> bs[0] == mws[0](e))
      && (forall j :: 0 < j < |bs| ==> Follows(mws, bs, j))
  {
    if mws != [] && mws[0](e).Pass? {
      var b := mws[0](e);
      var bs, rest := Behaviours(mws, e), Behaviours(mws[1..], b.onward);
      BehavioursMean(mws[1..], b.onward);
      assert bs == [b] + rest;
      if rest != [] { assert bs[|bs| - 1] == rest[|rest| - 1]; }
      forall j | 0 < j < |bs| ensures Follows(mws, bs, j) {
        assert bs[j] == rest[j - 1] && mws[j] == mws[1..][j - 1];
        if j > 1 { assert Follows(mws[1..], rest, j - 1) && bs[j - 1] == rest[j - 2]; }
      }
    }
  }

  /** What the middlewares let through. */
  function Outgoing(bs: seq<Behaviour>, e: Event): Option<Event> {
    if !AllPass(bs) then None else Some(if bs == [] then e else bs[|bs| - 1].onward)
  }

  /** The event that gets to dispatch is the one the last middleware passed on, or the one published if
      there is none. */
  lemma {:induction false} ArrivalMeaning(mws: seq<Middleware>, e: Event)
    requires Reaches(Nest(mws), e)
    ensures var bs := Behaviours(mws, e);
      AllPass(bs) && Arrival(Nest(mws), e) == Some(if bs == [] then e else bs[|bs| - 1].onward)
  {
    ChainMeaning(mws, e);
    if mws != [] {
      var b := mws[0](e);
      ArrivalMeaning(mws[1..], b.onward);
      assert Nest(mws) == Wrap(mws[0], Nest(mws[1..])) && Behaviours(mws, e)[0] == b;
    }
  }

  lemma AllBehind(b: Behaviour, bs: seq<Behaviour>)
    requires b.Pass?
    ensures AllPass([b] + bs) <==> AllPass(bs)
    ensures AllKeep([b] + bs) <==> b.keep && AllKeep(bs)
  {
    var all := [b] + bs;
    assert forall i :: 0 <= i < |all| ==> all[i] == if i == 0 then b else bs[i - 1];
    assert all[0] == b && forall i :: 0 <= i < |bs| ==> bs[i] == all[i + 1];
  }

  lemma RaisedBehind(b: Behaviour, bs: seq<Behaviour>)
    requires b.Pass?
    ensures Raised([b] + bs) <==>
      match b.after
      case Relay => Raised(bs)
      case Fail => true
      case Mask => false
      case Flip => !Raised(bs)
  {
    var all, k := [b] + bs, Decider(bs);
    assert all[0] == b && all[1..] == bs;
    if Listens(b) {
      assert all[..k + 1][0] == b && all[..k + 1][1..] == bs[..k];
    }
  }

  /** An error although the event was dispatched: if no middleware flips, exactly if all pass the event
      on and one of them fails afterwards with only relaying ones before it. */
  lemma ErrorAfterDispatch(mws: seq<Middleware>, e: Event)
    ensures var h, bs := Nest(mws), Behaviours(mws, e);
      && (Reaches(h, e) && Errs(h, e) <==> AllPass(bs) && Raised(bs))
      && ((forall i :: 0 <= i < |bs| && bs[i].Pass? ==> !bs[i].after.Flip?) ==>
            (AllPass(bs) && Raised(bs) <==> AllPass(bs) && exists i :: FailsAt(bs, i)))
  {
    var bs := Behaviours(mws, e);
    ChainMeaning(mws, e);
    if AllPass(bs) && (forall i :: 0 <= i < |bs| && bs[i].Pass? ==> !bs[i].after.Flip?) { FirstToFail(bs); }
  }

  /** The i-th middleware fails after passing the event on, and every one before it relays. */
  predicate FailsAt(bs: seq<Behaviour>, i: nat) {
    i < |bs| && bs[i].Pass? && bs[i].after.Fail? && forall j :: 0 <= j < i ==> bs[j].Pass? && bs[j].after.Relay?
  }

  /** It does, or it ends the event with an error. */
  predicate ErrsAt(bs: seq<Behaviour>, i: nat) {
    FailsAt(bs, i) || (i < |bs| && bs[i] == Stop(true) && forall j :: 0 <= j < i ==> bs[j].Pass? && bs[j].after.Relay?)
  }

  /** Where no middleware flips, an error comes out exactly if one ends the event with an error or fails after
      passing it on, and all before it relay. */
  lemma ErrorMeans(mws: seq<Middleware>, e: Event)
    requires forall b :: b in Behaviours(mws, e) && b.Pass? ==> !b.after.Flip?
    ensures Errs(Nest(mws), e) <==> exists i :: ErrsAt(Behaviours(mws, e), i)
  {
    var bs := Behaviours(mws, e);
    ChainMeaning(mws, e);
    var k := Decider(bs);
    NoFlips(bs[..k]);
    if Raised(bs) { assert ErrsAt(bs, k); }
    if i: nat :| ErrsAt(bs, i) { assert i == k; }
  }

  lemma FirstToFail(bs: seq<Behaviour>)
    requires AllPass(bs) && forall i :: 0 <= i < |bs| ==> !bs[i].after.Flip?
    ensures Raised(bs) <==> exists i :: FailsAt(bs, i)
  {
    var k := Decider(bs);
    NoFlips(bs[..k]);
    if Raised(bs) { assert FailsAt(bs, k); }
    if i: nat :| FailsAt(bs, i) { assert i == k; }
  }

  lemma {:induction false} NoFlips(bs: seq<Behaviour>)
    requires forall i :: 0 <= i < |bs| ==> bs[i].Pass? && !bs[i].after.Flip?
    ensures Flips(bs) == 0
  {
    if bs != [] {
      assert bs[0].Pass? && !bs[0].after.Flip?;
      NoFlips(bs[1..]);
    }
  }

  /** One such chain. */
  lemma ErrorAfterDispatchHappens(e: Event) returns (mws: seq<Middleware>)
    ensures Reaches(Nest(mws), e) && Errs(Nest(mws), e)
  {
    mws := [x => Pass(x, true, Fail)];
  }
}
