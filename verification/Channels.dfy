/** Subscriber channels, the receipts of delivery.go, and what dispatch does once it has chosen
    its targets (bus.go). */
module Channels {
  import opened Slices
  import opened Index

  const CAPACITY := 64

  datatype Event = Event(id: string, topic: string)

  /** The channel a subscriber reads from. */
  class EventChan {
    var buf: seq<Event>
    var closed: bool

    constructor ()
      ensures buf == [] && !closed
    {
      buf, closed := [], false;
    }

    predicate Accepts()
      reads this
    {
      !closed && |buf| < CAPACITY
    }

    /** sendSafe: never blocks and never fails; a full or closed channel drops the event. */
    method SendSafe(e: Event) returns (ok: bool)
      modifies this
      ensures ok == old(Accepts())
      ensures ok <==> !old(closed) && |old(buf)| < 64
      ensures buf == old(buf) + (if ok then [e] else []) && closed == old(closed)
    {
      if closed || |buf| >= CAPACITY { return false; }
      buf := buf + [e];
      return true;
    }

    /** closeSafe: closing twice is harmless. */
    method CloseSafe()
      modifies this`closed
      ensures closed
    {
      closed := true;
    }
  }

  type Subscriber = Sub<EventChan>

  datatype Group = Group(pattern: string, segments: seq<string>, subs: Slice<Subscriber>)

  datatype Receipt = Receipt(eventId: string, topic: string, subscriber: nat, subscription: string, queued: bool)

  class Collector {
    var receipts: seq<Receipt>

    constructor ()
      ensures receipts == []
    {
      receipts := [];
    }
  }

  function Chans(subs: seq<Subscriber>): set<EventChan> {
    set i | 0 <= i < |subs| :: subs[i].ch
  }

  /** The receipt a subscription is going to give for `e`. */
  ghost function ReceiptFor(s: Subscriber, e: Event): Receipt
    reads s.ch
  {
    Receipt(e.id, e.topic, s.id, s.topic, s.ch.Accepts())
  }

  /** The receipts a dispatch to `subs` is going to produce. */
  ghost function Expected(subs: seq<Subscriber>, e: Event): (r: seq<Receipt>)
    reads Chans(subs)
    ensures |r| == |subs|
    ensures forall i :: 0 <= i < |subs| ==> r[i] == ReceiptFor(subs[i], e)
  {
    seq(|subs|, i requires 0 <= i < |subs| reads Chans(subs) => ReceiptFor(subs[i], e))
  }

  /** Every channel of `subs` has accepted or dropped the event by what it was before, and is
      otherwise as it was. */
  twostate predicate Delivered(subs: seq<Subscriber>, e: Event)
    reads Chans(subs)
  {
    forall i :: 0 <= i < |subs| ==>
      && subs[i].ch.buf == old(subs[i].ch.buf) + (if old(subs[i].ch.Accepts()) then [e] else [])
      && subs[i].ch.closed == old(subs[i].ch.closed)
  }

  /** deliver: one send, and one receipt if there is a collector. */
  method Deliver(collector: Collector?, s: Subscriber, e: Event)
    modifies s.ch, if collector == null then {} else {collector}
    ensures s.ch.buf == old(s.ch.buf) + (if old(s.ch.Accepts()) then [e] else []) && s.ch.closed == old(s.ch.closed)
    ensures collector != null ==> (
      collector.receipts == old(collector.receipts) + [Receipt(e.id, e.topic, s.id, s.topic, old(s.ch.Accepts()))])
  {
    var ok := s.ch.SendSafe(e);
    if collector == null { return; }
    collector.receipts := collector.receipts + [Receipt(e.id, e.topic, s.id, s.topic, ok)];
  }

  /** The delivery loop over the target list, outside the lock. */
  method DeliverAll(collector: Collector?, targets: Slice<Subscriber>, e: Event)
    requires Fits(targets) && Distinct(View(targets))
    modifies Chans(View(targets)), if collector == null then {} else {collector}
    ensures Delivered(old(View(targets)), e)
    ensures collector != null ==> collector.receipts == old(collector.receipts) + old(Expected(View(targets), e))
  {
    ghost var v := View(targets);
    ghost var expected := Expected(v, e);
    for k := 0 to Len(targets)
      invariant View(targets) == v
      invariant forall i :: 0 <= i < k ==>
        && v[i].ch.buf == old(v[i].ch.buf) + (if old(v[i].ch.Accepts()) then [e] else [])
        && v[i].ch.closed == old(v[i].ch.closed)
      invariant forall i :: k <= i < |v| ==> unchanged(v[i].ch)
      invariant collector != null ==> collector.receipts == old(collector.receipts) + expected[..k]
    {
      assert targets.buf[k] == v[k];
      Deliver(collector, targets.buf[k], e);
      assert expected[..k + 1] == expected[..k] + [expected[k]];
    }
    assert expected[..|expected|] == expected;
  }

  /** What a dispatch has decided on by the time it releases the lock. */
  datatype Plan = Nobody | One(sub: Subscriber) | Many(targets: Slice<Subscriber>)

  function Held(p: Plan): set<array<Subscriber>> { if p.Many? then Backing(p.targets) else {} }

  predicate PlanFits(p: Plan) { p.Many? ==> Fits(p.targets) }

  ghost function Reached(p: Plan): seq<Subscriber>
    requires PlanFits(p)
    reads Held(p)
  {
    match p
    case Nobody => []
    case One(sub) => [sub]
    case Many(targets) => View(targets)
  }

  /** The early return, the fast path or a copied target list: each stands for the same sequence. */
  method MakePlan(exactSubs: Slice<Subscriber>, hits: seq<Subscriber>, groups: nat) returns (p: Plan)
    requires Fits(exactSubs) && (groups == 0 ==> hits == [])
    ensures PlanFits(p) && Reached(p) == View(exactSubs) + hits
    ensures forall b :: b in Held(p) ==> fresh(b)
  {
    if Len(exactSubs) == 0 && groups == 0 { return Nobody; }
    if Len(exactSubs) == 1 && |hits| == 0 { return One(exactSubs.buf[0]); }
    var targets := Gather(exactSubs, hits);
    p := Many(targets);
  }

  /** The delivery part of a dispatch, after the lock is released. */
  method Send(collector: Collector?, p: Plan, e: Event)
    requires PlanFits(p) && Distinct(Reached(p))
    modifies Chans(Reached(p)), if collector == null then {} else {collector}
    ensures Delivered(old(Reached(p)), e)
    ensures collector != null ==> collector.receipts == old(collector.receipts) + old(Expected(Reached(p), e))
  {
    match p {
      case Nobody =>
      case One(sub) =>
        assert Reached(p)[0].ch in Chans(Reached(p));
        Deliver(collector, sub, e);
      case Many(targets) => DeliverAll(collector, targets, e);
    }
  }

  ghost predicate AllClosed(chans: set<EventChan>)
    reads chans
  {
    forall c :: c in chans ==> c.closed
  }

  /** Closes the channels of one list after those of `done`; `all` is what may be closed on the way. */
  method CloseList(s: Slice<Subscriber>, ghost done: set<EventChan>, ghost all: set<EventChan>)
    requires Fits(s) && Chans(View(s)) <= all && AllClosed(done)
    modifies all`closed
    ensures AllClosed(done + Chans(View(s)))
  {
    for i := 0 to Len(s)
      invariant forall k :: 0 <= k < i ==> View(s)[k].ch.closed
      invariant forall c :: c in done ==> c.closed
    {
      assert View(s)[i] == s.buf[i] && View(s)[i].ch in all;
      s.buf[i].ch.CloseSafe();
    }
  }
}
