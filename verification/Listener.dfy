/** Listener.handle (ext/amqp/publisher.go): one delivery from the broker goes onto the bus, its
    receipts to the recorder, and only then is it settled. */
module Listener {
  import opened Wrappers
  import opened Wildcard
  import opened Index
  import opened Channels
  import opened Middlewares
  import opened Bus

  datatype Message = Message(correlationId: string, event: string)

  datatype Call = Recorded(receipts: seq<Receipt>, ok: bool) | Ack | Nack(requeue: bool)

  /** What the recorder answers, if one is configured. */
  datatype Recorder = NoRecorder | Recorder(accepts: seq<Receipt> -> bool)

  /** A delivery and the calls made for it, oldest first. */
  class Delivery {
    const message: Option<Message>
    var calls: seq<Call>

    constructor (message: Option<Message>)
      ensures this.message == message && calls == []
    {
      this.message, calls := message, [];
    }
  }

  function EventOf(m: Message, generated: string): Event {
    Event(if m.correlationId == "" then generated else m.correlationId, m.event)
  }

  /** What follows from the report. */
  function Settle(receipts: seq<Receipt>, err: bool, recorder: Recorder): seq<Call> {
    if err then [Nack(true)]
    else if recorder.NoRecorder? then [Ack]
    else if recorder.accepts(receipts) then [Recorded(receipts, true), Ack]
    else [Recorded(receipts, false), Nack(true)]
  }

  /** The channels a delivery may reach. */
  ghost function Reached(bus: EventBus, d: Delivery, generated: string): set<EventChan>
    reads bus, bus.exact, bus.wild
  {
    if d.message.None? then {} else Chans(bus.Due(bus.chain, EventOf(d.message.value, generated)))
  }

  predicate EndsInAck(calls: seq<Call>) { calls != [] && calls[|calls| - 1] == Ack }

  /** The call before the last is the recorder's acceptance of `report`. */
  predicate Records(calls: seq<Call>, report: seq<Receipt>) {
    |calls| >= 2 && calls[|calls| - 2] == Recorded(report, true)
  }

  /** What the bus is going to report of `e` is complete for the event that arrives at dispatch. */
  ghost predicate ReportsAll(bus: EventBus, e: Event)
    requires bus.Valid()
    reads bus.Repr(), Chans(bus.flat), Chans(bus.Due(bus.chain, e))
  {
    Reaches(bus.chain, e) && Complete(bus.flat, Arrival(bus.chain, e).value, bus.Receipts(bus.chain, e))
  }

  /** Besides the calls it makes: where the chain passes the collector on to dispatch and a recorder is
      configured, an Ack comes right after the record of a complete report. */
  method Handle(bus: EventBus, d: Delivery, recorder: Recorder, generated: string)
    requires bus.Valid()
    modifies d`calls, Reached(bus, d, generated)
    ensures d.message.None? ==> d.calls == old(d.calls) + [Nack(false)]
    ensures d.message.Some? ==> (
      var m := d.message.value;
      var e := Event(if m.correlationId == "" then generated else m.correlationId, m.event);
      var bs := Behaviours(bus.middlewares, e);
      && Spread(bus.flat, Outgoing(bs, e))
      && d.calls == old(d.calls) + Settle(old(bus.Receipts(bus.chain, e)), Raised(bs), recorder)
      && (AllKeep(bs) ==> old(Complete(bus.flat, Outgoing(bs, e).value, bus.Receipts(bus.chain, e))))
      && (!AllKeep(bs) ==> old(bus.Receipts(bus.chain, e)) == []))
    ensures d.message.Some? ==> (
      var e := EventOf(d.message.value, generated);
      && d.calls == old(d.calls) + Settle(old(bus.Receipts(bus.chain, e)), Errs(bus.chain, e), recorder)
      && (Reaches(bus.chain, e) ==> Delivered(old(bus.Due(bus.chain, e)), Arrival(bus.chain, e).value))
      && (Collects(bus.chain, e) && recorder.Recorder? && EndsInAck(d.calls) ==>
            Records(d.calls, old(bus.Receipts(bus.chain, e))) && old(ReportsAll(bus, e))))
  {
    hide Settle, EndsInAck, Records, ReportsAll, Arrival, Collects, Errs, Complete, Spread, AllKeep, Outgoing;
    hide Raised, Behaviours;
    hide EventBus.Due, EventBus.Receipts, EventBus.Valid;
    if d.message.None? {
      d.calls := d.calls + [Nack(false)];
      return;
    }
    HandleRecorded(bus, d, EventOf(d.message.value, generated), recorder);
  }

  method HandleRecorded(bus: EventBus, d: Delivery, e: Event, recorder: Recorder)
    requires bus.Valid()
    modifies d`calls, Chans(bus.Due(bus.chain, e))
    ensures d.calls == old(d.calls) + Settle(old(bus.Receipts(bus.chain, e)), Errs(bus.chain, e), recorder)
    ensures Reaches(bus.chain, e) ==> Delivered(old(bus.Due(bus.chain, e)), Arrival(bus.chain, e).value)
    ensures Collects(bus.chain, e) && recorder.Recorder? && EndsInAck(d.calls) ==> (
      Records(d.calls, old(bus.Receipts(bus.chain, e))) && old(ReportsAll(bus, e)))
    ensures var bs := Behaviours(bus.middlewares, e);
      && Spread(bus.flat, Outgoing(bs, e)) && (Errs(bus.chain, e) <==> Raised(bs))
      && (AllKeep(bs) ==> old(Complete(bus.flat, Outgoing(bs, e).value, bus.Receipts(bus.chain, e))))
      && (!AllKeep(bs) ==> old(bus.Receipts(bus.chain, e)) == [])
  {
    ghost var due := bus.Receipts(bus.chain, e);
    if Collects(bus.chain, e) { ReportIsComplete(bus, e); }
    hide Settle, EndsInAck, Records, ReportsAll, Arrival, Collects, Errs, Complete, Spread, AllKeep, Outgoing;
    hide Raised, Behaviours;
    hide EventBus.Due, EventBus.Receipts, EventBus.Valid;
    HandleEvent(bus, d, e, recorder);
    LastIsAck(old(d.calls), due, Errs(bus.chain, e), recorder);
  }

  /** The part for a delivery that carries a message. */
  method HandleEvent(bus: EventBus, d: Delivery, e: Event, recorder: Recorder)
    requires bus.Valid()
    modifies d`calls, Chans(bus.Due(bus.chain, e))
    ensures d.calls == old(d.calls) + Settle(old(bus.Receipts(bus.chain, e)), Errs(bus.chain, e), recorder)
    ensures Reaches(bus.chain, e) ==> Delivered(old(bus.Due(bus.chain, e)), Arrival(bus.chain, e).value)
    ensures var bs := Behaviours(bus.middlewares, e);
      && Spread(bus.flat, Outgoing(bs, e)) && (Errs(bus.chain, e) <==> Raised(bs))
      && (AllKeep(bs) ==> old(Complete(bus.flat, Outgoing(bs, e).value, bus.Receipts(bus.chain, e))))
      && (!AllKeep(bs) ==> old(bus.Receipts(bus.chain, e)) == [])
  {
    ghost var due := bus.Due(bus.chain, e);
    hide Settle, Targets, Arrival, Complete, Spread, AllKeep, Outgoing, Raised, Behaviours;
    var receipts, err := bus.PublishReport(e);
    assert Reaches(bus.chain, e) ==> Delivered(due, Arrival(bus.chain, e).value);
    Finish(d, receipts, err, recorder);
  }

  lemma LastIsAck(before: seq<Call>, receipts: seq<Receipt>, err: bool, recorder: Recorder)
    ensures var calls := before + Settle(receipts, err, recorder);
      recorder.Recorder? && EndsInAck(calls) ==> Records(calls, receipts)
  {
    SettledOnceAndLast(receipts, err, recorder);
  }

  /** The part after the report. */
  method Finish(d: Delivery, receipts: seq<Receipt>, err: bool, recorder: Recorder)
    modifies d`calls
    ensures d.calls == old(d.calls) + Settle(receipts, err, recorder)
  {
    if err {
      d.calls := d.calls + [Nack(true)];
      return;
    }
    if recorder.Recorder? {
      var ok := recorder.accepts(receipts);
      d.calls := d.calls + [Recorded(receipts, ok)];
      if !ok {
        d.calls := d.calls + [Nack(true)];
        return;
      }
    }
    d.calls := d.calls + [Ack];
  }

  predicate IsSettlement(c: Call) { c.Ack? || c.Nack? }

  /** Exactly one settlement, and it is the last call; a recorder is asked at most once. */
  lemma SettledOnceAndLast(receipts: seq<Receipt>, err: bool, recorder: Recorder)
    ensures var calls := Settle(receipts, err, recorder);
      && 1 <= |calls| <= 2
      && forall i :: 0 <= i < |calls| ==> (IsSettlement(calls[i]) <==> i == |calls| - 1)
  {
  }

  /** The acknowledgement never precedes the record. */
  lemma AckFollowsRecord(receipts: seq<Receipt>, err: bool, recorder: Recorder)
    ensures Ack in Settle(receipts, err, recorder) <==> !err && (recorder.Recorder? ==> recorder.accepts(receipts))
    ensures Ack in Settle(receipts, err, recorder) && recorder.Recorder? ==>
      Settle(receipts, err, recorder) == [Recorded(receipts, true), Ack]
    ensures Ack !in Settle(receipts, err, recorder) ==>
      Settle(receipts, err, recorder) == (if err then [] else [Recorded(receipts, false)]) + [Nack(true)]
  {
  }

  /** What the recorder has accepted by the time of the Ack is the complete report, except when no error
      comes out of the chain although a middleware ended the event or dropped the collector, and the
      recorder takes an empty report. */
  lemma AckMeansCompleteRecord(mws: seq<Middleware>, e: Event, expected: seq<Receipt>, recorder: Recorder)
    requires recorder.Recorder? && expected != []
    ensures var chain, bs := Nest(mws), Behaviours(mws, e);
      var calls := Settle(if Collects(chain, e) then expected else [], Errs(chain, e), recorder);
      (Ack in calls ==> calls == [Recorded(expected, true), Ack])
        <==> (|| AllKeep(bs)
              || Raised(bs)
              || !recorder.accepts([]))
  {
    ChainMeaning(mws, e);
    AckFollowsRecord(if Collects(Nest(mws), e) then expected else [], Errs(Nest(mws), e), recorder);
  }

  /** One such exception: a middleware drops the collector, and the recorder takes whatever it gets. */
  lemma AckWithoutRecord(e: Event, expected: seq<Receipt>) returns (mws: seq<Middleware>, recorder: Recorder)
    requires expected != []
    ensures var chain := Nest(mws);
      Settle(if Collects(chain, e) then expected else [], Errs(chain, e), recorder) == [Recorded([], true), Ack]
  {
    mws, recorder := [x => Pass(x, false, Relay)], Recorder(_ => true);
  }

  /** With the collector passed on to dispatch the report is complete for the event that arrives there. */
  lemma ReportIsComplete(bus: EventBus, sent: Event)
    requires bus.Valid() && Collects(bus.chain, sent)
    ensures ReportsAll(bus, sent)
  {
    hide Refines, Live, Receivers, Targets;
    CollectsReaches(bus.chain, sent);
    var e := Arrival(bus.chain, sent).value;
    TargetsComplete(bus.Contents(), bus.flat, e);
  }
}
