/** EventBus (bus.go): the subscription table, dispatch with its fast path, the middleware chain,
    tracked subscriptions and Close. */
module Bus {
  import opened Wrappers
  import opened Slices
  import opened Index
  import opened Wildcard
  import opened Channels
  import opened Topics
  import opened Tracking
  import opened Middlewares

  ghost predicate Covers(chans: set<EventChan>, t: Table<EventChan>) {
    && (forall topic :: topic in t.exact ==> Chans(t.exact[topic]) <= chans)
    && (forall i :: 0 <= i < |t.wild| ==> Chans(t.wild[i].subs) <= chans)
  }

  lemma FewerChannels(some: seq<Subscriber>, all: seq<Subscriber>)
    requires forall s :: s in some ==> s in all
    ensures Chans(some) <= Chans(all)
  {
    forall c | c in Chans(some) ensures c in Chans(all) {
      var i :| 0 <= i < |some| && some[i].ch == c;
      assert some[i] in all;
    }
  }

  lemma DropChannels(flat: seq<Subscriber>, topic: string, ch: EventChan)
    ensures Chans(Drop(flat, topic, ch)) <= Chans(flat) <= Chans(Drop(flat, topic, ch)) + {ch}
  {
    var dropped := Drop(flat, topic, ch);
    forall s | s in dropped ensures s in flat { DropMember(flat, topic, ch, s); }
    FewerChannels(dropped, flat);
    forall i | 0 <= i < |flat| ensures flat[i].ch in Chans(dropped) + {ch} {
      if flat[i].ch != ch { DropKeeps(flat, topic, ch, flat[i]); }
    }
  }

  lemma ListedChannels(t: Table<EventChan>, flat: seq<Subscriber>, chans: set<EventChan>)
    requires Refines(t, flat) && Chans(flat) <= chans
    ensures Covers(chans, t)
  {
    ListedIsLive(t, flat);
    forall topic | topic in t.exact ensures Chans(t.exact[topic]) <= chans { FewerChannels(t.exact[topic], flat); }
    forall i | 0 <= i < |t.wild| ensures Chans(t.wild[i].subs) <= chans { FewerChannels(t.wild[i].subs, flat); }
  }

  lemma LiveChannelsIn(t: Table<EventChan>, flat: seq<Subscriber>, chans: set<EventChan>)
    requires Refines(t, flat) && Covers(chans, t)
    ensures Chans(flat) <= chans
  {
    forall s | s in flat ensures s.ch in chans { LiveIsListed(t, flat, s); }
  }

  lemma SomeClosed(some: set<EventChan>, all: set<EventChan>)
    requires AllClosed(all) && some <= all
    ensures AllClosed(some)
  {
  }

  /** A complete report of `e`: one receipt for every live subscription that receives it, no subscription
      twice, and Queued exactly where the channel is open and holds fewer than 64 events. */
  ghost predicate Complete(flat: seq<Subscriber>, e: Event, report: seq<Receipt>)
    reads Chans(flat)
  {
    && |report| == |Receivers(flat, e.topic)|
    && (forall s :: s in flat && Receives(s.topic, e.topic) ==> (
          && s.ch in Chans(flat)
          && Receipt(e.id, e.topic, s.id, s.topic, !s.ch.closed && |s.ch.buf| < 64) in report))
    && (forall r :: r in report ==>
          exists s :: s in flat && Receives(s.topic, e.topic) && s.ch in Chans(flat)
            && r == Receipt(e.id, e.topic, s.id, s.topic, !s.ch.closed && |s.ch.buf| < 64))
    && (forall i, j :: 0 <= i < j < |report| ==> report[i].subscriber != report[j].subscriber)
  }

  /** Every live subscription that receives the event that arrived, if one did, has it at the end of its
      channel if that was open and held fewer than 64 events; nothing else has changed in any channel. */
  twostate predicate Spread(flat: seq<Subscriber>, arrived: Option<Event>)
    reads Chans(flat)
  {
    forall s :: s in flat ==> (
      && s.ch in Chans(flat)
      && s.ch.closed == old(s.ch.closed)
      && s.ch.buf == old(s.ch.buf)
           + if arrived.Some? && Receives(s.topic, arrived.value.topic) && !old(s.ch.closed) && |old(s.ch.buf)| < 64
             then [arrived.value] else [])
  }

  lemma ChansHave(subs: seq<Subscriber>)
    ensures forall s :: s in subs ==> s.ch in Chans(subs)
  {
  }

  lemma ExpectedMembers(subs: seq<Subscriber>, e: Event)
    ensures forall s :: s in subs ==> ReceiptFor(s, e) in Expected(subs, e)
    ensures forall r :: r in Expected(subs, e) ==> exists s :: s in subs && r == ReceiptFor(s, e)
  {
    var expected := Expected(subs, e);
    forall s | s in subs ensures ReceiptFor(s, e) in expected {
      var i :| 0 <= i < |subs| && subs[i] == s;
      assert expected[i] in expected;
    }
    forall r | r in expected ensures exists s :: s in subs && r == ReceiptFor(s, e) {
      var i :| 0 <= i < |expected| && expected[i] == r;
      assert subs[i] in subs;
    }
  }

  lemma TargetsComplete(t: Table<EventChan>, flat: seq<Subscriber>, e: Event)
    requires Refines(t, flat) && Live(flat)
    ensures Complete(flat, e, Expected(Targets(t, e.topic), e))
  {
    TargetsDistinct(t, flat, e.topic);
    hide Refines, Live, Receivers, Targets, Receives;
    ExpectedMembers(Targets(t, e.topic), e);
    ChansHave(flat);
  }

  lemma TargetsReach(t: Table<EventChan>, flat: seq<Subscriber>, topic: string)
    requires Refines(t, flat) && Live(flat)
    ensures forall s :: s in flat ==>
      if Receives(s.topic, topic) then s in Targets(t, topic) else s.ch !in Chans(Targets(t, topic))
  {
    var targets := Targets(t, topic);
    TargetsDistinct(t, flat, topic);
    forall s | s in flat && s.ch in Chans(targets) ensures Receives(s.topic, topic) {
      var i :| 0 <= i < |targets| && targets[i].ch == s.ch;
      assert targets[i] in targets;
      LiveApart(flat, s, targets[i]);
    }
  }

  class EventBus {
    const exact: ExactTopics
    const wild: WildTopics
    const active: ActiveSubs
    var subSeq: nat
    var middlewares: seq<Middleware>
    var chain: Handler

    /** The live subscriptions, oldest first. */
    ghost var flat: seq<Subscriber>

    ghost function Repr(): set<object>
      reads this, exact, wild
    {
      {this, exact, wild} + exact.bufs + wild.bufs
    }

    ghost function Contents(): Table<EventChan>
      reads exact, wild
    {
      Table(exact.view, wild.view)
    }

    ghost predicate Sound()
      reads exact, wild, exact.bufs, wild.bufs
    {
      exact.Valid() && wild.Valid() && exact.bufs !! wild.bufs
    }

    ghost predicate Valid()
      reads Repr()
    {
      && Sound()
      && Refines(Contents(), flat) && Live(flat)
      && (forall s :: s in flat ==> s.id <= subSeq)
      && chain == Nest(middlewares)
    }

    constructor ()
      ensures Valid() && fresh(Repr()) && flat == [] && middlewares == []
      ensures active.Valid() && fresh(active) && active.list == Nil
    {
      exact := new ExactTopics();
      wild := new WildTopics();
      active := new ActiveSubs();
      subSeq, middlewares, chain, flat := 0, [], ToDispatch, [];
      new;
      EmptyRefines<EventChan>();
      assert Contents() == Empty();
    }

    /** Use: appends, then rebuilds the chain from the innermost handler outwards. */
    method Use(mws: seq<Middleware>)
      requires Valid()
      modifies this
      ensures Valid() && middlewares == old(middlewares) + mws
      ensures flat == old(flat) && subSeq == old(subSeq) && Contents() == old(Contents())
    {
      middlewares := middlewares + mws;
      var h := ToDispatch;
      var i := |middlewares|;
      assert middlewares[i..] == [];
      while i > 0
        invariant i <= |middlewares| && h == Nest(middlewares[i..])
      {
        i := i - 1;
        assert middlewares[i..][1..] == middlewares[i + 1..];
        h := Wrap(middlewares[i], h);
      }
      assert middlewares[0..] == middlewares;
      chain := h;
    }

    method AddToTable(sub: Subscriber)
      requires Sound()
      modifies exact, wild, exact.bufs, wild.bufs
      ensures Sound() && fresh(Repr() - old(Repr()))
      ensures Contents() == Add(old(Contents()), sub)
    {
      var isWild := IsWildcardPattern(sub.topic);
      if isWild { wild.Add(sub); } else { exact.Add(sub); }
    }

    method RemoveFromTable(topic: string, ch: EventChan)
      requires Sound()
      requires OwnTopics(Contents())
      modifies exact, wild, exact.bufs, wild.bufs
      ensures Sound() && Repr() == old(Repr())
      ensures Contents() == Remove(old(Contents()), topic, ch)
    {
      var isWild := IsWildcardPattern(topic);
      if isWild { wild.Remove(topic, ch); } else { exact.Remove(topic, ch); }
    }

    /** addChannel. */
    method AddChannel(topic: string, ch: EventChan)
      requires Valid() && forall s :: s in flat ==> s.ch != ch
      modifies Repr()
      ensures Valid() && fresh(Repr() - old(Repr()))
      ensures flat == old(flat) + [Sub(old(subSeq) + 1, topic, ch)] && subSeq == old(subSeq) + 1
      ensures Contents() == Add(old(Contents()), Sub(old(subSeq) + 1, topic, ch))
      ensures middlewares == old(middlewares)
    {
      hide Refines, Live, Add, ExactTopics.Valid, WildTopics.Valid;
      subSeq := subSeq + 1;
      var sub := Sub(subSeq, topic, ch);
      AddRefines(Contents(), flat, sub);
      AppendLive(flat, sub);
      AddToTable(sub);
      flat := flat + [sub];
    }

    /** Subscribe: a new channel, in the table under `topic`. */
    method Subscribe(topic: string) returns (ch: EventChan)
      requires Valid()
      modifies Repr()
      ensures Valid() && fresh(Repr() - old(Repr()))
      ensures fresh(ch) && ch.buf == [] && !ch.closed
      ensures flat == old(flat) + [Sub(old(subSeq) + 1, topic, ch)] && subSeq == old(subSeq) + 1
      ensures Contents() == Add(old(Contents()), Sub(old(subSeq) + 1, topic, ch))
    {
      hide Refines, Live, Add, Sound;
      ch := new EventChan();
      AddChannel(topic, ch);
    }

    /** RemoveChannel: in place, and without closing the channel. */
    method RemoveChannel(topic: string, ch: EventChan)
      requires Valid()
      modifies Repr()
      ensures Valid() && Repr() == old(Repr())
      ensures flat == Drop(old(flat), topic, ch) && subSeq == old(subSeq) && middlewares == old(middlewares)
      ensures Contents() == Remove(old(Contents()), topic, ch)
    {
      hide Refines, Live, Remove, Drop, OwnTopics, ExactTopics.Valid, WildTopics.Valid;
      ListsAreOfTopic(Contents(), flat);
      RemoveRefines(Contents(), flat, topic, ch);
      DropLive(flat, topic, ch);
      forall s | s in Drop(flat, topic, ch) ensures s in flat { DropMember(flat, topic, ch, s); }
      RemoveFromTable(topic, ch);
      flat := Drop(flat, topic, ch);
    }

    // ---- tracked subscriptions and Close -------------------------------------------------

    /** The bookkeeping of SubscribeAsync. */
    method SubscribeAsync(topic: string) returns (a: AsyncSub)
      requires Valid() && active.Valid()
      modifies Repr(), active, Backing(active.list)
      ensures Valid() && active.Valid() && fresh(a) && fresh(a.ch) && a.topic == topic && !a.done && !a.ch.closed
      ensures flat == old(flat) + [Sub(old(subSeq) + 1, topic, a.ch)]
      ensures active.Tracked() == old(active.Tracked()) + [a]
      ensures old(Once(active.Tracked())) ==> Once(active.Tracked())
      ensures old(Tidy(active.Tracked())) ==> Tidy(active.Tracked())
    {
      hide Valid, Repr, Once;
      a := Open(topic);
      Track(a);
    }

    method Open(topic: string) returns (a: AsyncSub)
      requires Valid() && active.Valid()
      modifies Repr()
      ensures Valid() && fresh(a) && fresh(a.ch) && a.topic == topic && !a.done && !a.ch.closed
      ensures flat == old(flat) + [Sub(old(subSeq) + 1, topic, a.ch)]
      ensures unchanged(active) && active.Valid() && active.Tracked() == old(active.Tracked())
      ensures old(Once(active.Tracked())) ==> Once(active.Tracked() + [a])
      ensures old(Tidy(active.Tracked())) ==> Tidy(active.Tracked() + [a])
    {
      hide Valid, Add, Once;
      ghost var v := active.Tracked();
      var ch := Subscribe(topic);
      a := new AsyncSub(topic, ch);
      if Once(v) { OnceMore(v, a); }
    }

    method Track(a: AsyncSub)
      requires Valid() && active.Valid()
      modifies active, Backing(active.list)
      ensures Valid() && Repr() == old(Repr()) && active.Valid() && flat == old(flat)
      ensures active.Tracked() == old(active.Tracked()) + [a]
    {
      active.Track(a);
    }

    /** Unsubscribe, once its workers have exited: does its work at the first call only. */
    method Unsubscribe(a: AsyncSub)
      requires Valid() && active.Valid()
      modifies Repr(), a`done, a.ch`closed, active, Backing(active.list)
      ensures Valid() && Repr() == old(Repr()) && active.Valid() && Backing(active.list) == old(Backing(active.list))
      ensures a.done && (a.ch.closed <==> old(!a.done || a.ch.closed)) && (old(active.list).Nil? ==> active.list.Nil?)
      ensures flat == if old(a.done) then old(flat) else Drop(old(flat), a.topic, a.ch)
      ensures active.Tracked() == if old(a.done) then old(active.Tracked()) else Sans(old(active.Tracked()), a)
      ensures old(Once(active.Tracked()) && !a.done) ==> Once(active.Tracked()) && a !in active.Tracked()
    {
      hide Valid, Drop, Remove, Sans, Once;
      if a.done { return; }
      ghost var v := active.Tracked();
      RemoveChannel(a.topic, a.ch);
      a.ch.CloseSafe();
      assert active.Tracked() == v;
      Untrack(a);
      a.done := true;
    }

    method Untrack(a: AsyncSub)
      requires Valid() && active.Valid()
      modifies active, Backing(active.list)
      ensures Valid() && Repr() == old(Repr()) && flat == old(flat)
      ensures active.Valid() && Backing(active.list) == old(Backing(active.list))
      ensures active.Tracked() == Sans(old(active.Tracked()), a) && (old(active.list).Nil? ==> active.list.Nil?)
      ensures old(Once(active.Tracked())) ==> Once(active.Tracked()) && a !in active.Tracked()
    {
      hide Sans, Once;
      ghost var v := active.Tracked();
      if Once(v) { SansOnce(v, a); }
      active.Untrack(a);
      assert active.Tracked() == Sans(v, a);
    }

    /** Close. The list of tracked subscriptions is swapped out before the loop, so the removals each
        Unsubscribe makes in the current list do not shift it: every tracked subscription is torn
        down, then every channel that is left is closed and the table emptied. */
    method Close()
      requires Valid() && active.Valid() && Tidy(active.Tracked())
      modifies Repr(), active, Owners(active.Tracked())`done, Ends(active.Tracked())`closed, Chans(flat)`closed
      ensures Valid() && active.Valid() && active.Tracked() == []
      ensures flat == [] && Contents() == Empty()
      ensures forall a :: a in old(active.Tracked()) ==> a.done
      ensures AllClosed(old(Ends(active.Tracked()) + Chans(flat)))
    {
      hide Valid, Chans, AllClosed, Contents, Refines, Live;
      ghost var v, all := active.Tracked(), Chans(flat);
      hide Owners, Ends, Tidy, Repr;
      var subs := TakeTracked();
      TearDownAll(subs);
      ghost var left := Chans(flat);
      CloseRest(Ends(v), all);
      SomeClosed(Ends(v) + all, Ends(v) + left);
    }

    /** The swap at the start of Close. */
    method TakeTracked() returns (subs: Slice<AsyncSub>)
      requires Valid() && active.Valid() && Tidy(active.Tracked())
      modifies active
      ensures Valid() && Repr() == old(Repr()) && active.list == Nil && flat == old(flat)
      ensures Fits(subs) && View(subs) == old(active.Tracked()) && Tidy(View(subs))
    {
      subs := active.Swap();
    }

    /** Unsubscribes every subscription of a list that is no longer the current one. */
    method TearDownAll(subs: Slice<AsyncSub>)
      requires Valid() && active.list == Nil && Fits(subs) && Tidy(View(subs))
      modifies Repr(), active, Owners(View(subs))`done, Ends(View(subs))`closed
      ensures Valid() && Repr() == old(Repr()) && active.list == Nil
      ensures forall a :: a in old(View(subs)) ==> a.done
      ensures AllClosed(old(Ends(View(subs))))
      ensures Chans(flat) <= old(Chans(flat)) <= Chans(flat) + old(Ends(View(subs)))
    {
      hide Valid, Repr, Chans;
      ghost var v, all := View(subs), Chans(flat);
      for k := 0 to Len(subs)
        invariant Valid() && Repr() == old(Repr()) && active.list == Nil
        invariant View(subs) == v
        invariant forall i :: 0 <= i < k ==> v[i].done && v[i].ch.closed
        invariant forall i :: k <= i < |v| && v[i].done ==> v[i].ch.closed
        invariant Chans(flat) <= all <= Chans(flat) + Ends(v)
      {
        assert subs.buf[k] == v[k];
        TearDown(subs.buf[k], subs);
      }
    }

    /** Unsubscribe as Close calls it, with the list it is working through. */
    method TearDown(a: AsyncSub, ghost subs: Slice<AsyncSub>)
      requires Valid() && active.list == Nil && Fits(subs) && (a.done ==> a.ch.closed)
      modifies Repr(), a`done, a.ch`closed, active
      ensures Valid() && Repr() == old(Repr()) && active.list == Nil
      ensures a.done && a.ch.closed && View(subs) == old(View(subs))
      ensures forall x: AsyncSub :: x in View(subs) && x != a ==>
        x.done == old(x.done) && (old(x.ch.closed) ==> x.ch.closed)
      ensures Chans(flat) <= old(Chans(flat)) <= Chans(flat) + {a.ch}
    {
      hide Valid, Drop, Sans, Chans;
      DropChannels(flat, a.topic, a.ch);
      Unsubscribe(a);
    }

    /** The residual pass of Close; the channels of `before` are closed already. */
    method CloseRest(ghost before: set<EventChan>, ghost all: set<EventChan>)
      requires Valid() && Chans(flat) <= all && AllClosed(before)
      modifies this`flat, exact, wild, all`closed
      ensures Valid() && Repr() == old(Repr())
      ensures flat == [] && Contents() == Empty()
      ensures AllClosed(before + old(Chans(flat)))
    {
      hide Refines, Live, Sound, Covers, AllClosed, Chans;
      ghost var t, v := Contents(), flat;
      ListedChannels(t, v, all);
      EmptyRefines<EventChan>();
      flat := [];
      ghost var done := CloseTables(before, all);
      LiveChannelsIn(t, v, done);
      SomeClosed(before + Chans(v), done);
    }

    method CloseTables(ghost before: set<EventChan>, ghost all: set<EventChan>) returns (ghost done: set<EventChan>)
      requires Sound() && Covers(all, Contents()) && AllClosed(before)
      modifies exact, wild, all`closed
      ensures Sound() && Repr() == old(Repr()) && Contents() == Empty()
      ensures AllClosed(done) && before <= done && Covers(done, old(Contents()))
    {
      hide AllClosed, Chans;
      done := exact.CloseAll(before, all);
      done := wild.CloseAll(done, all);
    }

    // ---- dispatch ----------------------------------------------------------------------

    /** dispatch. Whether it returns early, takes the fast path or goes through a copied target list,
        it delivers to the exact subscriptions and then to the matching groups, in that order. */
    method Dispatch(collector: Collector?, e: Event)
      requires Valid()
      modifies Chans(Targets(Contents(), e.topic)), if collector == null then {} else {collector}
      ensures Delivered(old(Targets(Contents(), e.topic)), e)
      ensures collector != null ==>
        collector.receipts == old(collector.receipts) + old(Expected(Targets(Contents(), e.topic), e))
    {
      hide Targets, Distinct, Valid;
      ghost var t := Targets(Contents(), e.topic);
      ghost var expected := Expected(t, e);
      var p := Choose(e.topic);
      assert Reached(p) == t && Expected(t, e) == expected;
      Send(collector, p, e);
    }

    /** The part of a dispatch under the lock. Nothing the bus shifts later is part of the plan. */
    method Choose(topic: string) returns (p: Plan)
      requires Valid()
      ensures PlanFits(p) && Reached(p) == Targets(Contents(), topic) && Distinct(Reached(p))
      ensures Valid() && forall b :: b in Held(p) ==> fresh(b) && b !in Repr()
    {
      hide Targets, Distinct;
      var exactSubs, hits := Read(topic);
      p := MakePlan(exactSubs, hits, |wild.groups|);
    }

    /** A dispatch that other goroutines overtake between the lock and the delivery, removing
        any channels: it still reaches exactly the subscriptions it chose. */
    method DispatchOvertaken(collector: Collector?, e: Event, removed: seq<(string, EventChan)>)
      requires Valid()
      modifies Repr(), Chans(Targets(Contents(), e.topic)), if collector == null then {} else {collector}
      ensures Delivered(old(Targets(Contents(), e.topic)), e)
      ensures collector != null ==>
        collector.receipts == old(collector.receipts) + old(Expected(Targets(Contents(), e.topic), e))
    {
      hide Targets, Distinct, Valid, Repr;
      ghost var t := Targets(Contents(), e.topic);
      ghost var expected := Expected(t, e);
      var p := Choose(e.topic);
      RemoveBehind(removed, p, collector);
      assert Expected(t, e) == expected;
      Send(collector, p, e);
    }

    /** Removals shift the lists of the table, not what a plan holds, and touch no channel. */
    method RemoveBehind(removed: seq<(string, EventChan)>, p: Plan, collector: Collector?)
      requires Valid() && PlanFits(p) && forall b :: b in Held(p) ==> b !in Repr()
      modifies Repr()
      ensures Valid() && Repr() == old(Repr())
      ensures Reached(p) == old(Reached(p))
      ensures forall i :: 0 <= i < |Reached(p)| ==> unchanged(Reached(p)[i].ch)
      ensures collector != null ==> unchanged(collector)
    {
      hide Valid, Remove, Drop;
      for k := 0 to |removed|
        invariant Valid() && Repr() == old(Repr())
      {
        RemoveChannel(removed[k].0, removed[k].1);
      }
    }

    /** What dispatch reads under the lock. */
    method Read(topic: string) returns (exactSubs: Slice<Subscriber>, hits: seq<Subscriber>)
      requires Valid()
      ensures Fits(exactSubs) && Targets(Contents(), topic) == View(exactSubs) + hits
      ensures Distinct(View(exactSubs) + hits) && (|wild.groups| == 0 ==> hits == [])
    {
      TargetsDistinct(Contents(), flat, topic);
      hide Distinct, Refines, Live;
      exactSubs := exact.Lookup(topic);
      hits := [];
      if |wild.groups| > 0 { hits := wild.Matching(topic); }
    }

    /** The subscriptions that a handler of the chain is going to reach with an event. */
    ghost function Due(h: Handler, e: Event): seq<Subscriber>
      reads exact, wild
    {
      var arrival := Arrival(h, e);
      if arrival.None? then [] else Targets(Contents(), arrival.value.topic)
    }

    /** And the receipts that this is going to leave in the collector. */
    ghost function Receipts(h: Handler, e: Event): seq<Receipt>
      reads exact, wild, Chans(Due(h, e))
    {
      if Collects(h, e) && Reaches(h, e) then Expected(Due(h, e), Arrival(h, e).value) else []
    }

    /** A handler of the chain: the middlewares it still has to pass, and then dispatch. */
    method Handle(h: Handler, collector: Collector?, e: Event) returns (err: bool)
      requires Valid()
      modifies Chans(Due(h, e)), if collector == null then {} else {collector}
      ensures err == Errs(h, e)
      ensures Reaches(h, e) ==> Delivered(old(Due(h, e)), Arrival(h, e).value)
      ensures collector != null ==> collector.receipts == old(collector.receipts) + old(Receipts(h, e))
      decreases h
    {
      hide Refines, Live, Sound, Expected, Targets;
      match h {
        case ToDispatch => Dispatch(collector, e); err := false;
        case Wrap(mw, next) =>
          match mw(e) {
            case Stop(stopped) => err := stopped;
            case Pass(onward, keep, after) =>
              err := Handle(next, if keep then collector else null, onward);
              match after {
                case Relay =>
                case Fail => err := true;
                case Mask => err := false;
                case Flip => err := !err;
              }
          }
      }
    }

    /** What PublishReport is going to do, by what the middlewares do with the event. */
    lemma ReportMeans(e: Event)
      requires Refines(Contents(), flat) && Live(flat) && chain == Nest(middlewares)
      ensures var bs := Behaviours(middlewares, e);
        && Arrival(chain, e) == Outgoing(bs, e)
        && (AllKeep(bs) ==> Complete(flat, Outgoing(bs, e).value, Receipts(chain, e)))
        && (!AllKeep(bs) ==> Receipts(chain, e) == [])
        && (Errs(chain, e) <==> Raised(bs))
    {
      ChainMeaning(middlewares, e);
      if Reaches(chain, e) { ArrivalMeaning(middlewares, e); }
      hide Targets, Refines, Live, Complete, Behaviours;
      var bs := Behaviours(middlewares, e);
      if AllKeep(bs) {
        assert AllPass(bs);
        TargetsComplete(Contents(), flat, Outgoing(bs, e).value);
      }
    }

    /** Who is due an event: those that receive what arrives, and nobody else on their channels. */
    lemma DueMeans(e: Event)
      requires Refines(Contents(), flat) && Live(flat)
      ensures forall s :: s in flat ==> (
        && (s in Due(chain, e) <==> Reaches(chain, e) && Receives(s.topic, Arrival(chain, e).value.topic))
        && (s in Due(chain, e) || s.ch !in Chans(Due(chain, e))))
    {
      if Reaches(chain, e) { TargetsReach(Contents(), flat, Arrival(chain, e).value.topic); }
    }

    /** PublishReport: every live subscription that receives the event the last middleware passes on has it,
        if its channel could take it, and none if a middleware ended it. The report has one receipt per
        subscription reached, in delivery order; it is complete if the collector got through, and else empty. */
    method PublishReport(e: Event) returns (receipts: seq<Receipt>, err: bool)
      requires Valid()
      modifies Chans(Due(chain, e))
      ensures err <==> Raised(Behaviours(middlewares, e))
      ensures var bs := Behaviours(middlewares, e);
        && Spread(flat, Outgoing(bs, e))
        && (AllKeep(bs) ==> old(Complete(flat, Outgoing(bs, e).value, receipts)))
        && (!AllKeep(bs) ==> receipts == [])
      ensures err == Errs(chain, e)
      ensures receipts == old(Receipts(chain, e))
      ensures Reaches(chain, e) ==> Delivered(old(Due(chain, e)), Arrival(chain, e).value)
    {
      ReportMeans(e);
      hide Valid, Contents, Due, Receipts, Errs, Arrival, Complete, Spread, Raised, AllPass, AllKeep, Behaviours;
      receipts, err := RunChain(e);
    }

    // From what the handlers promise of those due the event to what that means for every live
    // subscription, one step of the argument a method.

    method RunChain(e: Event) returns (receipts: seq<Receipt>, err: bool)
      requires Valid()
      modifies Chans(Due(chain, e))
      ensures err == Errs(chain, e)
      ensures receipts == old(Receipts(chain, e))
      ensures Reaches(chain, e) ==> Delivered(old(Due(chain, e)), Arrival(chain, e).value)
      ensures Spread(flat, Arrival(chain, e))
    {
      DueMeans(e);
      ChansHave(flat);
      hide Valid, Contents, Due, Receipts, Errs, Delivered, Chans, Refines, Live, Targets, Sound;
      receipts, err := RunCollector(e);
      hide Arrival, Receives;
    }

    method RunCollector(e: Event) returns (receipts: seq<Receipt>, err: bool)
      requires Valid()
      requires forall s :: s in flat ==> s in Due(chain, e) || s.ch !in Chans(Due(chain, e))
      modifies Chans(Due(chain, e))
      ensures err == Errs(chain, e)
      ensures receipts == old(Receipts(chain, e))
      ensures Reaches(chain, e) ==> Delivered(old(Due(chain, e)), Arrival(chain, e).value)
      ensures forall s :: s in flat ==> (
        && s.ch.closed == old(s.ch.closed)
        && s.ch.buf == old(s.ch.buf)
             + if Reaches(chain, e) && s in old(Due(chain, e)) && !old(s.ch.closed) && |old(s.ch.buf)| < 64
               then [Arrival(chain, e).value] else [])
    {
      hide Valid, Contents, Due, Receipts, Errs, Arrival, Delivered, Chans;
      receipts, err := RunMembers(e);
    }

    method RunMembers(e: Event) returns (receipts: seq<Receipt>, err: bool)
      requires Valid()
      modifies Chans(Due(chain, e))
      ensures err == Errs(chain, e)
      ensures receipts == old(Receipts(chain, e))
      ensures Reaches(chain, e) ==> Delivered(old(Due(chain, e)), Arrival(chain, e).value)
      ensures !Reaches(chain, e) ==> old(Due(chain, e)) == []
      ensures Reaches(chain, e) ==> forall s :: s in old(Due(chain, e)) ==>
        && s.ch.closed == old(s.ch.closed)
        && s.ch.buf == old(s.ch.buf)
             + if !old(s.ch.closed) && |old(s.ch.buf)| < 64 then [Arrival(chain, e).value] else []
    {
      ghost var due := Due(chain, e);
      assert !Reaches(chain, e) ==> due == [];
      hide Valid, Contents, Due, Receipts, Errs, Arrival, Chans;
      receipts, err := RunHandlers(e);
      assert forall s :: s in due ==> exists i :: 0 <= i < |due| && due[i] == s;
    }

    method RunHandlers(e: Event) returns (receipts: seq<Receipt>, err: bool)
      requires Valid()
      modifies Chans(Due(chain, e))
      ensures err == Errs(chain, e)
      ensures receipts == old(Receipts(chain, e))
      ensures Reaches(chain, e) ==> Delivered(old(Due(chain, e)), Arrival(chain, e).value)
    {
      hide Valid, Contents, Due, Receipts, Collects, Errs, Arrival;
      ghost var due := Due(chain, e);
      var collector := Collect(e);
      err := Handle(chain, collector, e);
      assert Reaches(chain, e) ==> Delivered(due, Arrival(chain, e).value);
      receipts := collector.receipts;
    }

    method Collect(e: Event) returns (collector: Collector)
      requires Valid()
      ensures Valid() && fresh(collector) && collector.receipts == []
      ensures Due(chain, e) == old(Due(chain, e)) && Receipts(chain, e) == old(Receipts(chain, e))
    {
      hide Expected, Sound, Refines, Live, Targets, Arrival;
      ghost var due := Due(chain, e);
      ghost var expected := if Reaches(chain, e) then Expected(due, Arrival(chain, e).value) else [];
      collector := new Collector();
      assert Due(chain, e) == due;
      assert expected == if Reaches(chain, e) then Expected(due, Arrival(chain, e).value) else [];
    }
  }
}
