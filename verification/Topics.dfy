/** The two halves of the subscription table (bus.go) over shared backing arrays: the map of exact
    topics and the list of wildcard groups. */
module Topics {
  import opened Slices
  import opened Index
  import opened Wildcard
  import opened Channels

  /** Position of the first subscription on `ch`, or the length. */
  method FindChannel(s: Slice<Subscriber>, ch: EventChan) returns (i: nat)
    requires Fits(s)
    ensures i <= Len(s) && (i < Len(s) ==> View(s)[i].ch == ch)
    ensures forall j :: 0 <= j < i ==> View(s)[j].ch != ch
  {
    i := 0;
    while i < Len(s)
      invariant i <= Len(s)
      invariant forall j :: 0 <= j < i ==> View(s)[j].ch != ch
    {
      if s.buf[i].ch == ch { return; }
      i := i + 1;
    }
  }

  /** Removes in place the first subscription of `topic` on `ch` from a list of that topic. */
  method DropIn(s: Slice<Subscriber>, topic: string, ch: EventChan) returns (r: Slice<Subscriber>)
    requires Fits(s) && OwnTopic(View(s), topic)
    modifies Backing(s)
    ensures Fits(r) && Backing(r) == Backing(s) && View(r) == Drop(old(View(s)), topic, ch)
  {
    var i := FindChannel(s, ch);
    ghost var v := View(s);
    assert forall j :: 0 <= j < |v| ==> v[j] in v;
    if i < Len(s) {
      DropAt(v, topic, ch, i);
      r := RemoveAt(s, i);
    } else {
      DropNone(v, topic, ch);
      r := s;
    }
  }

  /** The exact topics. */
  class ExactTopics {
    var lists: map<string, Slice<Subscriber>>
    ghost var view: map<string, seq<Subscriber>>
    ghost var bufs: set<array<Subscriber>>

    ghost predicate Shows(t: string)
      requires t in lists && t in view && Backing(lists[t]) <= bufs
      reads this, bufs
    {
      Fits(lists[t]) && View(lists[t]) == view[t]
    }

    ghost predicate Valid()
      reads this, bufs
    {
      && lists.Keys == view.Keys
      && (forall t :: t in lists ==> Backing(lists[t]) <= bufs && Shows(t))
      && (forall t, u :: t in lists && u in lists && t != u ==> Backing(lists[t]) !! Backing(lists[u]))
    }

    constructor ()
      ensures Valid() && bufs == {} && view == map[]
    {
      lists, view, bufs := map[], map[], {};
    }

    method Add(sub: Subscriber)
      requires Valid()
      modifies this, bufs
      ensures Valid() && fresh(bufs - old(bufs))
      ensures view == old(view)[sub.topic := (if sub.topic in old(view) then old(view)[sub.topic] else []) + [sub]]
    {
      var s := Lookup(sub.topic);
      var r := Append(s, sub);
      forall t | t in lists && t != sub.topic ensures Shows(t) && Backing(lists[t]) !! Backing(r) {
        assert old(Shows(t));
      }
      Put(sub.topic, r);
    }

    /** Replaces the list of one topic. */
    method Put(topic: string, r: Slice<Subscriber>)
      requires lists.Keys == view.Keys && Fits(r)
      requires forall t :: t in lists && t != topic ==>
        Backing(lists[t]) <= bufs && Shows(t) && Backing(lists[t]) !! Backing(r)
      requires forall t, u :: t in lists && u in lists && t != u ==> Backing(lists[t]) !! Backing(lists[u])
      modifies this
      ensures Valid() && bufs == old(bufs) + Backing(r) && view == old(view)[topic := View(r)]
    {
      lists := lists[topic := r];
      view := view[topic := View(r)];
      bufs := bufs + Backing(r);
      forall t | t in lists && t != topic ensures Shows(t) { assert old(Shows(t)); }
    }

    method Lookup(topic: string) returns (s: Slice<Subscriber>)
      requires Valid()
      ensures Fits(s) && View(s) == if topic in view then view[topic] else []
      ensures s == if topic in lists then lists[topic] else Nil
    {
      if topic !in lists { return Nil; }
      assert Shows(topic);
      s := lists[topic];
    }

    method Remove(topic: string, ch: EventChan)
      requires Valid() && (topic in view ==> OwnTopic(view[topic], topic))
      modifies this, bufs
      ensures Valid() && bufs == old(bufs)
      ensures view == if topic in old(view) then old(view)[topic := Drop(old(view)[topic], topic, ch)] else old(view)
    {
      if topic !in lists { return; }
      assert Shows(topic);
      var r := DropIn(lists[topic], topic, ch);
      forall t | t in lists && t != topic ensures Shows(t) { assert old(Shows(t)); }
      Put(topic, r);
    }

    /** Closes the list of one topic and deletes it. */
    method CloseTopic(t: string, ghost done: set<EventChan>, ghost all: set<EventChan>)
      requires Valid() && t in lists && Chans(view[t]) <= all && AllClosed(done)
      modifies this, all`closed
      ensures Valid() && bufs == old(bufs) && view == old(view) - {t} && lists == old(lists) - {t}
      ensures AllClosed(done + Chans(old(view)[t]))
    {
      hide Chans, AllClosed;
      assert Shows(t);
      CloseList(lists[t], done, all);
      Delete(t);
    }

    method Delete(t: string)
      requires Valid() && t in lists
      modifies this
      ensures Valid() && bufs == old(bufs) && view == old(view) - {t} && lists == old(lists) - {t}
    {
      lists, view := lists - {t}, view - {t};
      forall u | u in lists ensures Backing(lists[u]) <= bufs && Shows(u) { assert old(Shows(u)); }
    }

    /** Closes every channel and empties the map, topic by topic in any order. */
    method CloseAll(ghost before: set<EventChan>, ghost all: set<EventChan>) returns (ghost done: set<EventChan>)
      requires Valid() && AllClosed(before) && forall t :: t in view ==> Chans(view[t]) <= all
      modifies this, all`closed
      ensures Valid() && bufs == old(bufs) && view == map[]
      ensures AllClosed(done) && before <= done && forall t :: t in old(view) ==> Chans(old(view)[t]) <= done
    {
      ghost var v := view;
      done := before;
      hide Chans, AllClosed;
      while lists != map[]
        invariant Valid() && bufs == old(bufs) && AllClosed(done) && before <= done
        invariant forall t :: t in view ==> t in v && view[t] == v[t]
        invariant forall t :: t in v && t !in view ==> Chans(v[t]) <= done
        decreases lists.Keys
      {
        var t :| t in lists;
        CloseTopic(t, done, all);
        done := done + Chans(v[t]);
      }
    }
  }

  /** The wildcard groups. */
  class WildTopics {
    var groups: seq<Group>
    ghost var view: seq<Entry<EventChan>>
    ghost var bufs: set<array<Subscriber>>

    ghost predicate Shows(i: nat)
      requires i < |groups| && i < |view| && Backing(groups[i].subs) <= bufs
      reads this, bufs
    {
      && Fits(groups[i].subs)
      && view[i] == Entry(groups[i].pattern, groups[i].segments, View(groups[i].subs))
    }

    ghost predicate Valid()
      reads this, bufs
    {
      && |groups| == |view|
      && (forall i :: 0 <= i < |groups| ==> Backing(groups[i].subs) <= bufs && Shows(i))
      && (forall i, j :: 0 <= i < j < |groups| ==> Backing(groups[i].subs) !! Backing(groups[j].subs))
    }

    constructor ()
      ensures Valid() && bufs == {} && view == []
    {
      groups, view, bufs := [], [], {};
    }

    /** Position of the group of `pattern`, or the length. */
    method FindGroup(pattern: string) returns (i: nat)
      requires Valid()
      ensures i <= |groups| && (i < |groups| ==> groups[i].pattern == pattern)
      ensures forall j :: 0 <= j < i ==> view[j].pattern != pattern
    {
      i := 0;
      while i < |groups|
        invariant i <= |groups|
        invariant forall j :: 0 <= j < i ==> groups[j].pattern != pattern
      {
        if groups[i].pattern == pattern { break; }
        i := i + 1;
      }
      forall j | 0 <= j < i ensures view[j].pattern != pattern { assert Shows(j); }
    }

    method Add(sub: Subscriber)
      requires Valid()
      modifies this, bufs
      ensures Valid() && fresh(bufs - old(bufs))
      ensures view == AddToGroup(old(view), sub)
    {
      var i := FindGroup(sub.topic);
      assert i < |groups| ==> Shows(i);
      AddToGroupAt(view, sub, i);
      if i < |groups| { Grow(i, sub); } else { Start(sub); }
    }

    /** Appends to the i-th group. */
    method Grow(i: nat, sub: Subscriber)
      requires Valid() && i < |groups|
      modifies this, bufs
      ensures Valid() && fresh(bufs - old(bufs))
      ensures view == old(view)[i := old(view)[i].(subs := old(view)[i].subs + [sub])]
    {
      assert Shows(i);
      var r := Append(groups[i].subs, sub);
      groups := groups[i := groups[i].(subs := r)];
      view := view[i := view[i].(subs := view[i].subs + [sub])];
      bufs := bufs + Backing(r);
    }

    /** Starts a group at the end. */
    method Start(sub: Subscriber)
      requires Valid()
      modifies this
      ensures Valid() && fresh(bufs - old(bufs))
      ensures view == old(view) + [Entry(sub.topic, Split(sub.topic), [sub])]
    {
      var one := new Subscriber[1](_ => sub);
      groups := groups + [Group(sub.topic, Split(sub.topic), Slice(one, 1))];
      view := view + [Entry(sub.topic, Split(sub.topic), [sub])];
      bufs := bufs + {one};
    }

    method Matching(event: string) returns (hits: seq<Subscriber>)
      requires Valid()
      ensures hits == Hits(view, Split(event))
    {
      var topic := Split(event);
      hits := [];
      for i := 0 to |groups|
        invariant hits == Hits(view[..i], topic)
      {
        assert Shows(i);
        var g := groups[i];
        var matches := MatchSegments(g.segments, topic);
        if matches && g.subs.Slice? { hits := hits + g.subs.buf[..g.subs.len]; }
        assert view[..i + 1] == view[..i] + [view[i]];
        HitsAppend(view[..i], [view[i]], topic);
        assert [view[i]][1..] == [];
      }
      assert view[..|view|] == view;
    }

    /** Removes a subscription from the i-th group, which may become empty. */
    method Shrink(i: nat, ch: EventChan)
      requires Valid() && i < |groups| && OwnTopic(view[i].subs, view[i].pattern)
      modifies this, bufs
      ensures Valid() && bufs == old(bufs)
      ensures view == old(view)[i := old(view)[i].(subs := Drop(old(view)[i].subs, old(view)[i].pattern, ch))]
    {
      assert Shows(i);
      var r := DropIn(groups[i].subs, groups[i].pattern, ch);
      groups := groups[i := groups[i].(subs := r)];
      view := view[i := view[i].(subs := Drop(view[i].subs, view[i].pattern, ch))];
    }

    /** Takes out the i-th group. */
    method Delete(i: nat)
      requires Valid() && i < |groups|
      modifies this
      ensures Valid() && bufs == old(bufs) && view == Without(old(view), i)
    {
      ghost var oldGroups := groups;
      groups := groups[..i] + groups[i + 1..];
      view := Without(view, i);
      forall k | 0 <= k < |groups| ensures Backing(groups[k].subs) <= bufs && Shows(k) {
        var k' := if k < i then k else k + 1;
        assert groups[k] == oldGroups[k'] && view[k] == old(view)[k'];
        assert old(Shows(k'));
      }
    }

    method Remove(topic: string, ch: EventChan)
      requires Valid()
      requires forall i :: 0 <= i < |view| ==> view[i].subs != [] && OwnTopic(view[i].subs, view[i].pattern)
      modifies this, bufs
      ensures Valid() && bufs == old(bufs)
      ensures view == RemoveFromGroup(old(view), topic, ch)
    {
      var i := FindGroup(topic);
      assert i < |groups| ==> Shows(i);
      RemoveFromGroupAt(view, topic, ch, i);
      if i == |groups| { return; }
      Shrink(i, ch);
      assert Shows(i);
      if Len(groups[i].subs) == 0 {
        Delete(i);
        assert view == Without(old(view), i);
      }
    }

    method CloseAll(ghost before: set<EventChan>, ghost all: set<EventChan>) returns (ghost done: set<EventChan>)
      requires Valid() && AllClosed(before) && forall i :: 0 <= i < |view| ==> Chans(view[i].subs) <= all
      modifies this, all`closed
      ensures Valid() && bufs == old(bufs) && view == []
      ensures AllClosed(done) && before <= done && forall i :: 0 <= i < |old(view)| ==> Chans(old(view)[i].subs) <= done
    {
      hide Chans, AllClosed;
      done := before;
      for i := 0 to |groups|
        invariant unchanged(this) && Valid() && AllClosed(done) && before <= done
        invariant forall k :: 0 <= k < i ==> Chans(view[k].subs) <= done
      {
        assert Shows(i);
        CloseList(groups[i].subs, done, all);
        done := done + Chans(view[i].subs);
      }
      groups, view := [], [];
    }
  }
}
