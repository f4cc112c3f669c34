/** The list of tracked subscriptions (activeSubs in bus.go), shrunk in place. */
module Tracking {
  import opened Slices
  import opened Channels

  /** A subscription the bus tracks. Its workers are the subject of AsyncProtocol. */
  class AsyncSub {
    const topic: string
    const ch: EventChan
    var done: bool

    constructor (topic: string, ch: EventChan)
      ensures this.topic == topic && this.ch == ch && !done
    {
      this.topic, this.ch, done := topic, ch, false;
    }
  }

  /** A subscription that has ended, which may be tracked after its end, has a closed channel. */
  ghost predicate Tidy(subs: seq<AsyncSub>)
    reads Owners(subs), Ends(subs)
  {
    forall a :: a in subs && a.done ==> a.ch.closed
  }

  ghost predicate Once(subs: seq<AsyncSub>) {
    subs != [] ==> subs[0] !in subs[1..] && Once(subs[1..])
  }

  lemma {:induction false} OnceMore(subs: seq<AsyncSub>, a: AsyncSub)
    requires Once(subs) && a !in subs
    ensures Once(subs + [a])
  {
    if subs != [] {
      OnceMore(subs[1..], a);
      assert (subs + [a])[1..] == subs[1..] + [a];
    }
  }

  ghost function Owners(subs: seq<AsyncSub>): set<AsyncSub> { set a | a in subs }

  ghost function Ends(subs: seq<AsyncSub>): set<EventChan> { set a | a in subs :: a.ch }

  ghost function Sans(subs: seq<AsyncSub>, a: AsyncSub): (r: seq<AsyncSub>)
    ensures forall x :: x in r ==> x in subs
  {
    if subs == [] then [] else if subs[0] == a then subs[1..] else [subs[0]] + Sans(subs[1..], a)
  }

  lemma {:induction false} SansAt(subs: seq<AsyncSub>, a: AsyncSub, i: nat)
    requires i <= |subs| && (i < |subs| ==> subs[i] == a) && forall j :: 0 <= j < i ==> subs[j] != a
    ensures Sans(subs, a) == if i < |subs| then Without(subs, i) else subs
  {
    if i > 0 {
      SansAt(subs[1..], a, i - 1);
      assert subs == [subs[0]] + subs[1..];
      assert i < |subs| ==> Without(subs, i) == [subs[0]] + Without(subs[1..], i - 1);
    }
  }

  lemma {:induction false} SansOnce(subs: seq<AsyncSub>, a: AsyncSub)
    requires Once(subs)
    ensures Once(Sans(subs, a)) && a !in Sans(subs, a)
  {
    if subs != [] && subs[0] != a {
      SansOnce(subs[1..], a);
      assert Sans(subs, a)[1..] == Sans(subs[1..], a);
    }
  }

  /** activeSubs, under its own lock. */
  class ActiveSubs {
    var list: Slice<AsyncSub>

    ghost predicate Valid()
      reads this
    {
      Fits(list)
    }

    ghost function Tracked(): seq<AsyncSub>
      requires Valid()
      reads this, Backing(list)
    {
      View(list)
    }

    constructor ()
      ensures Valid() && list == Nil
    {
      list := Nil;
    }

    method Track(a: AsyncSub)
      requires Valid()
      modifies this, Backing(list)
      ensures Valid() && Tracked() == old(Tracked()) + [a]
      ensures Backing(list) == old(Backing(list)) || fresh(Backing(list))
    {
      list := Append(list, a);
    }

    /** Takes the list away; what it showed stays as it is. */
    method Swap() returns (subs: Slice<AsyncSub>)
      requires Valid()
      modifies this
      ensures Valid() && list == Nil && subs == old(list)
    {
      subs := list;
      list := Nil;
    }

    /** untrackSub: in place; one that is not tracked is no error. */
    method Untrack(a: AsyncSub)
      requires Valid()
      modifies this, Backing(list)
      ensures Valid() && Backing(list) == old(Backing(list))
      ensures Tracked() == Sans(old(Tracked()), a) && (old(list).Nil? ==> list.Nil?)
    {
      var i := 0;
      while i < Len(list)
        invariant i <= Len(list) && forall j :: 0 <= j < i ==> View(list)[j] != a
      {
        if list.buf[i] == a { break; }
        i := i + 1;
      }
      SansAt(View(list), a, i);
      if i < Len(list) { list := RemoveAt(list, i); }
    }
  }
}
