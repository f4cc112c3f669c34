/** The two-level subscription index of bus.go as a value, the flat list of live
    subscriptions it stands for, and what dispatch reads from it. */
module Index {
  import opened Slices
  import opened Wildcard

  /** `C` is whatever identifies a subscriber's channel. */
  datatype Sub<C> = Sub(id: nat, topic: string, ch: C)

  datatype Entry<C> = Entry(pattern: string, segments: seq<string>, subs: seq<Sub<C>>)

  datatype Table<C> = Table(exact: map<string, seq<Sub<C>>>, wild: seq<Entry<C>>)

  ghost function Empty<C>(): Table<C> { Table(map[], []) }

  // ---- list operations shared by the table and the flat list ------------------

  /** Order-preserving removal of the first subscription of `topic` on `ch`, if any. */
  ghost function Drop<C>(subs: seq<Sub<C>>, topic: string, ch: C): (r: seq<Sub<C>>)
    ensures |r| == |subs| || |r| == |subs| - 1
  {
    if subs == [] then []
    else if subs[0].topic == topic && subs[0].ch == ch then subs[1..]
    else [subs[0]] + Drop(subs[1..], topic, ch)
  }

  /** The subscriptions whose topic lies in `topics`, in order. */
  ghost function Within<C>(subs: seq<Sub<C>>, topics: set<string>): seq<Sub<C>> {
    if subs == [] then []
    else (if subs[0].topic in topics then [subs[0]] else []) + Within(subs[1..], topics)
  }

  ghost function OfTopic<C>(subs: seq<Sub<C>>, topic: string): seq<Sub<C>> { Within(subs, {topic}) }

  /** The flat specification of dispatch: the live subscriptions that receive `event`. */
  ghost function Receivers<C>(subs: seq<Sub<C>>, event: string): seq<Sub<C>> {
    if subs == [] then []
    else (if Receives(subs[0].topic, event) then [subs[0]] else []) + Receivers(subs[1..], event)
  }

  // ---- the operations of bus.go on the table -----------------------------------

  ghost function Exact<C>(t: Table<C>, topic: string): seq<Sub<C>> {
    if topic in t.exact then t.exact[topic] else []
  }

  /** Appends to the group of the subscription's pattern, or starts one at the end. */
  ghost function AddToGroup<C>(wild: seq<Entry<C>>, sub: Sub<C>): seq<Entry<C>> {
    if wild == [] then [Entry(sub.topic, Split(sub.topic), [sub])]
    else if wild[0].pattern == sub.topic then [wild[0].(subs := wild[0].subs + [sub])] + wild[1..]
    else [wild[0]] + AddToGroup(wild[1..], sub)
  }

  ghost function Add<C>(t: Table<C>, sub: Sub<C>): Table<C> {
    if IsWildcard(sub.topic) then t.(wild := AddToGroup(t.wild, sub))
    else t.(exact := t.exact[sub.topic := Exact(t, sub.topic) + [sub]])
  }

  /** A group that becomes empty is taken out. */
  ghost function RemoveFromGroup<C>(wild: seq<Entry<C>>, pattern: string, ch: C): seq<Entry<C>> {
    if wild == [] then []
    else if wild[0].pattern != pattern then [wild[0]] + RemoveFromGroup(wild[1..], pattern, ch)
    else
      var left := Drop(wild[0].subs, pattern, ch);
      if left == [] then wild[1..] else [wild[0].(subs := left)] + wild[1..]
  }

  /** The list of an exact topic, unlike a group, stays behind when it becomes empty. */
  ghost function Remove<C>(t: Table<C>, topic: string, ch: C): Table<C> {
    if IsWildcard(topic) then t.(wild := RemoveFromGroup(t.wild, topic, ch))
    else if topic in t.exact then t.(exact := t.exact[topic := Drop(t.exact[topic], topic, ch)])
    else t
  }

  ghost function Hits<C>(wild: seq<Entry<C>>, event: seq<string>): seq<Sub<C>> {
    if wild == [] then []
    else (if SegmentsMatch(wild[0].segments, event) then wild[0].subs else []) + Hits(wild[1..], event)
  }

  /** The general path of dispatch: exact subscriptions, then the matching groups in group order. */
  ghost function Targets<C>(t: Table<C>, event: string): seq<Sub<C>> {
    Exact(t, event) + Hits(t.wild, Split(event))
  }

  // ---- the invariant ----------------------------------------------------------

  /** The flat list as subscribing builds it: ids ascending, every channel once. */
  ghost predicate Live<C>(flat: seq<Sub<C>>) {
    flat != [] ==>
      && (forall s :: s in flat[1..] ==> flat[0].id < s.id && flat[0].ch != s.ch)
      && Live(flat[1..])
  }

  ghost predicate Grouped<C>(e: Entry<C>, flat: seq<Sub<C>>) {
    && IsWildcard(e.pattern)
    && e.segments == Split(e.pattern)
    && e.subs == OfTopic(flat, e.pattern)
    && e.subs != []
  }

  ghost predicate AllGrouped<C>(wild: seq<Entry<C>>, flat: seq<Sub<C>>) {
    wild != [] ==> Grouped(wild[0], flat) && AllGrouped(wild[1..], flat)
  }

  ghost function Patterns<C>(wild: seq<Entry<C>>): set<string> {
    if wild == [] then {} else {wild[0].pattern} + Patterns(wild[1..])
  }

  ghost predicate OneGroupEach<C>(wild: seq<Entry<C>>) {
    wild != [] ==> wild[0].pattern !in Patterns(wild[1..]) && OneGroupEach(wild[1..])
  }

  ghost predicate ExactRefines<C>(t: Table<C>, flat: seq<Sub<C>>) {
    && (forall topic :: topic in t.exact ==> !IsWildcard(topic))
    && (forall topic :: !IsWildcard(topic) ==> Exact(t, topic) == OfTopic(flat, topic))
  }

  ghost predicate WildRefines<C>(wild: seq<Entry<C>>, flat: seq<Sub<C>>) {
    && AllGrouped(wild, flat)
    && OneGroupEach(wild)
    && (forall p :: IsWildcard(p) && OfTopic(flat, p) != [] ==> p in Patterns(wild))
  }

  /** The table is the flat list grouped by topic: same subscriptions, same order within a topic. */
  ghost predicate Refines<C>(t: Table<C>, flat: seq<Sub<C>>) {
    ExactRefines(t, flat) && WildRefines(t.wild, flat)
  }

  // ---- filters ----------------------------------------------------------------

  lemma {:induction false} WithinAppend<C>(a: seq<Sub<C>>, b: seq<Sub<C>>, topics: set<string>)
    ensures Within(a + b, topics) == Within(a, topics) + Within(b, topics)
  {
    if a == [] {
      assert a + b == b;
    } else {
      var kept := if a[0].topic in topics then [a[0]] else [];
      assert (a + b)[1..] == a[1..] + b;
      WithinAppend(a[1..], b, topics);
      assert kept + (Within(a[1..], topics) + Within(b, topics)) == (kept + Within(a[1..], topics)) + Within(b, topics);
    }
  }

  lemma WithinOne<C>(s: Sub<C>, topics: set<string>)
    ensures Within([s], topics) == if s.topic in topics then [s] else []
  {
    assert [s][1..] == [];
  }

  /** What is kept is in range and was there; what was there and in range is kept. */
  lemma {:induction false} WithinMember<C>(subs: seq<Sub<C>>, topics: set<string>, s: Sub<C>)
    ensures s in Within(subs, topics) <==> s in subs && s.topic in topics
  {
    if subs != [] {
      WithinMember(subs[1..], topics, s);
      assert subs == [subs[0]] + subs[1..];
    }
  }

  lemma {:induction false} WithinEmpty<C>(subs: seq<Sub<C>>, topics: set<string>)
    requires forall k :: 0 <= k < |subs| ==> subs[k].topic !in topics
    ensures Within(subs, topics) == []
  {
    if subs != [] { WithinEmpty(subs[1..], topics); }
  }

  /** Removing a subscription of `topic` from the flat list removes it from the
      list of that topic, and leaves the list of every other topic as it was. */
  lemma {:induction false} DropOfTopic<C>(flat: seq<Sub<C>>, topic: string, ch: C, other: string)
    ensures OfTopic(Drop(flat, topic, ch), other)
         == if other == topic then Drop(OfTopic(flat, topic), topic, ch) else OfTopic(flat, other)
  {
    if flat != [] {
      var s, rest := flat[0], flat[1..];
      assert flat == [s] + rest;
      OfTopicCons(s, rest, other);
      DropCons(s, rest, topic, ch);
      DropCons(s, OfTopic(rest, other), topic, ch);
      hide Drop, OfTopic;
      if s.topic != topic || s.ch != ch {
        DropOfTopic(rest, topic, ch, other);
        OfTopicCons(s, Drop(rest, topic, ch), other);
      }
    }
  }

  lemma OfTopicCons<C>(s: Sub<C>, rest: seq<Sub<C>>, topic: string)
    ensures OfTopic([s] + rest, topic) == if s.topic == topic then [s] + OfTopic(rest, topic) else OfTopic(rest, topic)
  {
    assert ([s] + rest)[1..] == rest;
    assert [] + OfTopic(rest, topic) == OfTopic(rest, topic);
  }

  lemma DropCons<C>(s: Sub<C>, rest: seq<Sub<C>>, topic: string, ch: C)
    ensures Drop([s] + rest, topic, ch)
         == if s.topic == topic && s.ch == ch then rest else [s] + Drop(rest, topic, ch)
  {
    assert ([s] + rest)[1..] == rest;
  }

  lemma {:induction false} DropMember<C>(subs: seq<Sub<C>>, topic: string, ch: C, s: Sub<C>)
    requires s in Drop(subs, topic, ch)
    ensures s in subs
  {
    if !(subs[0].topic == topic && subs[0].ch == ch) && s != subs[0] {
      DropMember(subs[1..], topic, ch, s);
    }
  }

  lemma {:induction false} DropKeeps<C>(subs: seq<Sub<C>>, topic: string, ch: C, s: Sub<C>)
    requires s in subs && !(s.topic == topic && s.ch == ch)
    ensures s in Drop(subs, topic, ch)
  {
    if s != subs[0] { DropKeeps(subs[1..], topic, ch, s); }
  }

  lemma {:induction false} DropLive<C>(flat: seq<Sub<C>>, topic: string, ch: C)
    requires Live(flat)
    ensures Live(Drop(flat, topic, ch))
  {
    if flat != [] && !(flat[0].topic == topic && flat[0].ch == ch) {
      DropLive(flat[1..], topic, ch);
      var tail := Drop(flat[1..], topic, ch);
      forall s | s in tail ensures s in flat[1..] { DropMember(flat[1..], topic, ch, s); }
      assert ([flat[0]] + tail)[1..] == tail;
    }
  }

  lemma {:induction false} AppendLive<C>(flat: seq<Sub<C>>, sub: Sub<C>)
    requires Live(flat)
    requires forall s :: s in flat ==> s.id < sub.id && s.ch != sub.ch
    ensures Live(flat + [sub])
  {
    if flat == [] {
      assert flat + [sub] == [sub];
    } else {
      AppendLive(flat[1..], sub);
      assert (flat + [sub])[1..] == flat[1..] + [sub];
    }
  }

  /** What a removal does to the live subscriptions, each on a channel of its own and in the order of their ids:
      the one of that topic on that channel is gone, and nothing else has changed. */
  lemma {:induction false} DropMeans<C>(flat: seq<Sub<C>>, topic: string, ch: C)
    requires Live(flat)
    ensures forall s :: s in Drop(flat, topic, ch) <==> s in flat && !(s.topic == topic && s.ch == ch)
    ensures Live(Drop(flat, topic, ch))
  {
    DropLive(flat, topic, ch);
    if flat != [] {
      DropMeans(flat[1..], topic, ch);
      assert flat == [flat[0]] + flat[1..];
    }
  }

  // ---- the table keeps refining the flat list ------------------------------------

  lemma EmptyRefines<C>()
    ensures Refines<C>(Empty(), []) && Live<C>([])
  {
  }

  lemma OfTopicAdded<C>(flat: seq<Sub<C>>, sub: Sub<C>, topic: string)
    ensures OfTopic(flat + [sub], topic) == OfTopic(flat, topic) + if sub.topic == topic then [sub] else []
  {
    WithinAppend(flat, [sub], {topic});
    WithinOne(sub, {topic});
  }

  /** Groups of other patterns are not affected by a change at one topic. */
  lemma {:induction false} OtherGroups<C>(wild: seq<Entry<C>>, flat: seq<Sub<C>>, flat': seq<Sub<C>>, topic: string)
    requires AllGrouped(wild, flat) && topic !in Patterns(wild)
    requires forall p :: p != topic ==> OfTopic(flat', p) == OfTopic(flat, p)
    ensures AllGrouped(wild, flat')
  {
    if wild != [] { OtherGroups(wild[1..], flat, flat', topic); }
  }

  lemma {:induction false} AddGroups<C>(wild: seq<Entry<C>>, flat: seq<Sub<C>>, flat': seq<Sub<C>>, sub: Sub<C>)
    requires AllGrouped(wild, flat) && OneGroupEach(wild) && IsWildcard(sub.topic)
    requires OfTopic(flat, sub.topic) != [] ==> sub.topic in Patterns(wild)
    requires forall p :: p != sub.topic ==> OfTopic(flat', p) == OfTopic(flat, p)
    requires OfTopic(flat', sub.topic) == OfTopic(flat, sub.topic) + [sub]
    ensures AllGrouped(AddToGroup(wild, sub), flat') && OneGroupEach(AddToGroup(wild, sub))
    ensures Patterns(AddToGroup(wild, sub)) == Patterns(wild) + {sub.topic}
  {
    var wild' := AddToGroup(wild, sub);
    if wild == [] {
      assert wild'[1..] == [];
    } else if wild[0].pattern == sub.topic {
      assert wild'[1..] == wild[1..];
      OtherGroups(wild[1..], flat, flat', sub.topic);
    } else {
      AddGroups(wild[1..], flat, flat', sub);
      assert wild'[1..] == AddToGroup(wild[1..], sub);
    }
  }

  lemma AddRefines<C>(t: Table<C>, flat: seq<Sub<C>>, sub: Sub<C>)
    requires Refines(t, flat)
    ensures Refines(Add(t, sub), flat + [sub])
  {
    var flat' := flat + [sub];
    forall topic ensures OfTopic(flat', topic) == OfTopic(flat, topic) + if sub.topic == topic then [sub] else [] {
      OfTopicAdded(flat, sub, topic);
    }
    if IsWildcard(sub.topic) {
      AddGroups(t.wild, flat, flat', sub);
    } else {
      OtherGroupsOnly(t.wild, flat, flat', sub.topic);
    }
  }

  /** A change at an exact topic leaves the whole wildcard half as it was. */
  lemma OtherGroupsOnly<C>(wild: seq<Entry<C>>, flat: seq<Sub<C>>, flat': seq<Sub<C>>, topic: string)
    requires WildRefines(wild, flat) && !IsWildcard(topic)
    requires forall p :: p != topic ==> OfTopic(flat', p) == OfTopic(flat, p)
    ensures WildRefines(wild, flat')
  {
    GroupsAreWildcards(wild, flat);
    OtherGroups(wild, flat, flat', topic);
  }

  lemma {:induction false} GroupsAreWildcards<C>(wild: seq<Entry<C>>, flat: seq<Sub<C>>)
    requires AllGrouped(wild, flat)
    ensures forall p :: p in Patterns(wild) ==> IsWildcard(p)
  {
    if wild != [] { GroupsAreWildcards(wild[1..], flat); }
  }

  lemma {:induction false} RemoveGroups<C>(wild: seq<Entry<C>>, flat: seq<Sub<C>>, flat': seq<Sub<C>>,
                                           topic: string, ch: C)
    requires AllGrouped(wild, flat) && OneGroupEach(wild)
    requires forall p :: p != topic ==> OfTopic(flat', p) == OfTopic(flat, p)
    requires OfTopic(flat', topic) == Drop(OfTopic(flat, topic), topic, ch)
    requires topic in Patterns(wild) || OfTopic(flat, topic) == []
    ensures var wild' := RemoveFromGroup(wild, topic, ch);
      && AllGrouped(wild', flat') && OneGroupEach(wild')
      && Patterns(wild') == if OfTopic(flat', topic) == [] then Patterns(wild) - {topic} else Patterns(wild)
  {
    hide OfTopic, Drop;
    if wild != [] {
      var wild' := RemoveFromGroup(wild, topic, ch);
      if wild[0].pattern == topic {
        OtherGroups(wild[1..], flat, flat', topic);
        if OfTopic(flat', topic) != [] { assert wild'[1..] == wild[1..]; }
      } else {
        RemoveGroups(wild[1..], flat, flat', topic, ch);
        assert wild'[1..] == RemoveFromGroup(wild[1..], topic, ch);
      }
    }
  }

  lemma RemoveFromExact<C>(t: Table<C>, flat: seq<Sub<C>>, flat': seq<Sub<C>>, topic: string, ch: C)
    requires ExactRefines(t, flat) && !IsWildcard(topic)
    requires forall other :: other != topic ==> OfTopic(flat', other) == OfTopic(flat, other)
    requires OfTopic(flat', topic) == Drop(OfTopic(flat, topic), topic, ch)
    ensures ExactRefines(Remove(t, topic, ch), flat')
  {
    hide OfTopic;
    assert Exact(t, topic) == OfTopic(flat, topic);
  }

  lemma RemoveFromWild<C>(t: Table<C>, flat: seq<Sub<C>>, flat': seq<Sub<C>>, topic: string, ch: C)
    requires Refines(t, flat) && IsWildcard(topic)
    requires forall other :: other != topic ==> OfTopic(flat', other) == OfTopic(flat, other)
    requires OfTopic(flat', topic) == Drop(OfTopic(flat, topic), topic, ch)
    ensures Refines(Remove(t, topic, ch), flat')
  {
    hide OfTopic, Drop;
    RemoveGroups(t.wild, flat, flat', topic, ch);
  }

  lemma RemoveRefines<C>(t: Table<C>, flat: seq<Sub<C>>, topic: string, ch: C)
    requires Refines(t, flat)
    ensures Refines(Remove(t, topic, ch), Drop(flat, topic, ch))
    ensures Remove(t, topic, ch).exact.Keys == t.exact.Keys
  {
    hide OfTopic, Drop, ExactRefines, WildRefines, RemoveFromGroup;
    var flat' := Drop(flat, topic, ch);
    forall other ensures OfTopic(flat', other)
      == if other == topic then Drop(OfTopic(flat, topic), topic, ch) else OfTopic(flat, other)
    {
      DropOfTopic(flat, topic, ch, other);
    }
    if IsWildcard(topic) {
      RemoveFromWild(t, flat, flat', topic, ch);
    } else {
      RemoveFromExact(t, flat, flat', topic, ch);
      OtherGroupsOnly(t.wild, flat, flat', topic);
    }
  }

  // ---- the same operations by position -------------------------------------------

  ghost predicate Hit<C>(s: Sub<C>, topic: string, ch: C) { s.topic == topic && s.ch == ch }

  lemma {:induction false} DropAt<C>(subs: seq<Sub<C>>, topic: string, ch: C, i: nat)
    requires i < |subs| && Hit(subs[i], topic, ch)
    requires forall j :: 0 <= j < i ==> !Hit(subs[j], topic, ch)
    ensures Drop(subs, topic, ch) == Without(subs, i)
  {
    if i > 0 {
      assert !Hit(subs[0], topic, ch);
      DropAt(subs[1..], topic, ch, i - 1);
    }
  }

  lemma {:induction false} DropNone<C>(subs: seq<Sub<C>>, topic: string, ch: C)
    requires forall j :: 0 <= j < |subs| ==> !Hit(subs[j], topic, ch)
    ensures Drop(subs, topic, ch) == subs
  {
    if subs != [] {
      assert !Hit(subs[0], topic, ch);
      DropNone(subs[1..], topic, ch);
    }
  }

  lemma {:induction false} AddToGroupAt<C>(wild: seq<Entry<C>>, sub: Sub<C>, i: nat)
    requires i <= |wild| && (i < |wild| ==> wild[i].pattern == sub.topic)
    requires forall j :: 0 <= j < i ==> wild[j].pattern != sub.topic
    ensures AddToGroup(wild, sub)
         == if i < |wild| then wild[i := wild[i].(subs := wild[i].subs + [sub])]
            else wild + [Entry(sub.topic, Split(sub.topic), [sub])]
  {
    if i > 0 { AddToGroupAt(wild[1..], sub, i - 1); }
  }

  lemma {:induction false} RemoveFromGroupAt<C>(wild: seq<Entry<C>>, pattern: string, ch: C, i: nat)
    requires i <= |wild| && (i < |wild| ==> wild[i].pattern == pattern)
    requires forall j :: 0 <= j < i ==> wild[j].pattern != pattern
    ensures RemoveFromGroup(wild, pattern, ch)
         == if i == |wild| then wild
            else
              var left := Drop(wild[i].subs, pattern, ch);
              if left == [] then Without(wild, i) else wild[i := wild[i].(subs := left)]
  {
    hide Drop;
    if i > 0 {
      var first, rest := wild[0], wild[1..];
      RemoveFromGroupAt(rest, pattern, ch, i - 1);
      assert wild == [first] + rest;
      if i < |wild| {
        var left := Drop(wild[i].subs, pattern, ch);
        if left == [] {
          assert Without(wild, i) == [first] + Without(rest, i - 1);
        } else {
          assert wild[i := wild[i].(subs := left)] == [first] + rest[i - 1 := wild[i].(subs := left)];
        }
      }
    }
  }

  lemma {:induction false} HitsAppend<C>(a: seq<Entry<C>>, b: seq<Entry<C>>, event: seq<string>)
    ensures Hits(a + b, event) == Hits(a, event) + Hits(b, event)
  {
    if a == [] {
      assert a + b == b;
    } else {
      assert (a + b)[1..] == a[1..] + b;
      HitsAppend(a[1..], b, event);
    }
  }

  ghost predicate OwnTopic<C>(subs: seq<Sub<C>>, topic: string) { forall x :: x in subs ==> x.topic == topic }

  /** Every list of the table holds subscriptions of its own topic only, and no group is empty. */
  ghost predicate OwnTopics<C>(t: Table<C>) {
    && (forall topic :: topic in t.exact ==> OwnTopic(t.exact[topic], topic))
    && (forall i :: 0 <= i < |t.wild| ==> t.wild[i].subs != [] && OwnTopic(t.wild[i].subs, t.wild[i].pattern))
  }

  lemma ListsAreOfTopic<C>(t: Table<C>, flat: seq<Sub<C>>)
    requires Refines(t, flat)
    ensures OwnTopics(t)
  {
    forall topic | topic in t.exact ensures OwnTopic(t.exact[topic], topic) {
      assert Exact(t, topic) == OfTopic(flat, topic);
      OfTopicOwn(flat, topic);
    }
    forall i | 0 <= i < |t.wild|
      ensures t.wild[i].subs != [] && OwnTopic(t.wild[i].subs, t.wild[i].pattern)
    {
      GroupedAt(t.wild, flat, i);
      OfTopicOwn(flat, t.wild[i].pattern);
    }
  }

  lemma {:induction false} WithinLive<C>(flat: seq<Sub<C>>, topics: set<string>)
    requires Live(flat)
    ensures Live(Within(flat, topics))
  {
    if flat != [] {
      WithinLive(flat[1..], topics);
      var tail := Within(flat[1..], topics);
      forall s | s in tail ensures s in flat[1..] { WithinMember(flat[1..], topics, s); }
      assert ([flat[0]] + tail)[1..] == tail && [] + tail == tail;
    }
  }

  /** Inside each list the ids ascend and no channel occurs twice. */
  lemma ListsAscend<C>(t: Table<C>, flat: seq<Sub<C>>)
    requires Refines(t, flat) && Live(flat)
    ensures forall topic :: topic in t.exact ==> Live(t.exact[topic])
    ensures forall i :: 0 <= i < |t.wild| ==> Live(t.wild[i].subs)
  {
    forall topic | topic in t.exact ensures Live(t.exact[topic]) {
      assert Exact(t, topic) == OfTopic(flat, topic);
      WithinLive(flat, {topic});
    }
    forall i | 0 <= i < |t.wild| ensures Live(t.wild[i].subs) {
      GroupedAt(t.wild, flat, i);
      WithinLive(flat, {t.wild[i].pattern});
    }
  }

  lemma OfTopicOwn<C>(flat: seq<Sub<C>>, topic: string)
    ensures OwnTopic(OfTopic(flat, topic), topic)
  {
    forall x | x in OfTopic(flat, topic) ensures x.topic == topic { WithinMember(flat, {topic}, x); }
  }

  lemma {:induction false} GroupedAt<C>(wild: seq<Entry<C>>, flat: seq<Sub<C>>, i: nat)
    requires AllGrouped(wild, flat) && i < |wild|
    ensures Grouped(wild[i], flat)
  {
    if i > 0 { GroupedAt(wild[1..], flat, i - 1); }
  }

  lemma {:induction false} PatternAt<C>(wild: seq<Entry<C>>, p: string) returns (i: nat)
    requires p in Patterns(wild)
    ensures i < |wild| && wild[i].pattern == p
  {
    if wild[0].pattern == p { i := 0; } else { var j := PatternAt(wild[1..], p); i := j + 1; }
  }

  /** Every live subscription is in one of the lists. */
  lemma LiveIsListed<C>(t: Table<C>, flat: seq<Sub<C>>, s: Sub<C>)
    requires Refines(t, flat) && s in flat
    ensures (s.topic in t.exact && s in t.exact[s.topic]) || exists i :: 0 <= i < |t.wild| && s in t.wild[i].subs
  {
    WithinMember(flat, {s.topic}, s);
    assert s in OfTopic(flat, s.topic);
    if IsWildcard(s.topic) {
      var i := PatternAt(t.wild, s.topic);
      GroupedAt(t.wild, flat, i);
      assert s in t.wild[i].subs;
    } else {
      assert Exact(t, s.topic) == OfTopic(flat, s.topic);
    }
  }

  /** And nothing else is. */
  lemma ListedIsLive<C>(t: Table<C>, flat: seq<Sub<C>>)
    requires Refines(t, flat)
    ensures forall topic, s :: topic in t.exact && s in t.exact[topic] ==> s in flat
    ensures forall i, s :: 0 <= i < |t.wild| && s in t.wild[i].subs ==> s in flat
  {
    forall topic, s | topic in t.exact && s in t.exact[topic] ensures s in flat {
      assert Exact(t, topic) == OfTopic(flat, topic);
      WithinMember(flat, {topic}, s);
    }
    forall i, s | 0 <= i < |t.wild| && s in t.wild[i].subs ensures s in flat {
      GroupedAt(t.wild, flat, i);
      WithinMember(flat, {t.wild[i].pattern}, s);
    }
  }

  // ---- dispatch ------------------------------------------------------------------

  /** Growing the set of kept topics by one adds exactly the list of that topic. */
  lemma {:induction false} WithinGrow<C>(subs: seq<Sub<C>>, topics: set<string>, topic: string)
    requires topic !in topics
    ensures multiset(Within(subs, topics + {topic}))
         == multiset(Within(subs, topics)) + multiset(OfTopic(subs, topic))
  {
    if subs != [] { WithinGrow(subs[1..], topics, topic); }
  }

  ghost function HitPatterns<C>(wild: seq<Entry<C>>, event: seq<string>): set<string> {
    if wild == [] then {}
    else (if SegmentsMatch(wild[0].segments, event) then {wild[0].pattern} else {}) + HitPatterns(wild[1..], event)
  }

  lemma {:induction false} HitPatternsMatch<C>(wild: seq<Entry<C>>, flat: seq<Sub<C>>, event: string, p: string)
    requires AllGrouped(wild, flat)
    ensures p in HitPatterns(wild, Split(event)) <==> p in Patterns(wild) && TopicMatches(p, event)
  {
    if wild != [] { HitPatternsMatch(wild[1..], flat, event, p); }
  }

  lemma {:induction false} HitPatternsListed<C>(wild: seq<Entry<C>>, event: seq<string>)
    ensures HitPatterns(wild, event) <= Patterns(wild)
  {
    if wild != [] { HitPatternsListed(wild[1..], event); }
  }

  lemma {:induction false} HitsAreWithin<C>(wild: seq<Entry<C>>, flat: seq<Sub<C>>, event: seq<string>)
    requires AllGrouped(wild, flat) && OneGroupEach(wild)
    ensures multiset(Hits(wild, event)) == multiset(Within(flat, HitPatterns(wild, event)))
  {
    hide SegmentsMatch, Split;
    if wild == [] {
      WithinEmpty(flat, {});
    } else {
      var inRest := HitPatterns(wild[1..], event);
      HitsAreWithin(wild[1..], flat, event);
      if SegmentsMatch(wild[0].segments, event) {
        HitPatternsListed(wild[1..], event);
        WithinGrow(flat, inRest, wild[0].pattern);
        assert {wild[0].pattern} + inRest == inRest + {wild[0].pattern};
      } else {
        assert {} + inRest == inRest;
      }
    }
  }

  lemma {:induction false} ReceiversAreWithin<C>(subs: seq<Sub<C>>, event: string, topics: set<string>)
    requires forall k :: 0 <= k < |subs| ==> (Receives(subs[k].topic, event) <==> subs[k].topic in topics)
    ensures Receivers(subs, event) == Within(subs, topics)
  {
    if subs != [] { ReceiversAreWithin(subs[1..], event, topics); }
  }

  /** Main result of dispatch: through the two-level index it reaches exactly the live
      subscriptions that receive the event, each as often as the flat list has it. */
  lemma TargetsAreReceivers<C>(t: Table<C>, flat: seq<Sub<C>>, event: string)
    requires Refines(t, flat)
    ensures multiset(Targets(t, event)) == multiset(Receivers(flat, event))
  {
    var ps := HitPatterns(t.wild, Split(event));
    HitsAreWithin(t.wild, flat, Split(event));
    forall p ensures p in ps <==> p in Patterns(t.wild) && TopicMatches(p, event) {
      HitPatternsMatch(t.wild, flat, event, p);
    }
    GroupsAreWildcards(t.wild, flat);
    var topics := if IsWildcard(event) then ps else ps + {event};
    if !IsWildcard(event) {
      WithinGrow(flat, ps, event);
    }
    forall k | 0 <= k < |flat| ensures Receives(flat[k].topic, event) <==> flat[k].topic in topics {
      var topic := flat[k].topic;
      WithinMember(flat, {topic}, flat[k]);
      assert OfTopic(flat, topic) != [];
    }
    ReceiversAreWithin(flat, event, topics);
  }

  lemma {:induction false} ReceiversMember<C>(subs: seq<Sub<C>>, event: string, s: Sub<C>)
    ensures s in Receivers(subs, event) <==> s in subs && Receives(s.topic, event)
  {
    if subs != [] {
      ReceiversMember(subs[1..], event, s);
      assert subs == [subs[0]] + subs[1..];
    }
  }

  lemma {:induction false} ReceiversLive<C>(flat: seq<Sub<C>>, event: string)
    requires Live(flat)
    ensures Live(Receivers(flat, event))
  {
    if flat != [] {
      ReceiversLive(flat[1..], event);
      var tail := Receivers(flat[1..], event);
      forall s | s in tail ensures s in flat[1..] { ReceiversMember(flat[1..], event, s); }
      assert ([flat[0]] + tail)[1..] == tail && [] + tail == tail;
    }
  }

  lemma {:induction false} LiveOnce<C>(p: seq<Sub<C>>, x: Sub<C>)
    requires Live(p)
    ensures multiset(p)[x] <= 1
  {
    if p != [] {
      LiveOnce(p[1..], x);
      assert p == [p[0]] + p[1..];
    }
  }

  /** Ids and channels both tell live subscriptions apart. */
  lemma {:induction false} LiveApart<C>(p: seq<Sub<C>>, x: Sub<C>, y: Sub<C>)
    requires Live(p) && x in p && y in p && (x.id == y.id || x.ch == y.ch)
    ensures x == y
  {
    if x != p[0] && y != p[0] { LiveApart(p[1..], x, y); }
  }

  ghost predicate Distinct<C>(s: seq<Sub<C>>) {
    forall i, j :: 0 <= i < j < |s| ==> s[i].ch != s[j].ch && s[i].id != s[j].id
  }

  lemma Twice<T>(s: seq<T>, i: nat, j: nat)
    requires i < j < |s| && s[i] == s[j]
    ensures multiset(s)[s[i]] >= 2
  {
    assert s == s[..j] + [s[j]] + s[j + 1..];
    assert s[..j][i] == s[i];
  }

  /** A permutation of a live list has distinct ids and channels. */
  lemma DistinctChannels<C>(s: seq<Sub<C>>, p: seq<Sub<C>>)
    requires Live(p) && multiset(s) == multiset(p)
    ensures Distinct(s)
  {
    forall i, j | 0 <= i < j < |s| ensures s[i].ch != s[j].ch && s[i].id != s[j].id {
      var x, y := s[i], s[j];
      assert x in multiset(s) && y in multiset(s);
      assert x in p && y in p;
      if x.ch == y.ch || x.id == y.id {
        LiveApart(p, x, y);
        LiveOnce(p, x);
        Twice(s, i, j);
        assert false;
      }
    }
  }

  /** No subscriber is reached twice by one event. */
  lemma TargetsDistinct<C>(t: Table<C>, flat: seq<Sub<C>>, event: string)
    requires Refines(t, flat) && Live(flat)
    ensures Distinct(Targets(t, event))
    ensures |Targets(t, event)| == |Receivers(flat, event)|
    ensures forall s :: s in Targets(t, event) ==> s in flat && Receives(s.topic, event)
    ensures forall s :: s in flat && Receives(s.topic, event) ==> s in Targets(t, event)
  {
    hide Targets, Receivers, Refines, Live, Receives;
    TargetsAreReceivers(t, flat, event);
    ReceiversLive(flat, event);
    DistinctChannels(Targets(t, event), Receivers(flat, event));
    SameMembers(Targets(t, event), Receivers(flat, event));
    forall s | s in Targets(t, event) ensures s in flat && Receives(s.topic, event) {
      ReceiversMember(flat, event, s);
    }
    forall s | s in flat && Receives(s.topic, event) ensures s in Targets(t, event) {
      ReceiversMember(flat, event, s);
    }
  }

  lemma SameMembers<T>(a: seq<T>, b: seq<T>)
    requires multiset(a) == multiset(b)
    ensures |a| == |b|
    ensures forall x :: x in a ==> x in b
    ensures forall x :: x in b ==> x in a
  {
    assert |a| == |multiset(a)| && |b| == |multiset(b)|;
    forall x ensures x in a <==> x in b { assert x in a <==> x in multiset(a); }
  }

  // ---- whole runs ------------------------------------------------------------------

  datatype Op<C> = Subscribe(topic: string, ch: C) | RemoveChannel(topic: string, ch: C) | Close

  datatype State<C> = State(table: Table<C>, flat: seq<Sub<C>>, seqNo: nat, made: set<C>)

  ghost function Step<C>(s: State<C>, op: Op<C>): State<C> {
    match op
    case Subscribe(topic, ch) =>
      var sub := Sub(s.seqNo + 1, topic, ch);
      State(Add(s.table, sub), s.flat + [sub], s.seqNo + 1, s.made + {ch})
    case RemoveChannel(topic, ch) =>
      State(Remove(s.table, topic, ch), Drop(s.flat, topic, ch), s.seqNo, s.made)
    case Close => State(Empty(), [], s.seqNo, s.made)
  }

  ghost function Run<C>(ops: seq<Op<C>>): State<C> {
    if ops == [] then State(Empty(), [], 0, {}) else Step(Run(ops[..|ops| - 1]), ops[|ops| - 1])
  }

  /** Subscribe makes its own channel, so no two of them use the same one. */
  ghost predicate FreshChannels<C>(ops: seq<Op<C>>) {
    forall i, j :: 0 <= i < j < |ops| && ops[i].Subscribe? && ops[j].Subscribe? ==> ops[i].ch != ops[j].ch
  }

  ghost function Made<C>(ops: seq<Op<C>>): set<C> {
    set i | 0 <= i < |ops| && ops[i].Subscribe? :: ops[i].ch
  }

  ghost predicate Good<C>(s: State<C>) {
    && Refines(s.table, s.flat)
    && Live(s.flat)
    && forall x :: x in s.flat ==> x.id <= s.seqNo && x.ch in s.made
  }

  lemma SubscribeGood<C>(s: State<C>, topic: string, ch: C)
    requires Good(s) && ch !in s.made
    ensures Good(Step(s, Subscribe(topic, ch)))
  {
    hide Refines, Live, Add;
    var sub := Sub(s.seqNo + 1, topic, ch);
    AddRefines(s.table, s.flat, sub);
    AppendLive(s.flat, sub);
  }

  lemma RemoveGood<C>(s: State<C>, topic: string, ch: C)
    requires Good(s)
    ensures Good(Step(s, RemoveChannel(topic, ch)))
  {
    RemoveRefines(s.table, s.flat, topic, ch);
    DropLive(s.flat, topic, ch);
    forall x | x in Drop(s.flat, topic, ch) ensures x in s.flat { DropMember(s.flat, topic, ch, x); }
  }

  lemma StepGood<C>(s: State<C>, op: Op<C>)
    requires Good(s) && (op.Subscribe? ==> op.ch !in s.made)
    ensures Good(Step(s, op))
  {
    match op
    case Subscribe(topic, ch) => SubscribeGood(s, topic, ch);
    case RemoveChannel(topic, ch) => RemoveGood(s, topic, ch);
    case Close => EmptyRefines<C>();
  }

  /** After any operations the index holds exactly the live subscriptions. */
  lemma {:induction false} RunRefines<C>(ops: seq<Op<C>>)
    requires FreshChannels(ops)
    ensures Good(Run(ops)) && Run(ops).made == Made(ops)
  {
    if ops == [] {
      EmptyRefines<C>();
    } else {
      var before, op := ops[..|ops| - 1], ops[|ops| - 1];
      RunRefines(before);
      assert forall i :: 0 <= i < |before| ==> before[i] == ops[i];
      assert Made(ops) == Made(before) + if op.Subscribe? then {op.ch} else {};
      StepGood(Run(before), op);
    }
  }

  /** Over any run, dispatch reaches the live matching subscriptions, each once. */
  lemma RunDispatch<C>(ops: seq<Op<C>>, event: string)
    requires FreshChannels(ops)
    ensures var s := Run(ops);
      && multiset(Targets(s.table, event)) == multiset(Receivers(s.flat, event))
      && Distinct(Targets(s.table, event))
  {
    RunRefines(ops);
    TargetsAreReceivers(Run(ops).table, Run(ops).flat, event);
    TargetsDistinct(Run(ops).table, Run(ops).flat, event);
  }
}
