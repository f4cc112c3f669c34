/** Topic patterns (wildcard.go): splitting on '.', the segment matcher and the
    test that decides whether a subscription is kept as a wildcard. */
module Wildcard {
  import opened Wrappers

  // ---- path.Match, from its documented grammar ------------------------------

  datatype Term =
    | Star
    | AnyChar
    | Lit(c: char)
    | Class(negated: bool, ranges: seq<(char, char)>)

  datatype MatchResult = BadPattern | Matched(ok: bool)

  /** One possibly escaped end point of a character range. The range must still be
      followed by something, at least its closing bracket. */
  function ParseEsc(p: string): (r: Option<(char, string)>)
    ensures r.Some? ==> 0 < |r.value.1| < |p|
  {
    if p == "" || p[0] == '-' || p[0] == ']' then None
    else
      var from := if p[0] == '\\' then 1 else 0;
      if |p| < from + 2 then None else Some((p[from], p[from + 1..]))
  }

  /** The ranges of a character class up to its closing bracket; at least one. */
  function ParseRanges(p: string, seen: seq<(char, char)>): (r: Option<(seq<(char, char)>, string)>)
    ensures r.Some? ==> |r.value.1| < |p|
    decreases |p|
  {
    if p != "" && p[0] == ']' && seen != [] then Some((seen, p[1..]))
    else
      match ParseEsc(p)
      case None => None
      case Some((lo, afterLo)) =>
        if afterLo[0] != '-' then ParseRanges(afterLo, seen + [(lo, lo)])
        else
          match ParseEsc(afterLo[1..])
          case None => None
          case Some((hi, afterHi)) => ParseRanges(afterHi, seen + [(lo, hi)])
  }

  function Prepend(t: Term, rest: Option<seq<Term>>): Option<seq<Term>> {
    if rest.None? then None else Some([t] + rest.value)
  }

  /** The terms of a pattern, or None for a malformed one. */
  function Parse(p: string): Option<seq<Term>>
    decreases |p|
  {
    if p == "" then Some([])
    else if p[0] == '*' then Prepend(Star, Parse(p[1..]))
    else if p[0] == '?' then Prepend(AnyChar, Parse(p[1..]))
    else if p[0] == '\\' then
      if |p| < 2 then None else Prepend(Lit(p[1]), Parse(p[2..]))
    else if p[0] == '[' then
      var negated := |p| > 1 && p[1] == '^';
      match ParseRanges(p[if negated then 2 else 1..], [])
      case None => None
      case Some((ranges, rest)) => Prepend(Class(negated, ranges), Parse(rest))
    else Prepend(Lit(p[0]), Parse(p[1..]))
  }

  predicate InClass(ranges: seq<(char, char)>, c: char) {
    exists i :: 0 <= i < |ranges| && ranges[i].0 <= c <= ranges[i].1
  }

  predicate Matches(ts: seq<Term>, name: string)
    decreases |ts|, |name|
  {
    if ts == [] then name == ""
    else if ts[0].Star? then
      Matches(ts[1..], name) || (name != "" && name[0] != '/' && Matches(ts, name[1..]))
    else
      && name != ""
      && (match ts[0]
          case AnyChar => name[0] != '/'
          case Lit(c) => name[0] == c
          case Class(negated, ranges) => InClass(ranges, name[0]) != negated)
      && Matches(ts[1..], name[1..])
  }

  function PathMatch(pattern: string, name: string): MatchResult {
    match Parse(pattern)
    case None => BadPattern
    case Some(ts) => Matched(Matches(ts, name))
  }

  // ---- strings.Split and strings.ContainsAny --------------------------------

  function Split(s: string): (r: seq<string>)
    ensures |r| >= 1
  {
    if s == "" then [""]
    else if s[0] == '.' then [""] + Split(s[1..])
    else var rest := Split(s[1..]); [[s[0]] + rest[0]] + rest[1..]
  }

  function Join(segs: seq<string>): string
    requires |segs| >= 1
  {
    if |segs| == 1 then segs[0] else segs[0] + "." + Join(segs[1..])
  }

  predicate IsMeta(c: char) { c == '*' || c == '?' || c == '[' || c == '\\' }

  predicate HasMeta(p: string) { exists i :: 0 <= i < |p| && IsMeta(p[i]) }

  // ---- specification of the three functions of wildcard.go ------------------

  predicate Wellformed(segs: seq<string>) {
    forall i :: 0 <= i < |segs| ==> Parse(segs[i]).Some?
  }

  /** The subscription is grouped under its pattern rather than stored as an exact topic. */
  predicate IsWildcard(p: string) { HasMeta(p) && Wellformed(Split(p)) }

  predicate SegmentsMatch(pattern: seq<string>, topic: seq<string>) {
    |pattern| == |topic| &&
    forall i :: 0 <= i < |pattern| ==> PathMatch(pattern[i], topic[i]) == Matched(true)
  }

  predicate TopicMatches(pattern: string, topic: string) { SegmentsMatch(Split(pattern), Split(topic)) }

  /** What a subscriber to `pattern` receives, whichever half of the index holds it. */
  predicate Receives(pattern: string, topic: string) {
    if IsWildcard(pattern) then TopicMatches(pattern, topic) else pattern == topic
  }

  // ---- the loops ------------------------------------------------------------

  method ContainsMeta(p: string) returns (found: bool)
    ensures found == HasMeta(p)
  {
    for i := 0 to |p|
      invariant forall j :: 0 <= j < i ==> !IsMeta(p[j])
    {
      if IsMeta(p[i]) { return true; }
    }
    return false;
  }

  method IsWildcardPattern(pattern: string) returns (r: bool)
    ensures r == IsWildcard(pattern)
  {
    var meta := ContainsMeta(pattern);
    if !meta { return false; }
    var segs := Split(pattern);
    for i := 0 to |segs|
      invariant forall j :: 0 <= j < i ==> Parse(segs[j]).Some?
    {
      if PathMatch(segs[i], "").BadPattern? { return false; }
    }
    return true;
  }

  method MatchSegments(pattern: seq<string>, topic: seq<string>) returns (r: bool)
    ensures r == SegmentsMatch(pattern, topic)
  {
    if |pattern| != |topic| { return false; }
    for i := 0 to |pattern|
      invariant forall j :: 0 <= j < i ==> PathMatch(pattern[j], topic[j]) == Matched(true)
    {
      var m := PathMatch(pattern[i], topic[i]);
      if m.BadPattern? || !m.ok { return false; }
    }
    return true;
  }

  // ---- properties -----------------------------------------------------------

  /** Joining undoes splitting. */
  lemma {:induction false} JoinSplit(s: string)
    ensures Join(Split(s)) == s
  {
    if s != "" {
      JoinSplit(s[1..]);
      var rest := Split(s[1..]);
      if s[0] == '.' {
        assert ([""] + rest)[1..] == rest;
      } else if |rest| > 1 {
        assert Split(s)[1..] == rest[1..];
      }
    }
  }

  /** Two topics with the same segments are the same topic. */
  lemma SplitInjective(a: string, b: string)
    ensures Split(a) == Split(b) <==> a == b
  {
    JoinSplit(a);
    JoinSplit(b);
  }

  /** Splitting also undoes joining: the segments are exactly the dot-free pieces. */
  lemma {:induction false} SplitJoin(segs: seq<string>)
    requires |segs| >= 1
    requires forall i :: 0 <= i < |segs| ==> '.' !in segs[i]
    ensures Split(Join(segs)) == segs
    decreases |segs|, |segs[0]|
  {
    var s := Join(segs);
    if segs[0] == "" {
      if |segs| > 1 {
        SplitJoin(segs[1..]);
        assert s[1..] == Join(segs[1..]);
      }
    } else {
      var shorter := [segs[0][1..]] + segs[1..];
      assert shorter[1..] == segs[1..];
      assert segs[0][0] in segs[0];
      SplitJoin(shorter);
      assert s[1..] == Join(shorter);
      assert Split(s) == [[s[0]] + shorter[0]] + shorter[1..];
      assert [s[0]] + shorter[0] == segs[0];
    }
  }

  lemma {:induction false} SegmentsKeepMeta(p: string)
    requires !HasMeta(p)
    ensures forall i :: 0 <= i < |Split(p)| ==> !HasMeta(Split(p)[i])
  {
    if p != "" {
      SegmentsKeepMeta(p[1..]);
      assert !IsMeta(p[0]);
    }
  }

  lemma {:induction false} LiteralSegment(seg: string, name: string)
    requires !HasMeta(seg)
    ensures PathMatch(seg, name) == Matched(seg == name)
  {
    if seg != "" {
      assert !IsMeta(seg[0]);
      LiteralSegment(seg[1..], if name == "" then "" else name[1..]);
      var ts := Parse(seg).value;
      assert ts[1..] == Parse(seg[1..]).value;
      if name != "" {
        assert seg == name <==> seg[0] == name[0] && seg[1..] == name[1..] by {
          if seg[0] == name[0] && seg[1..] == name[1..] {
            assert seg == [seg[0]] + seg[1..] == name;
          }
        }
      }
    }
  }

  /** Without metacharacters, segment-wise matching is string equality. */
  lemma LiteralPattern(p: string, topic: string)
    requires !HasMeta(p)
    ensures TopicMatches(p, topic) <==> p == topic
  {
    SegmentsKeepMeta(p);
    SplitInjective(p, topic);
    var a, b := Split(p), Split(topic);
    forall i | 0 <= i < |a| && i < |b|
      ensures PathMatch(a[i], b[i]) == Matched(a[i] == b[i])
    {
      LiteralSegment(a[i], b[i]);
    }
    if TopicMatches(p, topic) {
      assert a == b;
    }
  }

  /** For a pattern stored as an exact topic, exact lookup agrees with the segment
      matcher on every event topic if and only if the pattern has no metacharacter:
      a malformed pattern matches no topic segment-wise, not even itself. */
  lemma ExactLookupAgreesWithMatcher(p: string)
    requires !IsWildcard(p)
    ensures (forall topic :: TopicMatches(p, topic) <==> p == topic) <==> !HasMeta(p)
  {
    if !HasMeta(p) {
      forall topic ensures TopicMatches(p, topic) <==> p == topic { LiteralPattern(p, topic); }
    } else {
      var i :| 0 <= i < |Split(p)| && Parse(Split(p)[i]).None?;
      assert PathMatch(Split(p)[i], Split(p)[i]) == BadPattern;
      assert !TopicMatches(p, p);
    }
  }

  /** A pattern accepted as a wildcard never makes the segment matcher report an error. */
  lemma WildcardNeverErrs(p: string, i: nat, name: string)
    requires IsWildcard(p) && i < |Split(p)|
    ensures PathMatch(Split(p)[i], name).Matched?
  {
    assert Parse(Split(p)[i]).Some?;
  }

  /** The class in "[a.b]" is cut by the split, so the pattern is malformed and is
      received by its literal name only. */
  lemma MalformedClassIsExact(topic: string)
    ensures Receives("[a.b]", topic) <==> topic == "[a.b]"
    ensures HasMeta("[a.b]") && !TopicMatches("[a.b]", topic)
  {
    var p := "[a.b]";
    assert IsMeta(p[0]);
    SplitJoin(["[a", "b]"]);
    assert Join(["[a", "b]"]) == p by { assert ["[a", "b]"][1..] == ["b]"]; }
    assert "[a"[1..] == "a";
    assert ParseEsc("a").None? && ParseRanges("a", []).None?;
    assert Parse(Split(p)[0]).None?;
    assert PathMatch(Split(p)[0], Split(topic)[0]) == BadPattern;
  }

  /** What a subscriber receives, by the pattern alone: if every segment is well formed, what the
      segment matcher matches; otherwise its own name only. */
  lemma ReceivesMeans(p: string, topic: string)
    ensures (forall i :: 0 <= i < |Split(p)| ==> Parse(Split(p)[i]).Some?) ==>
      (Receives(p, topic) <==> TopicMatches(p, topic))
    ensures (exists i :: 0 <= i < |Split(p)| && Parse(Split(p)[i]).None?) ==> (Receives(p, topic) <==> p == topic)
  {
    if !HasMeta(p) { LiteralPattern(p, topic); }
  }

  /** A lone star stands for any one segment without a slash. */
  lemma {:induction false} StarSegment(name: string)
    ensures PathMatch("*", name) == Matched('/' !in name)
  {
    assert Parse("*") == Some([Star]) by {
      assert "*"[1..] == "" && Parse("") == Some([]) && [Star] + [] == [Star];
    }
    assert [Star][1..] == [];
    if name != "" {
      StarSegment(name[1..]);
      assert name == [name[0]] + name[1..];
      assert !Matches([], name);
    }
  }
}
