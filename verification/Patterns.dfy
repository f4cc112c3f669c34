/** The documented grammar of path.Match, which wildcard.go applies to each segment: what the parser
    accepts is exactly what the grammar writes, and the matcher finds exactly the names whose parts
    fit the terms one by one. */
module Patterns {
  import opened Wrappers
  import opened Wildcard

  /** How a character may be written inside a class, */
  predicate Writes(s: string, c: char) {
    s == ['\\', c] || (s == [c] && c != '-' && c != ']' && c != '\\')
  }

  /** a range or a single character, */
  predicate WritesRange(s: string, r: (char, char)) {
    || (r.0 == r.1 && Writes(s, r.0))
    || exists k :: 0 < k < |s| && s[k] == '-' && Writes(s[..k], r.0) && Writes(s[k + 1..], r.1)
  }

  /** and several of them. */
  predicate WritesRanges(s: string, ranges: seq<(char, char)>)
    decreases |ranges|
  {
    if ranges == [] then s == ""
    else exists k :: 0 < k <= |s| && WritesRange(s[..k], ranges[0]) && WritesRanges(s[k..], ranges[1..])
  }

  predicate WritesTerm(s: string, t: Term) {
    match t
    case Star => s == "*"
    case AnyChar => s == "?"
    case Lit(c) => s == ['\\', c] || (s == [c] && c !in "*?[\\")
    case Class(negated, ranges) =>
      var open := if negated then "[^" else "[";
      && ranges != [] && |open| + 1 < |s| && s[..|open|] == open && s[|s| - 1] == ']'
      && (!negated ==> s[1] != '^')
      && WritesRanges(s[|open|..|s| - 1], ranges)
  }

  /** The pattern is a text of these terms. */
  predicate Spells(p: string, ts: seq<Term>)
    decreases |ts|
  {
    if ts == [] then p == ""
    else exists k :: 0 < k <= |p| && WritesTerm(p[..k], ts[0]) && Spells(p[k..], ts[1..])
  }

  /** The part of a name that one term stands for. */
  predicate Fits(t: Term, part: string) {
    match t
    case Star => '/' !in part
    case AnyChar => |part| == 1 && part[0] != '/'
    case Lit(c) => part == [c]
    case Class(negated, ranges) =>
      |part| == 1 && ((exists r :: r in ranges && r.0 <= part[0] <= r.1) <==> !negated)
  }

  /** The name can be cut into parts that fit the terms one by one. */
  predicate FitsAll(ts: seq<Term>, name: string)
    decreases |ts|
  {
    if ts == [] then name == ""
    else exists k :: 0 <= k <= |name| && Fits(ts[0], name[..k]) && FitsAll(ts[1..], name[k..])
  }

  // ---- the parser and the grammar -------------------------------------------------------

  lemma EscWrites(p: string)
    requires ParseEsc(p).Some?
    ensures var (c, rest) := ParseEsc(p).value;
      p == p[..|p| - |rest|] + rest && Writes(p[..|p| - |rest|], c)
  {
  }

  lemma WritesEsc(text: string, c: char, rest: string)
    requires Writes(text, c) && rest != ""
    ensures ParseEsc(text + rest) == Some((c, rest))
    ensures text[0] != '-' && text[0] != ']'
  {
    var p := text + rest;
    assert p[|text|..] == rest;
  }

  lemma MoreRanges(item: string, r: (char, char), body: string, ranges: seq<(char, char)>)
    requires item != "" && WritesRange(item, r) && WritesRanges(body, ranges)
    ensures WritesRanges(item + body, [r] + ranges)
  {
    var s, all := item + body, [r] + ranges;
    assert s[..|item|] == item && s[|item|..] == body && all[1..] == ranges;
  }

  /** The parser takes one range off the front. */
  lemma FirstRange(p: string, seen: seq<(char, char)>) returns (k: nat, r: (char, char))
    requires ParseRanges(p, seen).Some? && !(p != "" && p[0] == ']' && seen != [])
    ensures 0 < k <= |p| && WritesRange(p[..k], r) && ParseRanges(p, seen) == ParseRanges(p[k..], seen + [r])
  {
    hide Writes, ParseEsc;
    EscWrites(p);
    var (lo, afterLo) := ParseEsc(p).value;
    k, r := |p| - |afterLo|, (lo, lo);
    if afterLo[0] == '-' {
      EscWrites(afterLo[1..]);
      var (hi, afterHi) := ParseEsc(afterLo[1..]).value;
      var m := k;
      k, r := |p| - |afterHi|, (lo, hi);
      assert p[..k][..m] == p[..m] && p[..k][m + 1..] == afterLo[1..][..|afterLo| - 1 - |afterHi|];
      assert p[..k][m] == '-';
    }
  }

  lemma {:induction false} RangesSound(p: string, seen: seq<(char, char)>)
    returns (body: string, ranges: seq<(char, char)>)
    requires ParseRanges(p, seen).Some?
    ensures var (all, rest) := ParseRanges(p, seen).value;
      all == seen + ranges && all != [] && p == body + ("]" + rest) && WritesRanges(body, ranges)
    decreases |p|
  {
    if p != "" && p[0] == ']' && seen != [] {
      body, ranges := "", [];
      assert p == "]" + p[1..];
    } else {
      hide WritesRange, WritesRanges;
      var k, r := FirstRange(p, seen);
      hide ParseRanges;
      var body0, ranges0 := RangesSound(p[k..], seen + [r]);
      MoreRanges(p[..k], r, body0, ranges0);
      Assoc(seen, [r], ranges0);
      Assoc(p[..k], body0, "]" + ParseRanges(p, seen).value.1);
      body, ranges := p[..k] + body0, [r] + ranges0;
    }
  }

  lemma Assoc<T>(a: seq<T>, b: seq<T>, c: seq<T>)
    ensures a + b + c == a + (b + c)
  {
  }

  /** A text of ranges does not begin like the end of a class or the middle of a range. */
  lemma RangesBegin(body: string, ranges: seq<(char, char)>)
    requires WritesRanges(body, ranges) && body != ""
    ensures body[0] != '-' && body[0] != ']'
  {
    var k :| 0 < k <= |body| && WritesRange(body[..k], ranges[0]) && WritesRanges(body[k..], ranges[1..]);
    hide WritesRanges;
    RangeBegins(body[..k], ranges[0]);
  }

  lemma RangeBegins(item: string, r: (char, char))
    requires WritesRange(item, r)
    ensures item != "" && item[0] != '-' && item[0] != ']'
  {
    if !(r.0 == r.1 && Writes(item, r.0)) {
      var m :| 0 < m < |item| && item[m] == '-' && Writes(item[..m], r.0) && Writes(item[m + 1..], r.1);
      assert item[0] == item[..m][0];
    }
  }

  lemma RangeParses(item: string, r: (char, char), tail: string, seen: seq<(char, char)>)
    requires WritesRange(item, r) && tail != "" && tail[0] != '-'
    ensures ParseRanges(item + tail, seen) == ParseRanges(tail, seen + [r])
  {
    hide Writes, ParseEsc;
    if r.0 == r.1 && Writes(item, r.0) {
      WritesEsc(item, r.0, tail);
    } else {
      var m :| 0 < m < |item| && item[m] == '-' && Writes(item[..m], r.0) && Writes(item[m + 1..], r.1);
      var lo, hi := item[..m], item[m + 1..];
      var afterLo := "-" + (hi + tail);
      assert item + tail == lo + afterLo && afterLo[1..] == hi + tail;
      WritesEsc(lo, r.0, afterLo);
      WritesEsc(hi, r.1, tail);
      assert (item + tail)[0] == lo[0];
    }
  }

  lemma {:induction false} RangesComplete(body: string, ranges: seq<(char, char)>, rest: string,
                                          seen: seq<(char, char)>)
    requires WritesRanges(body, ranges) && seen + ranges != []
    ensures ParseRanges(body + ("]" + rest), seen) == Some((seen + ranges, rest))
    decreases |ranges|
  {
    var end := "]" + rest;
    if ranges == [] {
      assert body == "" && seen + ranges == seen;
      assert body + end == end && end[1..] == rest;
    } else {
      hide ParseRanges, WritesRange;
      var k :| 0 < k <= |body| && WritesRange(body[..k], ranges[0]) && WritesRanges(body[k..], ranges[1..]);
      hide WritesRanges;
      var item, left := body[..k], body[k..];
      if left != "" { RangesBegin(left, ranges[1..]); }
      assert (left + end)[0] == if left == "" then ']' else left[0];
      RangeParses(item, ranges[0], left + end, seen);
      Regroup(body, k, end);
      Regroup2(seen, ranges);
      RangesComplete(left, ranges[1..], rest, seen + [ranges[0]]);
    }
  }

  lemma Regroup(body: string, k: nat, end: string)
    requires k <= |body|
    ensures body[..k] + (body[k..] + end) == body + end
  {
    assert body[..k] + body[k..] == body;
  }

  lemma Regroup2<T>(seen: seq<T>, more: seq<T>)
    requires more != []
    ensures seen + [more[0]] + more[1..] == seen + more
  {
    assert [more[0]] + more[1..] == more;
  }

  lemma SpellsMore(text: string, t: Term, rest: string, ts: seq<Term>)
    requires text != "" && WritesTerm(text, t) && Spells(rest, ts)
    ensures Spells(text + rest, [t] + ts)
  {
    var p, all := text + rest, [t] + ts;
    assert p[..|text|] == text && p[|text|..] == rest && all[1..] == ts;
  }

  /** Whatever the parser accepts is a text of the terms it returns, */
  lemma {:induction false} ParseSound(p: string)
    requires Parse(p).Some?
    ensures Spells(p, Parse(p).value)
    decreases |p|
  {
    if p != "" {
      var k, t, rest := FirstTerm(p);
      ParseSound(rest);
      SpellsMore(p[..k], t, rest, Parse(rest).value);
      assert p[..k] + rest == p;
    }
  }

  lemma FirstTerm(p: string) returns (k: nat, t: Term, rest: string)
    requires p != "" && Parse(p).Some?
    ensures 0 < k <= |p| && rest == p[k..] && WritesTerm(p[..k], t)
    ensures Parse(rest).Some? && Parse(p).value == [t] + Parse(rest).value
  {
    if p[0] == '[' {
      k, t := FirstClass(p);
    } else {
      k := if p[0] == '\\' then 2 else 1;
      t := if p[0] == '*' then Star else if p[0] == '?' then AnyChar else Lit(p[k - 1]);
    }
    rest := p[k..];
  }

  lemma FirstClass(p: string) returns (k: nat, t: Term)
    requires p != "" && p[0] == '[' && Parse(p).Some?
    ensures 0 < k <= |p| && WritesTerm(p[..k], t) && Parse(p) == Prepend(t, Parse(p[k..]))
  {
    hide WritesRanges, ParseRanges;
    var negated := |p| > 1 && p[1] == '^';
    var open := if negated then "[^" else "[";
    var inner := p[|open|..];
    var body, ranges := RangesSound(inner, []);
    var rest := ParseRanges(inner, []).value.1;
    k, t := |open| + |body| + 1, Class(negated, ranges);
    assert p == open + inner == (open + body + "]") + rest;
    var text := p[..k];
    assert text == open + body + "]" && p[k..] == rest && [] + ranges == ranges;
    assert text[|open|..k - 1] == body && text[..|open|] == open;
    if body == "" { NoRanges(ranges); }
  }

  lemma NoRanges(ranges: seq<(char, char)>)
    requires WritesRanges("", ranges)
    ensures ranges == []
  {
  }

  /** and every text of some terms is parsed into them. */
  lemma {:induction false} ParseComplete(p: string, ts: seq<Term>)
    requires Spells(p, ts)
    ensures Parse(p) == Some(ts)
    decreases |ts|
  {
    if ts != [] {
      var k :| 0 < k <= |p| && WritesTerm(p[..k], ts[0]) && Spells(p[k..], ts[1..]);
      ParseComplete(p[k..], ts[1..]);
      assert [ts[0]] + ts[1..] == ts;
      ParseOne(p, k, ts[0]);
    }
  }

  lemma ParseOne(p: string, k: nat, t: Term)
    requires 0 < k <= |p| && WritesTerm(p[..k], t)
    ensures Parse(p) == Prepend(t, Parse(p[k..]))
  {
    assert p[0] == p[..k][0];
    if t.Class? { ParseClass(p, k, t); } else if k == 2 { assert p[1] == p[..k][1]; }
  }

  lemma ParseClass(p: string, k: nat, t: Term)
    requires 0 < k <= |p| && t.Class? && WritesTerm(p[..k], t)
    ensures Parse(p) == Prepend(t, Parse(p[k..]))
  {
    var open := if t.negated then "[^" else "[";
    var body := p[|open|..k - 1];
    ClassText(p, k, t, open);
    hide WritesTerm, WritesRanges, ParseRanges, Parse;
    RangesComplete(body, t.ranges, p[k..], []);
    assert [] + t.ranges == t.ranges;
    ParseOpen(p, t, p[k..]);
  }

  lemma ParseOpen(p: string, t: Term, rest: string)
    requires |p| > 1 && p[0] == '[' && (p[1] == '^' <==> t.Class? && t.negated) && t.Class?
    requires ParseRanges(p[if t.negated then 2 else 1..], []) == Some((t.ranges, rest))
    ensures Parse(p) == Prepend(t, Parse(rest))
  {
  }

  lemma ClassText(p: string, k: nat, t: Term, open: string)
    requires 0 < k <= |p| && t.Class? && WritesTerm(p[..k], t) && open == if t.negated then "[^" else "["
    ensures |open| + 1 < k && p[0] == '[' && (p[1] == '^' <==> t.negated)
    ensures t.ranges != [] && WritesRanges(p[|open|..k - 1], t.ranges)
    ensures p[|open|..] == p[|open|..k - 1] + ("]" + p[k..])
  {
    hide WritesRanges;
    var text := p[..k];
    assert text[|open|..k - 1] == p[|open|..k - 1];
    assert p[0] == text[..|open|][0] && p[1] == text[1];
    if t.negated { assert text[1] == text[..|open|][1]; }
  }

  // ---- the matcher and the parts of a name -------------------------------------------------

  lemma {:induction false} MatchesFits(ts: seq<Term>, name: string)
    ensures Matches(ts, name) <==> FitsAll(ts, name)
    decreases |ts|, |name|
  {
    if ts != [] {
      if ts[0].Star? { StarFits(ts, name); } else { OneFits(ts, name); }
    }
  }

  lemma OneFits(ts: seq<Term>, name: string)
    requires ts != [] && !ts[0].Star?
    ensures Matches(ts, name) <==> FitsAll(ts, name)
    decreases |ts|, |name|, 0
  {
    if name == "" {
      assert forall k :: 0 <= k <= |name| ==> name[..k] == "";
    } else {
      MatchesFits(ts[1..], name[1..]);
      assert name[..1] == [name[0]];
      assert ts[0].Class? ==>
        (InClass(ts[0].ranges, name[0]) <==> exists r :: r in ts[0].ranges && r.0 <= name[0] <= r.1);
      assert forall k :: 0 <= k <= |name| && Fits(ts[0], name[..k]) ==> k == 1;
    }
  }

  lemma StarFits(ts: seq<Term>, name: string)
    requires ts != [] && ts[0].Star?
    ensures Matches(ts, name) <==> FitsAll(ts, name)
    decreases |ts|, |name|, 0
  {
    MatchesFits(ts[1..], name);
    if name != "" { MatchesFits(ts, name[1..]); }
    StarTakes(ts, name);
    hide FitsAll;
  }

  /** A leading star takes nothing, or one more character that is not a slash. */
  lemma StarTakes(ts: seq<Term>, name: string)
    requires ts != [] && ts[0].Star?
    ensures FitsAll(ts, name) <==> FitsAll(ts[1..], name) || (name != "" && name[0] != '/' && FitsAll(ts, name[1..]))
  {
    if FitsAll(ts[1..], name) {
      assert name[..0] == "" && name[0..] == name;
    } else if name != "" && name[0] != '/' && FitsAll(ts, name[1..]) {
      StarLonger(ts, name);
    }
    if FitsAll(ts, name) && !FitsAll(ts[1..], name) { StarShorter(ts, name); }
  }

  lemma StarLonger(ts: seq<Term>, name: string)
    requires ts != [] && ts[0].Star? && name != "" && name[0] != '/' && FitsAll(ts, name[1..])
    ensures FitsAll(ts, name)
  {
    var rest := name[1..];
    var k :| 0 <= k <= |rest| && Fits(ts[0], rest[..k]) && FitsAll(ts[1..], rest[k..]);
    hide FitsAll;
    assert name[k + 1..] == rest[k..];
    assert '/' !in name[..k + 1] by { assert name[..k + 1] == [name[0]] + rest[..k]; }
    FitsFrom(ts, name, k + 1);
  }

  lemma StarShorter(ts: seq<Term>, name: string)
    requires ts != [] && ts[0].Star? && FitsAll(ts, name) && !FitsAll(ts[1..], name)
    ensures name != "" && name[0] != '/' && FitsAll(ts, name[1..])
  {
    var k :| 0 <= k <= |name| && Fits(ts[0], name[..k]) && FitsAll(ts[1..], name[k..]);
    hide FitsAll;
    assert k > 0 by { assert name[0..] == name; }
    var rest := name[1..];
    assert name[0] == name[..k][0];
    assert rest[..k - 1] == name[..k][1..] && rest[k - 1..] == name[k..];
    FitsFrom(ts, rest, k - 1);
  }

  lemma FitsFrom(ts: seq<Term>, name: string, k: nat)
    requires ts != [] && k <= |name| && Fits(ts[0], name[..k]) && FitsAll(ts[1..], name[k..])
    ensures FitsAll(ts, name)
  {
  }

  /** What matching one segment means: the segment is malformed exactly if no terms are written so,
      and otherwise a name matches exactly if its parts fit the terms the segment is a text of. */
  lemma PathMatchMeans(segment: string, name: string)
    ensures PathMatch(segment, name).BadPattern? <==> forall ts :: !Spells(segment, ts)
    ensures PathMatch(segment, name) == Matched(true) <==> exists ts :: Spells(segment, ts) && FitsAll(ts, name)
  {
    forall ts | Spells(segment, ts) ensures Parse(segment) == Some(ts) { ParseComplete(segment, ts); }
    hide Spells, FitsAll, Parse, Matches;
    if Parse(segment).Some? {
      var terms := Parse(segment).value;
      ParseSound(segment);
      MatchesFits(terms, name);
      assert Spells(segment, terms);
    }
  }
}
