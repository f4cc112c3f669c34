/** Go slices as the bus uses them: a header over a backing array that several headers may share.
    Every slice here starts at the beginning of its array. */
module Slices {

  datatype Slice<T> = Nil | Slice(buf: array<T>, len: nat)

  function Backing<T>(s: Slice<T>): set<array<T>> { if s.Nil? then {} else {s.buf} }

  predicate Fits<T>(s: Slice<T>) { s.Slice? ==> s.len <= s.buf.Length }

  function Len<T>(s: Slice<T>): nat { if s.Nil? then 0 else s.len }

  ghost function View<T>(s: Slice<T>): (v: seq<T>)
    requires Fits(s)
    reads Backing(s)
    ensures |v| == Len(s)
  {
    if s.Nil? then [] else s.buf[..s.len]
  }

  ghost function Without<T>(v: seq<T>, i: nat): seq<T>
    requires i < |v|
  {
    v[..i] + v[i + 1..]
  }

  /** append(s, x): writes behind the last element if the array has room, otherwise moves to a new
      array. Either way what s shows stays the same. */
  method Append<T>(s: Slice<T>, x: T) returns (r: Slice<T>)
    requires Fits(s)
    modifies Backing(s)
    ensures r.Slice? && Fits(r) && View(r) == old(View(s)) + [x]
    ensures Backing(r) == Backing(s) || fresh(r.buf)
    ensures View(s) == old(View(s))
  {
    if s.Slice? && s.len < s.buf.Length {
      s.buf[s.len] := x;
      r := Slice(s.buf, s.len + 1);
    } else {
      var n := Len(s);
      var buf := new T[2 * n + 1](_ => x);
      for i := 0 to n
        invariant fresh(buf) && View(s) == old(View(s))
        invariant forall k :: 0 <= k < i ==> buf[k] == View(s)[k]
        invariant forall k :: i <= k < buf.Length ==> buf[k] == x
      {
        buf[i] := s.buf[i];
      }
      r := Slice(buf, n + 1);
      assert View(r) == View(s) + [x];
    }
  }

  /** append(s[:i], s[i+1:]...): shifts the elements behind i in place. The result shows the list
      without its i-th element; a header taken before, which shares the array, now shows the
      shifted elements with the last one twice. */
  method RemoveAt<T>(s: Slice<T>, i: nat) returns (r: Slice<T>)
    requires Fits(s) && i < Len(s)
    modifies Backing(s)
    ensures r == Slice(s.buf, s.len - 1) && Fits(r)
    ensures View(r) == Without(old(View(s)), i)
    ensures View(s) == Without(old(View(s)), i) + [old(View(s))[s.len - 1]]
  {
    ghost var v := View(s);
    for k := i to s.len - 1
      invariant i <= k <= s.len - 1
      invariant forall j :: 0 <= j < i ==> s.buf[j] == v[j]
      invariant forall j :: i <= j < k ==> s.buf[j] == v[j + 1]
      invariant forall j :: k <= j < s.len ==> s.buf[j] == v[j]
    {
      s.buf[k] := s.buf[k + 1];
    }
    r := Slice(s.buf, s.len - 1);
    assert View(r) == Without(v, i);
    assert View(s) == View(r) + [v[s.len - 1]];
  }

  /** The target list of a dispatch: both lists copied into an array of their own. */
  method Gather<T>(a: Slice<T>, b: seq<T>) returns (r: Slice<T>)
    requires Fits(a)
    ensures Fits(r) && View(r) == View(a) + b
    ensures r.Slice? ==> fresh(r.buf)
  {
    var n := Len(a);
    if n + |b| == 0 {
      return Nil;
    }
    var filler := if n > 0 then a.buf[0] else b[0];
    var buf := new T[n + |b|](_ => filler);
    for i := 0 to n
      invariant forall k :: 0 <= k < i ==> buf[k] == View(a)[k]
      invariant View(a) == old(View(a))
    {
      buf[i] := a.buf[i];
    }
    for i := 0 to |b|
      invariant forall k :: 0 <= k < n ==> buf[k] == View(a)[k]
      invariant forall k :: 0 <= k < i ==> buf[n + k] == b[k]
      invariant View(a) == old(View(a))
    {
      buf[n + i] := b[i];
    }
    r := Slice(buf, n + |b|);
    assert View(r) == View(a) + b;
  }
}
