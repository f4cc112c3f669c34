/** Counting the goroutines of a group that have not exited: what its wait group should show. */
module Workers {

  function Live<T(==)>(ws: seq<T>, exited: T): nat {
    if ws == [] then 0 else Live(ws[..|ws| - 1], exited) + if ws[|ws| - 1] == exited then 0 else 1
  }

  lemma LiveAppend<T>(ws: seq<T>, pc: T, exited: T)
    ensures Live(ws + [pc], exited) == Live(ws, exited) + if pc == exited then 0 else 1
  {
    assert (ws + [pc])[..|ws|] == ws;
  }

  lemma {:induction false} LiveUpdate<T>(ws: seq<T>, w: nat, pc: T, exited: T)
    requires w < |ws|
    ensures Live(ws[w := pc], exited)
         == Live(ws, exited) - (if ws[w] == exited then 0 else 1) + (if pc == exited then 0 else 1)
  {
    var n := |ws| - 1;
    if w == n {
      assert ws[w := pc][..n] == ws[..n];
    } else {
      LiveUpdate(ws[..n], w, pc, exited);
      assert ws[w := pc][..n] == ws[..n][w := pc];
    }
  }

  lemma {:induction false} LiveZero<T>(ws: seq<T>, exited: T)
    ensures Live(ws, exited) == 0 <==> forall w :: 0 <= w < |ws| ==> ws[w] == exited
  {
    if ws != [] {
      LiveZero(ws[..|ws| - 1], exited);
      assert forall w :: 0 <= w < |ws| - 1 ==> ws[..|ws| - 1][w] == ws[w];
    }
  }

  lemma {:induction false} LiveInit<T>(n: nat, pc: T, exited: T)
    requires pc != exited
    ensures Live(seq(n, _ => pc), exited) == n
  {
    var ws := seq(n, _ => pc);
    if n > 0 {
      LiveInit(n - 1, pc, exited);
      assert ws[..n - 1] == seq(n - 1, _ => pc);
    }
  }

  /** What a group still has to do, by what each of its goroutines has. */
  function Total<T>(ws: seq<T>, weight: T -> nat): nat {
    if ws == [] then 0 else Total(ws[..|ws| - 1], weight) + weight(ws[|ws| - 1])
  }

  lemma TotalAppend<T>(ws: seq<T>, pc: T, weight: T -> nat)
    ensures Total(ws + [pc], weight) == Total(ws, weight) + weight(pc)
  {
    assert (ws + [pc])[..|ws|] == ws;
  }

  lemma {:induction false} TotalUpdate<T>(ws: seq<T>, w: nat, pc: T, weight: T -> nat)
    requires w < |ws|
    ensures Total(ws[w := pc], weight) == Total(ws, weight) - weight(ws[w]) + weight(pc)
  {
    var n := |ws| - 1;
    if w == n {
      assert ws[w := pc][..n] == ws[..n];
    } else {
      TotalUpdate(ws[..n], w, pc, weight);
      assert ws[w := pc][..n] == ws[..n][w := pc];
    }
  }
}
