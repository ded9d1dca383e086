/**
 * The outcome alphabet shared by both copies of the choice-pick cascade
 * (prediction/prediction_engine.py and utils/choice_pick.py): 'P' (player),
 * 'B' (banker) and the sentinel 'N' ("no pick"), plus the input filter and the
 * 15-result window.
 */
module Picks {
  import opened Wrappers

  datatype Pick = P | B | N

  /** Size of the result window both engines keep. */
  const Window: nat := 15

  predicate IsSide(x: Pick) {
    x == P || x == B
  }

  predicate AllSides(s: seq<Pick>) {
    forall i :: 0 <= i < |s| ==> IsSide(s[i])
  }

  /** `get_opposite_pick`: 'P' becomes 'B'; every other pick, 'N' included, becomes 'P'. */
  function Opposite(x: Pick): (r: Pick)
    ensures IsSide(r)
    ensures IsSide(x) ==> r != x
    ensures x == N ==> r == P
  {
    if x == P then B else P
  }

  /** `get_reverse_bet_pick`: swaps 'P' and 'B'; anything else becomes 'N'. */
  function ReverseBet(x: Pick): (r: Pick)
    ensures IsSide(x) <==> IsSide(r)
    ensures IsSide(x) ==> r != x
    ensures !IsSide(x) ==> r == N
  {
    if x == P then B else if x == B then P else N
  }

  lemma OppositeInvolutive(x: Pick)
    requires IsSide(x)
    ensures Opposite(Opposite(x)) == x
  {
  }

  lemma ReverseBetInvolutive(x: Pick)
    requires IsSide(x)
    ensures ReverseBet(ReverseBet(x)) == x
  {
  }

  /** On the two sides the two "opposite" helpers agree; on 'N' they differ. */
  lemma ReverseBetAgreesWithOpposite(x: Pick)
    ensures IsSide(x) ==> ReverseBet(x) == Opposite(x)
    ensures ReverseBet(N) == N && Opposite(N) == P
  {
  }

  /** The membership test `r in ('P', 'B')` on a raw result string. */
  function ParseSide(s: string): (r: Option<Pick>)
    ensures r.Some? <==> (s == "P" || s == "B")
    ensures r.Some? ==> IsSide(r.value)
    ensures r == Some(P) <==> s == "P"
  {
    if s == "P" then Some(P) else if s == "B" then Some(B) else None
  }

  /** `[r for r in results if r in ('P', 'B')]`. */
  function FilterSides(rs: seq<string>): (r: seq<Pick>)
    ensures AllSides(r)
    ensures |r| <= |rs|
  {
    if rs == [] then []
    else
      var rest := FilterSides(rs[..|rs| - 1]);
      match ParseSide(rs[|rs| - 1])
      case Some(x) => rest + [x]
      case None => rest
  }

  lemma FilterSidesOne(s: string)
    ensures FilterSides([s]) == match ParseSide(s) case Some(x) => [x] case None => []
  {
    assert [s][..0] == [];
  }

  /** Filtering distributes over concatenation: nothing is reordered or merged. */
  lemma {:induction false} FilterSidesAppend(a: seq<string>, b: seq<string>)
    ensures FilterSides(a + b) == FilterSides(a) + FilterSides(b)
    decreases |b|
  {
    if b == [] {
      assert a + b == a;
    } else {
      var b' := b[..|b| - 1];
      assert (a + b)[..|a + b| - 1] == a + b';
      assert (a + b)[|a + b| - 1] == b[|b| - 1];
      FilterSidesAppend(a, b');
    }
  }

  /** `s[-n:]`: the last min(n, |s|) elements. */
  function LastN<T>(s: seq<T>, n: nat): (r: seq<T>)
    ensures |r| <= n && |r| <= |s|
    ensures |s| >= n ==> |r| == n
    ensures |s| <= n ==> r == s
    ensures s == s[..|s| - |r|] + r
  {
    if |s| <= n then s else s[|s| - n..]
  }

  /**
   * Truncating twice is truncating once: keeping the newest n after every
   * append gives the same window as appending everything and keeping the
   * newest n at the end.
   */
  lemma LastNAppend<T>(a: seq<T>, b: seq<T>, n: nat)
    ensures LastN(LastN(a, n) + b, n) == LastN(a + b, n)
  {
    if |a| > n {
      var w := a[|a| - n..];
      var lhs := LastN(w + b, n);
      var rhs := LastN(a + b, n);
      assert |lhs| == n == |rhs|;
      forall i | 0 <= i < n
        ensures lhs[i] == rhs[i]
      {
        assert lhs[i] == (w + b)[|b| + i];
        assert rhs[i] == (a + b)[|a| + |b| - n + i];
      }
    }
  }
}
