/** The few `str` operations the feed code relies on, on `seq<char>`. */
module Strings {
  /** ASCII lower-casing of one character: 'A'..'Z' move to 'a'..'z', everything else is kept. */
  function LowerChar(ch: char): (r: char)
    ensures 'A' <= ch <= 'Z' ==> 'a' <= r <= 'z' && r as int == ch as int + 32
    ensures !('A' <= ch <= 'Z') ==> r == ch
  {
    if 'A' <= ch <= 'Z' then (ch as int + 32) as char else ch
  }

  /** ASCII `str.lower()`. */
  function Lower(s: string): (r: string)
    ensures |r| == |s|
  {
    if s == [] then [] else [LowerChar(s[0])] + Lower(s[1..])
  }

  /** `lower()` maps each character on its own and keeps the length. */
  lemma {:induction false} LowerPointwise(s: string)
    ensures |Lower(s)| == |s|
    ensures forall i :: 0 <= i < |s| ==> Lower(s)[i] == LowerChar(s[i])
  {
    if s != [] {
      LowerPointwise(s[1..]);
      assert forall i :: 1 <= i < |s| ==> s[1..][i - 1] == s[i];
    }
  }

  lemma {:induction false} LowerAppend(a: string, b: string)
    ensures Lower(a + b) == Lower(a) + Lower(b)
  {
    if a != [] {
      assert (a + b)[1..] == a[1..] + b;
      LowerAppend(a[1..], b);
    } else {
      assert a + b == b;
    }
  }

  predicate StartsWith(s: string, prefix: string) {
    |prefix| <= |s| && s[..|prefix|] == prefix
  }

  /** `needle in hay` on strings: the needle starts at some position of the hay. */
  predicate Contains(hay: string, needle: string) {
    exists i :: 0 <= i <= |hay| && StartsWith(hay[i..], needle)
  }

  lemma StartsWithSlice(hay: string, needle: string, i: nat)
    requires i <= |hay| && StartsWith(hay[i..], needle)
    ensures i + |needle| <= |hay| && hay[i..i + |needle|] == needle
  {
    assert hay[i..][..|needle|] == hay[i..i + |needle|];
  }

  lemma InfixContains(hay: string, front: string, needle: string, back: string)
    requires hay == front + needle + back
    ensures Contains(hay, needle)
  {
    assert hay[|front|..][..|needle|] == needle;
    assert StartsWith(hay[|front|..], needle);
  }

  /** Lower-cased, `hay` holds the lower-cased `needle` at position i. */
  predicate MatchesAt(hay: string, needle: string, i: nat) {
    i + |needle| <= |hay| && Lower(hay)[i..i + |needle|] == Lower(needle)
  }

  /** Case-blind containment happens at some position. */
  lemma LowerContainsAt(hay: string, needle: string)
    requires Contains(Lower(hay), Lower(needle))
    ensures exists i: nat :: MatchesAt(hay, needle, i)
  {
    var low := Lower(needle);
    var i :| 0 <= i <= |Lower(hay)| && StartsWith(Lower(hay)[i..], low);
    StartsWithSlice(Lower(hay), low, i);
    assert MatchesAt(hay, needle, i);
  }

  lemma NoLongerNeedle(hay: string, needle: string)
    requires |needle| > |hay|
    ensures !Contains(hay, needle)
  {
  }

  /** `s.find(c)`: the first index of c, or -1. */
  function IndexOf(s: string, c: char): (r: int)
    ensures -1 <= r < |s|
    ensures r == -1 <==> c !in s
    ensures r >= 0 ==> s[r] == c && c !in s[..r]
  {
    if s == [] then -1
    else if s[0] == c then 0
    else
      var k := IndexOf(s[1..], c);
      assert s[1..][..if k < 0 then 0 else k] == s[1..if k < 0 then 1 else k + 1];
      if k < 0 then -1 else k + 1
  }

  lemma {:induction false} IndexOfAfter(a: string, b: string, c: char)
    requires c !in a && c in b
    ensures IndexOf(a + b, c) == |a| + IndexOf(b, c)
    decreases |a|
  {
    if a == [] {
      assert a + b == b;
    } else {
      assert (a + b)[1..] == a[1..] + b;
      IndexOfAfter(a[1..], b, c);
    }
  }

  /** `s.split(c)` with a single-character separator. */
  function Split(s: string, c: char): (r: seq<string>)
    ensures |r| >= 1
    decreases |s|
  {
    var i := IndexOf(s, c);
    if i < 0 then [s] else [s[..i]] + Split(s[i + 1..], c)
  }

  lemma SplitAt(a: string, c: char, b: string)
    requires c !in a
    ensures Split(a + [c] + b, c) == [a] + Split(b, c)
  {
    IndexOfAfter(a, [c] + b, c);
    assert a + [c] + b == a + ([c] + b);
    assert (a + [c] + b)[..|a|] == a;
    assert (a + [c] + b)[|a| + 1..] == b;
  }

  lemma SplitNone(s: string, c: char)
    requires c !in s
    ensures Split(s, c) == [s]
  {
  }

  /** `"&".join(pieces)`, for a non-empty list. */
  function Join(pieces: seq<string>, c: char): string
    requires |pieces| >= 1
  {
    if |pieces| == 1 then pieces[0] else pieces[0] + [c] + Join(pieces[1..], c)
  }

  /** Splitting undoes joining when no piece holds the separator. */
  lemma {:induction false} SplitJoin(pieces: seq<string>, c: char)
    requires |pieces| >= 1
    requires forall i :: 0 <= i < |pieces| ==> c !in pieces[i]
    ensures Split(Join(pieces, c), c) == pieces
  {
    if |pieces| == 1 {
      SplitNone(pieces[0], c);
    } else {
      SplitJoin(pieces[1..], c);
      SplitAt(pieces[0], c, Join(pieces[1..], c));
      assert pieces == [pieces[0]] + pieces[1..];
    }
  }

  lemma JoinHasNo(pieces: seq<string>, c: char, x: char)
    requires |pieces| >= 1 && x != c
    requires forall i :: 0 <= i < |pieces| ==> x !in pieces[i]
    ensures x !in Join(pieces, c)
  {
    if |pieces| > 1 {
      JoinHasNo(pieces[1..], c, x);
    }
  }

  function Last<T>(s: seq<T>): T
    requires |s| >= 1
  {
    s[|s| - 1]
  }

  /** The text after the last separator is what `split(c)[-1]` returns. */
  lemma {:induction false} SplitLast(front: string, c: char, back: string)
    requires c !in back
    ensures Last(Split(front + [c] + back, c)) == back
    decreases |front|
  {
    var i := IndexOf(front, c);
    if i < 0 {
      SplitAt(front, c, back);
      SplitNone(back, c);
    } else {
      var f1, f2 := front[..i], front[i + 1..];
      var rest := f2 + [c] + back;
      assert front + [c] + back == f1 + [c] + rest by {
        assert front == f1 + [c] + f2;
      }
      SplitAt(f1, c, rest);
      SplitLast(f2, c, back);
      var tail := Split(rest, c);
      assert Last([f1] + tail) == Last(tail);
    }
  }
}
