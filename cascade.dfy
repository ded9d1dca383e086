/**
 * The five-stage "choice pick" cascade, as a reference definition over values.
 * Both prediction/prediction_engine.py:24-89 and utils/choice_pick.py:45-117
 * run this same loop imperatively; their methods are proved equal to `Run`.
 *
 * Pick numbers are 1-based; `results[i]` is the outcome of pick number i+1 and
 * the stage lists hold, at index k, the pick for number k+5.
 */
module Cascade {
  import opened Picks

  /** `safe_get`: the element at idx, or 'N' when idx is out of range. */
  function SafeGet(s: seq<Pick>, idx: int): (r: Pick)
    ensures 0 <= idx < |s| ==> r == s[idx]
    ensures (idx < 0 || idx >= |s|) ==> r == N
  {
    if 0 <= idx < |s| then s[idx] else N
  }

  /**
   * Stage 1 at pick number p. Python groups the conditional expression as
   * `pick4 if pick1 == pick2 else (opposite(pick4) if all three are real else 'N')`.
   */
  function Stage1(results: seq<Pick>, p: int): Pick {
    var pos := p - 1;
    var pick1 := SafeGet(results, pos - 4);
    var pick2 := SafeGet(results, pos - 3);
    var pick4 := SafeGet(results, pos - 1);
    if pick1 == pick2 then pick4
    else if pick1 != N && pick2 != N && pick4 != N then Opposite(pick4)
    else N
  }

  /** One term of the `win_count` sum: offset i in 1..4 counts when the stored pick matches the result at the same index. */
  function WinTerm(picks: seq<Pick>, results: seq<Pick>, p: int, i: int): nat {
    var idx := p - i - 1;
    if 0 <= idx < |picks| && picks[idx] == SafeGet(results, idx) then 1 else 0
  }

  /** The sum of the terms for offsets i..4. */
  function WinCountFrom(picks: seq<Pick>, results: seq<Pick>, p: int, i: int): nat
    requires 1 <= i <= 5
    decreases 5 - i
  {
    if i == 5 then 0 else WinTerm(picks, results, p, i) + WinCountFrom(picks, results, p, i + 1)
  }

  /** `sum(1 for i in range(1, 5) if ...)`. */
  function WinCount(picks: seq<Pick>, results: seq<Pick>, p: int): nat {
    WinCountFrom(picks, results, p, 1)
  }

  /** Stage 2; `s1` already holds the current stage-1 pick. */
  function Stage2(results: seq<Pick>, s1: seq<Pick>, p: int, stage1: Pick): Pick {
    if p < 6 then N
    else if WinCount(s1, results, p) >= 2 then stage1
    else Opposite(stage1)
  }

  /** Stage 3; `s2` already holds the current stage-2 pick. */
  function Stage3(results: seq<Pick>, s2: seq<Pick>, p: int, stage2: Pick): Pick {
    if p < 6 then N
    else if p <= 8 then stage2
    else if SafeGet(results, p - 2) == SafeGet(s2, p - 2) then stage2
    else Opposite(stage2)
  }

  /** Stage 4, with its own trigger `pick_number == 5`; `s3` already holds the current stage-3 pick. */
  function Stage4(results: seq<Pick>, s3: seq<Pick>, p: int, stage3: Pick): Pick {
    if p == 5 then N
    else if p <= 10 then stage3
    else if SafeGet(results, p - 2) == SafeGet(s3, p - 2) then stage3
    else Opposite(stage3)
  }

  /** Stage 5, also triggered on `pick_number == 5`; `s4` already holds the current stage-4 pick. */
  function Stage5(results: seq<Pick>, s4: seq<Pick>, p: int, stage1: Pick, stage4: Pick): Pick {
    if p == 5 then N
    else if p <= 11 then stage1
    else if WinCount(s4, results, p) >= 2 then stage4
    else Opposite(stage4)
  }

  /** `next((p for p in xs if p != 'N'), 'N')`. */
  function FirstNonN(xs: seq<Pick>): Pick {
    if xs == [] then N
    else if xs[0] != N then xs[0]
    else FirstNonN(xs[1..])
  }

  /** `FirstNonN` is 'N' exactly when every entry is, and otherwise the earliest entry that is not 'N'. */
  lemma {:induction false} FirstNonNSpec(xs: seq<Pick>)
    ensures FirstNonN(xs) == N <==> forall i :: 0 <= i < |xs| ==> xs[i] == N
    ensures FirstNonN(xs) != N ==>
      exists k :: 0 <= k < |xs| && xs[k] == FirstNonN(xs) && forall j :: 0 <= j < k ==> xs[j] == N
    decreases |xs|
  {
    if xs != [] && xs[0] == N {
      FirstNonNSpec(xs[1..]);
      assert forall i :: 1 <= i < |xs| ==> xs[i] == xs[1..][i - 1];
      if FirstNonN(xs) != N {
        var k :| 0 <= k < |xs[1..]| && xs[1..][k] == FirstNonN(xs) && forall j :: 0 <= j < k ==> xs[1..][j] == N;
        assert xs[k + 1] == FirstNonN(xs) && forall j :: 0 <= j < k + 1 ==> xs[j] == N;
      }
    }
  }

  /** The five stage lists and the `all_picks` dictionary. */
  datatype Stages = Stages(s1: seq<Pick>, s2: seq<Pick>, s3: seq<Pick>, s4: seq<Pick>, s5: seq<Pick>, picks: map<int, Pick>)

  const Empty := Stages([], [], [], [], [], map[])

  /** The final pick: the first of stage 5, 4, 3, 2, 1 that is not 'N'. */
  function Final(st5: Pick, st4: Pick, st3: Pick, st2: Pick, st1: Pick): Pick {
    if st5 != N then st5 else if st4 != N then st4 else if st3 != N then st3 else if st2 != N then st2 else st1
  }

  /** `FirstNonN` looks at the head first. */
  lemma FirstNonNCons(x: Pick, xs: seq<Pick>)
    ensures FirstNonN([x] + xs) == if x != N then x else FirstNonN(xs)
  {
    assert ([x] + xs)[1..] == xs;
  }

  /** `Final` is the `next(...)` over `[stage5, stage4, stage3, stage2, stage1]`. */
  lemma FinalIsFirstNonN(st5: Pick, st4: Pick, st3: Pick, st2: Pick, st1: Pick)
    ensures Final(st5, st4, st3, st2, st1) == FirstNonN([st5, st4, st3, st2, st1])
  {
    FirstNonNCons(st1, []);
    assert [st1] + [] == [st1];
    FirstNonNCons(st2, [st1]);
    FirstNonNCons(st3, [st2, st1]);
    FirstNonNCons(st4, [st3, st2, st1]);
    FirstNonNCons(st5, [st4, st3, st2, st1]);
    assert [st5] + [st4, st3, st2, st1] == [st5, st4, st3, st2, st1];
  }

  /** One iteration of the `for pick_number` loop body. */
  function Step(results: seq<Pick>, st: Stages, p: int): Stages {
    var st1 := Stage1(results, p);
    var s1 := st.s1 + [st1];
    var st2 := Stage2(results, s1, p, st1);
    var s2 := st.s2 + [st2];
    var st3 := Stage3(results, s2, p, st2);
    var s3 := st.s3 + [st3];
    var st4 := Stage4(results, s3, p, st3);
    var s4 := st.s4 + [st4];
    var st5 := Stage5(results, s4, p, st1, st4);
    Stages(s1, s2, s3, s4, st.s5 + [st5], st.picks[p := Final(st5, st4, st3, st2, st1)])
  }

  /** The state after the loop has run for pick numbers 5 .. hi-1 (`range(5, hi)`). */
  function Run(results: seq<Pick>, hi: int): Stages
    decreases hi
  {
    if hi <= 5 then Empty else Step(results, Run(results, hi - 1), hi - 1)
  }

  /** One more iteration of the loop. */
  lemma RunNext(results: seq<Pick>, p: int)
    requires p >= 5
    ensures Run(results, p + 1) == Step(results, Run(results, p), p)
  {
  }

  /** Where the loop ends: at len(results)+2, or at 5 when the range is empty. */
  lemma RunEnd(results: seq<Pick>, p: int)
    requires p == if |results| + 2 < 5 then 5 else |results| + 2
    ensures Run(results, p) == Run(results, |results| + 2)
  {
  }

  /** The dictionary `_generate_all_stage_picks(results)` returns: the loop runs over `range(5, len(results) + 2)`. */
  function AllPicks(results: seq<Pick>): map<int, Pick> {
    Run(results, |results| + 2).picks
  }

  /** `picks.get(k, 'N')`. */
  function PickAt(picks: map<int, Pick>, k: int): Pick {
    if k in picks then picks[k] else N
  }

  ghost predicate Shaped(st: Stages, p: int) {
    && |st.s1| == p - 5 && |st.s2| == p - 5 && |st.s3| == p - 5
    && |st.s4| == p - 5 && |st.s5| == p - 5
    && (forall q :: q in st.picks <==> 5 <= q < p)
  }

  /** A step adds the entry for p and leaves the earlier entries alone. */
  lemma StepKeepsPicks(results: seq<Pick>, st: Stages, p: int)
    ensures p in Step(results, st, p).picks
    ensures forall q :: q != p && q in st.picks ==> q in Step(results, st, p).picks && Step(results, st, p).picks[q] == st.picks[q]
  {
  }

  /** After the loop has run up to hi, each stage list holds one pick per number 5..hi-1 and so does the dictionary. */
  lemma {:induction false} RunShape(results: seq<Pick>, hi: int)
    requires hi >= 5
    ensures Shaped(Run(results, hi), hi)
    decreases hi
  {
    if hi > 5 {
      RunShape(results, hi - 1);
      StepKeepsPicks(results, Run(results, hi - 1), hi - 1);
    }
  }

  /**
   * For n >= 4 stored results every stage list ends with exactly n-3 entries
   * (the lists are rebuilt from empty on every call).
   */
  lemma StageListLengths(results: seq<Pick>)
    requires |results| >= 4
    ensures var st := Run(results, |results| + 2);
      |st.s1| == |results| - 3 && |st.s2| == |results| - 3 && |st.s3| == |results| - 3
      && |st.s4| == |results| - 3 && |st.s5| == |results| - 3
    ensures forall q :: q in AllPicks(results) <==> 5 <= q <= |results| + 1
  {
    RunShape(results, |results| + 2);
  }

  /**
   * The lists a vote reads hold only the picks for numbers 5..p, so of the four
   * offsets only i = 4 is in range, and there it compares the CURRENT pick with
   * `results[p-5]`: a vote never reaches 2.
   */
  lemma WinCountAtMostOne(picks: seq<Pick>, results: seq<Pick>, p: int)
    requires |picks| == p - 4
    ensures WinCount(picks, results, p) <= 1
  {
    assert WinTerm(picks, results, p, 1) == 0;
    assert WinTerm(picks, results, p, 2) == 0;
    assert WinTerm(picks, results, p, 3) == 0;
    assert WinTermAtMostOne: WinTerm(picks, results, p, 4) <= 1;
    calc {
      WinCount(picks, results, p);
      WinTerm(picks, results, p, 1) + WinTerm(picks, results, p, 2) + WinTerm(picks, results, p, 3)
        + WinTerm(picks, results, p, 4) + WinCountFrom(picks, results, p, 5);
    }
  }

  /** Stage 1 inside the loop's range: all three inputs exist. */
  lemma Stage1InRange(results: seq<Pick>, p: int)
    requires AllSides(results)
    requires 5 <= p <= |results| + 1
    ensures IsSide(Stage1(results, p))
    ensures results[p - 5] == results[p - 4] ==> Stage1(results, p) == results[p - 2]
    ensures results[p - 5] != results[p - 4] ==> Stage1(results, p) == Opposite(results[p - 2])
  {
  }

  /**
   * One loop iteration over P/B-only results: whatever the five stages say,
   * the final pick for number p is the stage-1 pick, a side.
   */
  lemma StepFinalIsStage1(results: seq<Pick>, st: Stages, p: int)
    requires AllSides(results)
    requires 5 <= p <= |results| + 1
    requires Shaped(st, p)
    ensures Step(results, st, p).picks[p] == Stage1(results, p)
    ensures IsSide(Stage1(results, p))
  {
    Stage1InRange(results, p);
    var st1 := Stage1(results, p);
    var s1 := st.s1 + [st1];
    var st2 := Stage2(results, s1, p, st1);
    var s2 := st.s2 + [st2];
    var st3 := Stage3(results, s2, p, st2);
    var s3 := st.s3 + [st3];
    var st4 := Stage4(results, s3, p, st3);
    var s4 := st.s4 + [st4];
    var st5 := Stage5(results, s4, p, st1, st4);
    if p >= 6 {
      WinCountAtMostOne(s1, results, p);
      assert st2 == Opposite(st1);
      if p >= 9 {
        assert IsSide(results[p - 2]) && SafeGet(results, p - 2) == results[p - 2];
        assert SafeGet(s2, p - 2) == N;
        assert st3 == st1;
      } else {
        assert st3 == Opposite(st1);
      }
      if p >= 11 {
        assert SafeGet(s3, p - 2) == N;
        assert st4 == Opposite(st3);
      }
      if p >= 12 {
        WinCountAtMostOne(s4, results, p);
        assert st5 == Opposite(st4);
        assert st5 == st1;
      } else {
        assert st5 == st1;
      }
      assert Final(st5, st4, st3, st2, st1) == st1;
    } else {
      assert Final(st5, st4, st3, st2, st1) == st1;
    }
  }

  /**
   * Over P/B-only results the whole cascade collapses: at every pick number the
   * final pick equals the stage-1 pick and is a side.
   */
  lemma {:induction false} RunIsStage1(results: seq<Pick>, hi: int)
    requires AllSides(results)
    requires 5 <= hi <= |results| + 2
    ensures forall q :: 5 <= q < hi ==> q in Run(results, hi).picks && Run(results, hi).picks[q] == Stage1(results, q)
    ensures forall q :: 5 <= q < hi ==> IsSide(Run(results, hi).picks[q])
    decreases hi
  {
    if hi > 5 {
      var st := Run(results, hi - 1);
      RunIsStage1(results, hi - 1);
      RunShape(results, hi - 1);
      StepFinalIsStage1(results, st, hi - 1);
      StepKeepsPicks(results, st, hi - 1);
      var picks := Run(results, hi).picks;
      assert picks == Step(results, st, hi - 1).picks;
      forall q | 5 <= q < hi
        ensures q in picks && picks[q] == Stage1(results, q) && IsSide(picks[q])
      {
        Stage1InRange(results, q);
        if q < hi - 1 {
          assert q in st.picks;
        }
      }
    }
  }

  /**
   * With exactly 15 P/B results the pick for number 16 is defined, is a side,
   * and is the stage-1 formula on results 12, 13 and 15 (1-based).
   */
  lemma Pick16(results: seq<Pick>)
    requires AllSides(results) && |results| == Window
    ensures 16 in AllPicks(results)
    ensures IsSide(AllPicks(results)[16])
    ensures AllPicks(results)[16] == if results[11] == results[12] then results[14] else Opposite(results[14])
  {
    RunIsStage1(results, |results| + 2);
    Stage1InRange(results, 16);
  }
}
