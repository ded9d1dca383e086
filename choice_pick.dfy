/**
 * `ChoicePickSystem` (utils/choice_pick.py): a rolling window of at most 15
 * P/B results, fed one or many at a time, and the five-stage cascade whose
 * stage lists are fields of the object.
 */
module ChoicePick {
  import opened Wrappers
  import opened Picks
  import opened Cascade
  import Prediction

  /** The window after `add_result(result)`: a side is appended and the oldest entry dropped past 15; anything else is ignored. */
  function AddOne(window: seq<Pick>, result: string): seq<Pick> {
    match ParseSide(result)
    case Some(x) => LastN(window + [x], Window)
    case None => window
  }

  /** The window after feeding `rs` to `add_result` one element at a time, oldest first. */
  function AddEach(window: seq<Pick>, rs: seq<string>): seq<Pick>
    decreases |rs|
  {
    if rs == [] then window else AddOne(AddEach(window, rs[..|rs| - 1]), rs[|rs| - 1])
  }

  /**
   * `add_multiple_results(rs)` and `add_result` called on every element of
   * `rs` in turn leave the same window.
   */
  /** One more side after a truncated window is that side after the whole history, truncated. */
  lemma AppendAfterWindow(window: seq<Pick>, f: seq<Pick>, x: Pick)
    ensures LastN(LastN(window + f, Window) + [x], Window) == LastN(window + (f + [x]), Window)
  {
    LastNAppend(window + f, [x], Window);
    assert window + f + [x] == window + (f + [x]);
  }

  lemma {:induction false} AddEachIsAddMultiple(window: seq<Pick>, rs: seq<string>)
    requires |window| <= Window
    ensures AddEach(window, rs) == LastN(window + FilterSides(rs), Window)
    decreases |rs|
  {
    if rs == [] {
      assert window + FilterSides(rs) == window;
    } else {
      var init := rs[..|rs| - 1];
      var last := rs[|rs| - 1];
      assert rs == init + [last];
      AddEachIsAddMultiple(window, init);
      var before := window + FilterSides(init);
      assert AddEach(window, rs) == AddOne(LastN(before, Window), last);
      FilterSidesAppend(init, [last]);
      FilterSidesOne(last);
      match ParseSide(last)
      case Some(x) =>
        assert FilterSides(rs) == FilterSides(init) + [x];
        AppendAfterWindow(window, FilterSides(init), x);
      case None =>
        assert FilterSides(rs) == FilterSides(init);
    }
  }

  /** What `generate_choice_pick` answers for a window: 'N' below 15 results, else the pick for number len+1. */
  function ChoicePickOf(results: seq<Pick>): Pick {
    if |results| < Window then N else PickAt(AllPicks(results), |results| + 1)
  }

  /** On the same 15-result window the rolling system and `PredictionEngine` pick the same outcome. */
  lemma SameAsPredictionEngine(results: seq<Pick>)
    requires |results| <= Window
    ensures ChoicePickOf(results) == Prediction.Prediction(results)
  {
  }

  /** With 15 P/B results the pick is a side and follows the stage-1 formula for number 16. */
  lemma ChoicePickClosedForm(results: seq<Pick>)
    requires AllSides(results) && |results| == Window
    ensures IsSide(ChoicePickOf(results))
    ensures ChoicePickOf(results) == Prediction.Closed16(results)
  {
    Prediction.PredictionClosedForm(results);
  }

  class ChoicePickSystem {
    var results: seq<Pick>
    var stage1Picks: seq<Pick>
    var stage2Picks: seq<Pick>
    var stage3Picks: seq<Pick>
    var stage4Picks: seq<Pick>
    var stage5Picks: seq<Pick>

    ghost predicate Valid()
      reads this
    {
      AllSides(results) && |results| <= Window
    }

    constructor ()
      ensures Valid()
      ensures results == [] && stage1Picks == [] && stage2Picks == [] && stage3Picks == []
      ensures stage4Picks == [] && stage5Picks == []
    {
      results := [];
      stage1Picks, stage2Picks, stage3Picks, stage4Picks, stage5Picks := [], [], [], [], [];
    }

    /** `add_result`: only 'P' and 'B' are kept, and the window never exceeds 15 entries. */
    method AddResult(result: string)
      requires Valid()
      modifies this
      ensures Valid()
      ensures results == AddOne(old(results), result)
      ensures result != "P" && result != "B" ==> results == old(results)
      ensures unchanged(this`stage1Picks, this`stage2Picks, this`stage3Picks, this`stage4Picks, this`stage5Picks)
    {
      var side := ParseSide(result);
      if side.Some? {
        results := results + [side.value];
        if |results| > Window {
          results := results[|results| - Window..];
        }
      }
    }

    /** `add_multiple_results`: the filtered inputs go after the stored results, then the newest 15 are kept. */
    method AddMultipleResults(rs: seq<string>)
      requires Valid()
      modifies this
      ensures Valid()
      ensures results == LastN(old(results) + FilterSides(rs), Window)
      ensures unchanged(this`stage1Picks, this`stage2Picks, this`stage3Picks, this`stage4Picks, this`stage5Picks)
    {
      var filtered := FilterSides(rs);
      results := results + filtered;
      if |results| > Window {
        results := results[|results| - Window..];
      }
    }

    /** `has_sufficient_data`: at least 15 results (with the cap, exactly 15). */
    predicate HasSufficientData()
      reads this
    {
      |results| >= Window
    }

    /** The inner `for i in range(1, 5)` loop that counts stored picks matching the result at their own index. */
    static method CountWins(picks: seq<Pick>, input: seq<Pick>, pickNumber: int) returns (winCount: nat)
      ensures winCount == WinCount(picks, input, pickNumber)
    {
      winCount := 0;
      var i := 1;
      while i < 5
        invariant 1 <= i <= 5
        invariant winCount + WinCountFrom(picks, input, pickNumber, i) == WinCount(picks, input, pickNumber)
      {
        var prevIdx := pickNumber - i - 1;
        if 0 <= prevIdx < |picks| {
          if picks[prevIdx] == SafeGet(input, prevIdx) {
            winCount := winCount + 1;
          }
        }
        i := i + 1;
      }
    }

    /** One pass of the `for pick_number` loop body: the five stage lists with one pick appended, and the final pick recorded. */
    static method AppendStagePicks(input: seq<Pick>, pickNumber: int,
                                   stage1Picks: seq<Pick>, stage2Picks: seq<Pick>, stage3Picks: seq<Pick>,
                                   stage4Picks: seq<Pick>, stage5Picks: seq<Pick>, allPicks: map<int, Pick>)
      returns (s1: seq<Pick>, s2: seq<Pick>, s3: seq<Pick>, s4: seq<Pick>, s5: seq<Pick>, picks: map<int, Pick>)
      ensures Stages(s1, s2, s3, s4, s5, picks)
           == Step(input, Stages(stage1Picks, stage2Picks, stage3Picks, stage4Picks, stage5Picks, allPicks), pickNumber)
    {
      var pos := pickNumber - 1;
      var pick1 := SafeGet(input, pos - 4);
      var pick2 := SafeGet(input, pos - 3);
      var pick4 := SafeGet(input, pos - 1);
      var stage1 := if pick1 == pick2 then pick4
        else if pick1 != N && pick2 != N && pick4 != N then Opposite(pick4)
        else N;
      assert stage1 == Stage1(input, pickNumber);
      s1 := stage1Picks + [stage1];

      var stage2;
      if pickNumber < 6 {
        stage2 := N;
      } else {
        var winCount := CountWins(s1, input, pickNumber);
        stage2 := if winCount >= 2 then stage1 else Opposite(stage1);
      }
      assert stage2 == Stage2(input, s1, pickNumber, stage1);
      s2 := stage2Picks + [stage2];

      var stage3;
      if pickNumber < 6 {
        stage3 := N;
      } else if pickNumber <= 8 {
        stage3 := stage2;
      } else {
        var prevIdx := pickNumber - 2;
        var prevResult := SafeGet(input, prevIdx);
        var prevStage2 := SafeGet(s2, prevIdx);
        stage3 := if prevResult == prevStage2 then stage2 else Opposite(stage2);
      }
      assert stage3 == Stage3(input, s2, pickNumber, stage2);
      s3 := stage3Picks + [stage3];

      var stage4;
      if pickNumber == 5 {
        stage4 := N;
      } else if pickNumber <= 10 {
        stage4 := stage3;
      } else {
        var prevIdx := pickNumber - 2;
        var prevResult := SafeGet(input, prevIdx);
        var prevStage3 := SafeGet(s3, prevIdx);
        stage4 := if prevResult == prevStage3 then stage3 else Opposite(stage3);
      }
      assert stage4 == Stage4(input, s3, pickNumber, stage3);
      s4 := stage4Picks + [stage4];

      var stage5;
      if pickNumber == 5 {
        stage5 := N;
      } else if pickNumber <= 11 {
        stage5 := stage1;
      } else {
        var winCount := CountWins(s4, input, pickNumber);
        stage5 := if winCount >= 2 then stage4 else Opposite(stage4);
      }
      assert stage5 == Stage5(input, s4, pickNumber, stage1, stage4);
      s5 := stage5Picks + [stage5];

      var finalPick := Final(stage5, stage4, stage3, stage2, stage1);
      picks := allPicks[pickNumber := finalPick];
    }

    /**
     * `_generate_all_stage_picks`: clears the five stage fields, then refills
     * them over pick numbers 5 .. len(input)+1. The lists grow in locals and are
     * stored once the loop ends; nothing reads the fields in between. The
     * stored results are not touched.
     */
    method GenerateAllStagePicks(input: seq<Pick>) returns (allPicks: map<int, Pick>)
      modifies this
      ensures Stages(stage1Picks, stage2Picks, stage3Picks, stage4Picks, stage5Picks, allPicks) == Run(input, |input| + 2)
      ensures allPicks == AllPicks(input)
      ensures results == old(results)
    {
      var s1: seq<Pick>, s2: seq<Pick>, s3: seq<Pick>, s4: seq<Pick>, s5: seq<Pick> := [], [], [], [], [];
      allPicks := map[];
      var pickNumber := 5;
      while pickNumber < |input| + 2
        invariant 5 <= pickNumber <= if |input| + 2 < 5 then 5 else |input| + 2
        invariant Run(input, pickNumber) == Stages(s1, s2, s3, s4, s5, allPicks)
        modifies {}
      {
        RunNext(input, pickNumber);
        s1, s2, s3, s4, s5, allPicks := AppendStagePicks(input, pickNumber, s1, s2, s3, s4, s5, allPicks);
        pickNumber := pickNumber + 1;
      }
      RunEnd(input, pickNumber);
      stage1Picks, stage2Picks, stage3Picks, stage4Picks, stage5Picks := s1, s2, s3, s4, s5;
    }

    /**
     * `generate_choice_pick`: 'N' below 15 results, otherwise the cascade
     * pick for number len(results)+1, with the stage fields refilled by
     * `_generate_all_stage_picks`. The window is left as it was, so a second
     * call gives the same answer.
     */
    method GenerateChoicePick() returns (r: Pick)
      requires Valid()
      modifies this
      ensures Valid()
      ensures results == old(results)
      ensures r == ChoicePickOf(results)
      ensures !HasSufficientData() ==> r == N
      ensures HasSufficientData() ==> IsSide(r) && r == Prediction.Closed16(results)
      ensures HasSufficientData() ==>
        Stages(stage1Picks, stage2Picks, stage3Picks, stage4Picks, stage5Picks, AllPicks(results)) == Run(results, |results| + 2)
      ensures !HasSufficientData() ==>
        unchanged(this`stage1Picks, this`stage2Picks, this`stage3Picks, this`stage4Picks, this`stage5Picks)
    {
      if !HasSufficientData() {
        return N;
      }
      var picks := GenerateAllStagePicks(results);
      var nextPickNum := |results| + 1;
      r := if nextPickNum in picks then picks[nextPickNum] else N;
      ChoicePickClosedForm(results);
    }
  }
}
