/**
 * `PredictionEngine` (prediction/prediction_engine.py): keeps the newest 15
 * P/B results, replaced wholesale on every `add_results`, and predicts the
 * next outcome with the five-stage cascade.
 */
module Prediction {
  import opened Picks
  import opened Cascade

  /** What `predict` answers for a stored window: 'N' unless exactly 15 results are stored, else `picks.get(16, 'N')`. */
  function Prediction(results: seq<Pick>): Pick {
    if |results| != Window then N else PickAt(AllPicks(results), 16)
  }

  /** The stage-1 formula for the 16th outcome over a window of 15. */
  function Closed16(results: seq<Pick>): Pick
    requires |results| == Window
  {
    if results[11] == results[12] then results[14] else Opposite(results[14])
  }

  /** With 15 P/B results the prediction is never 'N': it is the stage-1 formula. */
  lemma PredictionClosedForm(results: seq<Pick>)
    requires AllSides(results) && |results| == Window
    ensures Prediction(results) == Closed16(results)
    ensures IsSide(Prediction(results))
  {
    Pick16(results);
  }

  class PredictionEngine {
    var results: seq<Pick>

    ghost predicate Valid()
      reads this
    {
      AllSides(results) && |results| <= Window
    }

    constructor ()
      ensures Valid() && results == []
    {
      results := [];
    }

    /** `add_results`: the previous window is discarded; the newest 15 P/B entries of `rs` become the window. */
    method AddResults(rs: seq<string>)
      modifies this
      ensures Valid()
      ensures results == LastN(FilterSides(rs), Window)
    {
      var filtered := FilterSides(rs);
      results := LastN(filtered, Window);
    }

    /** `has_sufficient_data`: exactly 15 results are stored. */
    predicate HasSufficientData()
      reads this
    {
      |results| == Window
    }

    /** `_generate_all_stage_picks`: the pick-number loop over local stage lists. */
    static method GenerateAllStagePicks(results: seq<Pick>) returns (allPicks: map<int, Pick>)
      ensures allPicks == AllPicks(results)
    {
      var stage1Picks: seq<Pick>, stage2Picks: seq<Pick>, stage3Picks: seq<Pick> := [], [], [];
      var stage4Picks: seq<Pick>, stage5Picks: seq<Pick> := [], [];
      allPicks := map[];
      var pickNumber := 5;
      while pickNumber < |results| + 2
        invariant 5 <= pickNumber <= if |results| + 2 < 5 then 5 else |results| + 2
        invariant Run(results, pickNumber) == Stages(stage1Picks, stage2Picks, stage3Picks, stage4Picks, stage5Picks, allPicks)
      {
        RunNext(results, pickNumber);
        stage1Picks, stage2Picks, stage3Picks, stage4Picks, stage5Picks, allPicks :=
          StagePicksAt(results, pickNumber, stage1Picks, stage2Picks, stage3Picks, stage4Picks, stage5Picks, allPicks);
        pickNumber := pickNumber + 1;
      }
      RunEnd(results, pickNumber);
    }

    /** The body of the `for pick_number` loop: appends one pick to every stage list and records the final pick. */
    static method StagePicksAt(results: seq<Pick>, pickNumber: int,
                               stage1Picks: seq<Pick>, stage2Picks: seq<Pick>, stage3Picks: seq<Pick>,
                               stage4Picks: seq<Pick>, stage5Picks: seq<Pick>, allPicks: map<int, Pick>)
      returns (s1: seq<Pick>, s2: seq<Pick>, s3: seq<Pick>, s4: seq<Pick>, s5: seq<Pick>, picks: map<int, Pick>)
      ensures Stages(s1, s2, s3, s4, s5, picks)
           == Step(results, Stages(stage1Picks, stage2Picks, stage3Picks, stage4Picks, stage5Picks, allPicks), pickNumber)
    {
      var pos := pickNumber - 1;
      var pick1 := SafeGet(results, pos - 4);
      var pick2 := SafeGet(results, pos - 3);
      var pick4 := SafeGet(results, pos - 1);
      var stage1 := if pick1 == pick2 then pick4
        else if pick1 != N && pick2 != N && pick4 != N then Opposite(pick4)
        else N;
      assert stage1 == Stage1(results, pickNumber);
      s1 := stage1Picks + [stage1];

      var stage2;
      if pickNumber < 6 {
        stage2 := N;
      } else {
        var winCount := WinCount(s1, results, pickNumber);
        stage2 := if winCount >= 2 then stage1 else Opposite(stage1);
      }
      assert stage2 == Stage2(results, s1, pickNumber, stage1);
      s2 := stage2Picks + [stage2];

      var stage3;
      if pickNumber < 6 {
        stage3 := N;
      } else if pickNumber <= 8 {
        stage3 := stage2;
      } else {
        var prevIdx := pickNumber - 2;
        var prevResult := SafeGet(results, prevIdx);
        var prevStage2 := SafeGet(s2, prevIdx);
        stage3 := if prevResult == prevStage2 then stage2 else Opposite(stage2);
      }
      assert stage3 == Stage3(results, s2, pickNumber, stage2);
      s3 := stage3Picks + [stage3];

      var stage4;
      if pickNumber == 5 {
        stage4 := N;
      } else if pickNumber <= 10 {
        stage4 := stage3;
      } else {
        var prevIdx := pickNumber - 2;
        var prevResult := SafeGet(results, prevIdx);
        var prevStage3 := SafeGet(s3, prevIdx);
        stage4 := if prevResult == prevStage3 then stage3 else Opposite(stage3);
      }
      assert stage4 == Stage4(results, s3, pickNumber, stage3);
      s4 := stage4Picks + [stage4];

      var stage5;
      if pickNumber == 5 {
        stage5 := N;
      } else if pickNumber <= 11 {
        stage5 := stage1;
      } else {
        var winCount := WinCount(s4, results, pickNumber);
        stage5 := if winCount >= 2 then stage4 else Opposite(stage4);
      }
      assert stage5 == Stage5(results, s4, pickNumber, stage1, stage4);
      s5 := stage5Picks + [stage5];

      var finalPick := Final(stage5, stage4, stage3, stage2, stage1);
      picks := allPicks[pickNumber := finalPick];
    }

    /**
     * `predict`: 'N' unless exactly 15 results are stored; otherwise the pick
     * for number 16, which is then always a side. It changes nothing, so two
     * consecutive calls return the same pick.
     */
    method Predict() returns (r: Pick)
      requires Valid()
      ensures r == Prediction(results)
      ensures !HasSufficientData() ==> r == N
      ensures HasSufficientData() ==> IsSide(r) && r == Closed16(results)
    {
      if !HasSufficientData() {
        return N;
      }
      var picks := GenerateAllStagePicks(results);
      r := if 16 in picks then picks[16] else N;
      PredictionClosedForm(results);
    }
  }
}
