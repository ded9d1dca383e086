/**
 * `ChoicePickEngine` (prediction/choice_pick_engine.py): wraps a
 * `ChoicePickSystem` and bets against its pick.
 */
module ChoiceEngine {
  import opened Picks
  import opened ChoicePick
  import opened Cascade
  import Prediction

  /** What `predict` answers for the wrapped system's window. */
  function EnginePick(results: seq<Pick>): Pick {
    var pick := ChoicePickOf(results);
    if pick == N then N else ReverseBet(pick)
  }

  /** The engine abstains exactly when the system does, and otherwise bets on the other side. */
  lemma EnginePickReverses(results: seq<Pick>)
    ensures EnginePick(results) == N <==> ChoicePickOf(results) == N
    ensures ChoicePickOf(results) != N ==>
      IsSide(EnginePick(results)) && EnginePick(results) != ChoicePickOf(results)
    ensures ChoicePickOf(results) != N ==> ReverseBet(EnginePick(results)) == ChoicePickOf(results)
  {
  }

  /** With 15 P/B results the engine bets on the opposite of the stage-1 formula for number 16. */
  lemma EnginePickClosedForm(results: seq<Pick>)
    requires AllSides(results) && |results| == Window
    ensures IsSide(EnginePick(results))
    ensures EnginePick(results) == Opposite(Prediction.Closed16(results))
  {
    ChoicePickClosedForm(results);
  }

  class ChoicePickEngine {
    const system: ChoicePickSystem

    ghost predicate Valid()
      reads this, system
    {
      system.Valid()
    }

    constructor ()
      ensures Valid() && fresh(system) && system.results == []
    {
      system := new ChoicePickSystem();
    }

    /** `add_result`: forwarded to the system unchanged. */
    method AddResult(result: string)
      requires Valid()
      modifies system
      ensures Valid()
      ensures system.results == AddOne(old(system.results), result)
      ensures unchanged(system`stage1Picks, system`stage2Picks, system`stage3Picks, system`stage4Picks, system`stage5Picks)
    {
      system.AddResult(result);
    }

    /** `add_results`: forwarded to `add_multiple_results` unchanged. */
    method AddResults(rs: seq<string>)
      requires Valid()
      modifies system
      ensures Valid()
      ensures system.results == LastN(old(system.results) + FilterSides(rs), Window)
      ensures unchanged(system`stage1Picks, system`stage2Picks, system`stage3Picks, system`stage4Picks, system`stage5Picks)
    {
      system.AddMultipleResults(rs);
    }

    /** `has_enough_data`: the system's `has_sufficient_data`. */
    predicate HasEnoughData()
      reads this, system
    {
      system.HasSufficientData()
    }

    /**
     * `predict`: 'N' when the system has no pick, otherwise the reverse of
     * its pick. The window is left as it was, so a second call gives the
     * same answer; with enough data the stage lists are refilled on the way.
     */
    method Predict() returns (r: Pick)
      requires Valid()
      modifies system
      ensures Valid()
      ensures system.results == old(system.results)
      ensures r == EnginePick(system.results)
      ensures !HasEnoughData() ==> r == N
      ensures HasEnoughData() ==> IsSide(r) && r == Opposite(Prediction.Closed16(system.results))
      ensures HasEnoughData() ==>
        Stages(system.stage1Picks, system.stage2Picks, system.stage3Picks, system.stage4Picks, system.stage5Picks,
               AllPicks(system.results)) == Run(system.results, |system.results| + 2)
      ensures !HasEnoughData() ==>
        unchanged(system`stage1Picks, system`stage2Picks, system`stage3Picks, system`stage4Picks, system`stage5Picks)
    {
      var pick := system.GenerateChoicePick();
      if pick == N {
        return N;
      }
      r := ReverseBet(pick);
      if HasEnoughData() {
        EnginePickClosedForm(system.results);
      }
    }
  }
}
