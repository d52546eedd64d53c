/**
 * `AdvisorViewModel`: holds the questionnaire state, replaces it through
 * `updateState`, and computes the profile from it.
 */
module Advisor {
  import opened Questionnaire
  import opened Scoring
  import opened Portfolio

  class AdvisorViewModel {
    /** The current answers (the view model's state flow value). */
    var state: AdvisorState

    /** A fresh view model starts from the default answers. */
    constructor ()
      ensures state == DefaultState()
    {
      state := DefaultState();
    }

    /** `updateState(transform)`: the state becomes `transform` applied to it. */
    method UpdateState(transform: AdvisorState -> AdvisorState)
      modifies this
      ensures state == transform(old(state))
    {
      state := transform(state);
    }

    /**
     * `calculateProfile`: adds up the five weighted sub-scores of the current
     * answers, clamps the sum to [0, 100] and names its profile. The score is
     * returned in place of the explanation text that embeds it.
     */
    method CalculateProfile() returns (profile: string, finalScore: real)
      ensures finalScore == Score(state) && profile == Profile(state)
      ensures 0.0 <= finalScore <= 100.0
      ensures profile == CONSERVADOR || profile == MODERADO
    {
      var s := state;
      var score: real := 0.0;

      // 1) horizon
      score := score + HorizonPoints(s.horizon) as real * 0.20;

      // 2) financial situation
      var incomeFactor := IncomePoints(s.incomeRange);
      var saveFactor := SavingsPoints(s.savingsPercent);
      var emergencyFactor := EmergencyPoints(s.emergencyMonths);
      score := score + ((incomeFactor + saveFactor + emergencyFactor) as real / 3.0) * 0.25;

      // 3) experience
      var expLevel := ExperiencePoints(s.experienceLevel);
      score := score + expLevel as real * 0.10;

      // 4) risk tolerance
      var dropTolerance := DropPoints(s.maxAnnualDrop);
      var reaction := ReactionPoints(s.reactionToDrop);
      var prefChoice := ReturnPoints(s.preferenceExpectedReturn);
      score := score + ((dropTolerance + reaction + prefChoice) as real / 3.0) * 0.30;

      // 5) restrictions
      var restrictionPenalty := LiquidityPenalty(s.liquidityMinPercent);
      var currencyRisk := CurrencyPoints(s.currencyRisk);
      score := score + (restrictionPenalty + currencyRisk) as real * 0.15;

      finalScore := Clamp(score, 0.0, 100.0);
      if finalScore < 20.0 {
        profile := CONSERVADOR;
      } else if finalScore < 40.0 {
        profile := MODERADO;
      } else if finalScore < 60.0 {
        profile := BALANCEADO;
      } else {
        profile := AGRESIVO;
      }
      OnlyLowerProfilesReachable(s);
    }
  }

  /**
   * The result page's flow: compute the profile, then look up its template.
   * The template always carries the computed label and its allocation adds
   * up to 100.
   */
  method Evaluate(vm: AdvisorViewModel) returns (profile: string, suggestion: PortfolioSuggestion)
    ensures profile == Profile(vm.state)
    ensures suggestion.profile == profile && suggestion.profile != META_MIXTO
    ensures ValidAllocation(suggestion.allocation)
  {
    var score;
    profile, score := vm.CalculateProfile();
    suggestion := SuggestionForProfile(profile);
  }
}
