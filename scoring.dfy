/**
 * The risk-profile score of `AdvisorViewModel.calculateProfile`: ten answers
 * looked up in fixed tables, combined as a weighted sum, clamped to [0, 100]
 * and cut into four profile labels. Arithmetic is exact (`real`).
 */
module Scoring {
  import opened Wrappers
  import opened Questionnaire

  // ---------- lookup tables; every one has a value for null and unknown answers ----------

  /** Horizon (weighted 0.20). */
  function HorizonPoints(answer: Option<string>): (p: int)
    ensures 5 <= p <= 40
  {
    if answer == Some("corto") then 5
    else if answer == Some("medio") then 12
    else if answer == Some("3-5") then 20
    else if answer == Some("5-10") then 30
    else if answer == Some(">10") then 40
    else 15
  }

  /** Monthly net income range (one third of the 0.25 financial-situation weight). */
  function IncomePoints(answer: Option<string>): (p: int)
    ensures 5 <= p <= 35
  {
    if answer == Some("≤3M") then 5
    else if answer == Some("3-6M") then 10
    else if answer == Some("6-12M") then 18
    else if answer == Some("12-20M") then 26
    else if answer == Some(">20M") then 35
    else 10
  }

  /** Share of income saved. */
  function SavingsPoints(answer: Option<string>): (p: int)
    ensures 5 <= p <= 30
  {
    if answer == Some("5-10%") then 5
    else if answer == Some("10-20%") then 12
    else if answer == Some("20-30%") then 22
    else if answer == Some(">30%") then 30
    else 8
  }

  /** Months covered by the emergency fund. */
  function EmergencyPoints(answer: Option<string>): (p: int)
    ensures 0 <= p <= 20
  {
    if answer == Some("0") then 0
    else if answer == Some("1-3") then 5
    else if answer == Some("3-6") then 12
    else if answer == Some(">6") then 20
    else 5
  }

  /** Experience (weighted 0.10). */
  function ExperiencePoints(answer: Option<string>): (p: int)
    ensures 4 <= p <= 25
  {
    if answer == Some("básico") then 4
    else if answer == Some("intermedio") then 12
    else if answer == Some("avanzado") then 25
    else 8
  }

  /** Largest tolerable yearly drop (one third of the 0.30 risk-tolerance weight). */
  function DropPoints(answer: Option<string>): (p: int)
    ensures 5 <= p <= 35
  {
    if answer == Some("-5%") then 5
    else if answer == Some("-10%") then 12
    else if answer == Some("-20%") then 25
    else if answer == Some("-35%") then 35
    else 12
  }

  /** Reaction to a 15% monthly drop. */
  function ReactionPoints(answer: Option<string>): (p: int)
    ensures 2 <= p <= 30
  {
    if answer == Some("vendes") then 2
    else if answer == Some("mantienes") then 12
    else if answer == Some("compras") then 30
    else 10
  }

  /** Preferred expected return. */
  function ReturnPoints(answer: Option<string>): (p: int)
    ensures 5 <= p <= 30
  {
    if answer == Some("6%") then 5
    else if answer == Some("10%") then 18
    else if answer == Some("15%") then 30
    else 12
  }

  /** Liquidity restriction (part of the 0.15 restrictions weight): a penalty, never a bonus. */
  function LiquidityPenalty(liquidityMinPercent: int): (p: int)
    ensures -10 <= p <= 0
    ensures p == -10 <==> liquidityMinPercent >= 50
    ensures p == 0 <==> liquidityMinPercent < 20
    ensures p == -5 <==> 20 <= liquidityMinPercent < 50
  {
    if liquidityMinPercent >= 50 then -10
    else if liquidityMinPercent >= 20 then -5
    else 0
  }

  /** Tolerance to currency risk. */
  function CurrencyPoints(answer: Option<string>): (p: int)
    ensures -2 <= p <= 4
  {
    if answer == Some("baja") then -2
    else if answer == Some("media") then 0
    else if answer == Some("alta") then 4
    else 0
  }

  /** Asking for more liquidity never lowers the penalty. */
  lemma LiquidityPenaltyMonotone(lower: int, higher: int)
    requires lower <= higher
    ensures LiquidityPenalty(higher) <= LiquidityPenalty(lower)
  {
  }

  /** The chips the questionnaire offers for each scored question. */
  const HORIZON_OPTIONS: seq<string> := ["corto", "medio", "3-5", "5-10", ">10"]
  const INCOME_OPTIONS: seq<string> := ["≤3M", "3-6M", "6-12M", "12-20M", ">20M"]
  const SAVINGS_OPTIONS: seq<string> := ["5-10%", "10-20%", "20-30%", ">30%"]
  const EMERGENCY_OPTIONS: seq<string> := ["0", "1-3", "3-6", ">6"]
  const EXPERIENCE_OPTIONS: seq<string> := ["básico", "intermedio", "avanzado"]
  const DROP_OPTIONS: seq<string> := ["-5%", "-10%", "-20%", "-35%"]
  const REACTION_OPTIONS: seq<string> := ["vendes", "mantienes", "compras"]
  const RETURN_OPTIONS: seq<string> := ["6%", "10%", "15%"]
  const CURRENCY_OPTIONS: seq<string> := ["baja", "media", "alta"]

  /** An answer outside the offered chips, or no answer at all. */
  predicate Unrecognised(answer: Option<string>, options: seq<string>) {
    answer.None? || answer.value !in options
  }

  /** A null or unknown answer scores the question's fixed default, and never fails. */
  lemma UnrecognisedAnswersScoreDefaults(s: AdvisorState)
    ensures Unrecognised(s.horizon, HORIZON_OPTIONS) ==> HorizonPoints(s.horizon) == 15
    ensures Unrecognised(s.incomeRange, INCOME_OPTIONS) ==> IncomePoints(s.incomeRange) == 10
    ensures Unrecognised(s.savingsPercent, SAVINGS_OPTIONS) ==> SavingsPoints(s.savingsPercent) == 8
    ensures Unrecognised(s.emergencyMonths, EMERGENCY_OPTIONS) ==> EmergencyPoints(s.emergencyMonths) == 5
    ensures Unrecognised(s.experienceLevel, EXPERIENCE_OPTIONS) ==> ExperiencePoints(s.experienceLevel) == 8
    ensures Unrecognised(s.maxAnnualDrop, DROP_OPTIONS) ==> DropPoints(s.maxAnnualDrop) == 12
    ensures Unrecognised(s.reactionToDrop, REACTION_OPTIONS) ==> ReactionPoints(s.reactionToDrop) == 10
    ensures Unrecognised(s.preferenceExpectedReturn, RETURN_OPTIONS) ==> ReturnPoints(s.preferenceExpectedReturn) == 12
    ensures Unrecognised(s.currencyRisk, CURRENCY_OPTIONS) ==> CurrencyPoints(s.currencyRisk) == 0
  {
  }

  // ---------- the weighted score ----------

  /** The five weighted sub-scores added up, before clamping. */
  function RawScore(s: AdvisorState): (r: real)
    ensures r == ScaledScore(s) as real / 60.0
  {
    var horizon := HorizonPoints(s.horizon) as real * 0.20;
    var finances := ((IncomePoints(s.incomeRange) + SavingsPoints(s.savingsPercent)
                      + EmergencyPoints(s.emergencyMonths)) as real / 3.0) * 0.25;
    var experience := ExperiencePoints(s.experienceLevel) as real * 0.10;
    var tolerance := ((DropPoints(s.maxAnnualDrop) + ReactionPoints(s.reactionToDrop)
                       + ReturnPoints(s.preferenceExpectedReturn)) as real / 3.0) * 0.30;
    var restrictions := (LiquidityPenalty(s.liquidityMinPercent) + CurrencyPoints(s.currencyRisk)) as real * 0.15;
    horizon + finances + experience + tolerance + restrictions
  }

  /** `coerceIn(lo, hi)` */
  function Clamp(x: real, lo: real, hi: real): (r: real)
    requires lo <= hi
    ensures lo <= r <= hi
    ensures lo <= x <= hi ==> r == x
    ensures x < lo ==> r == lo
    ensures x > hi ==> r == hi
  {
    if x < lo then lo else if x > hi then hi else x
  }

  /** The final score: the weighted sum clamped to [0, 100]. */
  function Score(s: AdvisorState): (r: real)
    ensures 0.0 <= r <= 100.0
  {
    Clamp(RawScore(s), 0.0, 100.0)
  }

  /** The same score in sixtieths, with integer weights: a reference for the real arithmetic. */
  function ScaledScore(s: AdvisorState): int
  {
    12 * HorizonPoints(s.horizon)
    + 5 * (IncomePoints(s.incomeRange) + SavingsPoints(s.savingsPercent) + EmergencyPoints(s.emergencyMonths))
    + 6 * ExperiencePoints(s.experienceLevel)
    + 6 * (DropPoints(s.maxAnnualDrop) + ReactionPoints(s.reactionToDrop) + ReturnPoints(s.preferenceExpectedReturn))
    + 9 * (LiquidityPenalty(s.liquidityMinPercent) + CurrencyPoints(s.currencyRisk))
  }

  /** The lowest and highest sums the tables allow, in sixtieths. */
  const MIN_SCALED: int := 98
  const MAX_SCALED: int := 1661

  /**
   * Whatever the answers, the weighted sum lies in [98/60, 1661/60], about
   * [1.63, 27.68]: the clamp never changes it.
   */
  lemma ScoreBounds(s: AdvisorState)
    ensures MIN_SCALED <= ScaledScore(s) <= MAX_SCALED
    ensures Score(s) == RawScore(s)
    ensures MIN_SCALED as real / 60.0 <= Score(s) <= MAX_SCALED as real / 60.0
  {
  }

  // ---------- labels ----------

  const CONSERVADOR: string := "Conservador"
  const MODERADO: string := "Moderado"
  const BALANCEADO: string := "Balanceado"
  const AGRESIVO: string := "Arriesgado / Agresivo"

  /** The four labels the scorer can name. */
  predicate IsProfileLabel(name: string) {
    name == CONSERVADOR || name == MODERADO || name == BALANCEADO || name == AGRESIVO
  }

  /** Thresholds 20, 40 and 60; a score on a threshold takes the higher label. */
  function ProfileFor(score: real): (name: string)
    ensures IsProfileLabel(name)
    ensures name == CONSERVADOR <==> score < 20.0
    ensures name == MODERADO <==> 20.0 <= score < 40.0
    ensures name == BALANCEADO <==> 40.0 <= score < 60.0
    ensures name == AGRESIVO <==> 60.0 <= score
  {
    if score < 20.0 then CONSERVADOR
    else if score < 40.0 then MODERADO
    else if score < 60.0 then BALANCEADO
    else AGRESIVO
  }

  /** The profile label of a questionnaire state. */
  function Profile(s: AdvisorState): (name: string)
    ensures IsProfileLabel(name)
  {
    ProfileFor(Score(s))
  }

  /** The tables cap the score below 40: only the two lower labels are ever given. */
  lemma OnlyLowerProfilesReachable(s: AdvisorState)
    ensures Profile(s) == CONSERVADOR || Profile(s) == MODERADO
    ensures Profile(s) == MODERADO <==> ScaledScore(s) >= 1200
  {
    ScoreBounds(s);
  }

  /** Two states that agree on the ten scored answers. */
  predicate SameScoredAnswers(s: AdvisorState, t: AdvisorState) {
    && s.horizon == t.horizon
    && s.incomeRange == t.incomeRange
    && s.savingsPercent == t.savingsPercent
    && s.emergencyMonths == t.emergencyMonths
    && s.experienceLevel == t.experienceLevel
    && s.maxAnnualDrop == t.maxAnnualDrop
    && s.reactionToDrop == t.reactionToDrop
    && s.preferenceExpectedReturn == t.preferenceExpectedReturn
    && s.liquidityMinPercent == t.liquidityMinPercent
    && s.currencyRisk == t.currencyRisk
  }

  /** Every other answer is collected for display only: it never moves the score or the label. */
  lemma ScoreDependsOnScoredAnswersOnly(s: AdvisorState, t: AdvisorState)
    requires SameScoredAnswers(s, t)
    ensures Score(s) == Score(t) && Profile(s) == Profile(t)
  {
  }

  /** Editing the products or the patrimony text never changes the profile. */
  lemma FreeTextEditsKeepProfile(s: AdvisorState, productsText: string, patrimonyText: string)
    ensures Profile(s.(productsUsed := ParseProducts(productsText))) == Profile(s)
    ensures Profile(s.(patrimonyDistribution := ParsePatrimony(patrimonyText))) == Profile(s)
  {
    ScoreDependsOnScoredAnswersOnly(s, s.(productsUsed := ParseProducts(productsText)));
    ScoreDependsOnScoredAnswersOnly(s, s.(patrimonyDistribution := ParsePatrimony(patrimonyText)));
  }

  /** An untouched questionnaire scores 502/60 (about 8.37) and is "Conservador". */
  lemma DefaultStateProfile()
    ensures ScaledScore(DefaultState()) == 502
    ensures LiquidityPenalty(DefaultState().liquidityMinPercent) == -5
    ensures Score(DefaultState()) == 502.0 / 60.0
    ensures Profile(DefaultState()) == CONSERVADOR
  {
  }

  /** The boldest answers reach the top of the range, 1661/60, and still only "Moderado". */
  lemma BoldestAnswersProfile(s: AdvisorState)
    requires s.horizon == Some(">10") && s.incomeRange == Some(">20M") && s.savingsPercent == Some(">30%")
    requires s.emergencyMonths == Some(">6") && s.experienceLevel == Some("avanzado")
    requires s.maxAnnualDrop == Some("-35%") && s.reactionToDrop == Some("compras")
    requires s.preferenceExpectedReturn == Some("15%")
    requires s.liquidityMinPercent < 20 && s.currencyRisk == Some("alta")
    ensures ScaledScore(s) == MAX_SCALED
    ensures Score(s) == MAX_SCALED as real / 60.0
    ensures Profile(s) == MODERADO
  {
  }

  /**
   * A score exactly on the threshold 20 is reachable, and exact arithmetic
   * puts it in the higher label "Moderado".
   */
  lemma ThresholdScoreReachable(s: AdvisorState)
    requires s.horizon == Some("medio") && s.incomeRange == Some("3-6M") && s.savingsPercent == Some(">30%")
    requires s.emergencyMonths == Some(">6") && s.experienceLevel == Some("avanzado")
    requires s.maxAnnualDrop == Some("-35%") && s.reactionToDrop == Some("compras")
    requires s.preferenceExpectedReturn == Some("15%")
    requires s.liquidityMinPercent < 20 && s.currencyRisk == Some("alta")
    ensures Score(s) == 20.0
    ensures Profile(s) == MODERADO
  {
  }
}
