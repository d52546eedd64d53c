/**
 * `suggestionForProfile`: a fixed table from profile label to a portfolio
 * template, with a catch-all "Meta-Mixto" template for any other text.
 */
module Portfolio {
  import opened OrderedMap
  import opened Scoring

  /** The label of the catch-all template. */
  const META_MIXTO: string := "Meta-Mixto"

  /** A portfolio template; `allocation` maps asset classes to whole percentages. */
  datatype PortfolioSuggestion = PortfolioSuggestion(
    profile: string,
    allocation: Entries,
    liquidity: string,
    expectedReturnRange: string,
    notes: string
  )

  /** The percentages of an allocation added up. */
  function AllocationTotal(allocation: Entries): int
  {
    if allocation == [] then 0 else allocation[0].1 + AllocationTotal(allocation[1..])
  }

  /** Every percentage positive, every asset class named once, 100 in all. */
  predicate ValidAllocation(allocation: Entries) {
    && DistinctKeys(allocation)
    && (forall i :: 0 <= i < |allocation| ==> allocation[i].1 > 0)
    && AllocationTotal(allocation) == 100
  }

  // The allocation of each template, in display order.
  const CONSERVADOR_ALLOCATION: Entries :=
    [("Efectivo / CDT / liquidez", 50),
     ("Renta fija (FIC, TES cortos)", 30),
     ("Fondos mixtos conservadores / FVP", 10),
     ("Renta variable local/internacional", 5),
     ("Alternativos / inmobiliario", 5)]
  const MODERADO_ALLOCATION: Entries :=
    [("Efectivo / liquidez", 25),
     ("Renta fija (TES, bonos corporativos)", 35),
     ("Fondos mixtos / FIC", 20),
     ("Renta variable (acciones/ETFs)", 15),
     ("Alternativos", 5)]
  const BALANCEADO_ALLOCATION: Entries :=
    [("Efectivo", 10),
     ("Renta fija", 30),
     ("Renta variable (COLCAP y ETFs internacionales)", 40),
     ("FIC / FVP", 10),
     ("Inmobiliario / alternativos", 10)]
  const AGRESIVO_ALLOCATION: Entries :=
    [("Renta variable local e internacional", 60),
     ("ETFs y acciones directas", 25),
     ("Renta fija (alto rendimiento)", 5),
     ("Alternativos / private", 10)]
  const META_MIXTO_ALLOCATION: Entries :=
    [("Objetivo A (corto plazo conservador)", 50),
     ("Objetivo B (largo plazo arriesgado)", 50)]

  // The descriptive texts of each template.
  const CONSERVADOR_LIQUIDITY: string := "Alta: gran parte en instrumentos rescatables en 1-7 días (≥40%)."
  const CONSERVADOR_RETURN: string := "2% - 6% anual (esperanza conservadora)."
  const CONSERVADOR_NOTES: string := "Baja tolerancia a drawdowns. Priorizar fondos con baja volatilidad, cuentas AFC si hay ventajas fiscales."
  const MODERADO_LIQUIDITY: string := "Moderada: parte en instrumentos con 7-30 días de rescate y vencimientos cortos."
  const MODERADO_RETURN: string := "4% - 8% anual."
  const MODERADO_NOTES: string := "Mantener fondo de emergencia 3-6 meses. Balance entre protección y crecimiento."
  const BALANCEADO_LIQUIDITY: string := "Equilibrada: algunas posiciones con lockups (90-365 días) aceptables."
  const BALANCEADO_RETURN: string := "6% - 12% anual."
  const BALANCEADO_NOTES: string := "Diversificación internacional recomendada (ETFs USD). Considerar cobertura cambiaria según tolerancia."
  const AGRESIVO_LIQUIDITY: string := "Baja aceptación de reembolsos inmediatos; hay posiciones con lockups largos."
  const AGRESIVO_RETURN: string := "10% - 20%+ anual (alto riesgo)."
  const AGRESIVO_NOTES: string := "Alto drawdown posible. Recomendable experiencia previa y uso de cuentas internacionales si procede."
  const META_MIXTO_LIQUIDITY: string := "Variable por objetivo."
  const META_MIXTO_RETURN: string := "Combinado según objetivos."
  const META_MIXTO_NOTES: string := "Recomendar creación de sub-carteras por objetivo/horizonte."

  /** Each template's allocation is valid: distinct classes, positive shares, 100 in all. */
  lemma ConservadorAllocationValid()
    ensures ValidAllocation(CONSERVADOR_ALLOCATION)
  {
  }

  lemma ModeradoAllocationValid()
    ensures ValidAllocation(MODERADO_ALLOCATION)
  {
  }

  lemma BalanceadoAllocationValid()
    ensures ValidAllocation(BALANCEADO_ALLOCATION)
  {
  }

  lemma AgresivoAllocationValid()
    ensures ValidAllocation(AGRESIVO_ALLOCATION)
  {
  }

  lemma MetaMixtoAllocationValid()
    ensures ValidAllocation(META_MIXTO_ALLOCATION)
  {
  }

  /**
   * The template for a profile label: one of the four labels gets its own
   * template carrying that label; any other text gets "Meta-Mixto". Every
   * template's allocation adds up to exactly 100.
   */
  function SuggestionForProfile(profile: string): (r: PortfolioSuggestion)
    ensures ValidAllocation(r.allocation)
    ensures IsProfileLabel(profile) ==> r.profile == profile
    ensures !IsProfileLabel(profile) ==> r.profile == META_MIXTO
  {
    if profile == CONSERVADOR then
      ConservadorAllocationValid();
      PortfolioSuggestion(
        profile,
        CONSERVADOR_ALLOCATION,
        CONSERVADOR_LIQUIDITY, CONSERVADOR_RETURN, CONSERVADOR_NOTES)
    else if profile == MODERADO then
      ModeradoAllocationValid();
      PortfolioSuggestion(
        profile,
        MODERADO_ALLOCATION,
        MODERADO_LIQUIDITY, MODERADO_RETURN, MODERADO_NOTES)
    else if profile == BALANCEADO then
      BalanceadoAllocationValid();
      PortfolioSuggestion(
        profile,
        BALANCEADO_ALLOCATION,
        BALANCEADO_LIQUIDITY, BALANCEADO_RETURN, BALANCEADO_NOTES)
    else if profile == AGRESIVO then
      AgresivoAllocationValid();
      PortfolioSuggestion(
        profile,
        AGRESIVO_ALLOCATION,
        AGRESIVO_LIQUIDITY, AGRESIVO_RETURN, AGRESIVO_NOTES)
    else
      MetaMixtoAllocationValid();
      PortfolioSuggestion(
        META_MIXTO,
        META_MIXTO_ALLOCATION,
        META_MIXTO_LIQUIDITY, META_MIXTO_RETURN, META_MIXTO_NOTES)
  }

  /**
   * Whatever the answers, the scored label has its own template: the
   * suggestion carries that label and the catch-all is never reached.
   */
  lemma ScoredProfileHasTemplate(s: Questionnaire.AdvisorState)
    ensures SuggestionForProfile(Profile(s)).profile == Profile(s)
    ensures SuggestionForProfile(Profile(s)).profile != META_MIXTO
  {
  }
}
