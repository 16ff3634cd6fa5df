/**
 * The closed-form halves of the six valuation protocols (services/gemini.ts):
 * labor arbitrage (DLA), empirical verification (EAVP), asset pricing
 * (PRICE), the viability vector (VECTOR), and the deterministic arithmetic
 * applied to the external scorer's judgments for prompt quality (PVC) and
 * semantic density (SCOPE).
 *
 * Every numeric request field is optional; an absent one takes the
 * protocol's default, a present one (zero included) is used as given.
 * JavaScript divides by zero without complaint; real division here is
 * only defined for a non-zero divisor, so the calculators that divide by
 * a request field require it to be non-zero.
 */
module Calculators {
  import opened Wrappers
  import opened Numerics
  import opened Types
  import opened Config

  // ---------------------------------------------------------------- DLA

  /** The DLA inputs after defaulting. */
  function DLAInputOf(d: ValuationRequest): DLAInput {
    DLAInput(
      d.outputCharCount.GetOr(5000.0), d.apiLatencySeconds.GetOr(10.0),
      d.editSessionSeconds.GetOr(120.0), d.apiCostUsd.GetOr(0.01),
      d.humanWpm.GetOr(40.0), d.humanReadingWpm.GetOr(250.0), d.hourlyWage.GetOr(60.0))
  }

  predicate DLADefined(i: DLAInput) {
    i.humanWpm != 0.0 && i.humanReadingWpm != 0.0
  }

  /** The labor-arbitrage ledger: gross labor displaced minus the hidden friction of using the model. */
  function ComputeDLA(i: DLAInput): (c: DLACalculations)
    requires DLADefined(i)
    ensures c.hiddenFrictionCost == c.waitCost + c.readingCost + c.fixingCost + i.apiCostUsd
    ensures c.trueNetValue == c.grossLaborValue - c.hiddenFrictionCost
    ensures c.isProfitable <==> c.trueNetValue > 0.0
    ensures c.grossLaborValue <= 0.0 ==> c.arbitrageEfficiency == 0.0
    ensures c.grossLaborValue > 0.0 ==> c.arbitrageEfficiency * c.grossLaborValue == c.trueNetValue
  {
    var minuteRate := i.hourlyWage / 60.0;
    var totalWords := i.outputCharCount / DLA_CHARS_PER_WORD;
    var manualMinutes := totalWords / i.humanWpm;
    var gross := manualMinutes * minuteRate;
    var waitCost := (i.apiLatencySeconds / 60.0) * minuteRate;
    var readingCost := (totalWords / i.humanReadingWpm) * minuteRate;
    var fixingCost := (i.editSessionSeconds / 60.0) * minuteRate;
    var friction := waitCost + readingCost + fixingCost + i.apiCostUsd;
    var net := gross - friction;
    DLACalculations(
      gross, friction, net, net > 0.0, manualMinutes, waitCost, readingCost, fixingCost,
      if gross > 0.0 then net / gross else 0.0)
  }

  /**
   * The net value in closed form: the wage buys the writing minutes saved,
   * less the minutes spent waiting, reading and fixing, less the API fee.
   */
  lemma DLANetClosedForm(i: DLAInput)
    requires DLADefined(i)
    ensures var words := i.outputCharCount / 5.0;
      ComputeDLA(i).trueNetValue
      == (i.hourlyWage / 60.0)
         * (words / i.humanWpm - i.apiLatencySeconds / 60.0 - words / i.humanReadingWpm
            - i.editSessionSeconds / 60.0)
         - i.apiCostUsd
  {
  }

  /** With no wage, nothing is displaced and the API fee is a pure loss. */
  lemma DLAZeroWageLoses(i: DLAInput)
    requires DLADefined(i) && i.hourlyWage == 0.0
    ensures ComputeDLA(i).grossLaborValue == 0.0
    ensures ComputeDLA(i).arbitrageEfficiency == 0.0
    ensures ComputeDLA(i).trueNetValue == -i.apiCostUsd
    ensures ComputeDLA(i).isProfitable <==> i.apiCostUsd < 0.0
  {
  }

  /**
   * The worked example: 5000 characters, 12.5 s latency, 180 s editing,
   * $0.04 API cost, 40 / 250 wpm and $60 an hour. Reading the thousand
   * words costs four minutes of wage, $4.00.
   */
  lemma DLAWorkedExample()
    ensures var c := ComputeDLA(DLAInput(5000.0, 12.5, 180.0, 0.04, 40.0, 250.0, 60.0));
      && c.manualMinutes == 25.0
      && c.grossLaborValue == 25.0
      && c.waitCost == 5.0 / 24.0
      && c.readingCost == 4.0
      && c.fixingCost == 3.0
      && c.trueNetValue == 10651.0 / 600.0
      && c.isProfitable
  {
  }

  // ---------------------------------------------------------------- EAVP

  function EAVPInputOf(d: ValuationRequest): EAVPInput {
    EAVPInput(
      d.outputChars.GetOr(4000.0), d.userWPM.GetOr(50.0), d.editTime.GetOr(5.0),
      d.regenerations.GetOr(1.0), d.marketRate.GetOr(100.0))
  }

  predicate EAVPDefined(i: EAVPInput) {
    i.userWPM != 0.0
  }

  /** The verified time saving: manual writing time less the correction tax of editing and regenerating. */
  function ComputeEAVP(i: EAVPInput): (c: EAVPCalculations)
    requires EAVPDefined(i)
    ensures c.correctionTaxMinutes == i.editTime + EAVP_REGENERATION_PENALTY_MINUTES * i.regenerations
    ensures c.netMinutesSaved == c.manualCreationMinutes - c.correctionTaxMinutes
    ensures c.auditedValue == c.grossLaborValue - c.correctionCost
    ensures i.marketRate > 0.0 ==> (c.auditedValue > 0.0 <==> c.netMinutesSaved > 0.0)
    ensures i.marketRate == 0.0 ==> c.auditedValue == 0.0
  {
    var words := i.outputChars / EAVP_CHARS_PER_WORD;
    var manual := words / i.userWPM;
    var tax := i.editTime + (i.regenerations * EAVP_REGENERATION_PENALTY_MINUTES);
    var net := manual - tax;
    var audited := (net / 60.0) * i.marketRate;
    assert audited == (manual / 60.0) * i.marketRate - (tax / 60.0) * i.marketRate;
    EAVPCalculations(manual, tax, net, audited, (manual / 60.0) * i.marketRate, (tax / 60.0) * i.marketRate)
  }

  // ---------------------------------------------------------------- PRICE

  function PRICEInputOf(d: ValuationRequest): PRICEInput {
    PRICEInput(
      d.humanTimeMinutes.GetOr(60.0), d.humanHourlyRate.GetOr(80.0),
      d.reviewTimeMinutes.GetOr(5.0), d.tokenCost.GetOr(0.05), d.reliability.GetOr(0.9),
      d.yearlyVolume.GetOr(250.0), d.useCase.GetOr(AdHoc),
      d.valuedParameter.GetOr("Core Logic"), d.parameterWeight.GetOr(1.0))
  }

  /** The yearly value of the asset: per-run savings, discounted by reliability, over the yearly volume. */
  function ComputePRICE(i: PRICEInput): (c: PRICECalculations)
    ensures c.operationalCost == c.aiCost + c.reviewCost
    ensures c.aiCost == i.tokenCost
    ensures c.totalAssetValue
         == (c.humanCost - c.operationalCost) * i.reliability * i.yearlyVolume * i.parameterWeight
    ensures i.reliability == 0.0 || i.yearlyVolume == 0.0 || i.parameterWeight == 0.0
         ==> c.totalAssetValue == 0.0
    ensures c.freelancePrice == 0.15 * c.totalAssetValue
    ensures c.marketplacePrice == 0.02 * c.totalAssetValue
  {
    var humanCost := i.humanTimeMinutes * (i.humanHourlyRate / 60.0);
    var aiCost := i.tokenCost + (i.reviewTimeMinutes * (i.humanHourlyRate / 60.0));
    var netRunSavings := (humanCost - aiCost) * i.reliability;
    var tav := netRunSavings * i.yearlyVolume * i.parameterWeight;
    PRICECalculations(
      humanCost, i.tokenCost, i.reviewTimeMinutes * (i.humanHourlyRate / 60.0), aiCost,
      netRunSavings, tav,
      tav * PRICE_FREELANCE_FEE_PERCENTAGE, tav * PRICE_MARKETPLACE_FEE_PERCENTAGE)
  }

  /** The value is positive exactly when the model is cheaper per run and every multiplier is positive. */
  lemma PriceValuePositive(i: PRICEInput)
    requires i.reliability > 0.0 && i.yearlyVolume > 0.0 && i.parameterWeight > 0.0
    ensures ComputePRICE(i).totalAssetValue > 0.0
        <==> i.humanTimeMinutes * (i.humanHourlyRate / 60.0)
             > i.tokenCost + i.reviewTimeMinutes * (i.humanHourlyRate / 60.0)
  {
    var c := ComputePRICE(i);
    var d := c.humanCost - c.operationalCost;
    var m := i.reliability * i.yearlyVolume * i.parameterWeight;
    assert m > 0.0;
    assert c.totalAssetValue == d * m;
    if d > 0.0 {
      assert d * m > 0.0;
    } else {
      assert d * m <= 0.0;
    }
  }

  // ---------------------------------------------------------------- VECTOR

  function VECTORInputOf(d: ValuationRequest): VECTORInput {
    VECTORInput(
      d.score_constraints.GetOr(4.0), d.score_context.GetOr(3.0), d.score_feasibility.GetOr(4.0),
      d.score_safety.GetOr(0.0), d.human_hourly_rate.GetOr(100.0), d.time_saved_minutes.GetOr(45.0),
      d.annual_volume.GetOr(200.0), 0.0, d.api_cost_per_run.GetOr(0.5))
  }

  /** The geometric mean of the three positive scores, scaled by the safety discount. */
  function VectorQuality(i: VECTORInput, t: Transcendental): real {
    t.cbrt(ScoreProduct(i)) * (1.0 - i.score_safety / 5.0)
  }

  /** Gross time value less the correction labor the unreliable share claws back, less the API fee. */
  function ComputeVECTOR(i: VECTORInput, t: Transcendental): (c: VECTORCalculations)
    ensures c.Q == VectorQuality(i, t)
    ensures c.gross_labor_value == c.gross_total_value == i.time_saved_minutes * (i.human_hourly_rate / 60.0)
    ensures c.correction_cost == VECTOR_CORRECTION_TIME_MULTIPLIER * (1.0 - c.Q) * c.gross_total_value
    ensures c.net_utility == c.gross_total_value - c.correction_cost - i.api_cost_per_run
    ensures c.total_annual_value == c.net_utility * i.annual_volume
    ensures c.freelance_price == 0.15 * c.total_annual_value
    ensures c.marketplace_price == 0.01 * c.total_annual_value
  {
    var q := VectorQuality(i, t);
    var gross := i.time_saved_minutes * (i.human_hourly_rate / 60.0);
    var correction := (i.time_saved_minutes * VECTOR_CORRECTION_TIME_MULTIPLIER) * (1.0 - q) * (i.human_hourly_rate / 60.0);
    var net := gross - correction - i.api_cost_per_run;
    var annual := net * i.annual_volume;
    VECTORCalculations(
      q, gross, gross, correction, net, annual,
      annual * VECTOR_FREELANCE_PRICE_PERCENTAGE, annual * VECTOR_MARKETPLACE_PRICE_PERCENTAGE)
  }

  /** `net_utility > 0 ? "VIABLE ASSET" : "SCRAP ASSET"`. */
  function VectorStatusOf(c: VECTORCalculations): (s: VectorStatus)
    ensures s == ViableAsset <==> c.net_utility > 0.0
  {
    if c.net_utility > 0.0 then ViableAsset else ScrapAsset
  }

  predicate ScoresInRange(i: VECTORInput) {
    && 0.0 <= i.score_constraints <= 5.0 && 0.0 <= i.score_context <= 5.0
    && 0.0 <= i.score_feasibility <= 5.0 && 0.0 <= i.score_safety <= 5.0
  }

  /** The product of the three positive scores on the 0..1 scale. */
  function ScoreProduct(i: VECTORInput): real {
    (i.score_constraints / 5.0) * (i.score_context / 5.0) * (i.score_feasibility / 5.0)
  }

  lemma ZeroFactor(a: real, b: real, c: real)
    requires a == 0.0 || b == 0.0 || c == 0.0
    ensures a * b * c == 0.0
  {
  }

  /** The weakest link: a zero in any positive score zeroes the quality. */
  lemma VectorWeakestLink(i: VECTORInput, t: Transcendental)
    requires Sound(t)
    requires i.score_constraints == 0.0 || i.score_context == 0.0 || i.score_feasibility == 0.0
    ensures VectorQuality(i, t) == 0.0
  {
    ZeroFactor(i.score_constraints / 5.0, i.score_context / 5.0, i.score_feasibility / 5.0);
    assert t.cbrt(ScoreProduct(i)) == 0.0;
  }

  lemma ProductInUnit(a: real, b: real, c: real)
    requires 0.0 <= a <= 1.0 && 0.0 <= b <= 1.0 && 0.0 <= c <= 1.0
    ensures 0.0 <= a * b * c <= 1.0
  {
    MulFraction(a, b);
    MulFraction(a * b, c);
  }

  /** For scores on the 0..5 scale the quality is a fraction. */
  lemma VectorQualityInUnit(i: VECTORInput, t: Transcendental)
    requires Sound(t) && ScoresInRange(i)
    ensures 0.0 <= VectorQuality(i, t) <= 1.0
  {
    ProductInUnit(i.score_constraints / 5.0, i.score_context / 5.0, i.score_feasibility / 5.0);
    var g := t.cbrt(ScoreProduct(i));
    assert 0.0 <= g <= 1.0;
    MulFraction(1.0 - i.score_safety / 5.0, g);
  }

  /** Correction never claws back more than the multiplier's share of the gross value. */
  lemma VectorCorrectionBounded(i: VECTORInput, t: Transcendental)
    requires Sound(t) && ScoresInRange(i)
    requires i.time_saved_minutes >= 0.0 && i.human_hourly_rate >= 0.0
    ensures var c := ComputeVECTOR(i, t);
      0.0 <= c.correction_cost <= VECTOR_CORRECTION_TIME_MULTIPLIER * c.gross_total_value
  {
    VectorQualityInUnit(i, t);
    var c := ComputeVECTOR(i, t);
    var g := c.gross_total_value;
    assert g >= 0.0;
    MulFraction(1.0 - c.Q, g);
  }

  /**
   * Zero quality is not scrap: with constraints and context at 5, no
   * feasibility and the remaining defaults, the full correction is still
   * cheaper than the time saved.
   */
  lemma VectorViableAtZeroQuality(t: Transcendental)
    requires Sound(t)
    ensures var i := VECTORInput(5.0, 5.0, 0.0, 0.0, 100.0, 45.0, 200.0, 0.0, 0.5);
      var c := ComputeVECTOR(i, t);
      c.Q == 0.0 && c.net_utility == 29.5 && VectorStatusOf(c) == ViableAsset
  {
    var i := VECTORInput(5.0, 5.0, 0.0, 0.0, 100.0, 45.0, 200.0, 0.0, 0.5);
    VectorWeakestLink(i, t);
  }

  // ---------------------------------------------------------------- PVC

  /** `Math.floor(length / 4)`. */
  function TokenCount(promptLength: nat): (n: nat)
    ensures 4 * n <= promptLength < 4 * n + 4
  {
    promptLength / 4
  }

  function Normalize(s: PVCRawScores): PVCNormalizedScores {
    PVCNormalizedScores(s.G_r / 4.0, s.C_r / 4.0, s.S_r / 4.0, s.D_r / 4.0, s.F_r / 4.0, s.A_r / 4.0, s.R_r / 4.0)
  }

  /** The length penalty: linear below the minimum, linear and capped above the optimum. */
  function LengthNorm(tokenCount: nat): (l: real)
    ensures 0.0 <= l <= 1.0
    ensures l == 0.0 <==> PVC_T_MIN <= tokenCount <= PVC_T_OPT
  {
    if tokenCount < PVC_T_MIN then (PVC_T_MIN - tokenCount) as real / PVC_T_MIN as real
    else if tokenCount > PVC_T_OPT then
      Min((tokenCount - PVC_T_OPT) as real / (PVC_T_MAX - PVC_T_OPT) as real, 1.0)
    else 0.0
  }

  /** The weighted quality of the five positive dimensions, out of 100. */
  function BaseQuality(n: PVCNormalizedScores): real {
    100.0 * (n.G * PVC_WEIGHT_G + n.C * PVC_WEIGHT_C + n.S * PVC_WEIGHT_S + n.D * PVC_WEIGHT_D + n.F * PVC_WEIGHT_F)
  }

  /** The ambiguity penalty factor `(1 - 0.8·A)^1.2`. */
  function AmbiguityFactor(n: PVCNormalizedScores, t: Transcendental): real {
    t.pow12(1.0 - PVC_PENALTY_A * n.A)
  }

  /** The risk penalty factor `1 - R`. */
  function RiskFactor(n: PVCNormalizedScores): real {
    1.0 - PVC_PENALTY_R * n.R
  }

  /** The length penalty factor `1 - 0.3·lNorm`. */
  function LengthFactor(lNorm: real): real {
    1.0 - PVC_PENALTY_L * lNorm
  }

  /** The penalised quality after the length penalty, kept within [0, 100]. */
  function FinalScore(qPen: real, lNorm: real): (f: real)
    ensures 0.0 <= f <= 100.0
  {
    Clamp(qPen * LengthFactor(lNorm), 0.0, 100.0)
  }

  function ComputePVC(s: PVCRawScores, promptLength: nat, t: Transcendental): (c: PVCCalculations)
    ensures c.baseQ == BaseQuality(Normalize(s))
    ensures c.qPen == c.baseQ * AmbiguityFactor(Normalize(s), t) * RiskFactor(Normalize(s))
    ensures c.lNorm == LengthNorm(TokenCount(promptLength))
    ensures c.finalScore == FinalScore(c.qPen, c.lNorm)
  {
    var n := Normalize(s);
    var baseQ := BaseQuality(n);
    var qPen := baseQ * AmbiguityFactor(n, t) * RiskFactor(n);
    var lNorm := LengthNorm(TokenCount(promptLength));
    PVCCalculations(baseQ, qPen, lNorm, FinalScore(qPen, lNorm))
  }

  predicate RawScoresInRange(s: PVCRawScores) {
    && 0.0 <= s.G_r <= 4.0 && 0.0 <= s.C_r <= 4.0 && 0.0 <= s.S_r <= 4.0 && 0.0 <= s.D_r <= 4.0
    && 0.0 <= s.F_r <= 4.0 && 0.0 <= s.A_r <= 4.0 && 0.0 <= s.R_r <= 4.0
  }

  /** The weights sum to one, so the base quality of in-range scores is out of 100. */
  lemma BaseQualityInRange(s: PVCRawScores)
    requires RawScoresInRange(s)
    ensures 0.0 <= BaseQuality(Normalize(s)) <= 100.0
    ensures s.G_r == 4.0 && s.C_r == 4.0 && s.S_r == 4.0 && s.D_r == 4.0 && s.F_r == 4.0
        ==> BaseQuality(Normalize(s)) == 100.0
  {
    PvcWeightsSumToOne();
  }

  lemma ClampAtMost(x: real, y: real)
    requires x <= y && 0.0 <= y
    ensures Clamp(x, 0.0, 100.0) <= y
  {
  }

  lemma PenaltyChain(b: real, a: real, r: real, f: real)
    requires b >= 0.0 && 0.0 <= a <= 1.0 && 0.0 <= r <= 1.0 && 0.0 <= f <= 1.0
    ensures 0.0 <= b * a * r <= b
    ensures b * a * r * f <= b * a * r
  {
    MulFraction(a, b);
    assert b * a == a * b;
    MulFraction(r, b * a);
    assert b * a * r == r * (b * a);
    MulFraction(f, b * a * r);
    assert b * a * r * f == f * (b * a * r);
  }

  /** The penalised quality of a report whose penalty factors are fractions. */
  lemma PenalisedWithinBase(c: PVCCalculations, a: real, r: real)
    requires 0.0 <= c.baseQ && 0.0 <= a <= 1.0 && 0.0 <= r <= 1.0
    requires c.qPen == c.baseQ * a * r
    ensures 0.0 <= c.qPen <= c.baseQ
    ensures a == 1.0 && r == 1.0 ==> c.qPen == c.baseQ
  {
    PenaltyChain(c.baseQ, a, r, 0.0);
  }

  /** The ambiguity and risk penalties only ever lower the base quality. */
  lemma PenaltiesOnlyReduce(s: PVCRawScores, promptLength: nat, t: Transcendental)
    requires Sound(t) && RawScoresInRange(s)
    ensures 0.0 <= ComputePVC(s, promptLength, t).qPen <= ComputePVC(s, promptLength, t).baseQ
  {
    var c := ComputePVC(s, promptLength, t);
    BaseQualityInRange(s);
    FactorsInUnit(s, t);
    PenalisedWithinBase(c, AmbiguityFactor(Normalize(s), t), RiskFactor(Normalize(s)));
  }

  /** Both multiplicative penalty factors are fractions for in-range scores. */
  lemma FactorsInUnit(s: PVCRawScores, t: Transcendental)
    requires Sound(t) && RawScoresInRange(s)
    ensures 0.0 <= AmbiguityFactor(Normalize(s), t) <= 1.0
    ensures 0.0 <= RiskFactor(Normalize(s)) <= 1.0
  {
  }

  /** The length penalty only ever lowers the penalised quality. */
  lemma LengthPenaltyOnlyReduces(s: PVCRawScores, promptLength: nat, t: Transcendental)
    requires Sound(t) && RawScoresInRange(s)
    ensures ComputePVC(s, promptLength, t).finalScore <= ComputePVC(s, promptLength, t).qPen
  {
    var c := ComputePVC(s, promptLength, t);
    PenaltiesOnlyReduce(s, promptLength, t);
    FinalWithinPenalised(c.qPen, c.lNorm);
  }

  lemma FinalWithinPenalised(qPen: real, lNorm: real)
    requires 0.0 <= qPen && 0.0 <= lNorm <= 1.0
    ensures FinalScore(qPen, lNorm) <= qPen
  {
    ScaleBelow(qPen, LengthFactor(lNorm), qPen);
    ClampAtMost(qPen * LengthFactor(lNorm), qPen);
  }

  /** A prompt perfect on every dimension, unambiguous, riskless and of optimal length scores 100. */
  lemma PerfectPromptScoresFull(promptLength: nat, t: Transcendental)
    requires Sound(t) && 4 * PVC_T_MIN <= promptLength < 4 * PVC_T_OPT + 4
    ensures ComputePVC(PVCRawScores(4.0, 4.0, 4.0, 4.0, 4.0, 0.0, 0.0, ""), promptLength, t).finalScore == 100.0
  {
    var s := PVCRawScores(4.0, 4.0, 4.0, 4.0, 4.0, 0.0, 0.0, "");
    var c := ComputePVC(s, promptLength, t);
    assert c.baseQ == 100.0 by {
      BaseQualityInRange(s);
    }
    assert AmbiguityFactor(Normalize(s), t) == 1.0;
    assert RiskFactor(Normalize(s)) == 1.0;
    PenalisedWithinBase(c, 1.0, 1.0);
    assert c.lNorm == 0.0;
  }

  // ---------------------------------------------------------------- SCOPE

  predicate SCOPEDefined(v: SCOPEVariables) {
    1.0 + v.E != 0.0
  }

  /** The weighted structure, hardness and density. */
  function SignalWeight(v: SCOPEVariables): real {
    v.S * SCOPE_WEIGHT_S + v.H * SCOPE_WEIGHT_H + v.D * SCOPE_WEIGHT_D
  }

  /**
   * The prompt value index: weighted signal over squared entropy, scaled by
   * efficiency. Dividing twice by `1 + E` is dividing once by its square.
   */
  function PVI(v: SCOPEVariables): (pvi: real)
    requires SCOPEDefined(v)
    ensures v.Teff == 0.0 ==> pvi == 0.0
    ensures VariablesInUnit(v) ==> 0.0 <= pvi <= 4.0
  {
    IndexBounds(v);
    (SignalWeight(v) / (1.0 + v.E) / (1.0 + v.E)) * v.Teff
  }

  predicate VariablesInUnit(v: SCOPEVariables) {
    && 0.0 <= v.S <= 1.0 && 0.0 <= v.H <= 1.0 && 0.0 <= v.D <= 1.0
    && 0.0 <= v.E <= 1.0 && 0.0 <= v.Teff <= 1.0
  }

  lemma DivideByAtLeastOne(num: real, den: real)
    requires num >= 0.0 && den >= 1.0
    ensures 0.0 <= num / den <= num
  {
    MulFraction(1.0 / den, num);
  }

  /** Dividing twice by `1 + E` never enlarges a non-negative weight. */
  lemma DivideTwice(num: real, e: real)
    requires 0.0 <= num && 0.0 <= e
    ensures 0.0 <= num / (1.0 + e) / (1.0 + e) <= num
  {
    DivideByAtLeastOne(num, 1.0 + e);
    DivideByAtLeastOne(num / (1.0 + e), 1.0 + e);
  }

  /** With every variable a fraction the index lies in [0, 4]. */
  lemma IndexBounds(v: SCOPEVariables)
    requires SCOPEDefined(v)
    ensures VariablesInUnit(v) ==> 0.0 <= (SignalWeight(v) / (1.0 + v.E) / (1.0 + v.E)) * v.Teff <= 4.0
  {
    if VariablesInUnit(v) {
      DivideTwice(SignalWeight(v), v.E);
      ScaleBelow(SignalWeight(v) / (1.0 + v.E) / (1.0 + v.E), v.Teff, 4.0);
    }
  }

  /** The upper bound 4 is reached at perfect structure, hardness, density and efficiency with no entropy. */
  lemma PVIMaximum()
    ensures PVI(SCOPEVariables(1.0, 1.0, 1.0, 0.0, 1.0)) == 4.0
  {
  }
}
