/**
 * The older, unimported copy of the pre-fill engine
 * (components/SmartAnalayzer.tsx). Its reading of the prompt and its
 * estimates match the current engine's, minus the valued parameter and the
 * parameter weight; its PRICE preview carries no weight.
 */
module LegacyAnalyzer {
  import opened Wrappers
  import opened Numerics
  import S = SmartAnalyzer

  /** The older estimate record: no valued parameter, no parameter weight. */
  datatype LegacyEstimates = LegacyEstimates(
    hourlyWage: real,
    typingWPM: real,
    estimatedOutputChars: real,
    estimatedLatency: real,
    estimatedReviewTime: real,
    estimatedFixTime: real,
    apiCostPer1k: real,
    actualEditTime: real,
    yearlyVolume: real,
    reliabilityScore: real,
    constraintScore: real,
    contextScore: real,
    feasibilityScore: real,
    safetyFactor: real)

  /** The current record with the two newer fields dropped. */
  function Narrow(e: S.EstimatedValues): LegacyEstimates {
    LegacyEstimates(
      e.hourlyWage, e.typingWPM, e.estimatedOutputChars, e.estimatedLatency, e.estimatedReviewTime,
      e.estimatedFixTime, e.apiCostPer1k, e.actualEditTime, e.yearlyVolume, e.reliabilityScore,
      e.constraintScore, e.contextScore, e.feasibilityScore, e.safetyFactor)
  }

  /** The older record read as a current one with no valued parameter and unit weight. */
  function Widen(l: LegacyEstimates): S.EstimatedValues {
    S.EstimatedValues(
      l.hourlyWage, l.typingWPM, l.estimatedOutputChars, l.estimatedLatency, l.estimatedReviewTime,
      l.estimatedFixTime, l.apiCostPer1k, l.actualEditTime, l.yearlyVolume, l.reliabilityScore,
      "", 1.0, l.constraintScore, l.contextScore, l.feasibilityScore, l.safetyFactor)
  }

  /**
   * The older reading of the prompt. Its example test also accepts a quoted
   * run of ten or more characters; that test is part of `exampleCue` here,
   * so for the same findings it reads the prompt as the current heuristic does.
   */
  method AnalyzePrompt(f: S.PromptFeatures) returns (a: S.PromptAnalysis)
    ensures a == S.HeuristicAnalysis(f)
  {
    var complexityLevel := S.Simple;
    if f.wordCount > 100 || f.hardConstraintMatches > 3 {
      complexityLevel := S.Complex;
    } else if f.wordCount > 30 || f.hardConstraintMatches > 1 {
      complexityLevel := S.Moderate;
    }
    var estimatedOutputLength := S.Medium;
    if f.briefCue {
      estimatedOutputLength := S.Short;
    } else if f.detailedCue {
      estimatedOutputLength := S.Long;
    }
    var taskType := S.Analytical;
    if f.creativeCue {
      taskType := S.Creative;
    } else if f.technicalCue {
      taskType := S.Technical;
    } else if f.conversationalCue {
      taskType := S.Conversational;
    }
    var isRepeatable := f.repeatCue || taskType == S.Technical || taskType == S.Conversational;
    var hasContext := f.contextCue || f.wordCount > 50;
    a := S.PromptAnalysis(
      f.charCount, f.wordCount, f.hardConstraintMatches > 0, f.hardConstraintMatches,
      f.softConstraintCue, f.outputFormatCue, f.exampleCue, hasContext,
      complexityLevel, estimatedOutputLength, taskType, isRepeatable);
  }

  /** The older estimator: the current estimates without the two newer fields. */
  method GenerateEstimates(a: S.PromptAnalysis) returns (e: LegacyEstimates)
    ensures e == Narrow(S.Estimates(a))
  {
    var baseFixTime := if a.hasHardConstraints then 2.0 else 5.0;
    var fixTimeReduction := Min(a.hardConstraintCount as real * 0.5, 3.0);
    var yearlyVolume := 50.0;
    if a.isRepeatable {
      if a.taskType == S.Conversational {
        yearlyVolume := 5000.0;
      } else if a.taskType == S.Technical {
        yearlyVolume := 500.0;
      } else {
        yearlyVolume := 200.0;
      }
    }
    var reliabilityScore := 0.6;
    if a.hasHardConstraints {
      reliabilityScore := reliabilityScore + 0.15;
    }
    if a.hasOutputFormat {
      reliabilityScore := reliabilityScore + 0.1;
    }
    if a.hasExamples {
      reliabilityScore := reliabilityScore + 0.1;
    }
    if a.hasContext {
      reliabilityScore := reliabilityScore + 0.05;
    }
    reliabilityScore := Min(reliabilityScore, 0.98);
    var constraintScore := Min(0.3 + a.hardConstraintCount as real * 0.15, 1.0);
    var contextScore := if a.hasContext then 0.85 else 0.5;
    var feasibilityScore := S.FeasibilityOf(a.complexityLevel);
    e := LegacyEstimates(
      S.WageByTask(a.taskType), 45.0, S.OutputChars(a.estimatedOutputLength),
      S.LatencyByComplexity(a.complexityLevel), S.ReviewByOutput(a.estimatedOutputLength),
      Max(baseFixTime - fixTimeReduction, 1.0), 0.02, Max(baseFixTime - fixTimeReduction + 1.0, 2.0),
      yearlyVolume, reliabilityScore, constraintScore, contextScore, feasibilityScore, 0.95);
  }

  function ManualCost(e: LegacyEstimates): real
    requires e.typingWPM != 0.0
  {
    (e.estimatedOutputChars / 5.0 / e.typingWPM / 60.0) * e.hourlyWage
  }

  function AICost(e: LegacyEstimates): real {
    var aiTime := (e.estimatedLatency / 60.0) + e.estimatedReviewTime + e.estimatedFixTime;
    (aiTime / 60.0) * e.hourlyWage + (e.estimatedOutputChars / 1000.0) * e.apiCostPer1k
  }

  /** Manual typing cost against model cost, each shown to the cent. */
  function CalculateDLA(e: Option<LegacyEstimates>): (r: Option<S.DLAPreview>)
    requires e.Some? ==> e.value.typingWPM != 0.0
    ensures r.Some? <==> e.Some?
    ensures r.Some? ==> r.value.manualCost == ToFixed(ManualCost(e.value), 2) &&
                        r.value.aiCost == ToFixed(AICost(e.value), 2)
    ensures r.Some? ==> r.value.netSavings == ToFixed(ManualCost(e.value) - AICost(e.value), 2)
    ensures r.Some? ==> (r.value.isProfitable <==> ManualCost(e.value) > AICost(e.value))
  {
    match e
    case None => None
    case Some(est) =>
      var manual := ManualCost(est);
      var ai := AICost(est);
      Some(S.DLAPreview(ToFixed(manual, 2), ToFixed(ai, 2), ToFixed(manual - ai, 2), manual > ai))
  }

  /** A net saving per run scaled by volume and reliability. */
  function AssetValue(net: real, e: LegacyEstimates): real {
    net * e.yearlyVolume * e.reliabilityScore
  }

  /** The rounded net saving per run, scaled by volume and reliability only. */
  function CalculatePRICE(e: Option<LegacyEstimates>): (r: Option<S.PRICEPreview>)
    requires e.Some? ==> e.value.typingWPM != 0.0
    ensures r.Some? <==> e.Some?
    ensures r.Some? ==>
      var tav := AssetValue(CalculateDLA(e).value.netSavings, e.value);
      r.value.tav == ToFixed(tav, 0) && r.value.freelancePrice == ToFixed(tav * 0.15, 0) &&
      r.value.marketplacePrice == ToFixed(tav * 0.02, 0)
  {
    match CalculateDLA(e)
    case None => None
    case Some(dla) =>
      var tav := AssetValue(dla.netSavings, e.value);
      Some(S.PRICEPreview(ToFixed(tav, 0), ToFixed(tav * 0.15, 0), ToFixed(tav * 0.02, 0)))
  }

  function ScoreProduct(e: LegacyEstimates): real {
    e.constraintScore * e.contextScore * e.feasibilityScore
  }

  function Quality(e: LegacyEstimates, t: Transcendental): real {
    Cbrt(t, ScoreProduct(e)) * e.safetyFactor
  }

  /** The geometric-mean quality with its verdict. */
  function CalculateVECTOR(e: Option<LegacyEstimates>, t: Transcendental): (r: Option<S.VECTORPreview>)
    ensures r.Some? <==> e.Some?
    ensures r.Some? ==>
      var q := Quality(e.value, t);
      r.value.qScore == ToFixed(q, 2) && (r.value.isViable <==> q >= 0.5) &&
      (r.value.verdict == S.ProductionReady <==> q >= 0.7) && (r.value.verdict == S.Scrap <==> q < 0.5)
  {
    match e
    case None => None
    case Some(est) =>
      var q := Quality(est, t);
      var verdict := if q >= 0.7 then S.ProductionReady else if q >= 0.5 then S.NeedsReview else S.Scrap;
      Some(S.VECTORPreview(ToFixed(q, 2), q >= 0.5, verdict))
  }

  // ---------------------------------------------------------------- agreement with the current engine

  /** Narrowing a widened record gives it back. */
  lemma NarrowWiden(l: LegacyEstimates)
    ensures Narrow(Widen(l)) == l
  {
  }

  /** The older DLA preview is the current one. */
  lemma DLAAgrees(l: LegacyEstimates)
    requires l.typingWPM != 0.0
    ensures CalculateDLA(Some(l)) == S.CalculateDLA(Some(Widen(l)))
  {
    var w := Widen(l);
    assert ManualCost(l) == S.ManualCost(w);
    assert AICost(l) == S.AICost(w);
  }

  /** The older PRICE preview is the current one at unit parameter weight. */
  lemma PRICEAgrees(l: LegacyEstimates)
    requires l.typingWPM != 0.0
    ensures CalculatePRICE(Some(l)) == S.CalculatePRICE(Some(Widen(l)))
  {
    DLAAgrees(l);
    AssetValueWiden(CalculateDLA(Some(l)).value.netSavings, l);
  }

  lemma AssetValueWiden(net: real, l: LegacyEstimates)
    ensures AssetValue(net, l) == S.AssetValue(net, Widen(l))
  {
    assert Widen(l).parameterWeight == 1.0;
  }

  /** The older VECTOR preview is the current one. */
  lemma VECTORAgrees(l: LegacyEstimates, t: Transcendental)
    ensures CalculateVECTOR(Some(l), t) == S.CalculateVECTOR(Some(Widen(l)), t)
  {
    assert ScoreProduct(l) == S.ScoreProduct(Widen(l));
    assert Quality(l, t) == S.PreviewQuality(Widen(l), t);
  }

  /**
   * The older estimates keep the current bounds: a fix time of at least a
   * minute, an edit time of at least two, reliability within [0.6, 0.98], and
   * a volume of 50 unless repeatable, else 5000, 500 or 200 by task type.
   */
  lemma LegacyEstimateBounds(a: S.PromptAnalysis)
    ensures var e := Narrow(S.Estimates(a));
      e.estimatedFixTime >= 1.0 && e.actualEditTime >= 2.0 && 0.6 <= e.reliabilityScore <= 0.98 &&
      (e.yearlyVolume == 50.0 <==> !a.isRepeatable) &&
      (a.isRepeatable ==> e.yearlyVolume == (if a.taskType == S.Conversational then 5000.0
                                             else if a.taskType == S.Technical then 500.0 else 200.0))
  {
    S.FixAndEditTimes(a);
    S.ReliabilityBounds(a);
    S.VolumeCases(a);
  }
}
