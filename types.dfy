/**
 * The shapes of the valuation engine: the request, the six method-specific
 * input and calculation records, badges, and the six-way report union.
 */
module Types {
  import opened Wrappers

  /** The six valuation protocols. */
  datatype Method = DLA | PVC | SCOPE | EAVP | PRICE | VECTOR

  /** A method selection: one protocol, the CORE subset, or ALL six. */
  datatype Selection = Single(protocol: Method) | Core | All

  datatype UseCase = AdHoc | SOP | Pipeline

  datatype Tier = Gold | Silver | Bronze

  datatype Badge = Badge(id: string, name: string, description: string, tier: Tier, icon: string)

  /** The display colour classes shared by the certificate and the multi-report view. */
  datatype Colour = Green | Cyan | Red

  /**
   * The request. Every field but the prompt may be absent (`undefined`);
   * an absent numeric field takes the calculator's default, a present one
   * (zero included) is used as given.
   */
  datatype ValuationRequest = ValuationRequest(
    inputPrompt: string,
    promptTitle: Option<string>,
    // Labor arbitrage (DLA)
    outputCharCount: Option<real>,
    apiLatencySeconds: Option<real>,
    editSessionSeconds: Option<real>,
    apiCostUsd: Option<real>,
    humanWpm: Option<real>,
    humanReadingWpm: Option<real>,
    hourlyWage: Option<real>,
    // Empirical verification (EAVP)
    outputChars: Option<real>,
    userWPM: Option<real>,
    editTime: Option<real>,
    regenerations: Option<real>,
    marketRate: Option<real>,
    // Asset pricing (PRICE)
    humanTimeMinutes: Option<real>,
    humanHourlyRate: Option<real>,
    reviewTimeMinutes: Option<real>,
    tokenCost: Option<real>,
    reliability: Option<real>,
    yearlyVolume: Option<real>,
    useCase: Option<UseCase>,
    valuedParameter: Option<string>,
    parameterWeight: Option<real>,
    // Viability vector (VECTOR)
    score_constraints: Option<real>,
    score_context: Option<real>,
    score_feasibility: Option<real>,
    score_safety: Option<real>,
    human_hourly_rate: Option<real>,
    time_saved_minutes: Option<real>,
    annual_volume: Option<real>,
    api_cost_per_run: Option<real>
  )

  // ---- DLA ----
  datatype DLAInput = DLAInput(
    outputCharCount: real, apiLatencySeconds: real, editSessionSeconds: real, apiCostUsd: real,
    humanWpm: real, humanReadingWpm: real, hourlyWage: real)

  datatype DLACalculations = DLACalculations(
    grossLaborValue: real, hiddenFrictionCost: real, trueNetValue: real, isProfitable: bool,
    manualMinutes: real, waitCost: real, readingCost: real, fixingCost: real, arbitrageEfficiency: real)

  // ---- PVC ----
  /** The external scorer's seven 0..4 judgments (not validated by the engine). */
  datatype PVCRawScores = PVCRawScores(
    G_r: real, C_r: real, S_r: real, D_r: real, F_r: real, A_r: real, R_r: real, reasoning: string)

  datatype PVCNormalizedScores = PVCNormalizedScores(G: real, C: real, S: real, D: real, F: real, A: real, R: real)

  datatype PVCCalculations = PVCCalculations(baseQ: real, qPen: real, lNorm: real, finalScore: real)

  // ---- SCOPE ----
  /** The external scorer's five 0..1 judgments (not validated by the engine). */
  datatype SCOPEVariables = SCOPEVariables(S: real, H: real, D: real, E: real, Teff: real)

  // ---- EAVP ----
  datatype EAVPInput = EAVPInput(outputChars: real, userWPM: real, editTime: real, regenerations: real, marketRate: real)

  datatype EAVPCalculations = EAVPCalculations(
    manualCreationMinutes: real, correctionTaxMinutes: real, netMinutesSaved: real,
    auditedValue: real, grossLaborValue: real, correctionCost: real)

  // ---- PRICE ----
  datatype PRICEInput = PRICEInput(
    humanTimeMinutes: real, humanHourlyRate: real, reviewTimeMinutes: real, tokenCost: real,
    reliability: real, yearlyVolume: real, useCase: UseCase, valuedParameter: string, parameterWeight: real)

  datatype PRICECalculations = PRICECalculations(
    humanCost: real, aiCost: real, reviewCost: real, operationalCost: real,
    netRunSavings: real, totalAssetValue: real, freelancePrice: real, marketplacePrice: real)

  // ---- VECTOR ----
  datatype VECTORInput = VECTORInput(
    score_constraints: real, score_context: real, score_feasibility: real, score_safety: real,
    human_hourly_rate: real, time_saved_minutes: real, annual_volume: real,
    revenue_lift_per_run: real, api_cost_per_run: real)

  datatype VECTORCalculations = VECTORCalculations(
    Q: real, gross_labor_value: real, gross_total_value: real, correction_cost: real,
    net_utility: real, total_annual_value: real, freelance_price: real, marketplace_price: real)

  datatype VectorStatus = ViableAsset | ScrapAsset

  /**
   * A report: one variant per protocol. The timestamp and the random
   * watermark are not part of the model.
   */
  datatype Report =
    | DLAReport(inputPrompt: string, promptTitle: Option<string>, dlaInput: DLAInput,
                dla: DLACalculations, accolades: seq<Badge>)
    | PVCReport(inputPrompt: string, promptTitle: Option<string>, rawScores: PVCRawScores,
                normalizedScores: PVCNormalizedScores, pvc: PVCCalculations, tokenCount: int,
                accolades: seq<Badge>)
    | SCOPEReport(inputPrompt: string, promptTitle: Option<string>, variables: SCOPEVariables,
                  pvi: real, accolades: seq<Badge>)
    | EAVPReport(inputPrompt: string, promptTitle: Option<string>, eavpInput: EAVPInput,
                 eavp: EAVPCalculations, accolades: seq<Badge>)
    | PRICEReport(inputPrompt: string, promptTitle: Option<string>, priceInput: PRICEInput,
                  price: PRICECalculations, accolades: seq<Badge>)
    | VECTORReport(inputPrompt: string, promptTitle: Option<string>, vectorInput: VECTORInput,
                   vector: VECTORCalculations, status: VectorStatus, reason: Option<string>,
                   accolades: seq<Badge>)
  {
    /** The report's `method` tag. */
    function Method(): Method {
      match this
      case DLAReport(_, _, _, _, _) => DLA
      case PVCReport(_, _, _, _, _, _, _) => PVC
      case SCOPEReport(_, _, _, _, _) => SCOPE
      case EAVPReport(_, _, _, _, _) => EAVP
      case PRICEReport(_, _, _, _, _) => PRICE
      case VECTORReport(_, _, _, _, _, _, _) => VECTOR
    }
  }

  /** The canonical display and batch order DLA, PVC, SCOPE, EAVP, PRICE, VECTOR. */
  function MethodRank(m: Method): nat {
    match m
    case DLA => 0
    case PVC => 1
    case SCOPE => 2
    case EAVP => 3
    case PRICE => 4
    case VECTOR => 5
  }

  function TierRank(t: Tier): nat {
    match t
    case Gold => 0
    case Silver => 1
    case Bronze => 2
  }
}
