/**
 * The engine's configuration tables: per-protocol constants, the PRICE
 * use-case benchmarks, the industry volume multipliers and the fixed badge
 * catalog.
 */
module Config {
  import opened Types
  import opened Wrappers

  // Labor arbitrage
  const DLA_CHARS_PER_WORD: real := 5.0

  // Prompt quality: dimension weights, penalty strengths and the token-length band
  const PVC_WEIGHT_G: real := 0.35
  const PVC_WEIGHT_C: real := 0.15
  const PVC_WEIGHT_S: real := 0.20
  const PVC_WEIGHT_D: real := 0.15
  const PVC_WEIGHT_F: real := 0.15
  const PVC_PENALTY_A: real := 0.8
  const PVC_PENALTY_R: real := 1.0
  const PVC_PENALTY_L: real := 0.3
  const PVC_T_MIN: int := 40
  const PVC_T_OPT: int := 250
  const PVC_T_MAX: int := 2000

  // Semantic density
  const SCOPE_WEIGHT_S: real := 1.0
  const SCOPE_WEIGHT_H: real := 2.0
  const SCOPE_WEIGHT_D: real := 1.0

  // Empirical verification
  const EAVP_CHARS_PER_WORD: real := 5.0
  const EAVP_REGENERATION_PENALTY_MINUTES: real := 2.0

  // Asset pricing
  const PRICE_FREELANCE_FEE_PERCENTAGE: real := 0.15
  const PRICE_MARKETPLACE_FEE_PERCENTAGE: real := 0.02

  // Viability vector
  const VECTOR_CORRECTION_TIME_MULTIPLIER: real := 0.6
  const VECTOR_FREELANCE_PRICE_PERCENTAGE: real := 0.15
  const VECTOR_MARKETPLACE_PRICE_PERCENTAGE: real := 0.01

  const INDUSTRIES: seq<string> := [
    "Marketing & Copywriting", "Legal & Compliance", "Software Development",
    "Healthcare & Biotech", "Finance & Banking", "Education & EdTech",
    "Customer Support", "Business Strategy", "Other"]

  const INDUSTRY_VOLUME_MULTIPLIERS: map<string, real> := map[
    "Marketing & Copywriting" := 1.5,
    "Legal & Compliance" := 0.8,
    "Software Development" := 2.0,
    "Healthcare & Biotech" := 0.9,
    "Finance & Banking" := 1.2,
    "Education & EdTech" := 1.1,
    "Customer Support" := 5.0,
    "Business Strategy" := 0.7,
    "Other" := 1.0]

  const PRICE_USE_CASES: seq<UseCase> := [AdHoc, SOP, Pipeline]

  function UseCaseName(u: UseCase): string {
    match u
    case AdHoc => "Ad-hoc"
    case SOP => "SOP"
    case Pipeline => "Pipeline"
  }

  /** The yearly-volume benchmark of a use case. */
  function UseCaseBenchmark(u: UseCase): real {
    match u
    case AdHoc => 1.0
    case SOP => 200.0
    case Pipeline => 5000.0
  }

  /** The keys of the badge catalog, one per badge. */
  datatype BadgeKey =
    | NeuralAlchemist | BulletproofLogic | RoiTitan | SemanticLegend
    | PrecisionEngineer | SignalMaestro | MarketDisruptor | StructuredPro
    | SafeHarbor | FeasibilityVerified | EfficiencyBoost | CleanSignal

  /** The catalog's keys in declaration order. */
  const ACCOLADE_KEYS: seq<BadgeKey> := [
    NeuralAlchemist, BulletproofLogic, RoiTitan, SemanticLegend,
    PrecisionEngineer, SignalMaestro, MarketDisruptor, StructuredPro,
    SafeHarbor, FeasibilityVerified, EfficiencyBoost, CleanSignal]

  /** The key's position in the catalog's declaration order. */
  function CatalogIndex(k: BadgeKey): nat {
    match k
    case NeuralAlchemist => 0
    case BulletproofLogic => 1
    case RoiTitan => 2
    case SemanticLegend => 3
    case PrecisionEngineer => 4
    case SignalMaestro => 5
    case MarketDisruptor => 6
    case StructuredPro => 7
    case SafeHarbor => 8
    case FeasibilityVerified => 9
    case EfficiencyBoost => 10
    case CleanSignal => 11
  }

  function KeyName(k: BadgeKey): string {
    match k
    case NeuralAlchemist => "NEURAL_ALCHEMIST"
    case BulletproofLogic => "BULLETPROOF_LOGIC"
    case RoiTitan => "ROI_TITAN"
    case SemanticLegend => "SEMANTIC_LEGEND"
    case PrecisionEngineer => "PRECISION_ENGINEER"
    case SignalMaestro => "SIGNAL_MAESTRO"
    case MarketDisruptor => "MARKET_DISRUPTOR"
    case StructuredPro => "STRUCTURED_PRO"
    case SafeHarbor => "SAFE_HARBOR"
    case FeasibilityVerified => "FEASIBILITY_VERIFIED"
    case EfficiencyBoost => "EFFICIENCY_BOOST"
    case CleanSignal => "CLEAN_SIGNAL"
  }

  function BadgeTitle(k: BadgeKey): string {
    match k
    case NeuralAlchemist => "Neural Alchemist"
    case BulletproofLogic => "Bulletproof Logic"
    case RoiTitan => "ROI Titan"
    case SemanticLegend => "Semantic Legend"
    case PrecisionEngineer => "Precision Engineer"
    case SignalMaestro => "Signal Maestro"
    case MarketDisruptor => "Market Disruptor"
    case StructuredPro => "Structured Pro"
    case SafeHarbor => "Safe Harbor"
    case FeasibilityVerified => "Feasibility Verified"
    case EfficiencyBoost => "Efficiency Boost"
    case CleanSignal => "Clean Signal"
  }



  function BadgeDescription(k: BadgeKey): string {
    match k
    case NeuralAlchemist => "PVC Score > 98. Absolute mastery of neural logic and instruction transmutation."
    case BulletproofLogic => "VECTOR Q-Score > 0.95. Verified for high-stakes mission-critical production."
    case RoiTitan => "DLA Net Profit > $50/run. Significant economic displacement verified."
    case SemanticLegend => "SCOPE PVI > 2.5. Extreme information density and architectural perfection."
    case PrecisionEngineer => "PVC Goal Clarity = 4. Zero ambiguity in objective definition."
    case SignalMaestro => "SCOPE Token Efficiency > 0.9. Extreme semantic density with near-zero filler."
    case MarketDisruptor => "PRICE TAV > $50,000. High-value IP asset for enterprise workflows."
    case StructuredPro => "PVC Structure Score = 4. Perfect use of semantic delimiters."
    case SafeHarbor => "Risk Score = 0. Asset is clean, compliant, and verified safe."
    case FeasibilityVerified => "Feasibility Score = 4. Perfectly aligned with LLM capabilities."
    case EfficiencyBoost => "EAVP Efficiency > 50%. Massive verified time-savings."
    case CleanSignal => "SCOPE Entropy < 0.1. Extremely low risk of interpretative drift."
  }

  function BadgeTier(k: BadgeKey): Tier {
    match k
    case NeuralAlchemist => Gold
    case BulletproofLogic => Gold
    case RoiTitan => Gold
    case SemanticLegend => Gold
    case PrecisionEngineer => Silver
    case SignalMaestro => Silver
    case MarketDisruptor => Silver
    case StructuredPro => Silver
    case SafeHarbor => Bronze
    case FeasibilityVerified => Bronze
    case EfficiencyBoost => Bronze
    case CleanSignal => Bronze
  }

  function BadgeIcon(k: BadgeKey): string {
    match k
    case NeuralAlchemist => "Sparkles"
    case BulletproofLogic => "ShieldAlert"
    case RoiTitan => "TrendingUp"
    case SemanticLegend => "Crown"
    case PrecisionEngineer => "Target"
    case SignalMaestro => "Radio"
    case MarketDisruptor => "Zap"
    case StructuredPro => "Layers"
    case SafeHarbor => "ShieldCheck"
    case FeasibilityVerified => "CheckCircle"
    case EfficiencyBoost => "Zap"
    case CleanSignal => "Activity"
  }

  /** `ACCOLADES[k]`: the badge filed under key `k`, whose id is the key's name. */
  function Accolade(k: BadgeKey): Badge {
    Badge(KeyName(k), BadgeTitle(k), BadgeDescription(k), BadgeTier(k), BadgeIcon(k))
  }

  /** The catalog key whose name is `name`, if there is one. */
  function KeyByName(name: string): Option<BadgeKey> {
    if name == "NEURAL_ALCHEMIST" then Some(NeuralAlchemist)
    else if name == "BULLETPROOF_LOGIC" then Some(BulletproofLogic)
    else if name == "ROI_TITAN" then Some(RoiTitan)
    else if name == "SEMANTIC_LEGEND" then Some(SemanticLegend)
    else if name == "PRECISION_ENGINEER" then Some(PrecisionEngineer)
    else if name == "SIGNAL_MAESTRO" then Some(SignalMaestro)
    else if name == "MARKET_DISRUPTOR" then Some(MarketDisruptor)
    else if name == "STRUCTURED_PRO" then Some(StructuredPro)
    else if name == "SAFE_HARBOR" then Some(SafeHarbor)
    else if name == "FEASIBILITY_VERIFIED" then Some(FeasibilityVerified)
    else if name == "EFFICIENCY_BOOST" then Some(EfficiencyBoost)
    else if name == "CLEAN_SIGNAL" then Some(CleanSignal)
    else None
  }

  /** `ACCOLADES[name]` for an arbitrary string: absent unless `name` is a catalog key. */
  function AccoladeByName(name: string): Option<Badge> {
    match KeyByName(name)
    case None => None
    case Some(k) => Some(Accolade(k))
  }

  /** How many of `keys[i..]` belong to tier `t`. */
  function TierSize(keys: seq<BadgeKey>, i: nat, t: Tier): nat
    decreases |keys| - i
  {
    if i >= |keys| then 0
    else (if BadgeTier(keys[i]) == t then 1 else 0) + TierSize(keys, i + 1, t)
  }

  /** The five quality weights add up to exactly one. */
  lemma PvcWeightsSumToOne()
    ensures PVC_WEIGHT_G + PVC_WEIGHT_C + PVC_WEIGHT_S + PVC_WEIGHT_D + PVC_WEIGHT_F == 1.0
  {
  }

  /** The token-length band is ordered, so the upper penalty ramp has a positive width. */
  lemma LengthBandOrdered()
    ensures 0 < PVC_T_MIN < PVC_T_OPT < PVC_T_MAX
    ensures PVC_T_MAX - PVC_T_OPT > 0
  {
  }

  /** The catalog lists twelve keys, each exactly once. */
  lemma CatalogListsEveryKeyOnce()
    ensures |ACCOLADE_KEYS| == 12
    ensures forall k: BadgeKey :: k in ACCOLADE_KEYS
    ensures forall i, j :: 0 <= i < j < |ACCOLADE_KEYS| ==> ACCOLADE_KEYS[i] != ACCOLADE_KEYS[j]
  {
    forall k: BadgeKey ensures k in ACCOLADE_KEYS {
      match k
      case NeuralAlchemist => assert ACCOLADE_KEYS[0] == k;
      case BulletproofLogic => assert ACCOLADE_KEYS[1] == k;
      case RoiTitan => assert ACCOLADE_KEYS[2] == k;
      case SemanticLegend => assert ACCOLADE_KEYS[3] == k;
      case PrecisionEngineer => assert ACCOLADE_KEYS[4] == k;
      case SignalMaestro => assert ACCOLADE_KEYS[5] == k;
      case MarketDisruptor => assert ACCOLADE_KEYS[6] == k;
      case StructuredPro => assert ACCOLADE_KEYS[7] == k;
      case SafeHarbor => assert ACCOLADE_KEYS[8] == k;
      case FeasibilityVerified => assert ACCOLADE_KEYS[9] == k;
      case EfficiencyBoost => assert ACCOLADE_KEYS[10] == k;
      case CleanSignal => assert ACCOLADE_KEYS[11] == k;
    }
  }

  /** Looking a gold key up by its own name finds it. */
  lemma GoldKeyByName(k: BadgeKey)
    requires BadgeTier(k) == Gold
    ensures KeyByName(KeyName(k)) == Some(k)
  {
  }

  /** Looking a silver key up by its own name finds it. */
  lemma SilverKeyByName(k: BadgeKey)
    requires BadgeTier(k) == Silver
    ensures KeyByName(KeyName(k)) == Some(k)
  {
  }

  /** Looking a bronze key up by its own name finds it. */
  lemma BronzeKeyByName(k: BadgeKey)
    requires BadgeTier(k) == Bronze
    ensures KeyByName(KeyName(k)) == Some(k)
  {
  }

  /** Looking a key up by its own name finds it. */
  lemma KeyNameRoundTrip(k: BadgeKey)
    ensures KeyByName(KeyName(k)) == Some(k)
  {
    match BadgeTier(k)
    case Gold => GoldKeyByName(k);
    case Silver => SilverKeyByName(k);
    case Bronze => BronzeKeyByName(k);
  }

  /**
   * `ACCOLADES[b.id] == b` for every badge `b` of the catalog: each badge is
   * filed under its own id.
   */
  lemma LookupById(k: BadgeKey)
    ensures AccoladeByName(Accolade(k).id) == Some(Accolade(k))
  {
    KeyNameRoundTrip(k);
  }

  /** Distinct keys have distinct names, hence distinct badges. */
  lemma AccoladeInjective(k1: BadgeKey, k2: BadgeKey)
    requires k1 != k2
    ensures KeyName(k1) != KeyName(k2)
    ensures Accolade(k1) != Accolade(k2)
  {
    KeyNameRoundTrip(k1);
    KeyNameRoundTrip(k2);
  }

  /** The catalog's keys, spelled out. */
  lemma CatalogKeys()
    ensures ACCOLADE_KEYS == [
      NeuralAlchemist, BulletproofLogic, RoiTitan, SemanticLegend,
      PrecisionEngineer, SignalMaestro, MarketDisruptor, StructuredPro,
      SafeHarbor, FeasibilityVerified, EfficiencyBoost, CleanSignal]
  {
  }

  /** Each tier holds exactly four badges. */
  lemma FourBadgesPerTier(t: Tier)
    ensures TierSize(ACCOLADE_KEYS, 0, t) == 4
  {
    CatalogKeys();
    // the catalog lists the Gold, Silver and Bronze keys four at a time
    assert TierSize(ACCOLADE_KEYS, 12, t) == 0;
    assert TierSize(ACCOLADE_KEYS, 8, t) == if t == Bronze then 4 else 0;
    assert TierSize(ACCOLADE_KEYS, 4, t) == if t == Gold then 0 else 4;
  }

  /** `CatalogIndex` is where the key sits in the catalog. */
  lemma CatalogIndexLocates(k: BadgeKey)
    ensures CatalogIndex(k) < |ACCOLADE_KEYS| && ACCOLADE_KEYS[CatalogIndex(k)] == k
  {
    CatalogKeys();
  }

  /** The catalog lists four Gold, then four Silver, then four Bronze badges. */
  lemma CatalogGroupedByTier(k: BadgeKey)
    ensures TierRank(BadgeTier(k)) == CatalogIndex(k) / 4
  {
  }
}
