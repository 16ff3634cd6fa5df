/**
 * Badge awards. Each protocol has its own fixed list of candidate badges,
 * tested in a fixed order; every badge whose threshold the report meets is
 * pushed, and the pushed list is then sorted by tier (Gold, Silver,
 * Bronze) with a stable sort, so that badges of one tier keep the order in
 * which they were pushed.
 */
module Accolades {
  import opened Types
  import opened Config
  import opened StableSort
  import opened Wrappers

  const NEURAL_ALCHEMIST_MIN_SCORE: real := 98.0
  const SEMANTIC_LEGEND_MIN_PVI: real := 2.5
  const SIGNAL_MAESTRO_MIN_TEFF: real := 0.9
  const CLEAN_SIGNAL_MAX_ENTROPY: real := 0.1
  const ROI_TITAN_MIN_NET: real := 50.0
  const BULLETPROOF_MIN_Q: real := 0.95
  const MARKET_DISRUPTOR_MIN_TAV: real := 50000.0
  const EFFICIENCY_BOOST_MIN_RATIO: real := 0.5

  /** The protocol whose reports can earn the badge. */
  function BadgeMethod(k: BadgeKey): Method {
    match k
    case NeuralAlchemist => PVC
    case PrecisionEngineer => PVC
    case StructuredPro => PVC
    case SafeHarbor => PVC
    case FeasibilityVerified => PVC
    case SemanticLegend => SCOPE
    case SignalMaestro => SCOPE
    case CleanSignal => SCOPE
    case RoiTitan => DLA
    case BulletproofLogic => VECTOR
    case MarketDisruptor => PRICE
    case EfficiencyBoost => EAVP
  }

  /**
   * `netMinutesSaved / manualCreationMinutes > 0.5` under IEEE division:
   * over a zero denominator a positive numerator gives +Infinity (which
   * passes), a negative one -Infinity and zero NaN (which both fail).
   */
  predicate EfficiencyAbove(c: EAVPCalculations) {
    if c.manualCreationMinutes == 0.0 then c.netMinutesSaved > 0.0
    else c.netMinutesSaved / c.manualCreationMinutes > EFFICIENCY_BOOST_MIN_RATIO
  }

  /** The threshold test for one badge against one report. */
  predicate Qualifies(k: BadgeKey, r: Report)
    ensures Qualifies(k, r) ==> BadgeMethod(k) == r.Method()
  {
    match k
    case NeuralAlchemist => r.PVCReport? && r.pvc.finalScore >= NEURAL_ALCHEMIST_MIN_SCORE
    case PrecisionEngineer => r.PVCReport? && r.rawScores.G_r == 4.0
    case StructuredPro => r.PVCReport? && r.rawScores.D_r == 4.0
    case SafeHarbor => r.PVCReport? && r.rawScores.R_r == 0.0
    case FeasibilityVerified => r.PVCReport? && r.rawScores.F_r == 4.0
    case SemanticLegend => r.SCOPEReport? && r.pvi > SEMANTIC_LEGEND_MIN_PVI
    case SignalMaestro => r.SCOPEReport? && r.variables.Teff > SIGNAL_MAESTRO_MIN_TEFF
    case CleanSignal => r.SCOPEReport? && r.variables.E < CLEAN_SIGNAL_MAX_ENTROPY
    case RoiTitan => r.DLAReport? && r.dla.trueNetValue > ROI_TITAN_MIN_NET
    case BulletproofLogic => r.VECTORReport? && r.vector.Q > BULLETPROOF_MIN_Q
    case MarketDisruptor => r.PRICEReport? && r.price.totalAssetValue > MARKET_DISRUPTOR_MIN_TAV
    case EfficiencyBoost => r.EAVPReport? && EfficiencyAbove(r.eavp)
  }

  /** The badges a protocol tests, in the order it tests them. */
  function Candidates(m: Method): seq<BadgeKey> {
    match m
    case PVC => [NeuralAlchemist, PrecisionEngineer, StructuredPro, SafeHarbor, FeasibilityVerified]
    case SCOPE => [SemanticLegend, SignalMaestro, CleanSignal]
    case DLA => [RoiTitan]
    case VECTOR => [BulletproofLogic]
    case PRICE => [MarketDisruptor]
    case EAVP => [EfficiencyBoost]
  }

  /** The keys of `ks` whose threshold `r` meets, in the order of `ks`. */
  function Keep(ks: seq<BadgeKey>, r: Report): seq<BadgeKey> {
    if ks == [] then []
    else if Qualifies(ks[|ks| - 1], r) then Keep(ks[..|ks| - 1], r) + [ks[|ks| - 1]]
    else Keep(ks[..|ks| - 1], r)
  }

  /** The sort key of a badge: Gold 0, Silver 1, Bronze 2. */
  function KeyRank(k: BadgeKey): nat {
    TierRank(BadgeTier(k))
  }

  /** The catalog entries of a list of keys. */
  function Badges(ks: seq<BadgeKey>): (bs: seq<Badge>)
    ensures |bs| == |ks|
    ensures forall i :: 0 <= i < |ks| ==> bs[i] == Accolade(ks[i])
  {
    if ks == [] then [] else [Accolade(ks[0])] + Badges(ks[1..])
  }

  /** The badges pushed for a report, before sorting, as catalog keys. */
  function Pushed(r: Report): seq<BadgeKey> {
    Keep(Candidates(r.Method()), r)
  }

  /** The badges a report earns: the pushed list, stably sorted by tier. */
  function Awarded(r: Report): seq<Badge> {
    Badges(AwardedKeys(r))
  }

  /** The keys of the badges a report earns, in the order they are listed. */
  function AwardedKeys(r: Report): seq<BadgeKey> {
    SortByRank(Pushed(r), KeyRank)
  }

  /**
   * Tests each of the report's protocol's thresholds in turn, pushes the
   * badges it meets, and sorts them by tier.
   */
  method AwardAccolades(report: Report) returns (earned: seq<Badge>)
    ensures earned == Awarded(report)
  {
    var pushed: seq<BadgeKey> := [];
    match report {
      case PVCReport(_, _, _, _, _, _, _) =>
        pushed := PushPVCBadges(report);
      case SCOPEReport(_, _, _, _, _) =>
        pushed := PushSCOPEBadges(report);
      case DLAReport(_, _, _, dla, _) =>
        if dla.trueNetValue > ROI_TITAN_MIN_NET { pushed := pushed + [RoiTitan]; }
        PushedSingle(report, RoiTitan);
        assert pushed == Pushed(report);
      case VECTORReport(_, _, _, vector, _, _, _) =>
        if vector.Q > BULLETPROOF_MIN_Q { pushed := pushed + [BulletproofLogic]; }
        PushedSingle(report, BulletproofLogic);
        assert pushed == Pushed(report);
      case PRICEReport(_, _, _, price, _) =>
        if price.totalAssetValue > MARKET_DISRUPTOR_MIN_TAV { pushed := pushed + [MarketDisruptor]; }
        PushedSingle(report, MarketDisruptor);
        assert pushed == Pushed(report);
      case EAVPReport(_, _, _, eavp, _) =>
        if EfficiencyAbove(eavp) { pushed := pushed + [EfficiencyBoost]; }
        PushedSingle(report, EfficiencyBoost);
        assert pushed == Pushed(report);
    }
    earned := Badges(SortByRank(pushed, KeyRank));
  }

  /** The five prompt-quality thresholds, in the order they are tested. */
  method PushPVCBadges(report: Report) returns (pushed: seq<BadgeKey>)
    requires report.PVCReport?
    ensures pushed == Pushed(report)
  {
    ghost var tested: seq<BadgeKey> := [];
    pushed := [];
    KeepStep(tested, NeuralAlchemist, report);
    if report.pvc.finalScore >= NEURAL_ALCHEMIST_MIN_SCORE { pushed := pushed + [NeuralAlchemist]; }
    tested := tested + [NeuralAlchemist];
    assert pushed == Keep(tested, report);
    KeepStep(tested, PrecisionEngineer, report);
    if report.rawScores.G_r == 4.0 { pushed := pushed + [PrecisionEngineer]; }
    tested := tested + [PrecisionEngineer];
    assert pushed == Keep(tested, report);
    KeepStep(tested, StructuredPro, report);
    if report.rawScores.D_r == 4.0 { pushed := pushed + [StructuredPro]; }
    tested := tested + [StructuredPro];
    assert pushed == Keep(tested, report);
    KeepStep(tested, SafeHarbor, report);
    if report.rawScores.R_r == 0.0 { pushed := pushed + [SafeHarbor]; }
    tested := tested + [SafeHarbor];
    assert pushed == Keep(tested, report);
    KeepStep(tested, FeasibilityVerified, report);
    if report.rawScores.F_r == 4.0 { pushed := pushed + [FeasibilityVerified]; }
    tested := tested + [FeasibilityVerified];
    assert pushed == Keep(tested, report);
    assert tested == Candidates(PVC);
  }

  /** The three semantic-signal thresholds, in the order they are tested. */
  method PushSCOPEBadges(report: Report) returns (pushed: seq<BadgeKey>)
    requires report.SCOPEReport?
    ensures pushed == Pushed(report)
  {
    ghost var tested: seq<BadgeKey> := [];
    pushed := [];
    KeepStep(tested, SemanticLegend, report);
    if report.pvi > SEMANTIC_LEGEND_MIN_PVI { pushed := pushed + [SemanticLegend]; }
    tested := tested + [SemanticLegend];
    assert pushed == Keep(tested, report);
    KeepStep(tested, SignalMaestro, report);
    if report.variables.Teff > SIGNAL_MAESTRO_MIN_TEFF { pushed := pushed + [SignalMaestro]; }
    tested := tested + [SignalMaestro];
    assert pushed == Keep(tested, report);
    KeepStep(tested, CleanSignal, report);
    if report.variables.E < CLEAN_SIGNAL_MAX_ENTROPY { pushed := pushed + [CleanSignal]; }
    tested := tested + [CleanSignal];
    assert pushed == Keep(tested, report);
    assert tested == Candidates(SCOPE);
  }

  /** The pushed list of a protocol with a single candidate badge. */
  lemma PushedSingle(r: Report, k: BadgeKey)
    requires Candidates(r.Method()) == [k]
    ensures Pushed(r) == if Qualifies(k, r) then [] + [k] else []
  {
    assert [k][..0] == [];
    assert Keep([k][..0], r) == [];
    assert [] + [k] == [k];
    assert Pushed(r) == Keep([k], r);
  }

  /** Testing one more candidate pushes it exactly when its threshold is met. */
  lemma KeepStep(tested: seq<BadgeKey>, k: BadgeKey, r: Report)
    ensures Keep(tested + [k], r) == if Qualifies(k, r) then Keep(tested, r) + [k] else Keep(tested, r)
  {
    assert (tested + [k])[..|tested|] == tested;
  }

  // ---------------------------------------------------------------- properties

  /** Strictly increasing under `f`. */
  ghost predicate Increasing(s: seq<BadgeKey>, f: BadgeKey -> nat) {
    forall i, j :: 0 <= i < j < |s| ==> f(s[i]) < f(s[j])
  }

  /** A badge a report earns is one of the candidates its protocol tests. */
  lemma QualifiesOwnProtocol(k: BadgeKey, r: Report)
    requires Qualifies(k, r)
    ensures k in Candidates(r.Method())
  {
  }

  lemma {:induction false} KeepMembers(ks: seq<BadgeKey>, r: Report, k: BadgeKey)
    ensures k in Keep(ks, r) <==> k in ks && Qualifies(k, r)
  {
    if ks != [] {
      var init := ks[..|ks| - 1];
      KeepMembers(init, r, k);
      assert ks == init + [ks[|ks| - 1]];
    }
  }

  lemma {:induction false} KeepIncreasing(ks: seq<BadgeKey>, r: Report, f: BadgeKey -> nat)
    requires Increasing(ks, f)
    ensures Increasing(Keep(ks, r), f)
  {
    if ks != [] {
      var init := ks[..|ks| - 1];
      var last := ks[|ks| - 1];
      assert Increasing(init, f) by {
        forall i, j | 0 <= i < j < |init| ensures f(init[i]) < f(init[j]) {
          assert init[i] == ks[i] && init[j] == ks[j];
        }
      }
      KeepIncreasing(init, r, f);
      if Qualifies(last, r) {
        var kept := Keep(init, r);
        forall x | x in kept ensures f(x) < f(last) {
          KeepMembers(init, r, x);
          var i :| 0 <= i < |init| && init[i] == x;
          assert ks[i] == x;
        }
        forall i, j | 0 <= i < j < |kept + [last]| ensures f((kept + [last])[i]) < f((kept + [last])[j]) {
          if j == |kept| {
            assert (kept + [last])[i] in kept;
          }
        }
      }
    }
  }

  /** Each protocol tests its badges in catalog order. */
  lemma CandidatesInCatalogOrder(m: Method)
    ensures Increasing(Candidates(m), CatalogIndex)
  {
  }

  /** The pushed badges are in catalog order. */
  lemma PushedInCatalogOrder(r: Report)
    ensures Increasing(Pushed(r), CatalogIndex)
  {
    CandidatesInCatalogOrder(r.Method());
    KeepIncreasing(Candidates(r.Method()), r, CatalogIndex);
  }

  /**
   * The catalog is grouped by tier, so the pushed list is already in tier
   * order and the stable sort leaves it as it is: the earned badges are the
   * pushed ones, in catalog order.
   */
  lemma SortKeepsPushOrder(r: Report)
    ensures AwardedKeys(r) == Pushed(r)
  {
    var p := Pushed(r);
    PushedInCatalogOrder(r);
    forall i, j | 0 <= i < j < |p| ensures KeyRank(p[i]) <= KeyRank(p[j]) {
      CatalogGroupedByTier(p[i]);
      CatalogGroupedByTier(p[j]);
    }
    SortedUnchanged(p, KeyRank);
  }

  lemma AwardedArePushed(r: Report)
    ensures Awarded(r) == Badges(Pushed(r))
  {
    SortKeepsPushOrder(r);
  }

  /** The badge of key `k` is in a list of catalog entries exactly when `k` is among the keys. */
  lemma BadgesMembers(ks: seq<BadgeKey>, k: BadgeKey)
    ensures Accolade(k) in Badges(ks) <==> k in ks
  {
    if Accolade(k) in Badges(ks) {
      BadgesOnlyOfKeys(ks, k);
    }
    if k in ks {
      BadgesOfKeys(ks, k);
    }
  }

  lemma BadgesOfKeys(ks: seq<BadgeKey>, k: BadgeKey)
    requires k in ks
    ensures Accolade(k) in Badges(ks)
  {
    var i :| 0 <= i < |ks| && ks[i] == k;
    assert Badges(ks)[i] == Accolade(k);
  }

  lemma BadgesOnlyOfKeys(ks: seq<BadgeKey>, k: BadgeKey)
    requires Accolade(k) in Badges(ks)
    ensures k in ks
  {
    var i :| 0 <= i < |ks| && Badges(ks)[i] == Accolade(k);
    KeyNameRoundTrip(ks[i]);
    KeyNameRoundTrip(k);
    assert KeyName(ks[i]) == Accolade(k).id;
  }

  /** A report earns a badge exactly when it meets that badge's threshold. */
  lemma AwardedExactly(r: Report, k: BadgeKey)
    ensures Accolade(k) in Awarded(r) <==> Qualifies(k, r)
  {
    AwardedArePushed(r);
    BadgesMembers(Pushed(r), k);
    KeepMembers(Candidates(r.Method()), r, k);
    if Qualifies(k, r) {
      QualifiesOwnProtocol(k, r);
    }
  }

  /** Everything earned is a catalog badge whose threshold the report meets. */
  lemma AwardedFromCatalog(r: Report, b: Badge)
    requires b in Awarded(r)
    ensures exists k :: b == Accolade(k) && Qualifies(k, r) && AccoladeByName(b.id) == Some(b)
  {
    AwardedArePushed(r);
    var i :| 0 <= i < |Awarded(r)| && Awarded(r)[i] == b;
    var k := Pushed(r)[i];
    KeepMembers(Candidates(r.Method()), r, k);
    LookupById(k);
  }

  /** No badge is earned twice, and the list is ordered Gold, Silver, Bronze. */
  lemma AwardedDistinctAndTiered(r: Report)
    ensures Distinct(Awarded(r))
    ensures forall i, j :: 0 <= i < j < |Awarded(r)| ==> TierRank(Awarded(r)[i].tier) <= TierRank(Awarded(r)[j].tier)
  {
    var p := Pushed(r);
    AwardedArePushed(r);
    PushedInCatalogOrder(r);
    forall i, j | 0 <= i < j < |p|
      ensures Awarded(r)[i] != Awarded(r)[j]
      ensures TierRank(Awarded(r)[i].tier) <= TierRank(Awarded(r)[j].tier)
    {
      AccoladeInjective(p[i], p[j]);
      CatalogGroupedByTier(p[i]);
      CatalogGroupedByTier(p[j]);
    }
  }

  /** A report earns at most as many badges as its protocol has candidates: five for PVC, three for SCOPE, one otherwise. */
  lemma {:induction false} KeepShorter(ks: seq<BadgeKey>, r: Report)
    ensures |Keep(ks, r)| <= |ks|
  {
    if ks != [] {
      KeepShorter(ks[..|ks| - 1], r);
    }
  }

  lemma AwardedBound(r: Report)
    ensures |Awarded(r)| <= |Candidates(r.Method())|
  {
    AwardedArePushed(r);
    KeepShorter(Candidates(r.Method()), r);
  }

  /**
   * A prompt-quality report scoring at least 98 with perfect goal clarity
   * and feasibility, structure below perfect and no risk earns Neural Alchemist (Gold),
   * Precision Engineer (Silver), Safe Harbor and Feasibility Verified
   * (Bronze), in that order.
   */
  lemma PromptQualityBadgeExample(r: Report)
    requires r.PVCReport? && r.pvc.finalScore >= 98.0
    requires r.rawScores.G_r == 4.0 && r.rawScores.D_r != 4.0 && r.rawScores.R_r == 0.0 && r.rawScores.F_r == 4.0
    ensures AwardedKeys(r) == [NeuralAlchemist, PrecisionEngineer, SafeHarbor, FeasibilityVerified]
  {
    PromptQualityPushed(r);
    SortKeepsPushOrder(r);
  }

  /** The badges pushed for that report, before sorting. */
  lemma PromptQualityPushed(r: Report)
    requires r.PVCReport? && r.pvc.finalScore >= 98.0
    requires r.rawScores.G_r == 4.0 && r.rawScores.D_r != 4.0 && r.rawScores.R_r == 0.0 && r.rawScores.F_r == 4.0
    ensures Pushed(r) == [NeuralAlchemist, PrecisionEngineer, SafeHarbor, FeasibilityVerified]
  {
    assert r.Method() == PVC;
    assert Qualifies(NeuralAlchemist, r) && Qualifies(PrecisionEngineer, r) && !Qualifies(StructuredPro, r);
    assert Qualifies(SafeHarbor, r) && Qualifies(FeasibilityVerified, r);
    var p0: seq<BadgeKey> := [];
    var p1 := p0 + [NeuralAlchemist];
    KeepStep(p0, NeuralAlchemist, r);
    assert Keep(p1, r) == [NeuralAlchemist];
    var p2 := p1 + [PrecisionEngineer];
    KeepStep(p1, PrecisionEngineer, r);
    assert Keep(p2, r) == [NeuralAlchemist, PrecisionEngineer];
    var p3 := p2 + [StructuredPro];
    KeepStep(p2, StructuredPro, r);
    assert Keep(p3, r) == [NeuralAlchemist, PrecisionEngineer];
    var p4 := p3 + [SafeHarbor];
    KeepStep(p3, SafeHarbor, r);
    assert Keep(p4, r) == [NeuralAlchemist, PrecisionEngineer, SafeHarbor];
    var p5 := p4 + [FeasibilityVerified];
    KeepStep(p4, FeasibilityVerified, r);
    assert Keep(p5, r) == [NeuralAlchemist, PrecisionEngineer, SafeHarbor, FeasibilityVerified];
    assert p5 == Candidates(PVC);
  }
}
