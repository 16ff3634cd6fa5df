/**
 * The valuation certificate (cert/react/Certificate.tsx): a single report's
 * certificate score, grade, colour and verdict, the portfolio certificate's
 * mean score and grade over several reports, and the asset title shown on
 * both. Metric formatting, icons, the verification link and the timestamp
 * are presentation and are not modelled.
 */
module Certificate {
  import opened Wrappers
  import opened Numerics
  import opened Types
  import opened Strings

  /** The letter grades, best first. */
  datatype Grade = S | APlus | A | B | C | D

  /** The verdict line of a certificate. */
  datatype Verdict =
    | AnalysisComplete | ProfitableArbitrage | NegativeArbitrage | QualityAuditPassed
    | HighValueAsset | MarketStandard | ScrapValue | VerifiedEfficient | VerifiedInefficient
    | FinancialAssetCertified | ProductionViable | ScrappedAsset

  function VerdictText(v: Verdict): string {
    match v
    case AnalysisComplete => "ANALYSIS COMPLETE"
    case ProfitableArbitrage => "PROFITABLE ARBITRAGE"
    case NegativeArbitrage => "NEGATIVE ARBITRAGE"
    case QualityAuditPassed => "QUALITY AUDIT PASSED"
    case HighValueAsset => "HIGH-VALUE ASSET"
    case MarketStandard => "MARKET STANDARD"
    case ScrapValue => "SCRAP VALUE"
    case VerifiedEfficient => "VERIFIED EFFICIENT"
    case VerifiedInefficient => "VERIFIED INEFFICIENT"
    case FinancialAssetCertified => "FINANCIAL ASSET CERTIFIED"
    case ProductionViable => "PRODUCTION VIABLE"
    case ScrappedAsset => "SCRAP ASSET"
  }

  /** What one report's certificate shows besides its formatted metrics. */
  datatype Summary = Summary(title: string, score: real, grade: Grade, colour: Colour, verdict: Verdict)

  /** The heading of a single-report certificate. */
  function TitleOf(m: Method): string {
    match m
    case DLA => "Certificate of Labor Arbitrage"
    case PVC => "Certificate of Prompt Quality"
    case SCOPE => "Certificate of Semantic Efficiency"
    case EAVP => "Certificate of Empirical Verification"
    case PRICE => "Certificate of Financial Valuation"
    case VECTOR => "Certificate of Production Viability"
  }

  /** JavaScript's `x || 1` on a number: zero is replaced by one. */
  function OrOne(x: real): (r: real)
    ensures r != 0.0
    ensures x != 0.0 ==> r == x
  {
    if x == 0.0 then 1.0 else x
  }

  /** The score before clamping, by protocol. */
  function RawScore(r: Report, t: Transcendental): (score: real)
    ensures r.DLAReport? && !r.dla.isProfitable ==> score == 40.0
    ensures r.PVCReport? ==> score == r.pvc.finalScore
    ensures r.EAVPReport? ==> score == 90.0 || score == 30.0
    ensures r.PRICEReport? ==> score <= 100.0
  {
    match r
    case DLAReport(_, _, _, c, _) =>
      if c.isProfitable then 85.0 + (c.trueNetValue / OrOne(c.grossLaborValue)) * 10.0 else 40.0
    case PVCReport(_, _, _, _, c, _, _) => c.finalScore
    case SCOPEReport(_, _, _, pvi, _) => pvi * 30.0
    case EAVPReport(_, _, _, c, _) => if c.auditedValue > 0.0 then 90.0 else 30.0
    case PRICEReport(_, _, _, c, _) => Min(100.0, 50.0 + t.log10(Max(1.0, c.totalAssetValue)) * 10.0)
    case VECTORReport(_, _, _, c, _, _, _) => c.Q * 100.0
  }

  /** The certificate's colour class, by protocol. */
  function ColourOf(r: Report): Colour {
    match r
    case DLAReport(_, _, _, c, _) => if c.isProfitable then Green else Red
    case PVCReport(_, _, _, _, c, _, _) =>
      if c.finalScore > 80.0 then Green else if c.finalScore > 50.0 then Cyan else Red
    case SCOPEReport(_, _, _, pvi, _) => if pvi > 2.0 then Green else if pvi > 0.5 then Cyan else Red
    case EAVPReport(_, _, _, c, _) => if c.auditedValue > 0.0 then Green else Red
    case PRICEReport(_, _, _, _, _) => Green
    case VECTORReport(_, _, _, _, status, _, _) => if status == ViableAsset then Green else Red
  }

  /** The verdict line, by protocol. */
  function VerdictOf(r: Report): Verdict {
    match r
    case DLAReport(_, _, _, c, _) => if c.isProfitable then ProfitableArbitrage else NegativeArbitrage
    case PVCReport(_, _, _, _, _, _, _) => QualityAuditPassed
    case SCOPEReport(_, _, _, pvi, _) =>
      if pvi > 2.0 then HighValueAsset else if pvi > 0.5 then MarketStandard else ScrapValue
    case EAVPReport(_, _, _, c, _) => if c.auditedValue > 0.0 then VerifiedEfficient else VerifiedInefficient
    case PRICEReport(_, _, _, _, _) => FinancialAssetCertified
    case VECTORReport(_, _, _, _, status, _, _) => if status == ViableAsset then ProductionViable else ScrappedAsset
  }

  /** The single-report grade scale. */
  function GradeOf(score: real): Grade {
    if score >= 95.0 then S
    else if score >= 85.0 then APlus
    else if score >= 75.0 then A
    else if score >= 60.0 then B
    else if score >= 40.0 then C
    else D
  }

  /** Grades ranked from D (0) up to S (5). */
  function GradeRank(g: Grade): nat {
    match g
    case D => 0
    case C => 1
    case B => 2
    case A => 3
    case APlus => 4
    case S => 5
  }

  /** A report's certificate: the raw score clamped to [0, 100] and graded. */
  function Summarize(r: Report, t: Transcendental): (s: Summary)
    ensures 0.0 <= s.score <= 100.0 && s.grade == GradeOf(s.score)
    ensures 0.0 <= RawScore(r, t) <= 100.0 ==> s.score == RawScore(r, t)
    ensures s.title == TitleOf(r.Method()) && s.colour == ColourOf(r) && s.verdict == VerdictOf(r)
  {
    var score := Clamp(RawScore(r, t), 0.0, 100.0);
    Summary(TitleOf(r.Method()), score, GradeOf(score), ColourOf(r), VerdictOf(r))
  }

  /**
   * The certificate of one report, assigned field by field across the
   * protocol switch and the grade chain as the page does.
   */
  method ProcessSingleReport(r: Report, t: Transcendental) returns (s: Summary)
    ensures s == Summarize(r, t)
    ensures 0.0 <= s.score <= 100.0
  {
    var title := "Certificate of Valuation";
    var score := 0.0;
    var grade := C;
    var colour := Cyan;
    var verdict := AnalysisComplete;
    match r {
      case DLAReport(_, _, _, c, _) =>
        title := TitleOf(DLA);
        score := if c.isProfitable then 85.0 + (c.trueNetValue / OrOne(c.grossLaborValue)) * 10.0 else 40.0;
        if c.isProfitable {
          colour := Green;
          verdict := ProfitableArbitrage;
        } else {
          colour := Red;
          verdict := NegativeArbitrage;
        }
      case PVCReport(_, _, _, _, c, _, _) =>
        title := TitleOf(PVC);
        score := c.finalScore;
        colour := if score > 80.0 then Green else if score > 50.0 then Cyan else Red;
        verdict := QualityAuditPassed;
      case SCOPEReport(_, _, _, pvi, _) =>
        title := TitleOf(SCOPE);
        score := pvi * 30.0;
        if pvi > 2.0 {
          colour := Green;
          verdict := HighValueAsset;
        } else if pvi > 0.5 {
          colour := Cyan;
          verdict := MarketStandard;
        } else {
          colour := Red;
          verdict := ScrapValue;
        }
      case EAVPReport(_, _, _, c, _) =>
        title := TitleOf(EAVP);
        score := if c.auditedValue > 0.0 then 90.0 else 30.0;
        if c.auditedValue > 0.0 {
          colour := Green;
          verdict := VerifiedEfficient;
        } else {
          colour := Red;
          verdict := VerifiedInefficient;
        }
      case PRICEReport(_, _, _, c, _) =>
        title := TitleOf(PRICE);
        score := Min(100.0, 50.0 + t.log10(Max(1.0, c.totalAssetValue)) * 10.0);
        colour := Green;
        verdict := FinancialAssetCertified;
      case VECTORReport(_, _, _, c, status, _, _) =>
        title := TitleOf(VECTOR);
        score := c.Q * 100.0;
        if status == ViableAsset {
          colour := Green;
          verdict := ProductionViable;
        } else {
          colour := Red;
          verdict := ScrappedAsset;
        }
    }
    assert title == TitleOf(r.Method()) && score == RawScore(r, t);
    assert colour == ColourOf(r) && verdict == VerdictOf(r);
    score := Max(0.0, Min(score, 100.0));
    if score >= 95.0 {
      grade := S;
    } else if score >= 85.0 {
      grade := APlus;
    } else if score >= 75.0 {
      grade := A;
    } else if score >= 60.0 {
      grade := B;
    } else if score >= 40.0 {
      grade := C;
    } else {
      grade := D;
    }
    s := Summary(title, score, grade, colour, verdict);
  }

  // ---------------------------------------------------------------- the portfolio certificate

  /** The left-to-right running total of `reduce((acc, s) => acc + s, 0)`. */
  function Sum(xs: seq<real>): real {
    if xs == [] then 0.0 else Sum(xs[..|xs| - 1]) + xs[|xs| - 1]
  }

  /** The clamped scores of the reports, in order. */
  function Scores(reports: seq<Report>, t: Transcendental): (xs: seq<real>)
    ensures |xs| == |reports|
  {
    seq(|reports|, i requires 0 <= i < |reports| => Summarize(reports[i], t).score)
  }

  /** The mean certificate score; the portfolio page reads its first report, so it needs one. */
  function AggregateScore(reports: seq<Report>, t: Transcendental): (mean: real)
    requires |reports| > 0
    ensures 0.0 <= mean <= 100.0
  {
    MeanInRange(Scores(reports, t));
    Sum(Scores(reports, t)) / |reports| as real
  }

  /** The portfolio grade scale: the single-report one without its D tier. */
  function AggregateGradeOf(score: real): (g: Grade)
    ensures g != D
    ensures GradeRank(GradeOf(score)) <= GradeRank(g) <= GradeRank(GradeOf(score)) + 1
  {
    if score >= 95.0 then S
    else if score >= 85.0 then APlus
    else if score >= 75.0 then A
    else if score >= 60.0 then B
    else C
  }

  /** The portfolio colour class. */
  function AggregateColourOf(score: real): (c: Colour)
    ensures c == Green ==> GradeRank(AggregateGradeOf(score)) >= GradeRank(A)
    ensures c == Red ==> AggregateGradeOf(score) == C
    ensures c != Red <==> score > 50.0
  {
    if score > 80.0 then Green else if score > 50.0 then Cyan else Red
  }

  // ---------------------------------------------------------------- the asset title

  /** The prompt's first line, cut to 80 characters. */
  function FirstLine(prompt: string): string {
    var line := Split(prompt, "\n")[0];
    line[..if |line| <= 80 then |line| else 80]
  }

  /**
   * The asset designation: the report's title when non-empty, else the
   * prompt's first line when non-empty, else "Untitled Asset".
   */
  function AssetTitle(promptTitle: Option<string>, prompt: string): (title: string)
    ensures title != ""
  {
    Or(promptTitle.GetOr(""), Or(FirstLine(prompt), "Untitled Asset"))
  }

  /** A portfolio certificate takes its designation from its first report. */
  function PortfolioTitle(reports: seq<Report>): (title: string)
    requires |reports| > 0
    ensures title != "" && title == AssetTitle(reports[0].promptTitle, reports[0].inputPrompt)
  {
    AssetTitle(reports[0].promptTitle, reports[0].inputPrompt)
  }

  // ---------------------------------------------------------------- properties

  /** Each grade is exactly its score band. */
  lemma GradeBands(x: real)
    ensures GradeOf(x) == S <==> x >= 95.0
    ensures GradeOf(x) == APlus <==> 85.0 <= x < 95.0
    ensures GradeOf(x) == A <==> 75.0 <= x < 85.0
    ensures GradeOf(x) == B <==> 60.0 <= x < 75.0
    ensures GradeOf(x) == C <==> 40.0 <= x < 60.0
    ensures GradeOf(x) == D <==> x < 40.0
  {
  }

  /** A higher score never earns a lower grade. */
  lemma GradeMonotone(x: real, y: real)
    requires x <= y
    ensures GradeRank(GradeOf(x)) <= GradeRank(GradeOf(y))
  {
  }

  /** A raw score below 0 is shown as 0 and graded D; one above 100 is shown as 100 and graded S. */
  lemma ScoreClamped(r: Report, t: Transcendental)
    ensures RawScore(r, t) < 0.0 ==> Summarize(r, t).score == 0.0 && Summarize(r, t).grade == D
    ensures RawScore(r, t) > 100.0 ==> Summarize(r, t).score == 100.0 && Summarize(r, t).grade == S
  {
  }

  /**
   * An unprofitable arbitrage scores 40 (grade C); a profitable one keeping
   * a share of its gross value between 0 and 1 scores 85 to 95 (A+ or S).
   */
  lemma DLAScore(r: Report, t: Transcendental)
    requires r.DLAReport?
    ensures !r.dla.isProfitable ==> Summarize(r, t).score == 40.0 && Summarize(r, t).grade == C
    ensures r.dla.isProfitable && 0.0 < r.dla.trueNetValue <= r.dla.grossLaborValue ==>
              85.0 < Summarize(r, t).score <= 95.0 &&
              Summarize(r, t).grade in {APlus, S}
  {
    var c := r.dla;
    if c.isProfitable && 0.0 < c.trueNetValue <= c.grossLaborValue {
      assert OrOne(c.grossLaborValue) == c.grossLaborValue;
      var share := c.trueNetValue / c.grossLaborValue;
      assert share * c.grossLaborValue == c.trueNetValue;
      assert 0.0 < share <= 1.0;
      assert RawScore(r, t) == 85.0 + share * 10.0;
    }
  }

  /** A zero gross value divides by one instead: the score is 85 plus ten times the net value. */
  lemma DLAZeroGross(r: Report, t: Transcendental)
    requires r.DLAReport? && r.dla.isProfitable && r.dla.grossLaborValue == 0.0
    ensures RawScore(r, t) == 85.0 + r.dla.trueNetValue * 10.0
  {
  }

  /** A verified-efficient run scores 90 (A+), an inefficient one 30 (D). */
  lemma EAVPScore(r: Report, t: Transcendental)
    requires r.EAVPReport?
    ensures r.eavp.auditedValue > 0.0 ==> Summarize(r, t).score == 90.0 && Summarize(r, t).grade == APlus
    ensures r.eavp.auditedValue <= 0.0 ==> Summarize(r, t).score == 30.0 && Summarize(r, t).grade == D
  {
  }

  /** The semantic-efficiency score is 30 points per unit of PVI, clamped. */
  lemma SCOPEScore(r: Report, t: Transcendental)
    requires r.SCOPEReport?
    ensures 0.0 <= r.pvi <= 10.0 / 3.0 ==> Summarize(r, t).score == r.pvi * 30.0
    ensures r.pvi > 10.0 / 3.0 ==> Summarize(r, t).score == 100.0
  {
  }

  /** The production-viability score is the reliability coefficient in percent, clamped. */
  lemma VECTORScore(r: Report, t: Transcendental)
    requires r.VECTORReport?
    ensures 0.0 <= r.vector.Q <= 1.0 ==> Summarize(r, t).score == r.vector.Q * 100.0
    ensures r.vector.Q < 0.0 ==> Summarize(r, t).score == 0.0
  {
  }

  /**
   * A financial valuation never scores below 50, so it never grades below C;
   * an asset value of at most 1 scores exactly 50.
   */
  lemma PRICEScoreAtLeastFifty(r: Report, t: Transcendental)
    requires Sound(t) && r.PRICEReport?
    ensures 50.0 <= Summarize(r, t).score <= 100.0
    ensures GradeRank(Summarize(r, t).grade) >= GradeRank(C)
    ensures r.price.totalAssetValue <= 1.0 && t.log10(1.0) == 0.0 ==> Summarize(r, t).score == 50.0
  {
    var v := Max(1.0, r.price.totalAssetValue);
    assert t.log10(v) >= 0.0;
    assert RawScore(r, t) == Min(100.0, 50.0 + t.log10(v) * 10.0);
    GradeMonotone(50.0, Summarize(r, t).score);
  }

  /**
   * The semantic-efficiency verdict follows the PVI bands, and the colour
   * goes with it: green for a high-value asset, red for scrap.
   */
  lemma SCOPEVerdict(r: Report)
    requires r.SCOPEReport?
    ensures VerdictOf(r) == HighValueAsset <==> r.pvi > 2.0
    ensures VerdictOf(r) == MarketStandard <==> 0.5 < r.pvi <= 2.0
    ensures VerdictOf(r) == ScrapValue <==> r.pvi <= 0.5
    ensures ColourOf(r) == Red <==> VerdictOf(r) == ScrapValue
    ensures ColourOf(r) == Green <==> VerdictOf(r) == HighValueAsset
  {
  }

  /** Only a financial valuation is green whatever its figures; elsewhere green means a passing report. */
  lemma GreenMeansPassing(r: Report)
    requires ColourOf(r) == Green
    ensures r.DLAReport? ==> r.dla.isProfitable
    ensures r.PVCReport? ==> r.pvc.finalScore > 80.0
    ensures r.SCOPEReport? ==> r.pvi > 2.0
    ensures r.EAVPReport? ==> r.eavp.auditedValue > 0.0
    ensures r.VECTORReport? ==> r.status == ViableAsset
  {
  }

  /** The running total of values in [lo, hi] lies between n·lo and n·hi. */
  lemma {:induction false} SumBounds(xs: seq<real>, lo: real, hi: real)
    requires forall i :: 0 <= i < |xs| ==> lo <= xs[i] <= hi
    ensures |xs| as real * lo <= Sum(xs) <= |xs| as real * hi
  {
    if xs != [] {
      var init := xs[..|xs| - 1];
      assert forall i :: 0 <= i < |init| ==> init[i] == xs[i];
      SumBounds(init, lo, hi);
      assert Sum(xs) == Sum(init) + xs[|xs| - 1];
      assert lo <= xs[|xs| - 1] <= hi;
      var m := |init| as real;
      assert |xs| as real == m + 1.0;
      assert (m + 1.0) * lo == m * lo + lo && (m + 1.0) * hi == m * hi + hi;
    }
  }

  /** The mean of scores in [0, 100] lies in [0, 100]. */
  lemma MeanInRange(xs: seq<real>)
    requires |xs| > 0 && forall i :: 0 <= i < |xs| ==> 0.0 <= xs[i] <= 100.0
    ensures 0.0 <= Sum(xs) / |xs| as real <= 100.0
  {
    SumBounds(xs, 0.0, 100.0);
    var n := |xs| as real;
    assert Sum(xs) <= n * 100.0;
    assert Sum(xs) / n <= 100.0;
  }

  /** A portfolio of one report scores what that report's certificate does. */
  lemma AggregateOfOne(r: Report, t: Transcendental)
    ensures AggregateScore([r], t) == Summarize(r, t).score
  {
    var xs := Scores([r], t);
    assert xs[..0] == [];
    assert Sum(xs) == xs[0];
  }

  /**
   * The portfolio grade agrees with the single-report grade from 40 up and
   * is C below it: a portfolio is never graded D.
   */
  lemma AggregateGradeNeverD(x: real)
    ensures AggregateGradeOf(x) != D
    ensures x >= 40.0 ==> AggregateGradeOf(x) == GradeOf(x)
    ensures x < 40.0 ==> AggregateGradeOf(x) == C && GradeOf(x) == D
  {
  }

  /** The portfolio colour bands are the prompt-quality ones. */
  lemma AggregateColourBands(x: real)
    ensures AggregateColourOf(x) == Green <==> x > 80.0
    ensures AggregateColourOf(x) == Cyan <==> 50.0 < x <= 80.0
    ensures AggregateColourOf(x) == Red <==> x <= 50.0
  {
  }

  /**
   * The designation is never empty. A non-empty report title wins; failing
   * that, a non-empty first line of the prompt is used, which holds no line
   * break, is at most 80 characters and begins the prompt; failing both,
   * "Untitled Asset".
   */
  lemma AssetTitleChoice(promptTitle: Option<string>, prompt: string)
    ensures promptTitle.Some? && promptTitle.value != "" ==> AssetTitle(promptTitle, prompt) == promptTitle.value
    ensures promptTitle.GetOr("") == "" && FirstLine(prompt) != "" ==>
              var title := AssetTitle(promptTitle, prompt);
              title == FirstLine(prompt) && |title| <= 80 && |title| <= |prompt| && title == prompt[..|title|] && !Occurs("\n", title)
    ensures promptTitle.GetOr("") == "" && FirstLine(prompt) == "" ==> AssetTitle(promptTitle, prompt) == "Untitled Asset"
  {
    var line := Split(prompt, "\n")[0];
    SplitPiecesFree(prompt, "\n");
    SplitFirstIsPrefix(prompt, "\n");
    var k := if |line| <= 80 then |line| else 80;
    PrefixAbsent(line, "\n", k);
    assert FirstLine(prompt) == line[..k];
    assert line[..k] == prompt[..k];
  }

  /** The first line of a prompt without a line break is the prompt itself, cut to 80 characters. */
  lemma FirstLineOfOneLine(prompt: string)
    requires !Occurs("\n", prompt) && |prompt| <= 80
    ensures FirstLine(prompt) == prompt
  {
    SplitJoinRoundTrip(prompt, "\n");
    SplitOfAbsent(prompt, "\n");
  }
}
