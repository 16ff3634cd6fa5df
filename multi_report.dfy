/**
 * The multi-report view (components/MultiReportResult.tsx): each report's
 * pass/fail mark and colour, and the canonical display order DLA, PVC,
 * SCOPE, EAVP, PRICE, VECTOR, obtained by a stable sort of a copy of the
 * list. Formatted values and icons are presentation and are not modelled.
 */
module MultiReport {
  import opened Types
  import opened StableSort
  import Certificate

  /** What a report's card shows besides its formatted value. */
  datatype CardSummary = CardSummary(caption: string, isPositive: bool, colour: Colour)

  /** A passing card is never red and a green card always passes. */
  function GetSummary(r: Report): (card: CardSummary)
    ensures card.isPositive ==> card.colour != Red
    ensures card.colour == Green ==> card.isPositive
  {
    match r
    case DLAReport(_, _, _, c, _) =>
      CardSummary("D.L.A. Net Value", c.isProfitable, if c.isProfitable then Green else Red)
    case PVCReport(_, _, _, _, c, _, _) =>
      CardSummary("P.V.C. Score", c.finalScore > 60.0,
                  if c.finalScore > 80.0 then Green else if c.finalScore > 50.0 then Cyan else Red)
    case SCOPEReport(_, _, _, pvi, _) =>
      CardSummary("S.C.O.P.E. Index", pvi > 1.0, if pvi > 2.0 then Green else if pvi > 0.5 then Cyan else Red)
    case EAVPReport(_, _, _, c, _) =>
      CardSummary("E.A.V.P. Audited Value", c.auditedValue > 0.0, if c.auditedValue > 0.0 then Green else Red)
    case PRICEReport(_, _, _, c, _) =>
      CardSummary("P.R.I.C.E. TAV", c.totalAssetValue > 0.0, Cyan)
    case VECTORReport(_, _, _, _, status, _, _) =>
      CardSummary("V.E.C.T.O.R. Q-Score", status == ViableAsset, if status == ViableAsset then Green else Red)
  }

  /** The display rank of a report: its protocol's place in the canonical order. */
  function DisplayRank(r: Report): nat {
    MethodRank(r.Method())
  }

  /**
   * The cards in display order: the given reports rearranged into canonical
   * protocol order. The given list is a value and stays as it was.
   */
  function DisplayOrder(reports: seq<Report>): (shown: seq<Report>)
    ensures multiset(shown) == multiset(reports) && |shown| == |reports|
    ensures forall i, j :: 0 <= i < j < |shown| ==> MethodRank(shown[i].Method()) <= MethodRank(shown[j].Method())
  {
    SortPermutes(reports, DisplayRank);
    SortSorted(reports, DisplayRank);
    var shown := SortByRank(reports, DisplayRank);
    assert |multiset(shown)| == |multiset(reports)|;
    shown
  }

  // ---------------------------------------------------------------- properties

  /** Pass marks: profitability, a quality score over 60, a PVI over 1, a positive audited or asset value, viability. */
  lemma Positivity(r: Report)
    ensures r.DLAReport? ==> (GetSummary(r).isPositive <==> r.dla.isProfitable)
    ensures r.PVCReport? ==> (GetSummary(r).isPositive <==> r.pvc.finalScore > 60.0)
    ensures r.SCOPEReport? ==> (GetSummary(r).isPositive <==> r.pvi > 1.0)
    ensures r.EAVPReport? ==> (GetSummary(r).isPositive <==> r.eavp.auditedValue > 0.0)
    ensures r.PRICEReport? ==> (GetSummary(r).isPositive <==> r.price.totalAssetValue > 0.0)
    ensures r.VECTORReport? ==> (GetSummary(r).isPositive <==> r.status == ViableAsset)
  {
  }

  /**
   * The colour bands: quality green above 80 and cyan above 50, PVI green
   * above 2 and cyan above 0.5, asset pricing always cyan.
   */
  lemma ColourBands(r: Report)
    ensures r.PVCReport? ==> (GetSummary(r).colour == Green <==> r.pvc.finalScore > 80.0) &&
                             (GetSummary(r).colour == Cyan <==> 50.0 < r.pvc.finalScore <= 80.0)
    ensures r.SCOPEReport? ==> (GetSummary(r).colour == Green <==> r.pvi > 2.0) &&
                               (GetSummary(r).colour == Cyan <==> 0.5 < r.pvi <= 2.0)
    ensures r.PRICEReport? ==> GetSummary(r).colour == Cyan
  {
  }

  /** For the arbitrage, verification and viability cards green means passing. */
  lemma ColourFollowsPass(r: Report)
    ensures r.DLAReport? || r.EAVPReport? || r.VECTORReport? ==>
              (GetSummary(r).colour == Green <==> GetSummary(r).isPositive)
  {
  }

  /**
   * The card colour is the certificate's colour for every protocol but
   * asset pricing, which the certificate shows green and the card cyan.
   */
  lemma CardMatchesCertificate(r: Report)
    ensures !r.PRICEReport? ==> GetSummary(r).colour == Certificate.ColourOf(r)
    ensures r.PRICEReport? ==> GetSummary(r).colour == Cyan && Certificate.ColourOf(r) == Green
  {
  }

  /** Reports of one protocol keep their given order among the displayed cards. */
  lemma DisplayOrderStable(reports: seq<Report>)
    ensures forall k: nat :: Filter(DisplayOrder(reports), DisplayRank, k) == Filter(reports, DisplayRank, k)
  {
    forall k: nat ensures Filter(DisplayOrder(reports), DisplayRank, k) == Filter(reports, DisplayRank, k) {
      SortStable(reports, DisplayRank, k);
    }
  }

  /** A list already in canonical order, such as an ALL or CORE batch, is shown as it is. */
  lemma CanonicalListShownAsIs(reports: seq<Report>)
    requires forall i, j :: 0 <= i < j < |reports| ==> MethodRank(reports[i].Method()) < MethodRank(reports[j].Method())
    ensures DisplayOrder(reports) == reports
  {
    SortedUnchanged(reports, DisplayRank);
  }
}
