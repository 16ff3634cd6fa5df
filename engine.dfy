/**
 * The valuation engine's entry points (services/gemini.ts): one analyzer
 * per protocol, each building its report from the request and awarding
 * the report its badges, and the orchestrator that runs one protocol, the
 * CORE trio or ALL six.
 *
 * The prompt-quality and semantic-density analyzers ask an external model
 * for their judgments; the model is not part of this module, so its
 * answer (or its failure, including a reply that is not valid JSON) is a
 * parameter. Timestamps and random watermarks are left out.
 */
module Engine {
  import opened Wrappers
  import opened Numerics
  import opened Types
  import opened Config
  import opened Calculators
  import opened Accolades

  const INVALID_METHODOLOGY: string := "Invalid Methodology Selected"

  /** A report with its badges filled in from its own figures. */
  function WithAwards(r: Report): Report {
    r.(accolades := Awarded(r))
  }

  // ---------------------------------------------------------------- the six reports

  function DLAAnalysis(d: ValuationRequest): Report
    requires DLADefined(DLAInputOf(d))
  {
    WithAwards(DLAReport(d.inputPrompt, d.promptTitle, DLAInputOf(d), ComputeDLA(DLAInputOf(d)), []))
  }

  function PVCAnalysis(d: ValuationRequest, s: PVCRawScores, t: Transcendental): Report {
    WithAwards(PVCReport(
      d.inputPrompt, d.promptTitle, s, Normalize(s), ComputePVC(s, |d.inputPrompt|, t),
      TokenCount(|d.inputPrompt|), []))
  }

  function SCOPEAnalysis(d: ValuationRequest, v: SCOPEVariables): Report
    requires SCOPEDefined(v)
  {
    WithAwards(SCOPEReport(d.inputPrompt, d.promptTitle, v, PVI(v), []))
  }

  function EAVPAnalysis(d: ValuationRequest): Report
    requires EAVPDefined(EAVPInputOf(d))
  {
    WithAwards(EAVPReport(d.inputPrompt, d.promptTitle, EAVPInputOf(d), ComputeEAVP(EAVPInputOf(d)), []))
  }

  function PRICEAnalysis(d: ValuationRequest): Report {
    WithAwards(PRICEReport(d.inputPrompt, d.promptTitle, PRICEInputOf(d), ComputePRICE(PRICEInputOf(d)), []))
  }

  function VECTORAnalysis(d: ValuationRequest, t: Transcendental): Report {
    var c := ComputeVECTOR(VECTORInputOf(d), t);
    WithAwards(VECTORReport(d.inputPrompt, d.promptTitle, VECTORInputOf(d), c, VectorStatusOf(c), None, []))
  }

  // ---------------------------------------------------------------- analyzers

  method AnalyzeWithDLA(d: ValuationRequest) returns (report: Report)
    requires DLADefined(DLAInputOf(d))
    ensures report == DLAAnalysis(d)
  {
    var input := DLAInputOf(d);
    var dla := ComputeDLA(input);
    var earned := AwardAccolades(DLAReport(d.inputPrompt, d.promptTitle, input, dla, []));
    report := DLAReport(d.inputPrompt, d.promptTitle, input, dla, earned);
  }

  /** Fails with the external scorer's error when it has no usable judgment. */
  method AnalyzeWithPVC(d: ValuationRequest, judgment: Result<PVCRawScores>, t: Transcendental)
    returns (result: Result<Report>)
    ensures judgment.Err? ==> result == Err(judgment.error)
    ensures judgment.Ok? ==> result == Ok(PVCAnalysis(d, judgment.value, t))
  {
    if judgment.Err? {
      return Err(judgment.error);
    }
    var rawScores := judgment.value;
    var normalized := Normalize(rawScores);
    var pvc := ComputePVC(rawScores, |d.inputPrompt|, t);
    var tokens := TokenCount(|d.inputPrompt|);
    var earned := AwardAccolades(PVCReport(d.inputPrompt, d.promptTitle, rawScores, normalized, pvc, tokens, []));
    return Ok(PVCReport(d.inputPrompt, d.promptTitle, rawScores, normalized, pvc, tokens, earned));
  }

  method AnalyzeWithSCOPE(d: ValuationRequest, judgment: Result<SCOPEVariables>)
    returns (result: Result<Report>)
    requires judgment.Ok? ==> SCOPEDefined(judgment.value)
    ensures judgment.Err? ==> result == Err(judgment.error)
    ensures judgment.Ok? ==> result == Ok(SCOPEAnalysis(d, judgment.value))
  {
    if judgment.Err? {
      return Err(judgment.error);
    }
    var variables := judgment.value;
    var pvi := PVI(variables);
    var earned := AwardAccolades(SCOPEReport(d.inputPrompt, d.promptTitle, variables, pvi, []));
    return Ok(SCOPEReport(d.inputPrompt, d.promptTitle, variables, pvi, earned));
  }

  method AnalyzeWithEAVP(d: ValuationRequest) returns (report: Report)
    requires EAVPDefined(EAVPInputOf(d))
    ensures report == EAVPAnalysis(d)
  {
    var input := EAVPInputOf(d);
    var eavp := ComputeEAVP(input);
    var earned := AwardAccolades(EAVPReport(d.inputPrompt, d.promptTitle, input, eavp, []));
    report := EAVPReport(d.inputPrompt, d.promptTitle, input, eavp, earned);
  }

  method AnalyzeWithPRICE(d: ValuationRequest) returns (report: Report)
    ensures report == PRICEAnalysis(d)
  {
    var input := PRICEInputOf(d);
    var price := ComputePRICE(input);
    var earned := AwardAccolades(PRICEReport(d.inputPrompt, d.promptTitle, input, price, []));
    report := PRICEReport(d.inputPrompt, d.promptTitle, input, price, earned);
  }

  method AnalyzeWithVECTOR(d: ValuationRequest, t: Transcendental) returns (report: Report)
    ensures report == VECTORAnalysis(d, t)
  {
    var input := VECTORInputOf(d);
    var c := ComputeVECTOR(input, t);
    var status := VectorStatusOf(c);
    var earned := AwardAccolades(VECTORReport(d.inputPrompt, d.promptTitle, input, c, status, None, []));
    report := VECTORReport(d.inputPrompt, d.promptTitle, input, c, status, None, earned);
  }

  // ---------------------------------------------------------------- selection

  function MethodName(m: Method): string {
    match m
    case DLA => "DLA"
    case PVC => "PVC"
    case SCOPE => "SCOPE"
    case EAVP => "EAVP"
    case PRICE => "PRICE"
    case VECTOR => "VECTOR"
  }

  function SelectionName(s: Selection): string {
    match s
    case Single(m) => MethodName(m)
    case Core => "CORE"
    case All => "ALL"
  }

  /** The method selector; anything but the eight names is rejected. */
  function ParseSelection(name: string): (sel: Option<Selection>)
    ensures sel.Some? ==> SelectionName(sel.value) == name
  {
    if name == "ALL" then Some(All)
    else if name == "CORE" then Some(Core)
    else if name == "DLA" then Some(Single(DLA))
    else if name == "PVC" then Some(Single(PVC))
    else if name == "SCOPE" then Some(Single(SCOPE))
    else if name == "EAVP" then Some(Single(EAVP))
    else if name == "PRICE" then Some(Single(PRICE))
    else if name == "VECTOR" then Some(Single(VECTOR))
    else None
  }

  /** The protocols a selection runs, in the order their reports are returned. */
  function Protocols(s: Selection): seq<Method> {
    match s
    case All => [DLA, PVC, SCOPE, EAVP, PRICE, VECTOR]
    case Core => [DLA, PVC, SCOPE]
    case Single(m) => [m]
  }

  /** The divisors a protocol uses are non-zero. */
  predicate ProtocolDefined(m: Method, d: ValuationRequest, scope: Result<SCOPEVariables>) {
    match m
    case DLA => DLADefined(DLAInputOf(d))
    case EAVP => EAVPDefined(EAVPInputOf(d))
    case SCOPE => scope.Ok? ==> SCOPEDefined(scope.value)
    case _ => true
  }

  predicate SelectionDefined(s: Selection, d: ValuationRequest, scope: Result<SCOPEVariables>) {
    forall m :: m in Protocols(s) ==> ProtocolDefined(m, d, scope)
  }

  /** Every divisor any protocol uses is non-zero. */
  predicate RequestDefined(d: ValuationRequest, scope: Result<SCOPEVariables>) {
    DLADefined(DLAInputOf(d)) && EAVPDefined(EAVPInputOf(d)) && (scope.Ok? ==> SCOPEDefined(scope.value))
  }

  predicate OrchestrationDefined(name: string, d: ValuationRequest, scope: Result<SCOPEVariables>) {
    ParseSelection(name).Some? ==> SelectionDefined(ParseSelection(name).value, d, scope)
  }

  /** One protocol's report, or the external scorer's error. */
  function Analysis(m: Method, d: ValuationRequest, pvc: Result<PVCRawScores>,
                    scope: Result<SCOPEVariables>, t: Transcendental): Result<Report>
    requires ProtocolDefined(m, d, scope)
  {
    match m
    case DLA => Ok(DLAAnalysis(d))
    case PVC => if pvc.Err? then Err(pvc.error) else Ok(PVCAnalysis(d, pvc.value, t))
    case SCOPE => if scope.Err? then Err(scope.error) else Ok(SCOPEAnalysis(d, scope.value))
    case EAVP => Ok(EAVPAnalysis(d))
    case PRICE => Ok(PRICEAnalysis(d))
    case VECTOR => Ok(VECTORAnalysis(d, t))
  }

  /** The protocols of one request, one report or scorer error each. */
  function Runner(d: ValuationRequest, pvc: Result<PVCRawScores>,
                  scope: Result<SCOPEVariables>, t: Transcendental): Method --> Result<Report> {
    m requires ProtocolDefined(m, d, scope) => Analysis(m, d, pvc, scope, t)
  }

  /**
   * All the reports of a batch, or the failure of its first failing
   * protocol; `run` gives one protocol's report.
   */
  function RunAll(ms: seq<Method>, run: Method --> Result<Report>): (r: Result<seq<Report>>)
    requires forall m :: m in ms ==> run.requires(m)
    ensures r.Ok? ==> |r.value| == |ms|
  {
    if ms == [] then Ok([])
    else
      var first := run(ms[0]);
      if first.Err? then Err(first.error)
      else
        var rest := RunAll(ms[1..], run);
        if rest.Err? then Err(rest.error) else Ok([first.value] + rest.value)
  }

  datatype Outcome = One(report: Report) | Many(reports: seq<Report>)

  /** A single protocol gives its one report; a batch gives all of them or fails. */
  function Dispatch(s: Selection, run: Method --> Result<Report>): (r: Result<Outcome>)
    requires forall m :: m in Protocols(s) ==> run.requires(m)
    ensures r.Ok? ==> (r.value.One? <==> s.Single?)
    ensures r.Ok? && r.value.Many? ==> |r.value.reports| == |Protocols(s)|
  {
    match s
    case Single(m) =>
      var r := run(m);
      if r.Err? then Err(r.error) else Ok(One(r.value))
    case _ =>
      var rs := RunAll(Protocols(s), run);
      if rs.Err? then Err(rs.error) else Ok(Many(rs.value))
  }

  ghost predicate Runs(name: string, run: Method --> Result<Report>) {
    ParseSelection(name).Some? ==> forall m :: m in Protocols(ParseSelection(name).value) ==> run.requires(m)
  }

  /** What the orchestrator returns for a method name. */
  function Orchestrated(name: string, run: Method --> Result<Report>): Result<Outcome>
    requires Runs(name, run)
  {
    match ParseSelection(name)
    case None => Err(INVALID_METHODOLOGY)
    case Some(s) => Dispatch(s, run)
  }

  /**
   * Runs the selected protocols. ALL and CORE run their protocols side by
   * side and fail as soon as one of them fails, without a partial list;
   * when both external judgments fail, the prompt-quality one is reported.
   */
  method OrchestrateAnalysis(name: string, d: ValuationRequest, pvc: Result<PVCRawScores>,
                             scope: Result<SCOPEVariables>, t: Transcendental)
    returns (result: Result<Outcome>)
    requires OrchestrationDefined(name, d, scope)
    ensures result == Orchestrated(name, Runner(d, pvc, scope, t))
  {
    match ParseSelection(name)
    case None =>
      return Err(INVALID_METHODOLOGY);
    case Some(All) =>
      result := AnalyzeAll(d, pvc, scope, t);
    case Some(Core) =>
      result := AnalyzeCore(d, pvc, scope, t);
    case Some(Single(m)) =>
      var r := AnalyzeOne(m, d, pvc, scope, t);
      if r.Err? {
        return Err(r.error);
      }
      return Ok(One(r.value));
  }

  /** The analyzer of one protocol. */
  method AnalyzeOne(m: Method, d: ValuationRequest, pvc: Result<PVCRawScores>,
                    scope: Result<SCOPEVariables>, t: Transcendental)
    returns (result: Result<Report>)
    requires ProtocolDefined(m, d, scope)
    ensures result == Analysis(m, d, pvc, scope, t)
  {
    match m
    case DLA =>
      var report := AnalyzeWithDLA(d);
      return Ok(report);
    case PVC =>
      result := AnalyzeWithPVC(d, pvc, t);
    case SCOPE =>
      result := AnalyzeWithSCOPE(d, scope);
    case EAVP =>
      var report := AnalyzeWithEAVP(d);
      return Ok(report);
    case PRICE =>
      var report := AnalyzeWithPRICE(d);
      return Ok(report);
    case VECTOR =>
      var report := AnalyzeWithVECTOR(d, t);
      return Ok(report);
  }

  /** ALL: the six protocols are started together, then any failure fails the call. */
  method AnalyzeAll(d: ValuationRequest, pvc: Result<PVCRawScores>,
                    scope: Result<SCOPEVariables>, t: Transcendental)
    returns (result: Result<Outcome>)
    requires SelectionDefined(All, d, scope)
    ensures result == Dispatch(All, Runner(d, pvc, scope, t))
  {
    assert DLA in Protocols(All) && SCOPE in Protocols(All) && EAVP in Protocols(All);
    var dla := AnalyzeWithDLA(d);
    var quality := AnalyzeWithPVC(d, pvc, t);
    var density := AnalyzeWithSCOPE(d, scope);
    var eavp := AnalyzeWithEAVP(d);
    var price := AnalyzeWithPRICE(d);
    var vector := AnalyzeWithVECTOR(d, t);
    if quality.Err? {
      AllFailsOnPVC(d, pvc, scope, t);
      return Err(quality.error);
    }
    if density.Err? {
      AllFailsOnSCOPE(d, pvc, scope, t);
      return Err(density.error);
    }
    AllSucceeds(d, pvc, scope, t);
    return Ok(Many([dla, quality.value, density.value, eavp, price, vector]));
  }

  /** CORE: DLA, PVC and SCOPE are started together, then any failure fails the call. */
  method AnalyzeCore(d: ValuationRequest, pvc: Result<PVCRawScores>,
                     scope: Result<SCOPEVariables>, t: Transcendental)
    returns (result: Result<Outcome>)
    requires SelectionDefined(Core, d, scope)
    ensures result == Dispatch(Core, Runner(d, pvc, scope, t))
  {
    assert DLA in Protocols(Core) && SCOPE in Protocols(Core);
    var dla := AnalyzeWithDLA(d);
    var quality := AnalyzeWithPVC(d, pvc, t);
    var density := AnalyzeWithSCOPE(d, scope);
    ghost var run := Runner(d, pvc, scope, t);
    RunnerGivesDLA(d, pvc, scope, t);
    if quality.Err? {
      RunnerFailsPVC(d, pvc, scope, t);
      DispatchFailsAt(Core, run, 1);
      return Err(quality.error);
    }
    RunnerGivesPVC(d, pvc, scope, t);
    if density.Err? {
      RunnerFailsSCOPE(d, pvc, scope, t);
      DispatchFailsAt(Core, run, 2);
      return Err(density.error);
    }
    RunnerGivesSCOPE(d, pvc, scope, t);
    DispatchCoreSucceeds(run, dla, quality.value, density.value);
    return Ok(Many([dla, quality.value, density.value]));
  }

  /** A batch fails with the error of a failing protocol when every earlier one succeeds. */
  lemma DispatchFailsAt(s: Selection, run: Method --> Result<Report>, i: nat)
    requires !s.Single?
    requires forall m :: m in Protocols(s) ==> run.requires(m)
    requires i < |Protocols(s)| && run(Protocols(s)[i]).Err?
    requires forall j :: 0 <= j < i ==> run(Protocols(s)[j]).Ok?
    ensures Dispatch(s, run) == Err(run(Protocols(s)[i]).error)
  {
    DispatchBatch(s, run);
    var k :| 0 <= k < |Protocols(s)| && run(Protocols(s)[k]).Err? &&
             Dispatch(s, run).error == run(Protocols(s)[k]).error &&
             (forall j :: 0 <= j < k ==> run(Protocols(s)[j]).Ok?);
    assert k == i;
  }

  lemma DispatchAllSucceeds(run: Method --> Result<Report>, a: Report, b: Report, c: Report,
                            d: Report, e: Report, f: Report)
    requires run.requires(DLA) && run.requires(PVC) && run.requires(SCOPE)
    requires run.requires(EAVP) && run.requires(PRICE) && run.requires(VECTOR)
    requires run(DLA) == Ok(a) && run(PVC) == Ok(b) && run(SCOPE) == Ok(c)
    requires run(EAVP) == Ok(d) && run(PRICE) == Ok(e) && run(VECTOR) == Ok(f)
    ensures forall m :: m in Protocols(All) ==> run.requires(m)
    ensures Dispatch(All, run) == Ok(Many([a, b, c, d, e, f]))
  {
    DispatchBatch(All, run);
    ListOfSix(Dispatch(All, run).value.reports, a, b, c, d, e, f);
  }

  lemma DispatchCoreSucceeds(run: Method --> Result<Report>, a: Report, b: Report, c: Report)
    requires run.requires(DLA) && run.requires(PVC) && run.requires(SCOPE)
    requires run(DLA) == Ok(a) && run(PVC) == Ok(b) && run(SCOPE) == Ok(c)
    ensures forall m :: m in Protocols(Core) ==> run.requires(m)
    ensures Dispatch(Core, run) == Ok(Many([a, b, c]))
  {
    DispatchBatch(Core, run);
    ListOfThree(Dispatch(Core, run).value.reports, a, b, c);
  }

  lemma ListOfSix(rs: seq<Report>, a: Report, b: Report, c: Report, d: Report, e: Report, f: Report)
    requires |rs| == 6 && rs[0] == a && rs[1] == b && rs[2] == c && rs[3] == d && rs[4] == e && rs[5] == f
    ensures rs == [a, b, c, d, e, f]
  {
  }

  lemma ListOfThree(rs: seq<Report>, a: Report, b: Report, c: Report)
    requires |rs| == 3 && rs[0] == a && rs[1] == b && rs[2] == c
    ensures rs == [a, b, c]
  {
  }

  // ---------------------------------------------------------------- properties

  /** Badges depend on a report's figures, never on the badges it already shows. */
  lemma {:induction false} KeepIgnoresAccolades(ks: seq<BadgeKey>, r: Report, bs: seq<Badge>)
    ensures Keep(ks, r.(accolades := bs)) == Keep(ks, r)
    decreases |ks|
  {
    if ks != [] {
      KeepIgnoresAccolades(ks[..|ks| - 1], r, bs);
    }
  }

  /** A finished report shows exactly the badges its own figures earn. */
  lemma AnalysisShowsOwnAwards(r: Report)
    ensures WithAwards(r).accolades == Awarded(WithAwards(r))
    ensures WithAwards(r).Method() == r.Method()
  {
    KeepIgnoresAccolades(Candidates(r.Method()), r, Awarded(r));
  }

  /** Only the two externally judged protocols can fail, and only with their scorer's error. */
  lemma AnalysisOutcome(m: Method, d: ValuationRequest, pvc: Result<PVCRawScores>,
                        scope: Result<SCOPEVariables>, t: Transcendental)
    requires ProtocolDefined(m, d, scope)
    ensures Analysis(m, d, pvc, scope, t).Err? <==> (m == PVC && pvc.Err?) || (m == SCOPE && scope.Err?)
    ensures m == PVC && pvc.Err? ==> Analysis(m, d, pvc, scope, t) == Err(pvc.error)
    ensures m == SCOPE && scope.Err? ==> Analysis(m, d, pvc, scope, t) == Err(scope.error)
    ensures Analysis(m, d, pvc, scope, t).Ok? ==> Analysis(m, d, pvc, scope, t).value.Method() == m
  {
  }

  /** A batch succeeds iff every protocol in it does, and then lists their reports in batch order. */
  lemma {:induction false} RunAllSucceeds(ms: seq<Method>, run: Method --> Result<Report>)
    requires forall m :: m in ms ==> run.requires(m)
    ensures RunAll(ms, run).Ok? <==> forall i :: 0 <= i < |ms| ==> run(ms[i]).Ok?
    ensures RunAll(ms, run).Ok? ==>
      |RunAll(ms, run).value| == |ms| &&
      forall i :: 0 <= i < |ms| ==> RunAll(ms, run).value[i] == run(ms[i]).value
  {
    if ms != [] {
      RunAllSucceeds(ms[1..], run);
      if run(ms[0]).Ok? && RunAll(ms[1..], run).Ok? {
        var all := RunAll(ms, run).value;
        forall i | 0 <= i < |ms|
          ensures all[i] == run(ms[i]).value
        {
          if i > 0 {
            assert ms[i] == ms[1..][i - 1];
          }
        }
      } else if run(ms[0]).Ok? {
        var j :| 0 <= j < |ms[1..]| && run(ms[1..][j]).Err?;
        assert ms[1..][j] == ms[j + 1];
      }
    }
  }

  /** A failed batch reports the error of its first failing protocol, and nothing else. */
  lemma {:induction false} RunAllFirstFailure(ms: seq<Method>, run: Method --> Result<Report>)
    requires forall m :: m in ms ==> run.requires(m)
    requires RunAll(ms, run).Err?
    ensures exists i :: 0 <= i < |ms| && run(ms[i]).Err? && RunAll(ms, run).error == run(ms[i]).error &&
                        (forall j :: 0 <= j < i ==> run(ms[j]).Ok?)
  {
    if run(ms[0]).Err? {
      assert run(ms[0]).Err?;
    } else {
      RunAllFirstFailure(ms[1..], run);
      var i :| 0 <= i < |ms[1..]| && run(ms[1..][i]).Err? && RunAll(ms[1..], run).error == run(ms[1..][i]).error &&
               (forall j :: 0 <= j < i ==> run(ms[1..][j]).Ok?);
      forall j | 0 <= j < i + 1
        ensures run(ms[j]).Ok?
      {
        if j > 0 {
          assert ms[j] == ms[1..][j - 1];
        }
      }
      assert ms[i + 1] == ms[1..][i];
    }
  }

  /**
   * A batch succeeds exactly when every protocol does, and then yields one
   * report per protocol in batch order; otherwise it fails with the first
   * failure in batch order and no list.
   */
  lemma DispatchBatch(s: Selection, run: Method --> Result<Report>)
    requires !s.Single?
    requires forall m :: m in Protocols(s) ==> run.requires(m)
    ensures Dispatch(s, run).Ok? <==> forall i :: 0 <= i < |Protocols(s)| ==> run(Protocols(s)[i]).Ok?
    ensures Dispatch(s, run).Ok? ==>
      Dispatch(s, run).value.Many? && |Dispatch(s, run).value.reports| == |Protocols(s)| &&
      forall i :: 0 <= i < |Protocols(s)| ==> Dispatch(s, run).value.reports[i] == run(Protocols(s)[i]).value
    ensures Dispatch(s, run).Err? ==>
      exists i :: 0 <= i < |Protocols(s)| && run(Protocols(s)[i]).Err? &&
                  Dispatch(s, run).error == run(Protocols(s)[i]).error &&
                  (forall j :: 0 <= j < i ==> run(Protocols(s)[j]).Ok?)
  {
    RunAllSucceeds(Protocols(s), run);
    if Dispatch(s, run).Err? {
      RunAllFirstFailure(Protocols(s), run);
    }
  }

  /**
   * For one request, ALL and CORE succeed exactly when both external
   * judgments do, and then yield one report per protocol, each tagged with
   * its protocol; when the prompt-quality judgment fails its error is
   * reported, else the semantic-density one's.
   */
  lemma BatchOutcome(s: Selection, d: ValuationRequest, pvc: Result<PVCRawScores>,
                     scope: Result<SCOPEVariables>, t: Transcendental)
    requires !s.Single? && SelectionDefined(s, d, scope)
    ensures Dispatch(s, Runner(d, pvc, scope, t)).Ok? <==> pvc.Ok? && scope.Ok?
    ensures pvc.Err? ==> Dispatch(s, Runner(d, pvc, scope, t)) == Err(pvc.error)
    ensures pvc.Ok? && scope.Err? ==> Dispatch(s, Runner(d, pvc, scope, t)) == Err(scope.error)
    ensures Dispatch(s, Runner(d, pvc, scope, t)).Ok? ==>
      var out := Dispatch(s, Runner(d, pvc, scope, t)).value;
      out.Many? && |out.reports| == |Protocols(s)| &&
      forall i :: 0 <= i < |Protocols(s)| ==>
        Analysis(Protocols(s)[i], d, pvc, scope, t).Ok? &&
        out.reports[i] == Analysis(Protocols(s)[i], d, pvc, scope, t).value &&
        out.reports[i].Method() == Protocols(s)[i]
  {
    var ms := Protocols(s);
    var run := Runner(d, pvc, scope, t);
    assert ms[0] == DLA && ms[1] == PVC && ms[2] == SCOPE;
    forall i | 0 <= i < |ms|
      ensures run(ms[i]).Err? <==> (ms[i] == PVC && pvc.Err?) || (ms[i] == SCOPE && scope.Err?)
      ensures run(ms[i]).Ok? ==> run(ms[i]).value.Method() == ms[i]
      ensures ms[i] == PVC && pvc.Err? ==> run(ms[i]) == Err(pvc.error)
      ensures ms[i] == SCOPE && scope.Err? ==> run(ms[i]) == Err(scope.error)
    {
      AnalysisOutcome(ms[i], d, pvc, scope, t);
    }
    DispatchBatch(s, run);
    if Dispatch(s, run).Err? {
      var i :| 0 <= i < |ms| && run(ms[i]).Err? && Dispatch(s, run).error == run(ms[i]).error &&
               (forall j :: 0 <= j < i ==> run(ms[j]).Ok?);
      assert i == 1 || i == 2;
    }
  }

  /** What each protocol of one request gives. */
  lemma RunnerGivesDLA(d: ValuationRequest, pvc: Result<PVCRawScores>, scope: Result<SCOPEVariables>, t: Transcendental)
    requires DLADefined(DLAInputOf(d))
    ensures Runner(d, pvc, scope, t)(DLA) == Ok(DLAAnalysis(d))
  {
  }

  lemma RunnerGivesPVC(d: ValuationRequest, pvc: Result<PVCRawScores>, scope: Result<SCOPEVariables>, t: Transcendental)
    requires pvc.Ok?
    ensures Runner(d, pvc, scope, t)(PVC) == Ok(PVCAnalysis(d, pvc.value, t))
  {
  }

  lemma RunnerGivesSCOPE(d: ValuationRequest, pvc: Result<PVCRawScores>, scope: Result<SCOPEVariables>, t: Transcendental)
    requires scope.Ok? && SCOPEDefined(scope.value)
    ensures Runner(d, pvc, scope, t)(SCOPE) == Ok(SCOPEAnalysis(d, scope.value))
  {
  }

  lemma RunnerGivesEAVP(d: ValuationRequest, pvc: Result<PVCRawScores>, scope: Result<SCOPEVariables>, t: Transcendental)
    requires EAVPDefined(EAVPInputOf(d))
    ensures Runner(d, pvc, scope, t)(EAVP) == Ok(EAVPAnalysis(d))
  {
  }

  lemma RunnerGivesPRICE(d: ValuationRequest, pvc: Result<PVCRawScores>, scope: Result<SCOPEVariables>, t: Transcendental)
    ensures Runner(d, pvc, scope, t)(PRICE) == Ok(PRICEAnalysis(d))
  {
  }

  lemma RunnerGivesVECTOR(d: ValuationRequest, pvc: Result<PVCRawScores>, scope: Result<SCOPEVariables>, t: Transcendental)
    ensures Runner(d, pvc, scope, t)(VECTOR) == Ok(VECTORAnalysis(d, t))
  {
  }

  lemma RunnerFailsPVC(d: ValuationRequest, pvc: Result<PVCRawScores>, scope: Result<SCOPEVariables>, t: Transcendental)
    requires pvc.Err?
    ensures Runner(d, pvc, scope, t)(PVC) == Err(pvc.error)
  {
  }

  lemma RunnerFailsSCOPE(d: ValuationRequest, pvc: Result<PVCRawScores>, scope: Result<SCOPEVariables>, t: Transcendental)
    requires scope.Err?
    ensures Runner(d, pvc, scope, t)(SCOPE) == Err(scope.error)
  {
  }

  /** ALL fails with the prompt-quality scorer's error when that scorer fails. */
  lemma AllFailsOnPVC(d: ValuationRequest, pvc: Result<PVCRawScores>,
                      scope: Result<SCOPEVariables>, t: Transcendental)
    requires RequestDefined(d, scope) && pvc.Err?
    ensures Dispatch(All, Runner(d, pvc, scope, t)) == Err(pvc.error)
  {
    var run := Runner(d, pvc, scope, t);
    BatchProtocols();
    forall m | m in Protocols(All) ensures run.requires(m) {
      assert ProtocolDefined(m, d, scope);
    }
    RunnerGivesDLA(d, pvc, scope, t);
    RunnerFailsPVC(d, pvc, scope, t);
    assert forall j :: 0 <= j < 1 ==> run(Protocols(All)[j]).Ok?;
    DispatchFailsAt(All, run, 1);
  }

  /** Otherwise ALL fails with the semantic-density scorer's error when that scorer fails. */
  lemma AllFailsOnSCOPE(d: ValuationRequest, pvc: Result<PVCRawScores>,
                        scope: Result<SCOPEVariables>, t: Transcendental)
    requires RequestDefined(d, scope) && pvc.Ok? && scope.Err?
    ensures Dispatch(All, Runner(d, pvc, scope, t)) == Err(scope.error)
  {
    var run := Runner(d, pvc, scope, t);
    BatchProtocols();
    forall m | m in Protocols(All) ensures run.requires(m) {
      assert ProtocolDefined(m, d, scope);
    }
    RunnerGivesDLA(d, pvc, scope, t);
    RunnerGivesPVC(d, pvc, scope, t);
    RunnerFailsSCOPE(d, pvc, scope, t);
    assert forall j :: 0 <= j < 2 ==> run(Protocols(All)[j]).Ok?;
    DispatchFailsAt(All, run, 2);
  }

  /** With both judgments, ALL gives the six analyzers' reports in order. */
  lemma AllSucceeds(d: ValuationRequest, pvc: Result<PVCRawScores>,
                    scope: Result<SCOPEVariables>, t: Transcendental)
    requires RequestDefined(d, scope) && pvc.Ok? && scope.Ok?
    ensures Dispatch(All, Runner(d, pvc, scope, t)) ==
              Ok(Many([DLAAnalysis(d), PVCAnalysis(d, pvc.value, t), SCOPEAnalysis(d, scope.value),
                       EAVPAnalysis(d), PRICEAnalysis(d), VECTORAnalysis(d, t)]))
  {
    assert DLA in Protocols(All) && SCOPE in Protocols(All) && EAVP in Protocols(All);
    RunnerGivesDLA(d, pvc, scope, t);
    RunnerGivesPVC(d, pvc, scope, t);
    RunnerGivesSCOPE(d, pvc, scope, t);
    RunnerGivesEAVP(d, pvc, scope, t);
    RunnerGivesPRICE(d, pvc, scope, t);
    RunnerGivesVECTOR(d, pvc, scope, t);
    DispatchAllSucceeds(Runner(d, pvc, scope, t), DLAAnalysis(d), PVCAnalysis(d, pvc.value, t),
                        SCOPEAnalysis(d, scope.value), EAVPAnalysis(d), PRICEAnalysis(d), VECTORAnalysis(d, t));
  }

  /** ALL: the six reports in order, or the first failing judgment's error and no list. */
  lemma AllOutcome(d: ValuationRequest, pvc: Result<PVCRawScores>,
                   scope: Result<SCOPEVariables>, t: Transcendental)
    requires RequestDefined(d, scope)
    ensures SelectionDefined(All, d, scope)
    ensures pvc.Err? ==> Dispatch(All, Runner(d, pvc, scope, t)) == Err(pvc.error)
    ensures pvc.Ok? && scope.Err? ==> Dispatch(All, Runner(d, pvc, scope, t)) == Err(scope.error)
    ensures pvc.Ok? && scope.Ok? ==>
              Dispatch(All, Runner(d, pvc, scope, t)) ==
              Ok(Many([DLAAnalysis(d), PVCAnalysis(d, pvc.value, t), SCOPEAnalysis(d, scope.value),
                       EAVPAnalysis(d), PRICEAnalysis(d), VECTORAnalysis(d, t)]))
  {
    assert DLA in Protocols(All) && SCOPE in Protocols(All) && EAVP in Protocols(All);
    if pvc.Err? {
      AllFailsOnPVC(d, pvc, scope, t);
    } else if scope.Err? {
      AllFailsOnSCOPE(d, pvc, scope, t);
    } else {
      AllSucceeds(d, pvc, scope, t);
    }
  }

  /** ALL runs DLA, PVC, SCOPE, EAVP, PRICE, VECTOR; CORE runs the first three. */
  lemma BatchProtocols()
    ensures Protocols(All) == [DLA, PVC, SCOPE, EAVP, PRICE, VECTOR]
    ensures Protocols(Core) == Protocols(All)[..3]
    ensures ParseSelection("ALL") == Some(All) && ParseSelection("CORE") == Some(Core)
  {
  }

  /** A single protocol's name yields that protocol's one report, or its failure. */
  lemma OrchestrateSingle(m: Method, run: Method --> Result<Report>)
    requires run.requires(m)
    ensures Runs(MethodName(m), run)
    ensures Orchestrated(MethodName(m), run).Ok? <==> run(m).Ok?
    ensures run(m).Ok? ==> Orchestrated(MethodName(m), run) == Ok(One(run(m).value))
    ensures run(m).Err? ==> Orchestrated(MethodName(m), run) == Err(run(m).error)
  {
    assert ParseSelection(MethodName(m)) == Some(Single(m));
  }

  /** A batch gives, for each of its protocols, the report that selecting that protocol alone gives. */
  lemma BatchAgreesWithSingles(s: Selection, run: Method --> Result<Report>, i: nat)
    requires !s.Single?
    requires forall m :: m in Protocols(s) ==> run.requires(m)
    requires Dispatch(s, run).Ok?
    requires i < |Protocols(s)|
    ensures Runs(MethodName(Protocols(s)[i]), run)
    ensures Orchestrated(MethodName(Protocols(s)[i]), run) == Ok(One(Dispatch(s, run).value.reports[i]))
  {
    DispatchBatch(s, run);
    OrchestrateSingle(Protocols(s)[i], run);
  }

  /** Exactly the eight method names are accepted. */
  lemma AcceptedNames(name: string)
    ensures ParseSelection(name).Some? <==> name in ["ALL", "CORE", "DLA", "PVC", "SCOPE", "EAVP", "PRICE", "VECTOR"]
  {
  }

  /** Every other name is rejected with the invalid-methodology error, whatever the protocols would give. */
  lemma UnknownNameRejected(name: string, run: Method --> Result<Report>)
    requires ParseSelection(name).None?
    ensures Runs(name, run)
    ensures Orchestrated(name, run) == Err(INVALID_METHODOLOGY)
  {
  }

  /** Naming a selection and reading the name back gives the same selection. */
  lemma SelectionNameRoundTrip(s: Selection)
    ensures ParseSelection(SelectionName(s)) == Some(s)
  {
  }

  /** The reports a selection returns come in canonical order, with no protocol twice. */
  lemma ProtocolsInCanonicalOrder(s: Selection)
    ensures forall i, j :: 0 <= i < j < |Protocols(s)| ==>
      MethodRank(Protocols(s)[i]) < MethodRank(Protocols(s)[j])
  {
  }
}
