/**
 * The quick multi-protocol preview (components/AutoAnalyzer.tsx): a
 * heuristic prompt score from a few surface features, and a run that walks
 * the six protocols in its own display order, marking each running and then
 * complete with the heuristic score nudged by a random amount and clamped.
 *
 * The feature tests (word count, header, variable and constraint patterns)
 * are regular-expression matches outside the model and arrive as inputs;
 * the random nudges arrive as a parameter; the delays and the summary
 * strings are not modelled.
 */
module AutoAnalyzer {
  import opened Wrappers
  import opened Numerics
  import opened Types

  /** What the heuristic reads off the prompt. */
  datatype PromptCues = PromptCues(words: nat, hasHeaders: bool, hasVariables: bool, hasConstraints: bool)

  /** The order the preview walks the protocols in. */
  const PROTOCOLS: seq<Method> := [DLA, EAVP, PRICE, VECTOR, PVC, SCOPE]

  function ProtocolName(m: Method): string {
    match m
    case DLA => "D.L.A. - Labor Arbitrage"
    case EAVP => "E.A.V.P. - Asset Verification"
    case PRICE => "P.R.I.C.E. - Asset Protocol"
    case VECTOR => "V.E.C.T.O.R. - Risk System"
    case PVC => "P.V.C. - Quality Score"
    case SCOPE => "S.C.O.P.E. - Semantic Density"
  }

  datatype Status = Pending | Running | Complete

  datatype ProtocolResult = ProtocolResult(id: Method, name: string, status: Status, score: Option<real>)

  function StatusRank(s: Status): nat {
    match s
    case Pending => 0
    case Running => 1
    case Complete => 2
  }

  /**
   * The heuristic as a formula: 15 for fewer than ten words; otherwise 20,
   * plus 20 past 50 words, 10 more past 150, 15 for headers, 15 for
   * variables and 20 for constraint words, capped at 98.
   */
  function HeuristicScore(c: PromptCues): (score: int)
    ensures 15 <= score <= 98
    ensures c.words < 10 ==> score == 15
  {
    if c.words < 10 then 15
    else
      var total := 20 + (if c.words > 50 then 20 else 0) + (if c.words > 150 then 10 else 0)
                   + (if c.hasHeaders then 15 else 0) + (if c.hasVariables then 15 else 0)
                   + (if c.hasConstraints then 20 else 0);
      if total <= 98 then total else 98
  }

  /** The score accumulated step by step, overwritten for short prompts, then capped. */
  method GetHeuristicScore(c: PromptCues) returns (score: int)
    ensures score == HeuristicScore(c)
    ensures 15 <= score <= 98
  {
    score := 20;
    if c.words > 50 {
      score := score + 20;
    }
    if c.words > 150 {
      score := score + 10;
    }
    if c.hasHeaders {
      score := score + 15;
    }
    if c.hasVariables {
      score := score + 15;
    }
    if c.hasConstraints {
      score := score + 20;
    }
    if c.words < 10 {
      score := 15;
    }
    score := if score <= 98 then score else 98;
  }

  /** A protocol's preview score: the base nudged by `mod` and clamped to [0, 100]. */
  function FinalScore(base: int, mod: real): (r: real)
    ensures 0.0 <= r <= 100.0
  {
    Clamp(base as real + mod, 0.0, 100.0)
  }

  /** The results list before anything has run. */
  function PendingList(): (rs: seq<ProtocolResult>)
    ensures |rs| == |PROTOCOLS|
  {
    seq(|PROTOCOLS|, j requires 0 <= j < |PROTOCOLS| => ProtocolResult(PROTOCOLS[j], ProtocolName(PROTOCOLS[j]), Pending, None))
  }

  /**
   * The status of entry `j` in the results list the run publishes at
   * `step`: step 0 is the all-pending list, step 2j + 1 marks entry j
   * running and step 2j + 2 marks it complete.
   */
  function StatusAt(step: nat, j: nat): Status {
    if step <= 2 * j then Pending else if step == 2 * j + 1 then Running else Complete
  }

  /** The results list the run publishes at `step`; a completed entry carries its score. */
  function Published(step: nat, base: int, mods: seq<real>): (rs: seq<ProtocolResult>)
    requires |mods| == |PROTOCOLS|
    ensures |rs| == |PROTOCOLS|
  {
    seq(|PROTOCOLS|, j requires 0 <= j < |PROTOCOLS| =>
      ProtocolResult(PROTOCOLS[j], ProtocolName(PROTOCOLS[j]), StatusAt(step, j),
                     if StatusAt(step, j) == Complete then Some(FinalScore(base, mods[j])) else None))
  }

  /** The preview's state: the published results and whether a run is under way. */
  class Analyzer {
    var results: seq<ProtocolResult>
    var isAnalyzing: bool

    constructor()
      ensures results == [] && !isAnalyzing
    {
      results := [];
      isAnalyzing := false;
    }

    /**
     * Runs the preview. A blank prompt does nothing. Otherwise every list
     * the run publishes is appended to `trace`: the pending list, then for
     * each protocol in turn the list with it running and the list with it
     * complete. `mods` holds the random nudge of each protocol.
     */
    method RunAnalysis(promptBlank: bool, c: PromptCues, mods: seq<real>) returns (trace: seq<seq<ProtocolResult>>)
      requires |mods| == |PROTOCOLS|
      modifies this
      ensures promptBlank ==> trace == [] && results == old(results) && isAnalyzing == old(isAnalyzing)
      ensures !promptBlank ==> |trace| == 2 * |PROTOCOLS| + 1 && results == trace[|trace| - 1] && !isAnalyzing
      ensures forall step :: 0 <= step < |trace| ==> trace[step] == Published(step, HeuristicScore(c), mods)
    {
      trace := [];
      if promptBlank {
        return;
      }
      isAnalyzing := true;
      results := PendingList();
      var baseScore := GetHeuristicScore(c);
      PublishedStart(baseScore, mods);
      trace := [results];
      var i := 0;
      while i < |PROTOCOLS|
        invariant 0 <= i <= |PROTOCOLS|
        invariant |trace| == 2 * i + 1 && results == trace[2 * i]
        invariant forall step :: 0 <= step < |trace| ==> trace[step] == Published(step, baseScore, mods)
      {
        PublishedRunning(i, baseScore, mods);
        results := results[i := results[i].(status := Running)];
        trace := trace + [results];
        var finalScore := Max(0.0, Min(baseScore as real + mods[i], 100.0));
        PublishedComplete(i, baseScore, mods);
        results := results[i := results[i].(status := Complete, score := Some(finalScore))];
        trace := trace + [results];
        i := i + 1;
      }
      isAnalyzing := false;
    }
  }

  /** The first published list is the pending one. */
  lemma PublishedStart(base: int, mods: seq<real>)
    requires |mods| == |PROTOCOLS|
    ensures Published(0, base, mods) == PendingList()
  {
  }

  /** Marking entry i running turns the list of step 2i into that of step 2i + 1. */
  lemma PublishedRunning(i: nat, base: int, mods: seq<real>)
    requires |mods| == |PROTOCOLS| && i < |PROTOCOLS|
    ensures var before := Published(2 * i, base, mods);
      before[i := before[i].(status := Running)] == Published(2 * i + 1, base, mods)
  {
  }

  /** Completing entry i with its score turns the list of step 2i + 1 into that of step 2i + 2. */
  lemma PublishedComplete(i: nat, base: int, mods: seq<real>)
    requires |mods| == |PROTOCOLS| && i < |PROTOCOLS|
    ensures var before := Published(2 * i + 1, base, mods);
      before[i := before[i].(status := Complete, score := Some(FinalScore(base, mods[i])))] ==
        Published(2 * i + 2, base, mods)
  {
  }

  // ---------------------------------------------------------------- properties

  /** A prompt of 10 to 50 words with no header, variable or constraint scores the base 20. */
  lemma HeuristicPlainPrompt(c: PromptCues)
    ensures c.words >= 10 && !c.hasHeaders && !c.hasVariables && !c.hasConstraints && c.words <= 50 ==>
              HeuristicScore(c) == 20
  {
  }

  /** Every feature at once would reach 100 and is capped at 98. */
  lemma HeuristicCap()
    ensures HeuristicScore(PromptCues(151, true, true, true)) == 98
  {
  }

  /** Cues that are at least as strong in every feature never score lower. */
  lemma HeuristicMonotone(c: PromptCues, d: PromptCues)
    requires c.words <= d.words
    requires c.hasHeaders ==> d.hasHeaders
    requires c.hasVariables ==> d.hasVariables
    requires c.hasConstraints ==> d.hasConstraints
    ensures HeuristicScore(c) <= HeuristicScore(d)
  {
  }

  /**
   * With a nudge in [-5, 5] the nudged score is the base plus the nudge,
   * cut at 100, and never below 10.
   */
  lemma FinalScoreNear(base: int, mod: real)
    requires 15 <= base <= 98 && -5.0 <= mod <= 5.0
    ensures base as real + mod <= 100.0 ==> FinalScore(base, mod) == base as real + mod
    ensures base as real + mod > 100.0 ==> FinalScore(base, mod) == 100.0
    ensures 10.0 <= FinalScore(base, mod) <= 100.0
  {
  }

  /** Along the run each entry only moves forward: pending, then running, then complete. */
  lemma StatusMovesForward(step: nat, j: nat)
    ensures StatusRank(StatusAt(step, j)) <= StatusRank(StatusAt(step + 1, j))
  {
  }

  /** At most one entry is running at a time, and only once every earlier entry is complete. */
  lemma OneRunningInOrder(step: nat, j: nat, k: nat)
    requires StatusAt(step, j) == Running
    ensures k < j ==> StatusAt(step, k) == Complete
    ensures k > j ==> StatusAt(step, k) == Pending
  {
  }

  /** When the run ends every protocol is complete and carries its clamped, nudged score. */
  lemma RunEndsComplete(base: int, mods: seq<real>)
    requires |mods| == |PROTOCOLS|
    ensures forall j :: 0 <= j < |PROTOCOLS| ==>
      Published(2 * |PROTOCOLS|, base, mods)[j].status == Complete &&
      Published(2 * |PROTOCOLS|, base, mods)[j].score == Some(FinalScore(base, mods[j])) &&
      Published(2 * |PROTOCOLS|, base, mods)[j].id == PROTOCOLS[j]
  {
    var last := Published(2 * |PROTOCOLS|, base, mods);
    forall j | 0 <= j < |PROTOCOLS|
      ensures last[j].status == Complete && last[j].score == Some(FinalScore(base, mods[j]))
    {
      assert StatusAt(2 * |PROTOCOLS|, j) == Complete;
    }
  }

  /** The preview walks all six protocols once each, in its own order rather than the canonical one. */
  lemma PreviewOrder()
    ensures forall m: Method :: m in PROTOCOLS
    ensures forall i, j :: 0 <= i < j < |PROTOCOLS| ==> PROTOCOLS[i] != PROTOCOLS[j]
    ensures MethodRank(PROTOCOLS[3]) > MethodRank(PROTOCOLS[4])
  {
    forall m: Method ensures m in PROTOCOLS {
      var k := match m
        case DLA => 0
        case EAVP => 1
        case PRICE => 2
        case VECTOR => 3
        case PVC => 4
        case SCOPE => 5;
      assert PROTOCOLS[k] == m;
    }
  }
}
