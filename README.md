# Prompt valuation engine — a Dafny model

This project models the deterministic core of a prompt-valuation tool.
The tool prices a prompt under six protocols:

- DLA, the labor arbitrage of a model against a human typist;
- PVC, prompt quality from seven judged dimensions;
- SCOPE, semantic density as a prompt value index (PVI);
- EAVP, empirical verification of the time saved;
- PRICE, asset pricing over a yearly volume;
- VECTOR, production viability with a geometric-mean quality.

A single request can run one protocol, the CORE trio (DLA, PVC, SCOPE) or ALL six.
Each report earns badges from a fixed catalog of twelve, four per tier.

The model covers these parts of the tool:

- the calculators, the badge awarding and the orchestrator (`services/gemini.ts`);
- the configuration constants, the badge catalog and the documentation-template filler (`constants.ts`);
- the heuristic prompt reader and estimator that pre-fills a request, in its current form (`components/SmartAnalyzer.tsx`) and in an older unused copy (`components/SmartAnalayzer.tsx`);
- the certificate's scoring, grading and portfolio aggregation (`cert/react/Certificate.tsx`);
- the request form's validation and volume suggestion (`components/AnalysisForm.tsx`);
- the multi-report view's pass marks, colours and display order (`components/MultiReportResult.tsx`);
- the quick multi-protocol preview (`components/AutoAnalyzer.tsx`).

Pure computations are functions with lemmas.
Where the source builds a value by reassigning variables step by step, the model has a method with that structure, proved equal to a specification function:

- the heuristic reader and estimator;
- `awardAccolades`;
- the template filler;
- `processSingleReport`;
- the preview score.

Stateful components are classes whose methods say exactly what they change:

- the request form: the request being edited, the error table and the chosen industry;
- the preview: the published results and the running flag.

The external model calls are parameters. So are `Math.pow` with exponents 1/3 and 1.2 and `Math.log10`, which the model does not compute. Lemmas that need facts about them require `Sound(t)`.

Module layout:

| module | models |
|---|---|
| `Wrappers`, `Numerics`, `Strings`, `StableSort` | Option/Result; clamp, `Math.round`, `toFixed`; `split`/`join`/`replace`; JavaScript's stable `Array.prototype.sort` |
| `Types`, `Config` | the request and report records; the constants and the badge catalog |
| `Calculators`, `Accolades`, `Engine` | the protocol formulas; `awardAccolades`; the six analyzers and `orchestrateAnalysis` |
| `Template` | `populateTemplate` |
| `SmartAnalyzer`, `LegacyAnalyzer` | the pre-fill engine, current and older |
| `Certificate`, `AnalysisForm`, `MultiReport`, `AutoAnalyzer` | the four components |

## Model

| member | source | states |
|---|---|---|
| Numerics.Clamp | services/gemini.ts:150 | the result lies in [lo, hi], equals x inside the band, lo below it and hi above it |
| Numerics.Round | components/AnalysisForm.tsx:81 | `Math.round` gives the integer within half a unit of x, halves going up |
| Numerics.ToFixed | components/SmartAnalyzer.tsx:194 | the number `toFixed(d)` denotes is within half a unit in the last place of x and keeps x's sign |
| Numerics.RoundedNearMagnitude | components/SmartAnalyzer.tsx:194 | rounding a magnitude at scale p lands within 0.5/p of it and is non-negative |
| Strings.FirstIndex | constants.ts:205-222 | the index found is an occurrence with none before it; no index means no occurrence |
| Strings.ReplaceFirst | constants.ts:205-222 | string `replace` changes only the leftmost occurrence, to `rep`, and leaves a string without one alone |
| Strings.Split | cert/react/Certificate.tsx:154 | `split` always yields at least one piece |
| Strings.SplitJoinRoundTrip | constants.ts:193-201 | joining the pieces of a split with the pattern gives back the string |
| Strings.ReplaceAll | constants.ts:193-201 | a global replace by a string as long as the pattern keeps the length, and by a shorter one never lengthens |
| Strings.Join | constants.ts:204-214 | a join of at least one piece begins with the first piece |
| Strings.ReplaceAllIsSplitJoin | constants.ts:193-201 | a global replace puts `rep` exactly where a split on the pattern cut the string |
| Strings.SplitPiecesFree | constants.ts:193-201 | no split piece contains the pattern |
| Strings.SplitFirstIsPrefix | cert/react/Certificate.tsx:154 | the first piece of a split is a prefix of the string |
| Strings.ReplaceAllSelf | constants.ts:198 | replacing a pattern by itself changes nothing |
| Strings.ReplaceAllAbsent | constants.ts:193-201 | a global replace of an absent pattern changes nothing |
| Strings.ReplaceFirstAbsent | constants.ts:205-222 | a first-occurrence replace of an absent pattern changes nothing |
| Strings.SplitOfAbsent | cert/react/Certificate.tsx:154 | a string without the separator splits into itself alone |
| StableSort.SortPermutes | services/gemini.ts:58-61 | sorting keeps every element with its multiplicity |
| StableSort.SortSorted | services/gemini.ts:58-61 | the sorted list is in non-decreasing rank order |
| StableSort.SortStable | services/gemini.ts:58-61 | elements of equal rank keep their input order |
| StableSort.SortedUnchanged | components/MultiReportResult.tsx:73-76 | a list already in rank order is left unchanged |
| StableSort.DistinctOfPermutation | services/gemini.ts:58-61 | reordering a list without repeats gives a list without repeats |
| Config.PvcWeightsSumToOne | constants.ts:75 | the five prompt-quality weights sum to exactly 1 |
| Config.LengthBandOrdered | constants.ts:77 | T_min < T_opt < T_max, so the upper length ramp has positive width |
| Config.CatalogListsEveryKeyOnce | constants.ts:107-125 | the catalog holds twelve keys, every key once |
| Config.KeyNameRoundTrip | constants.ts:107-125 | looking a key up by its own name finds that key |
| Config.GoldKeyByName | constants.ts:109-112 | each Gold key is found by its name |
| Config.SilverKeyByName | constants.ts:115-118 | each Silver key is found by its name |
| Config.BronzeKeyByName | constants.ts:121-124 | each Bronze key is found by its name |
| Config.LookupById | constants.ts:107-125 | a badge's id looks up that same badge |
| Config.AccoladeInjective | constants.ts:107-125 | distinct keys have distinct names and distinct badges |
| Config.FourBadgesPerTier | constants.ts:107-125 | every tier holds exactly four badges |
| Config.CatalogIndexLocates | constants.ts:107-125 | a key's catalog index is where it sits in the catalog |
| Config.CatalogGroupedByTier | constants.ts:107-125 | the catalog lists four Gold, then four Silver, then four Bronze |
| Calculators.ComputeDLA | services/gemini.ts:191-212 | friction is wait + reading + fixing + API cost; net is gross minus friction; profitable iff net > 0; efficiency is net/gross when gross > 0, else 0 |
| Calculators.DLANetClosedForm | services/gemini.ts:192-200 | net value = wage rate × (writing − waiting − reading − fixing minutes) − API fee |
| Calculators.DLAZeroWageLoses | services/gemini.ts:192-201 | with no wage, gross and efficiency are 0 and the net value is minus the API fee |
| Calculators.DLAWorkedExample | services/gemini.ts:191-201 | a worked example: reading 1000 words at $60/h costs $4.00 |
| Calculators.ComputeEAVP | services/gemini.ts:229-247 | the correction tax is edit time + 2 min per regeneration; net = manual − tax; at a positive rate the value is positive iff time is saved |
| Calculators.ComputePRICE | services/gemini.ts:267-289 | operational cost = token + review cost; value = (human − AI cost) × reliability × volume × weight; freelance 15%, marketplace 2% |
| Calculators.PriceValuePositive | services/gemini.ts:267-270 | with positive multipliers, the asset value is positive when the human costs more than the AI |
| Calculators.ComputeVECTOR | services/gemini.ts:306-317 | Q is the safety-discounted cube root; correction = 0.6 × (1 − Q) × gross; net = gross − correction − API; annual = net × volume; 15% and 1% prices |
| Calculators.VectorStatusOf | services/gemini.ts:316 | the status is VIABLE ASSET iff the net utility is positive |
| Calculators.VectorWeakestLink | services/gemini.ts:306 | a zero in any positive score zeroes Q |
| Calculators.VectorQualityInUnit | services/gemini.ts:306 | scores on the 0..5 scale give Q in [0, 1] |
| Calculators.VectorCorrectionBounded | services/gemini.ts:307-308 | the correction cost lies between 0 and 0.6 × gross |
| Calculators.VectorViableAtZeroQuality | services/gemini.ts:305-316 | scores (5, 5, 0) with the defaults are still VIABLE |
| Calculators.TokenCount | services/gemini.ts:142 | `floor(length / 4)`: 4n ≤ length < 4n + 4 |
| Calculators.LengthNorm | services/gemini.ts:143-148 | the length penalty lies in [0, 1] and is 0 exactly for T_min ≤ tokens ≤ T_opt |
| Calculators.FinalScore | services/gemini.ts:150 | the quality score lies in [0, 100] |
| Calculators.ComputePVC | services/gemini.ts:130-150 | the report's base, penalised, length and final figures are the published formula's |
| Calculators.BaseQualityInRange | services/gemini.ts:131-139 | in-range judgments give a base quality in [0, 100], and all-4 judgments give 100 |
| Calculators.PenalisedWithinBase | services/gemini.ts:140 | fractional penalty factors keep the penalised quality in [0, baseQ], equal when both are 1 |
| Calculators.PenaltiesOnlyReduce | services/gemini.ts:139-140 | the ambiguity and risk penalties never raise the quality |
| Calculators.FactorsInUnit | services/gemini.ts:140 | both penalty factors are fractions for in-range judgments |
| Calculators.LengthPenaltyOnlyReduces | services/gemini.ts:150 | the length penalty never raises the final score above the penalised quality |
| Calculators.FinalWithinPenalised | services/gemini.ts:150 | a length factor in [0, 1] never raises the score |
| Calculators.PerfectPromptScoresFull | services/gemini.ts:130-150 | perfect, unambiguous, riskless judgments of optimal length score exactly 100 |
| Calculators.DivideTwice | services/gemini.ts:174 | dividing by (1 + E)² never enlarges a non-negative weight |
| Calculators.PVI | services/gemini.ts:174 | zero token efficiency gives PVI 0; variables in [0, 1] give PVI in [0, 4] |
| Calculators.PVIMaximum | services/gemini.ts:174 | perfect variables with no entropy reach PVI 4 |
| Accolades.Badges | constants.ts:107-125 | one catalog entry per key, in order |
| Accolades.AwardAccolades | services/gemini.ts:24-62 | the badges pushed by the threshold tests, stably sorted Gold, Silver, Bronze |
| Accolades.PushPVCBadges | services/gemini.ts:27-33 | the five prompt-quality tests push exactly the keys whose thresholds are met, in test order |
| Accolades.PushSCOPEBadges | services/gemini.ts:35-39 | the three semantic-density tests push exactly the keys whose thresholds are met, in test order |
| Accolades.PushedSingle | services/gemini.ts:41-56 | a one-candidate protocol pushes its badge iff the threshold is met |
| Accolades.KeepStep | services/gemini.ts:27-56 | testing one more badge appends it exactly when it qualifies |
| Accolades.Qualifies | services/gemini.ts:27-56 | the threshold test of one badge; a badge is only ever earned by a report of its own protocol |
| Accolades.QualifiesOwnProtocol | services/gemini.ts:27-56 | an earned badge is one of the candidates its protocol tests |
| Accolades.KeepMembers | services/gemini.ts:27-56 | a tested key is pushed iff it is a candidate and qualifies |
| Accolades.KeepIncreasing | services/gemini.ts:27-56 | filtering an increasing key list keeps it increasing |
| Accolades.CandidatesInCatalogOrder | services/gemini.ts:27-56 | each protocol tests its badges in catalog order |
| Accolades.PushedInCatalogOrder | services/gemini.ts:27-56 | the pushed badges are in catalog order |
| Accolades.SortKeepsPushOrder | services/gemini.ts:58-61 | the tier sort leaves the pushed order as it is |
| Accolades.AwardedArePushed | services/gemini.ts:24-62 | the awarded list is exactly the catalog entries of the pushed keys |
| Accolades.BadgesMembers | constants.ts:107-125 | a key's badge is in the list iff the key is |
| Accolades.BadgesOfKeys | constants.ts:107-125 | a listed key's badge is in the badge list |
| Accolades.BadgesOnlyOfKeys | constants.ts:107-125 | only listed keys' badges are in the badge list |
| Accolades.AwardedExactly | services/gemini.ts:24-62 | a report earns a badge iff it meets that badge's threshold |
| Accolades.AwardedFromCatalog | services/gemini.ts:24-62 | every earned badge is a catalog badge whose threshold is met and which its id finds |
| Accolades.AwardedDistinctAndTiered | services/gemini.ts:58-61 | no badge is earned twice, and the list runs Gold, Silver, Bronze |
| Accolades.KeepShorter | services/gemini.ts:27-56 | filtering never lengthens the list |
| Accolades.AwardedBound | services/gemini.ts:24-62 | at most five badges for PVC, three for SCOPE and one otherwise |
| Accolades.PromptQualityBadgeExample | services/gemini.ts:27-33 | any report of at least 98 points with clarity 4, structure other than 4, risk 0 and feasibility 4 earns Neural Alchemist, Precision Engineer, Safe Harbor, Feasibility Verified, in that order |
| Engine.AnalyzeWithDLA | services/gemini.ts:190-226 | the DLA report from the defaulted request, with its badges |
| Engine.AnalyzeWithPVC | services/gemini.ts:126-167 | the scorer's error, or the quality report from its judgment, with badges |
| Engine.AnalyzeWithSCOPE | services/gemini.ts:169-188 | the scorer's error, or the density report from its variables, with badges |
| Engine.AnalyzeWithEAVP | services/gemini.ts:228-254 | the EAVP report from the defaulted request, with its badges |
| Engine.AnalyzeWithPRICE | services/gemini.ts:256-302 | the PRICE report from the defaulted request, with its badges |
| Engine.AnalyzeWithVECTOR | services/gemini.ts:304-324 | the VECTOR report from the defaulted request, with its badges |
| Engine.OrchestrateAnalysis | services/gemini.ts:326-362 | the selected protocols' reports, or the first failure, or the invalid-methodology error |
| Engine.AnalyzeOne | services/gemini.ts:353-359 | dispatches to the named protocol's analyzer |
| Engine.AnalyzeAll | services/gemini.ts:332-342 | ALL gives the six reports in order, or the first failure and no list |
| Engine.AnalyzeCore | services/gemini.ts:344-351 | CORE gives DLA, PVC and SCOPE in order, or the first failure |
| Engine.DispatchFailsAt | services/gemini.ts:332-351 | a batch fails with the error of a failing protocol when every earlier one succeeds |
| Engine.DispatchAllSucceeds | services/gemini.ts:332-342 | six successes give the list of the six reports |
| Engine.DispatchCoreSucceeds | services/gemini.ts:344-351 | three successes give the list of the three reports |
| Engine.KeepIgnoresAccolades | services/gemini.ts:24-56 | badge tests read a report's figures, never its existing badges |
| Engine.AnalysisShowsOwnAwards | services/gemini.ts:165 | a finished report shows exactly the badges its own figures earn |
| Engine.AnalysisOutcome | services/gemini.ts:126-324 | only PVC and SCOPE can fail, only with their scorer's error, and a report is tagged with its protocol |
| Engine.RunAllSucceeds | services/gemini.ts:333-341 | a batch succeeds iff every protocol does, and then lists their reports in batch order |
| Engine.RunAllFirstFailure | services/gemini.ts:333-341 | a failed batch reports the error of one of its failing protocols, with every earlier one succeeding |
| Engine.DispatchBatch | services/gemini.ts:332-351 | a batch's success, its list, and its failure with the first failing protocol |
| Engine.BatchOutcome | services/gemini.ts:332-351 | a batch succeeds iff both scorers do; a PVC failure takes precedence over a SCOPE one |
| Engine.AllFailsOnPVC | services/gemini.ts:332-342 | ALL fails with the PVC error when that scorer fails |
| Engine.AllFailsOnSCOPE | services/gemini.ts:332-342 | otherwise ALL fails with the SCOPE error when that scorer fails |
| Engine.AllSucceeds | services/gemini.ts:332-342 | with both judgments, ALL lists the six analyzers' reports in order |
| Engine.AllOutcome | services/gemini.ts:332-342 | ALL's three outcomes, by which judgments are present |
| Engine.BatchProtocols | services/gemini.ts:332-351 | ALL runs DLA, PVC, SCOPE, EAVP, PRICE, VECTOR; CORE runs the first three |
| Engine.OrchestrateSingle | services/gemini.ts:353-359 | a protocol's own name gives its one report or its failure |
| Engine.BatchAgreesWithSingles | services/gemini.ts:332-359 | a batch's i-th report is what selecting that protocol alone gives |
| Engine.ParseSelection | services/gemini.ts:332-360 | an accepted name is the name of the selection it gives |
| Engine.AcceptedNames | services/gemini.ts:332-360 | exactly the eight method names are accepted |
| Engine.UnknownNameRejected | services/gemini.ts:360 | every other name fails with "Invalid Methodology Selected" |
| Engine.SelectionNameRoundTrip | services/gemini.ts:332-359 | a selection's name parses back to that selection |
| Engine.ProtocolsInCanonicalOrder | services/gemini.ts:332-351 | a selection's reports come in canonical order, with no protocol twice |
| Template.PopulateTemplate | constants.ts:190-222 | the step-by-step filler gives the specified filled document |
| Template.TablesKeepHeaders | constants.ts:204-211 | both tables start with their header row, so their fallbacks never apply |
| Template.JoinNonEmpty | constants.ts:213-214 | joining a list with a non-empty first piece gives a non-empty string |
| Template.LimitationsListCases | constants.ts:213-214 | no limitations gives "- None", otherwise one bullet line per limitation |
| Template.OutputSpecsCases | constants.ts:217-218 | bullets for an array of elements; "Standard Text" for an empty one; otherwise the output format or "Standard Text" |
| Template.PlaceholderAbsent | constants.ts:193-222 | a string without "{{" contains no placeholder |
| Template.FillEntriesAbsent | constants.ts:197-199 | without "{{" the data fields change nothing |
| Template.TemplateWithoutPlaceholders | constants.ts:190-222 | a template without placeholders comes back unchanged, whatever the data |
| Template.SectionsAbsent | constants.ts:204-222 | without "{{" the section substitutions change nothing |
| Template.SectionReplacedAtFirst | constants.ts:205-221 | a section placeholder is filled at its first occurrence only: for any text before it without a brace, that copy becomes the value and everything after it, further copies included, is kept |
| SmartAnalyzer.AnalyzePromptHeuristic | components/SmartAnalyzer.tsx:57-110 | the reassigning reader gives the heuristic reading of the prompt's features |
| SmartAnalyzer.GenerateEstimates | components/SmartAnalyzer.tsx:112-163 | the accumulating estimator gives the specified estimates |
| SmartAnalyzer.RunSmartAnalysis | components/SmartAnalyzer.tsx:165-186 | nothing for a blank prompt; else the heuristic or neural reading, by mode, with its estimates |
| SmartAnalyzer.FallbackEstimates | services/gemini.ts:104-122 | a neural reply that does not parse falls back to a cue-free, one-off analytical reading, valued at the analytical wage, the full fix time, 50 runs a year and 0.6 reliability |
| SmartAnalyzer.CalculateDLA | components/SmartAnalyzer.tsx:188-195 | present iff estimates are; manual cost, AI cost and their difference each to the cent; profitable iff manual cost > AI cost; savings have the verdict's sign |
| SmartAnalyzer.CalculatePRICE | components/SmartAnalyzer.tsx:197-204 | present iff estimates are; the asset value is the rounded net saving × volume × reliability × weight, the freelance and marketplace prices 15% and 2% of it, each to the unit |
| SmartAnalyzer.CalculateVECTOR | components/SmartAnalyzer.tsx:206-210 | present iff estimates are; q shown to two decimals; viable iff q ≥ 0.5 iff the verdict is not scrap; production ready iff q ≥ 0.7 |
| SmartAnalyzer.ComplexityClassification | components/SmartAnalyzer.tsx:81-83 | complex above 100 words or 3 constraints, moderate above 30 or 1, else simple |
| SmartAnalyzer.ComplexityMonotone | components/SmartAnalyzer.tsx:81-83 | more words or constraints never make a prompt simpler |
| SmartAnalyzer.TaskPrecedence | components/SmartAnalyzer.tsx:89-94 | creative cues win over technical, technical over conversational; technical and conversational tasks are repeatable |
| SmartAnalyzer.HeuristicConsistent | components/SmartAnalyzer.tsx:69-79 | constraints are flagged iff counted, and a prompt over 50 words has context |
| SmartAnalyzer.FixAndEditTimes | components/SmartAnalyzer.tsx:120-153 | the fix time lies in [1, 5], and the edit time is one more and at least 2 |
| SmartAnalyzer.ReliabilityBounds | components/SmartAnalyzer.tsx:130-135 | reliability lies in [0.6, 0.98] and is 0.6 without cues |
| SmartAnalyzer.ReliabilityMonotone | components/SmartAnalyzer.tsx:130-135 | adding a cue never lowers reliability |
| SmartAnalyzer.VolumeCases | components/SmartAnalyzer.tsx:123-128 | the volume is 50, 200, 500 or 5000, and 50 exactly for a one-off task |
| SmartAnalyzer.VectorEstimates | components/SmartAnalyzer.tsx:157-160 | the constraint score lies in [0.3, 1]; the weight is 1.5 iff complex; context and feasibility take their listed values |
| SmartAnalyzer.PricePreviewSign | components/SmartAnalyzer.tsx:197-203 | the three prices lie within a half of the asset value and of its 15% and 2% shares; a profitable preview prices nothing below zero; a zero multiplier prices everything at zero |
| SmartAnalyzer.VerdictThresholds | components/SmartAnalyzer.tsx:209 | production ready from 0.7, needs review from 0.5, scrap below |
| SmartAnalyzer.GeneratedQualityBounded | components/SmartAnalyzer.tsx:208 | generated estimates give a preview quality in [0, 0.95] |
| SmartAnalyzer.RoundedScore | components/SmartAnalyzer.tsx:247-250 | rounding 5 × a fraction gives a 0..5 score |
| SmartAnalyzer.ApplyValues | components/SmartAnalyzer.tsx:212-254 | the applied request gives DLA, PRICE and VECTOR one API cost, the estimated one, and VECTOR 80% of the typing time as time saved |
| SmartAnalyzer.ApplyFeedsEngine | components/SmartAnalyzer.tsx:212-254 | the applied request carries the fix time as DLA and EAVP edit times, no regenerations, no reading speed of its own (so the DLA default of 250 applies to the applied fields alone; the form merge keeps the speed already entered), and VECTOR scores on the 0..5 scale |
| SmartAnalyzer.GeneratedScores | components/SmartAnalyzer.tsx:247-250 | the applied VECTOR scores are 2..5, 3 or 4, 3..5 and 0 |
| LegacyAnalyzer.AnalyzePrompt | components/SmartAnalayzer.tsx:59-131 | the older reader reads the same findings as the current heuristic |
| LegacyAnalyzer.GenerateEstimates | components/SmartAnalayzer.tsx:133-194 | the older estimates are the current ones without the valued parameter and weight |
| LegacyAnalyzer.CalculateDLA | components/SmartAnalayzer.tsx:213-225 | present iff estimates are; manual cost, AI cost and net savings each to the cent; profitable iff manual cost > AI cost |
| LegacyAnalyzer.CalculatePRICE | components/SmartAnalayzer.tsx:227-238 | present iff estimates are; the asset value is the rounded net saving × volume × reliability, with no weight, the freelance and marketplace prices 15% and 2% of it, each to the unit |
| LegacyAnalyzer.CalculateVECTOR | components/SmartAnalayzer.tsx:240-251 | present iff estimates are; q shown to two decimals; viable iff q ≥ 0.5; production ready iff q ≥ 0.7; scrap iff q < 0.5 |
| LegacyAnalyzer.NarrowWiden | components/SmartAnalayzer.tsx:133-194 | narrowing a widened record gives it back |
| LegacyAnalyzer.DLAAgrees | components/SmartAnalayzer.tsx:213-225 | the older DLA preview equals the current one |
| LegacyAnalyzer.PRICEAgrees | components/SmartAnalayzer.tsx:227-238 | the older PRICE preview equals the current one at unit weight |
| LegacyAnalyzer.VECTORAgrees | components/SmartAnalayzer.tsx:240-251 | the older VECTOR preview equals the current one |
| LegacyAnalyzer.LegacyEstimateBounds | components/SmartAnalayzer.tsx:133-194 | the older estimates keep the fix, edit, reliability and volume bounds |
| Certificate.OrOne | cert/react/Certificate.tsx:46 | `x \|\| 1` is never zero and keeps a non-zero x |
| Certificate.RawScore | cert/react/Certificate.tsx:46-126 | the score before clamping: 40 for an unprofitable arbitrage, the quality score for PVC, 90 or 30 for verification, at most 100 for pricing |
| Certificate.Summarize | cert/react/Certificate.tsx:137-143 | the shown score lies in [0, 100], keeps an in-range raw score and is graded on the single-report scale; title, colour and verdict follow the protocol |
| Certificate.ProcessSingleReport | cert/react/Certificate.tsx:26-146 | the certificate summary of a report, with a score in [0, 100] |
| Certificate.Scores | cert/react/Certificate.tsx:244 | one score per report |
| Certificate.GradeBands | cert/react/Certificate.tsx:138-143 | S from 95, A+ from 85, A from 75, B from 60, C from 40, D below |
| Certificate.GradeMonotone | cert/react/Certificate.tsx:138-143 | a higher score never earns a lower grade |
| Certificate.ScoreClamped | cert/react/Certificate.tsx:137 | a raw score below 0 is shown as 0 and graded D; above 100 as 100 and graded S |
| Certificate.DLAScore | cert/react/Certificate.tsx:46 | unprofitable arbitrage scores 40 (C); profitable arbitrage with 0 < net ≤ gross scores in (85, 95], A+ or S |
| Certificate.DLAZeroGross | cert/react/Certificate.tsx:46 | zero gross value divides by 1: the score is 85 + 10 × net |
| Certificate.EAVPScore | cert/react/Certificate.tsx:97 | a positive audited value scores 90 (A+); otherwise 30 (D) |
| Certificate.SCOPEScore | cert/react/Certificate.tsx:76 | the score is 30 × PVI, clamped at 100 |
| Certificate.VECTORScore | cert/react/Certificate.tsx:126 | the score is Q in percent, clamped |
| Certificate.PRICEScoreAtLeastFifty | cert/react/Certificate.tsx:114 | a financial valuation scores 50..100, grade C or better, and 50 for a value of at most 1 |
| Certificate.SCOPEVerdict | cert/react/Certificate.tsx:77-86 | high value above PVI 2, market standard above 0.5, scrap otherwise; red iff scrap, green iff high value |
| Certificate.GreenMeansPassing | cert/react/Certificate.tsx:47-131 | a green certificate is a passing report, for every protocol but PRICE |
| Certificate.SumBounds | cert/react/Certificate.tsx:245 | a total of values in [lo, hi] lies in [n·lo, n·hi] |
| Certificate.AggregateScore | cert/react/Certificate.tsx:244-246 | the portfolio score, a mean of clamped scores, lies in [0, 100] |
| Certificate.AggregateGradeOf | cert/react/Certificate.tsx:247-251 | the portfolio grade is never D and is the single-report grade or one tier above it |
| Certificate.AggregateColourOf | cert/react/Certificate.tsx:253 | a green portfolio is graded A or better, a red one C; red iff the score is at most 50 |
| Certificate.AggregateOfOne | cert/react/Certificate.tsx:244-246 | a one-report portfolio scores that report's score |
| Certificate.AggregateGradeNeverD | cert/react/Certificate.tsx:247-251 | the portfolio grade is never D; from 40 it matches the single-report grade, below 40 it is C |
| Certificate.AggregateColourBands | cert/react/Certificate.tsx:253 | green above 80, cyan above 50, red otherwise |
| Certificate.AssetTitle | cert/react/Certificate.tsx:152-156 | the asset designation is never empty |
| Certificate.AssetTitleChoice | cert/react/Certificate.tsx:152-156 | the given title, else the prompt's first line (no line break, at most 80 characters, a prefix of the prompt), else "Untitled Asset" |
| Certificate.PortfolioTitle | cert/react/Certificate.tsx:152-156 | a portfolio takes its non-empty designation from its first report |
| Certificate.FirstLineOfOneLine | cert/react/Certificate.tsx:154 | a short prompt without line breaks is its own first line |
| AnalysisForm.Multiplier | components/AnalysisForm.tsx:80 | the industry multiplier is positive, 1 for an unknown industry |
| AnalysisForm.Form.constructor | components/AnalysisForm.tsx:29-31 | an empty error table and the "Other" industry |
| AnalysisForm.Form.ValidateForm | components/AnalysisForm.tsx:44-63 | valid iff every required field is accepted; the error table has one verdict per required field; the request is untouched |
| AnalysisForm.Form.ValidateFields | components/AnalysisForm.tsx:49-60 | the field loop leaves one verdict per field and reports whether all passed |
| AnalysisForm.Form.HandleSubmit | components/AnalysisForm.tsx:65-69 | submits iff validation passes |
| AnalysisForm.Form.HandleChange | components/AnalysisForm.tsx:71-76 | stores the value; a non-blank value clears that field's error |
| AnalysisForm.Form.HandleUseCaseChange | components/AnalysisForm.tsx:84-91 | sets the use case and its suggested volume for the chosen industry |
| AnalysisForm.Form.HandleIndustryChange | components/AnalysisForm.tsx:93-99 | remembers the industry; recomputes the volume only when a use case is set |
| AnalysisForm.ErrorTableSnoc | components/AnalysisForm.tsx:49-58 | checking one more field adds its verdict to the table |
| AnalysisForm.ErrorTableKeys | components/AnalysisForm.tsx:44-63 | the error table has an entry for exactly the required fields |
| AnalysisForm.ValidIffNoErrors | components/AnalysisForm.tsx:44-63 | the form is valid iff no required field has an error |
| AnalysisForm.FieldVerdicts | components/AnalysisForm.tsx:51-56 | zero is accepted, only a negative number is refused, and a missing or blank value is required |
| AnalysisForm.RequiredFields | components/AnalysisForm.tsx:33-42 | every selection requires at least one field, and none twice |
| AnalysisForm.CalculateVolume | components/AnalysisForm.tsx:78-82 | the suggested volume is at least one run |
| AnalysisForm.PromptOnlySelections | components/AnalysisForm.tsx:33-42 | PVC, SCOPE, CORE and ALL check only the prompt |
| AnalysisForm.VolumeSuggestion | components/AnalysisForm.tsx:78-82 | the suggestion is the rounded benchmark × multiplier, with multiplier 1 for an unknown industry |
| AnalysisForm.MultipliersInRange | constants.ts:20-30 | the industry multipliers lie in [0.7, 5] |
| AnalysisForm.VolumeExamples | components/AnalysisForm.tsx:78-82 | pipeline for customer support suggests 25000, ad hoc legal suggests 1, SOP in an unknown sector suggests 200 |
| AnalysisForm.UseCaseThenIndustry | components/AnalysisForm.tsx:84-99 | choosing a use case then an industry sets the volume for both |
| AnalysisForm.SubmitBlocked | components/AnalysisForm.tsx:65-69 | a blocked submission leaves an error in the table; a passed one leaves none |
| MultiReport.GetSummary | components/MultiReportResult.tsx:18-66 | a passing card is never red and a green card always passes |
| MultiReport.Positivity | components/MultiReportResult.tsx:18-66 | each card's pass mark: profit, score above 60, PVI above 1, positive value, viability |
| MultiReport.ColourBands | components/MultiReportResult.tsx:26-58 | quality green above 80 and cyan above 50; PVI green above 2 and cyan above 0.5; pricing always cyan |
| MultiReport.ColourFollowsPass | components/MultiReportResult.tsx:18-66 | for the arbitrage, verification and viability cards, green iff passing |
| MultiReport.CardMatchesCertificate | components/MultiReportResult.tsx:51-58 | the card's colour is the certificate's, except pricing: card cyan, certificate green |
| MultiReport.DisplayOrder | components/MultiReportResult.tsx:73-76 | the cards are the reports rearranged into canonical protocol order |
| MultiReport.DisplayOrderStable | components/MultiReportResult.tsx:73-76 | reports of one protocol keep their given order |
| MultiReport.CanonicalListShownAsIs | components/MultiReportResult.tsx:73-76 | a list already in canonical order is shown as it is |
| AutoAnalyzer.HeuristicScore | components/AutoAnalyzer.tsx:37-55 | scores lie in [15, 98]; under 10 words gives 15 |
| AutoAnalyzer.GetHeuristicScore | components/AutoAnalyzer.tsx:37-55 | the accumulated score is the heuristic score, between 15 and 98 |
| AutoAnalyzer.FinalScore | components/AutoAnalyzer.tsx:78-79 | a preview score lies in [0, 100] |
| AutoAnalyzer.PendingList | components/AutoAnalyzer.tsx:61-66 | one pending entry per protocol |
| AutoAnalyzer.Published | components/AutoAnalyzer.tsx:70-98 | one entry per protocol at every step |
| AutoAnalyzer.Analyzer.constructor | components/AutoAnalyzer.tsx:57-101 | no results and not analysing |
| AutoAnalyzer.Analyzer.RunAnalysis | components/AutoAnalyzer.tsx:57-101 | a blank prompt does nothing; otherwise 13 lists, each marking one entry running then complete with its nudged score, and the run ends idle |
| AutoAnalyzer.PublishedStart | components/AutoAnalyzer.tsx:61-66 | the first list is all pending |
| AutoAnalyzer.PublishedRunning | components/AutoAnalyzer.tsx:71-73 | marking entry i running gives the next published list |
| AutoAnalyzer.PublishedComplete | components/AutoAnalyzer.tsx:90-97 | completing entry i with its score gives the next published list |
| AutoAnalyzer.HeuristicPlainPrompt | components/AutoAnalyzer.tsx:43-54 | a plain prompt of 10 to 50 words gives 20 |
| AutoAnalyzer.HeuristicCap | components/AutoAnalyzer.tsx:54 | every feature at once is capped at 98 |
| AutoAnalyzer.HeuristicMonotone | components/AutoAnalyzer.tsx:43-54 | stronger cues never score lower |
| AutoAnalyzer.FinalScoreNear | components/AutoAnalyzer.tsx:78-79 | a nudge of at most 5 gives the base plus the nudge, cut at 100 and at least 10 |
| AutoAnalyzer.StatusMovesForward | components/AutoAnalyzer.tsx:70-98 | each entry only moves from pending to running to complete |
| AutoAnalyzer.OneRunningInOrder | components/AutoAnalyzer.tsx:70-98 | while an entry runs, earlier ones are complete and later ones pending |
| AutoAnalyzer.RunEndsComplete | components/AutoAnalyzer.tsx:70-98 | at the end every protocol is complete with its clamped, nudged score |
| AutoAnalyzer.PreviewOrder | components/AutoAnalyzer.tsx:28-35 | the preview walks all six protocols once, VECTOR before PVC |

## Left out

- Calculators.ComputeDLA, Calculators.ComputeEAVP, Calculators.PVI: JavaScript divides by a zero words-per-minute rate or by (1 + E)² = 0 and gets Infinity or NaN. Real division by zero is undefined here, so these require non-zero divisors (`DLADefined`, `EAVPDefined`, `SCOPEDefined`).
- Engine.AnalyzeWithDLA, Engine.AnalyzeWithSCOPE, Engine.AnalyzeWithEAVP: each requires the non-zero divisors of the calculator it calls (`DLADefined`, `SCOPEDefined` for a present judgment, `EAVPDefined`), for the reason above.
- Engine.OrchestrateAnalysis, Engine.AnalyzeOne, Engine.AnalyzeAll, Engine.AnalyzeCore: each requires the non-zero divisors of every protocol it runs (`OrchestrationDefined`, `ProtocolDefined`, `SelectionDefined`), for the reason above.
- SmartAnalyzer.CalculateDLA, LegacyAnalyzer.CalculateDLA, SmartAnalyzer.CalculatePRICE, LegacyAnalyzer.CalculatePRICE, SmartAnalyzer.ApplyValues: these require a non-zero typing speed, for the same reason. The estimator always sets it to 45.
- NaN, Infinity and floating-point rounding are not modelled. Numbers are exact reals, and `toFixed` is modelled as the number its string denotes.
- `Math.pow(x, 1/3)`, `Math.pow(x, 1.2)` and `Math.log10` are parameters, with the facts the proofs need (`Sound`). Their values are not computed.
- The calls to the external language model (the PVC and SCOPE judgments and the neural prompt reading) are inputs. A PVC or SCOPE reply that fails to parse as JSON arrives as an error, since those parses are unguarded. A neural reply that fails to parse gives a fixed fallback reading instead (`SmartAnalyzer.NeuralFallback`). The arbitrary `neural` input of `RunSmartAnalysis` covers that fallback too. Its word count is a parameter, because the regular-expression split is not modelled.
- SmartAnalyzer.RunSmartAnalysis: a rejected request to the external model in neural mode is not modelled. The request sits outside the parse guard, and the run has no handler of its own, so such a run leaves the analyser busy with no result. The model always finishes a run.
- Engine.OrchestrateAnalysis: ALL and CORE start their protocols concurrently. When both external judgments fail, which rejection `Promise.all` reports depends on timing. The model reports the PVC error, the first in list order.
- Timestamps, random watermarks, report ids, the preview's delays and its random nudges are left out or taken as parameters (`mods`, `today`).
- The regular-expression tests that read a prompt are not modelled. Their findings are inputs (`PromptFeatures`, `PromptCues`), and so is the word count of `split(/\s+/)`.
- Template.PopulateTemplate: the data keys are substituted in the order given. JavaScript's `for…in` order is not modelled, and neither are `$` patterns in replacement strings or regular-expression metacharacters in keys. Values that are not strings are skipped, as the source does.
- Template.Lookup, Template.FillEntries: the data record is a list of key/value pairs. A JavaScript record cannot repeat a key; a list can. With a repeated key, `Lookup` reads the first entry while `FillEntries` applies every entry, so the last one wins. Data built from a record never repeats a key.
- Template.PopulateTemplate: the brand name and date replacements use the date the caller's clock gives, as a parameter.
- Formatting is not modelled: currency strings, fixed-point strings shown in the interface, icons, summaries and all rendering.
- The estimate-adjustment editing in the pre-fill panel is not modelled.
- The portfolio certificate's id rewriting and its verification URL are not modelled.
- Certificate.AggregateScore, Certificate.PortfolioTitle: these require at least one report. The portfolio page reads the first report's title, which fails on an empty list.
- Certificate.ProcessSingleReport: the default title and the "ANALYSIS COMPLETE" verdict belong to a switch branch that no report reaches. The model has no such branch.
- MultiReport.GetSummary: the `null` default branch is unreachable for the six protocols and is not modelled.
- AnalysisForm.IsSpace: the whitespace that `trim` removes is approximated by the common space characters. Unicode line and paragraph separators are not included.
- AnalysisForm.Form.HandleIndustryChange: the source reads the use case from the request as it stood when the handler was created. The model reads the current request, which is the same unless two updates are batched.
- `String.prototype.length` and `substring` count UTF-16 code units. Strings here are sequences of characters.

