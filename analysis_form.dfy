/**
 * The request form (components/AnalysisForm.tsx): the fields each selection
 * requires, the validator that fills the error table before a submission,
 * the yearly-volume suggestion from a use case and an industry, and the
 * change handlers that update the form's state.
 *
 * The form's record is keyed by field name, as the page indexes it; a key
 * that is absent is a field left `undefined`.
 */
module AnalysisForm {
  import opened Wrappers
  import opened Numerics
  import opened Types
  import opened Config

  /** A field's value: a number, a string (the cleared number input stores ""), or a use case. */
  datatype FieldValue = Num(n: real) | Text(s: string) | Case(useCase: UseCase)

  datatype FieldError = FieldRequired | MustBePositive

  /** The whitespace `String.prototype.trim` removes, as far as the form's inputs go. */
  predicate IsSpace(c: char) {
    c == ' ' || c == '\t' || c == '\n' || c == '\r' || c == '\U{0B}' || c == '\U{0C}' || c == '\U{A0}'
  }

  /** `String(value).trim() === ''`: only a string can be blank. */
  predicate Blank(v: FieldValue) {
    v.Text? && forall i :: 0 <= i < |v.s| ==> IsSpace(v.s[i])
  }

  /** The fields each selection requires; the projections and the batches need only the prompt. */
  function RequiredFields(sel: Selection): (fields: seq<string>)
    ensures |fields| > 0
    ensures forall i, j :: 0 <= i < j < |fields| ==> fields[i] != fields[j]
  {
    match sel
    case Single(DLA) => ["outputCharCount", "apiLatencySeconds", "editSessionSeconds", "apiCostUsd",
                         "humanWpm", "humanReadingWpm", "hourlyWage"]
    case Single(PVC) => ["inputPrompt"]
    case Single(SCOPE) => ["inputPrompt"]
    case Single(EAVP) => ["outputChars", "userWPM", "editTime", "regenerations", "marketRate"]
    case Single(PRICE) => ["humanTimeMinutes", "humanHourlyRate", "reviewTimeMinutes", "tokenCost",
                           "reliability", "yearlyVolume", "valuedParameter", "parameterWeight"]
    case Single(VECTOR) => ["score_constraints", "score_context", "score_feasibility", "score_safety",
                            "human_hourly_rate", "time_saved_minutes", "annual_volume", "api_cost_per_run"]
    case Core => ["inputPrompt"]
    case All => ["inputPrompt"]
  }

  /**
   * One field's verdict: required when absent or blank, rejected when a
   * negative number, otherwise accepted (None).
   */
  function FieldCheck(data: map<string, FieldValue>, field: string): Option<FieldError> {
    if field !in data || Blank(data[field]) then Some(FieldRequired)
    else if data[field].Num? && data[field].n < 0.0 then Some(MustBePositive)
    else None
  }

  /** The error table the validator leaves: one entry per required field. */
  function ErrorTable(data: map<string, FieldValue>, fields: seq<string>): map<string, Option<FieldError>> {
    map f | f in fields :: FieldCheck(data, f)
  }

  /** Every one of the fields is accepted. */
  predicate FieldsValid(data: map<string, FieldValue>, fields: seq<string>) {
    forall i :: 0 <= i < |fields| ==> FieldCheck(data, fields[i]).None?
  }

  /** The form passes when every required field is accepted. */
  predicate FormValid(data: map<string, FieldValue>, sel: Selection) {
    FieldsValid(data, RequiredFields(sel))
  }

  /**
   * `PRICE_USE_CASE_DATA[useCase].benchmark * (INDUSTRY_VOLUME_MULTIPLIERS[industry] || 1.0)`,
   * rounded: an unknown industry (or a zero multiplier) scales by 1.
   */
  function Multiplier(industry: string): (m: real)
    ensures m > 0.0
  {
    if industry in INDUSTRY_VOLUME_MULTIPLIERS && INDUSTRY_VOLUME_MULTIPLIERS[industry] != 0.0
    then INDUSTRY_VOLUME_MULTIPLIERS[industry] else 1.0
  }

  function CalculateVolume(useCase: UseCase, industry: string): (volume: int)
    ensures volume >= 1
  {
    ScaledBenchmarkAtLeastOne(useCase, industry);
    Round(UseCaseBenchmark(useCase) * Multiplier(industry))
  }

  /** The form's state: the request being edited, the error table and the chosen industry. */
  class Form {
    var formData: map<string, FieldValue>
    var validationErrors: map<string, Option<FieldError>>
    var selectedIndustry: string

    constructor(initial: map<string, FieldValue>)
      ensures formData == initial && validationErrors == map[] && selectedIndustry == "Other"
    {
      formData := initial;
      validationErrors := map[];
      selectedIndustry := "Other";
    }

    /** Validates the selection's required fields and replaces the error table. */
    method ValidateForm(sel: Selection) returns (isValid: bool)
      modifies this
      ensures isValid <==> FormValid(formData, sel)
      ensures validationErrors == ErrorTable(formData, RequiredFields(sel))
      ensures formData == old(formData) && selectedIndustry == old(selectedIndustry)
    {
      isValid := ValidateFields(RequiredFields(sel));
    }

    /**
     * Checks the fields one by one, records a verdict for each, replaces
     * the error table, and reports whether all passed.
     */
    method ValidateFields(fields: seq<string>) returns (isValid: bool)
      modifies this
      ensures isValid <==> FieldsValid(formData, fields)
      ensures validationErrors == ErrorTable(formData, fields)
      ensures formData == old(formData) && selectedIndustry == old(selectedIndustry)
    {
      var errors: map<string, Option<FieldError>> := map[];
      isValid := true;
      var i := 0;
      while i < |fields|
        invariant i <= |fields|
        invariant formData == old(formData) && selectedIndustry == old(selectedIndustry)
        invariant errors == ErrorTable(formData, fields[..i])
        invariant isValid <==> forall j :: 0 <= j < i ==> FieldCheck(formData, fields[j]).None?
      {
        var field := fields[i];
        ErrorTableSnoc(formData, fields, i);
        if field !in formData || Blank(formData[field]) {
          errors := errors[field := Some(FieldRequired)];
          isValid := false;
        } else if formData[field].Num? && formData[field].n < 0.0 {
          errors := errors[field := Some(MustBePositive)];
          isValid := false;
        } else {
          errors := errors[field := None];
        }
        i := i + 1;
      }
      assert fields[..i] == fields;
      validationErrors := errors;
    }

    /** Submits (returns true) only when validation passes. */
    method HandleSubmit(sel: Selection) returns (submitted: bool)
      modifies this
      ensures submitted <==> FormValid(formData, sel)
      ensures validationErrors == ErrorTable(formData, RequiredFields(sel))
      ensures formData == old(formData) && selectedIndustry == old(selectedIndustry)
    {
      submitted := ValidateForm(sel);
    }

    /** Stores the value; a non-blank value also clears that field's error. */
    method HandleChange(field: string, value: FieldValue)
      modifies this
      ensures formData == old(formData)[field := value]
      ensures !Blank(value) ==> validationErrors == old(validationErrors)[field := None]
      ensures Blank(value) ==> validationErrors == old(validationErrors)
      ensures selectedIndustry == old(selectedIndustry)
    {
      formData := formData[field := value];
      if !Blank(value) {
        validationErrors := validationErrors[field := None];
      }
    }

    /** A new use case sets both the use case and its suggested volume for the chosen industry. */
    method HandleUseCaseChange(useCase: UseCase)
      modifies this
      ensures formData == old(formData)["useCase" := Case(useCase)]
                                       ["yearlyVolume" := Num(CalculateVolume(useCase, selectedIndustry) as real)]
      ensures validationErrors == old(validationErrors) && selectedIndustry == old(selectedIndustry)
    {
      var newVolume := CalculateVolume(useCase, selectedIndustry);
      formData := formData["useCase" := Case(useCase)]["yearlyVolume" := Num(newVolume as real)];
    }

    /** A new industry is remembered; the volume is recomputed only when a use case is already set. */
    method HandleIndustryChange(industry: string)
      modifies this
      ensures selectedIndustry == industry
      ensures "useCase" in old(formData) && old(formData)["useCase"].Case? ==>
                formData == old(formData)["yearlyVolume" :=
                  Num(CalculateVolume(old(formData)["useCase"].useCase, industry) as real)]
      ensures !("useCase" in old(formData) && old(formData)["useCase"].Case?) ==> formData == old(formData)
      ensures validationErrors == old(validationErrors)
    {
      selectedIndustry := industry;
      if "useCase" in formData && formData["useCase"].Case? {
        var newVolume := CalculateVolume(formData["useCase"].useCase, industry);
        formData := formData["yearlyVolume" := Num(newVolume as real)];
      }
    }
  }

  // ---------------------------------------------------------------- properties

  /** Checking one more field adds that field's verdict to the table. */
  lemma ErrorTableSnoc(data: map<string, FieldValue>, fields: seq<string>, i: nat)
    requires i < |fields|
    ensures ErrorTable(data, fields[..i + 1]) == ErrorTable(data, fields[..i])[fields[i] := FieldCheck(data, fields[i])]
  {
    assert fields[..i + 1] == fields[..i] + [fields[i]];
  }

  /** The error table has an entry for exactly the required fields. */
  lemma ErrorTableKeys(data: map<string, FieldValue>, sel: Selection)
    ensures forall f :: f in ErrorTable(data, RequiredFields(sel)) <==> f in RequiredFields(sel)
  {
  }

  /**
   * Valid exactly when every required field is present, not blank and not a
   * negative number, which is exactly when every table entry is empty.
   */
  lemma ValidIffNoErrors(data: map<string, FieldValue>, sel: Selection)
    ensures FormValid(data, sel) <==>
      forall f :: f in RequiredFields(sel) ==>
        f in data && !Blank(data[f]) && !(data[f].Num? && data[f].n < 0.0)
    ensures FormValid(data, sel) <==>
      forall f :: f in ErrorTable(data, RequiredFields(sel)) ==> ErrorTable(data, RequiredFields(sel))[f].None?
  {
    var fields := RequiredFields(sel);
    var table := ErrorTable(data, fields);
    if FormValid(data, sel) {
      forall f | f in fields ensures FieldCheck(data, f).None? {
        var i :| 0 <= i < |fields| && fields[i] == f;
      }
    }
    if forall f :: f in table ==> table[f].None? {
      forall i | 0 <= i < |fields| ensures FieldCheck(data, fields[i]).None? {
        assert fields[i] in table;
      }
    }
  }

  /** Zero is accepted; only a negative number is refused as non-positive; a blank string is missing. */
  lemma FieldVerdicts(data: map<string, FieldValue>, field: string)
    ensures field in data && data[field] == Num(0.0) ==> FieldCheck(data, field) == None
    ensures FieldCheck(data, field) == Some(MustBePositive) <==>
              field in data && data[field].Num? && data[field].n < 0.0
    ensures FieldCheck(data, field) == Some(FieldRequired) <==> field !in data || Blank(data[field])
    ensures field in data && data[field] == Text("") ==> FieldCheck(data, field) == Some(FieldRequired)
  {
  }

  /** The prompt-only selections accept any form whose prompt is filled in, whatever else it lacks. */
  lemma PromptOnlySelections(data: map<string, FieldValue>, sel: Selection)
    requires sel in {Single(PVC), Single(SCOPE), Core, All}
    ensures RequiredFields(sel) == ["inputPrompt"]
    ensures FormValid(data, sel) <==> "inputPrompt" in data && !Blank(data["inputPrompt"]) &&
                                      !(data["inputPrompt"].Num? && data["inputPrompt"].n < 0.0)
  {
    var fields := RequiredFields(sel);
    assert fields == ["inputPrompt"];
    if FormValid(data, sel) {
      assert FieldCheck(data, fields[0]).None?;
    }
  }

  /**
   * The suggested volume is the benchmark for an unknown industry, and the
   * rounded scaled benchmark for a listed one.
   */
  lemma VolumeSuggestion(useCase: UseCase, industry: string)
    ensures industry !in INDUSTRY_VOLUME_MULTIPLIERS ==>
              CalculateVolume(useCase, industry) as real == UseCaseBenchmark(useCase)
    ensures industry in INDUSTRY_VOLUME_MULTIPLIERS ==>
              CalculateVolume(useCase, industry) == Round(UseCaseBenchmark(useCase) * INDUSTRY_VOLUME_MULTIPLIERS[industry])
  {
  }

  /** A benchmark of at least one run scaled by a multiplier of at least 0.7 rounds to at least one run. */
  lemma ScaledBenchmarkAtLeastOne(useCase: UseCase, industry: string)
    ensures Round(UseCaseBenchmark(useCase) * Multiplier(industry)) >= 1
  {
    var m := Multiplier(industry);
    assert m >= 0.7 by {
      if industry in INDUSTRY_VOLUME_MULTIPLIERS {
        MultipliersInRange(industry);
      }
    }
    assert UseCaseBenchmark(useCase) >= 1.0;
    assert UseCaseBenchmark(useCase) * m >= 0.7;
  }

  /** The industry multipliers lie between 0.7 and 5. */
  lemma MultipliersInRange(industry: string)
    requires industry in INDUSTRY_VOLUME_MULTIPLIERS
    ensures 0.7 <= INDUSTRY_VOLUME_MULTIPLIERS[industry] <= 5.0
  {
  }

  /** A pipeline for customer support suggests 25000 runs a year; an ad-hoc legal task suggests 1. */
  lemma VolumeExamples()
    ensures CalculateVolume(Pipeline, "Customer Support") == 25000
    ensures CalculateVolume(AdHoc, "Legal & Compliance") == 1
    ensures CalculateVolume(SOP, "Unknown Sector") == 200
  {
    assert "Unknown Sector" !in INDUSTRY_VOLUME_MULTIPLIERS;
  }

  /**
   * Choosing a use case and then an industry leaves the volume that the pair
   * suggests, whichever industry was selected before.
   */
  method UseCaseThenIndustry(form: Form, useCase: UseCase, industry: string)
    modifies form
    ensures "yearlyVolume" in form.formData && "useCase" in form.formData
    ensures form.formData["yearlyVolume"] == Num(CalculateVolume(useCase, industry) as real)
    ensures form.formData["useCase"] == Case(useCase)
    ensures form.selectedIndustry == industry
  {
    form.HandleUseCaseChange(useCase);
    form.HandleIndustryChange(industry);
  }

  /** A failed submission blocks the call, and the table then names a field that failed. */
  method SubmitBlocked(form: Form, sel: Selection) returns (submitted: bool)
    modifies form
    ensures !submitted ==> exists f :: f in form.validationErrors && form.validationErrors[f].Some?
    ensures submitted ==> forall f :: f in form.validationErrors ==> form.validationErrors[f] == None
  {
    submitted := form.HandleSubmit(sel);
    ValidIffNoErrors(form.formData, sel);
  }
}
