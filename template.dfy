// The certificate template filler: brand, date, every string-valued data field
// and the prompt are substituted everywhere; the generated tables, lists and
// advanced sections are substituted at their first placeholder only.

module Template {
  import opened Wrappers
  import opened Strings

  const BRAND := "KONKRED"

  /** A value of the data record: a string, or anything else (arrays, numbers, objects). */
  datatype Value = Text(text: string) | NonText

  datatype Industry = Industry(name: string, use: string)

  datatype InputVariable = InputVariable(name: string, desc: string, ex: string)

  /**
   * The data record: every key with its value, in enumeration order, and the
   * array-valued keys read by the table and list builders (None when absent).
   */
  datatype TemplateData = TemplateData(
    entries: seq<(string, Value)>,
    industries: Option<seq<Industry>>,
    inputs: Option<seq<InputVariable>>,
    limitations: Option<seq<string>>,
    outputElements: Option<seq<string>>)

  function Placeholder(key: string): string {
    "{{" + key + "}}"
  }

  /** The value of the first entry with this key. */
  function Lookup(entries: seq<(string, Value)>, key: string): Option<Value> {
    if entries == [] then None
    else if entries[0].0 == key then Some(entries[0].1)
    else Lookup(entries[1..], key)
  }

  /** A string-valued field, or the empty string for an absent or non-string one. */
  function TextField(data: TemplateData, key: string): string {
    match Lookup(data.entries, key)
    case Some(Text(v)) => v
    case _ => ""
  }

  /** The data fields substituted one after another, each at every occurrence. */
  function FillEntries(s: string, entries: seq<(string, Value)>): string {
    if entries == [] then s
    else
      var before := FillEntries(s, entries[..|entries| - 1]);
      var (key, value) := entries[|entries| - 1];
      if value.Text? then ReplaceAll(before, Placeholder(key), value.text) else before
  }

  const INDUSTRIES_HEADER := "| Industry | Application |\n| :--- | :--- |\n"
  const INPUTS_HEADER := "| Variable | Description | Example |\n| :--- | :--- | :--- |\n"

  function IndustriesTable(items: seq<Industry>): string {
    var rows := seq(|items|, i requires 0 <= i < |items| => "| " + items[i].name + " | " + items[i].use + " |");
    Or(INDUSTRIES_HEADER + Join(rows, "\n"), "| - | - |")
  }

  function InputsTable(items: seq<InputVariable>): string {
    var rows := seq(|items|, i requires 0 <= i < |items| =>
                      "| `" + items[i].name + "` | " + items[i].desc + " | *" + items[i].ex + "* |");
    Or(INPUTS_HEADER + Join(rows, "\n"), "_No explicit variables detected._")
  }

  function Bullets(items: seq<string>): seq<string> {
    seq(|items|, i requires 0 <= i < |items| => "- " + items[i])
  }

  function LimitationsList(items: seq<string>): string {
    Or(Join(Bullets(items), "\n"), "- None")
  }

  /** The bulleted output elements when given as an array, else the output format. */
  function OutputSpecs(data: TemplateData): string {
    var specs := if data.outputElements.Some? then Join(Bullets(data.outputElements.value), "\n")
                 else TextField(data, "OUTPUT_FORMAT");
    Or(specs, "Standard Text")
  }

  /** The sections substituted at their first placeholder only, in source order. */
  function FillSections(s: string, data: TemplateData): string {
    var s1 := ReplaceFirst(s, "{{INDUSTRIES_TABLE}}", IndustriesTable(data.industries.GetOr([])));
    var s2 := ReplaceFirst(s1, "{{INPUTS_TABLE}}", InputsTable(data.inputs.GetOr([])));
    var s3 := ReplaceFirst(s2, "{{LIMITATIONS_LIST}}", LimitationsList(data.limitations.GetOr([])));
    var s4 := ReplaceFirst(s3, "{{OUTPUT_SPECS}}", OutputSpecs(data));
    var s5 := ReplaceFirst(s4, "{{REFINED_PROMPT}}", Or(TextField(data, "REFINED_PROMPT"), "Optimization not available."));
    ReplaceFirst(s5, "{{SIMULATION}}", Or(TextField(data, "SIMULATION"), "Simulation data not generated."))
  }

  /** The whole filler as one expression; `today` is the ISO date the caller's clock gives. */
  function Populated(template: string, data: TemplateData, prompt: string, today: string): string {
    var branded := ReplaceAll(template, "{{BRAND_NAME}}", BRAND);
    var dated := ReplaceAll(branded, "{{VERSION_DATE}}", today);
    var filled := FillEntries(dated, data.entries);
    FillSections(ReplaceAll(filled, "{{THE_PROMPT}}", prompt), data)
  }

  /** The filler rewrites its working copy step by step, looping over the data keys. */
  method PopulateTemplate(template: string, data: TemplateData, prompt: string, today: string)
    returns (populated: string)
    ensures populated == Populated(template, data, prompt, today)
  {
    populated := template;
    populated := ReplaceAll(populated, "{{BRAND_NAME}}", BRAND);
    populated := ReplaceAll(populated, "{{VERSION_DATE}}", today);
    ghost var dated := populated;
    var i := 0;
    while i < |data.entries|
      invariant i <= |data.entries|
      invariant populated == FillEntries(dated, data.entries[..i])
    {
      var (key, value) := data.entries[i];
      assert data.entries[..i + 1][..i] == data.entries[..i];
      if value.Text? {
        populated := ReplaceAll(populated, Placeholder(key), value.text);
      }
      i := i + 1;
    }
    assert data.entries[..i] == data.entries;
    populated := ReplaceAll(populated, "{{THE_PROMPT}}", prompt);
    populated := FillSections(populated, data);
  }

  // ---------------------------------------------------------------- properties

  /** Both tables always begin with their header row, so their fallbacks never apply. */
  lemma TablesKeepHeaders(industries: seq<Industry>, inputs: seq<InputVariable>)
    ensures |IndustriesTable(industries)| >= |INDUSTRIES_HEADER| &&
            IndustriesTable(industries)[..|INDUSTRIES_HEADER|] == INDUSTRIES_HEADER
    ensures |InputsTable(inputs)| >= |INPUTS_HEADER| &&
            InputsTable(inputs)[..|INPUTS_HEADER|] == INPUTS_HEADER
  {
  }

  /** Joining at least one non-empty piece gives a non-empty string. */
  lemma JoinNonEmpty(pieces: seq<string>, sep: string)
    requires |pieces| > 0 && pieces[0] != ""
    ensures Join(pieces, sep) != ""
  {
  }

  /** No limitations gives "- None"; otherwise one "- " line per limitation. */
  lemma LimitationsListCases(items: seq<string>)
    ensures items == [] ==> LimitationsList(items) == "- None"
    ensures items != [] ==> LimitationsList(items) == Join(Bullets(items), "\n") &&
                            LimitationsList(items)[..2] == "- "
  {
    if items != [] {
      JoinNonEmpty(Bullets(items), "\n");
    }
  }

  /**
   * Output elements given as a non-empty array become one bullet each; an empty
   * array gives "Standard Text"; without the array the output format is used,
   * and "Standard Text" when that is absent or empty.
   */
  lemma OutputSpecsCases(data: TemplateData)
    ensures data.outputElements.Some? && data.outputElements.value != [] ==>
              OutputSpecs(data) == Join(Bullets(data.outputElements.value), "\n")
    ensures data.outputElements == Some([]) ==> OutputSpecs(data) == "Standard Text"
    ensures data.outputElements.None? && TextField(data, "OUTPUT_FORMAT") != "" ==>
              OutputSpecs(data) == TextField(data, "OUTPUT_FORMAT")
    ensures data.outputElements.None? && TextField(data, "OUTPUT_FORMAT") == "" ==>
              OutputSpecs(data) == "Standard Text"
  {
    if data.outputElements.Some? && data.outputElements.value != [] {
      JoinNonEmpty(Bullets(data.outputElements.value), "\n");
    }
  }

  /** Every placeholder begins with "{{". */
  lemma PlaceholderAbsent(s: string, key: string)
    requires !Occurs("{{", s)
    ensures !Occurs(Placeholder(key), s)
  {
    AbsentPrefix(s, "{{", Placeholder(key));
  }

  /** Without any "{{" the data fields change nothing. */
  lemma {:induction false} FillEntriesAbsent(s: string, entries: seq<(string, Value)>)
    requires !Occurs("{{", s)
    ensures FillEntries(s, entries) == s
  {
    if entries != [] {
      FillEntriesAbsent(s, entries[..|entries| - 1]);
      var (key, value) := entries[|entries| - 1];
      if value.Text? {
        PlaceholderAbsent(s, key);
        ReplaceAllAbsent(s, Placeholder(key), value.text);
      }
    }
  }

  /** A template without any placeholder comes back unchanged, whatever the data. */
  lemma TemplateWithoutPlaceholders(template: string, data: TemplateData, prompt: string, today: string)
    requires !Occurs("{{", template)
    ensures Populated(template, data, prompt, today) == template
  {
    AbsentPrefix(template, "{{", "{{BRAND_NAME}}");
    ReplaceAllAbsent(template, "{{BRAND_NAME}}", BRAND);
    AbsentPrefix(template, "{{", "{{VERSION_DATE}}");
    ReplaceAllAbsent(template, "{{VERSION_DATE}}", today);
    FillEntriesAbsent(template, data.entries);
    AbsentPrefix(template, "{{", "{{THE_PROMPT}}");
    ReplaceAllAbsent(template, "{{THE_PROMPT}}", prompt);
    SectionsAbsent(template, data);
  }

  /** Without any "{{" the section substitutions change nothing. */
  lemma SectionsAbsent(s: string, data: TemplateData)
    requires !Occurs("{{", s)
    ensures FillSections(s, data) == s
  {
    AbsentPrefix(s, "{{", "{{INDUSTRIES_TABLE}}");
    ReplaceFirstAbsent(s, "{{INDUSTRIES_TABLE}}", IndustriesTable(data.industries.GetOr([])));
    AbsentPrefix(s, "{{", "{{INPUTS_TABLE}}");
    ReplaceFirstAbsent(s, "{{INPUTS_TABLE}}", InputsTable(data.inputs.GetOr([])));
    AbsentPrefix(s, "{{", "{{LIMITATIONS_LIST}}");
    ReplaceFirstAbsent(s, "{{LIMITATIONS_LIST}}", LimitationsList(data.limitations.GetOr([])));
    AbsentPrefix(s, "{{", "{{OUTPUT_SPECS}}");
    ReplaceFirstAbsent(s, "{{OUTPUT_SPECS}}", OutputSpecs(data));
    AbsentPrefix(s, "{{", "{{REFINED_PROMPT}}");
    ReplaceFirstAbsent(s, "{{REFINED_PROMPT}}", Or(TextField(data, "REFINED_PROMPT"), "Optimization not available."));
    AbsentPrefix(s, "{{", "{{SIMULATION}}");
    ReplaceFirstAbsent(s, "{{SIMULATION}}", Or(TextField(data, "SIMULATION"), "Simulation data not generated."));
  }

  /**
   * A section placeholder is replaced at its first occurrence only: in a
   * string whose text before the placeholder holds no brace, that copy is
   * filled and everything after it, further copies included, is kept.
   */
  lemma SectionReplacedAtFirst(before: string, key: string, after: string, rep: string)
    requires !Occurs("{", before)
    ensures ReplaceFirst(before + Placeholder(key) + after, Placeholder(key), rep) == before + rep + after
  {
    var p := Placeholder(key);
    var s := before + p + after;
    assert s[|before|..|before| + |p|] == p;
    assert At(s, p, |before|);
    forall j: nat | j < |before|
      ensures !At(s, p, j)
    {
      assert !At(before, "{", j);
      assert before[j..j + 1] == [before[j]];
      assert s[j] == before[j] && p[0] == '{';
    }
    var r := ReplaceFirst(s, p, rep);
    assert FirstIndex(s, p) == Some(|before|);
    assert s[..|before|] == before && s[|before| + |p|..] == after;
    assert r == r[..|before|] + r[|before|..|before| + |rep|] + r[|before| + |rep|..];
  }
}
