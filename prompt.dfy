/** The user prompt app/main.py sends to the model: an f-string over the four
    request fields, each optional one written with `or 'unknown'`. */
module Prompt {

  import opened Options
  import opened Text
  import opened Models

  const Unknown := "unknown"

  /** Everything the template puts before the symptom text. */
  const Head := "\n    Patient info:\n    - Symptoms: "
  const AgeLabel := "\n    - Age: "
  const SexLabel := "\n    - Sex: "
  const DurationLabel := "\n    - Duration: "
  const Tail := "\n\n    Output ONLY valid JSON following the schema in the system prompt.\n    "

  /** `{age or 'unknown'}`: `None` and `0` are both falsy. */
  function RenderAge(age: Option<int>): (r: string) {
    if age.None? || age.value == 0 then Unknown else IntToDecimal(age.value)
  }

  /** `{text or 'unknown'}`: `None` and `""` are both falsy. */
  function RenderText(text: Option<string>): (r: string) {
    if text.None? || text.value == "" then Unknown else text.value
  }

  /** The line giving the age, as the f-string writes it. */
  function AgeLine(q: SymptomInput): (r: string) {
    AgeLabel + RenderAge(q.age)
  }

  /** The line giving the sex, as the f-string writes it. */
  function SexLine(q: SymptomInput): (r: string) {
    SexLabel + RenderText(q.sex)
  }

  /** The line giving the duration, as the f-string writes it. */
  function DurationLine(q: SymptomInput): (r: string) {
    DurationLabel + RenderText(q.duration)
  }

  /** The `user_prompt` f-string. */
  function UserPrompt(q: SymptomInput): (p: string) {
    Head + (q.symptoms + ((AgeLine(q) + (SexLine(q) + DurationLine(q))) + Tail))
  }

  /** The prompt opens with the fixed head, holds the symptom text verbatim
      right after it, then the age, sex and duration lines in that order, and
      ends with the fixed instruction. */
  lemma UserPromptLayout(q: SymptomInput)
    ensures OccursAt(Head, UserPrompt(q), 0)
    ensures OccursAt(q.symptoms, UserPrompt(q), |Head|)
    ensures OccursAt(AgeLine(q), UserPrompt(q), |Head| + |q.symptoms|)
    ensures OccursAt(SexLine(q), UserPrompt(q), |Head| + |q.symptoms| + |AgeLine(q)|)
    ensures OccursAt(DurationLine(q), UserPrompt(q), |Head| + |q.symptoms| + |AgeLine(q)| + |SexLine(q)|)
    ensures OccursAt(Tail, UserPrompt(q), |UserPrompt(q)| - |Tail|)
  {
    var body := AgeLine(q) + (SexLine(q) + DurationLine(q));
    NestedLayout(Head, q.symptoms, AgeLine(q), SexLine(q), DurationLine(q), Tail,
                 body, body + Tail, q.symptoms + (body + Tail));
  }

  /** The age is written as `unknown` exactly when it is absent or zero. */
  lemma RenderAgeUnknownIff(age: Option<int>)
    ensures RenderAge(age) == Unknown <==> age.None? || age == Some(0)
  {
    if age.Some? && age.value != 0 {
      IntToDecimalShape(age.value);
      assert RenderAge(age)[0] != Unknown[0];
    }
  }

  /** Any other age is written in decimal and reads back as itself. */
  lemma RenderAgeReadsBack(n: int)
    requires n != 0
    ensures ParseInt(RenderAge(Some(n))) == Some(n)
  {
    IntToDecimalRoundTrip(n);
  }

  /** Sex and duration are written as `unknown` when absent or empty, and
      otherwise copied verbatim, so `unknown` in the prompt cannot tell an
      absent field from one whose value is the word itself. */
  lemma RenderTextUnknownIff(text: Option<string>)
    ensures RenderText(text) == Unknown <==> text in {None, Some(""), Some(Unknown)}
    ensures text.Some? && text.value != "" ==> RenderText(text) == text.value
  {
  }
}
