/** Two complete requests through the handler, one per path that answers
    200. */
module Scenarios {

  import opened Options
  import opened Text
  import opened Models
  import opened Emergency
  import opened Extraction
  import opened Prompt
  import opened Handler

  /** A model reply: a sentence, then the JSON object. The object is written
      in short pieces only to keep the verifier's view of the literal small. */
  const ReplyProse := "Here is the result: "
  const ReplyObject :=
    "{"
    + "\"conditions\":[{\"name\":\"Tension headache\","
    + "\"rank\":1,\"confidence\":\"medium\"}],"
    + "\"recommendations\":[\"Rest\",\"Hydrate\"],"
    + "\"triage\":\"Non-urgent\","
    + "\"disclaimer\":\"Educational only\""
    + "}"

  /** "I have a mild headache" passes validation ... */
  lemma MildHeadachePassesValidation(s: string)
    requires s == "I have a mild headache"
    ensures !TooShort(s)
  {
    StripKeepsSpan(s, 0, |s| - 1);
  }

  lemma MildHeadacheLowered(s: string)
    requires s == "I have a mild headache"
    ensures Lower(s) == "i have a mild headache"
  {
  }

  /** ... and mentions no keyword. */
  lemma MildHeadacheIsNotEmergency(s: string)
    requires s == "I have a mild headache"
    ensures !CheckEmergency(s)
  {
    MildHeadacheLowered(s);
    NoKeywordWithout(Lower(s));
  }

  lemma ChestPainIsEmergency(s: string)
    requires s == "chest pain and sweating"
    ensures CheckEmergency(s)
  {
    assert Lower(s)[0..10] == Lower("chest pain");
    assert KeywordAt(s, 0, 0);
    CheckEmergencyIff(s);
  }

  /** The object is what extraction cuts out of the reply. */
  lemma ReplyObjectExtracted(raw: string)
    requires raw == ReplyProse + ReplyObject
    ensures ExtractSpan(raw) == Some(ReplyObject)
  {
    assert ReplyObject[0] == '{';
    assert ReplyObject[|ReplyObject| - 1] == '}';
    ExtractSurroundedObject(ReplyProse, ReplyObject, "");
    assert ReplyProse + ReplyObject + "" == raw;
  }

  /** A mild headache at age 30, answered by a model that wraps the JSON in
      prose: the object is cut out, parsed, returned unchanged and written
      once, whether or not the store accepts the write. */
  lemma MildHeadacheAnswered(input: SymptomInput, systemPrompt: string, llm: (string, string) -> LlmReply,
                             parse: string -> Option<Json>, saveOk: bool, parsed: Json)
    requires input == SymptomInput("I have a mild headache", Some(30), None, None)
    requires llm(systemPrompt, UserPrompt(input)) == LlmOk(ReplyProse + ReplyObject)
    requires parse(ReplyObject) == Some(parsed)
    ensures var run := SymptomCheck(input, systemPrompt, llm, parse, saveOk);
      && run.outcome == Ok(PassThrough(parsed))
      && run.effects == [LlmCall(systemPrompt, UserPrompt(input)), SaveAttempt(Record(input.symptoms, parsed))]
  {
    MildHeadachePassesValidation(input.symptoms);
    MildHeadacheIsNotEmergency(input.symptoms);
    ReplyObjectExtracted(ReplyProse + ReplyObject);
    ParsedReplyReturned(input, systemPrompt, llm, parse, saveOk, ReplyProse + ReplyObject, parsed);
  }

  /** "chest pain and sweating" is answered with the fixed emergency response
      and the model is never called. */
  lemma ChestPainShortCircuits(input: SymptomInput, systemPrompt: string, llm: (string, string) -> LlmReply,
                               parse: string -> Option<Json>)
    requires input == SymptomInput("chest pain and sweating", None, None, None)
    ensures var run := SymptomCheck(input, systemPrompt, llm, parse, true);
      && run.outcome == Ok(Structured(EmergencyResponse))
      && run.outcome.body.response.conditions == []
      && LlmCalls(run.effects) == 0
  {
    ChestPainIsEmergency(input.symptoms);
    EmergencyShortCircuit(input, systemPrompt, llm, parse, true);
    SymptomCheckSummary(input, systemPrompt, llm, parse, true);
  }
}
