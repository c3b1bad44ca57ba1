/** `symptom_check`, the POST /api/symptom-check handler of app/main.py, as a
    function of its request and of the outside world's answers: the model's
    reply to the prompts it is given, the JSON parser, and whether the store
    accepts a write. The effects the handler asks for (one model call, at
    most one write) are returned in order beside its outcome. */
module Handler {

  import opened Options
  import opened Text
  import opened Models
  import opened Emergency
  import opened Extraction
  import opened Prompt

  /** What `call_llm` does: return the raw reply text, or raise with a
      message. */
  datatype LlmReply = LlmOk(raw: string) | LlmErr(message: string)

  /** The document `save_query` writes (its timestamp is not modelled). */
  datatype Record = Record(symptoms: string, response: Json)

  /** An interaction with the outside world. */
  datatype Effect = LlmCall(system: string, user: string) | SaveAttempt(record: Record)

  /** The 200 body: the typed emergency response, or the parsed reply as is. */
  datatype Body = Structured(response: SymptomResponse) | PassThrough(value: Json)

  /** How the handler ends: a 200 body, an `HTTPException`, or an exception
      from the store that escapes the handler. */
  datatype Outcome = Ok(body: Body) | HttpError(status: int, detail: string) | Raised

  datatype Run = Run(outcome: Outcome, effects: seq<Effect>)

  const BadRequest := 400
  const InternalServerError := 500

  const ValidationDetail := "Please describe your symptoms in detail."
  const LlmErrorPrefix := "LLM error: "
  const NoJsonDetail := "Failed to parse LLM response as JSON."
  const InvalidJsonDetail := "LLM returned invalid JSON format."

  const EmergencyMarker := "\U{1F6A8} EMERGENCY"
  const EmergencyTriage := EmergencyMarker + ": Possible life-threatening symptoms detected."
  const EmergencyDisclaimer :=
    "This information is for educational purposes only. Seek professional medical care immediately."
  const EmergencyNote := "Detected emergency keyword(s) in symptom input."

  /** The fixed answer to an emergency, without any model call. */
  const EmergencyResponse := SymptomResponse(
    [],
    ["Call your local emergency number immediately.",
     "Avoid physical exertion until help arrives."],
    EmergencyTriage,
    EmergencyDisclaimer,
    Some(EmergencyNote))

  /** The validation guard: `not symptoms or len(symptoms.strip()) < 3`. */
  predicate TooShort(symptoms: string) {
    |symptoms| == 0 || |Strip(symptoms)| < 3
  }

  function LlmCalls(effects: seq<Effect>): (n: nat)
    decreases |effects|
  {
    if effects == [] then 0
    else (if effects[0].LlmCall? then 1 else 0) + LlmCalls(effects[1..])
  }

  function Saves(effects: seq<Effect>): (r: seq<Record>)
    decreases |effects|
  {
    if effects == [] then []
    else (if effects[0].SaveAttempt? then [effects[0].record] else []) + Saves(effects[1..])
  }

  lemma EffectsOfPair(x: Effect, y: Effect)
    ensures LlmCalls([x, y]) == (if x.LlmCall? then 1 else 0) + (if y.LlmCall? then 1 else 0)
    ensures Saves([x, y]) == (if x.SaveAttempt? then [x.record] else []) + (if y.SaveAttempt? then [y.record] else [])
  {
    assert [x, y][1..] == [y];
    EffectsOfOne(y);
  }

  lemma EffectsOfOne(x: Effect)
    ensures LlmCalls([x]) == if x.LlmCall? then 1 else 0
    ensures Saves([x]) == if x.SaveAttempt? then [x.record] else []
  {
    assert [x][1..] == [];
  }

  /** `symptom_check(input_data)`. `llm` answers `call_llm(system, user)`,
      `parse` answers `json.loads` (`None` for `JSONDecodeError`), and
      `saveOk` says whether `save_query` returns normally. */
  function SymptomCheck(
    input: SymptomInput,
    systemPrompt: string,
    llm: (string, string) -> LlmReply,
    parse: string -> Option<Json>,
    saveOk: bool): (run: Run)
  {
    var symptoms := input.symptoms;
    if TooShort(symptoms) then
      Run(HttpError(BadRequest, ValidationDetail), [])
    else if CheckEmergency(symptoms) then
      var save := SaveAttempt(Record(symptoms, ResponseToJson(EmergencyResponse)));
      Run(if saveOk then Ok(Structured(EmergencyResponse)) else Raised, [save])
    else
      var userPrompt := UserPrompt(input);
      var call := LlmCall(systemPrompt, userPrompt);
      match llm(systemPrompt, userPrompt)
      case LlmErr(message) =>
        Run(HttpError(InternalServerError, LlmErrorPrefix + message), [call])
      case LlmOk(raw) =>
        match ExtractSpan(raw)
        case None => Run(HttpError(InternalServerError, NoJsonDetail), [call])
        case Some(jsonText) =>
          match parse(jsonText)
          case None => Run(HttpError(InternalServerError, InvalidJsonDetail), [call])
          case Some(parsed) =>
            Run(Ok(PassThrough(parsed)), [call, SaveAttempt(Record(symptoms, parsed))])
  }

  /** What holds of every run: the 400 answer is given exactly for too-short
      input; the model is consulted once, exactly when the input is long
      enough and not an emergency; every successful answer comes with
      exactly one write attempt and every error answer with none; and only a
      failed write on the emergency path escapes the handler. */
  lemma SymptomCheckSummary(input: SymptomInput, systemPrompt: string,
                            llm: (string, string) -> LlmReply, parse: string -> Option<Json>, saveOk: bool)
    ensures var run := SymptomCheck(input, systemPrompt, llm, parse, saveOk);
      && (run.outcome == HttpError(BadRequest, ValidationDetail) <==> TooShort(input.symptoms))
      && LlmCalls(run.effects) == (if TooShort(input.symptoms) || CheckEmergency(input.symptoms) then 0 else 1)
      && (run.outcome.Ok? ==> |Saves(run.effects)| == 1)
      && (run.outcome.HttpError? ==> Saves(run.effects) == [])
      && (run.outcome.Raised? <==> !TooShort(input.symptoms) && CheckEmergency(input.symptoms) && !saveOk)
  {
    var symptoms := input.symptoms;
    if TooShort(symptoms) {
    } else if CheckEmergency(symptoms) {
      EffectsOfOne(SaveAttempt(Record(symptoms, ResponseToJson(EmergencyResponse))));
    } else {
      var call := LlmCall(systemPrompt, UserPrompt(input));
      EffectsOfOne(call);
      match llm(systemPrompt, UserPrompt(input))
      case LlmErr(_) =>
      case LlmOk(raw) =>
        match ExtractSpan(raw)
        case None =>
        case Some(jsonText) =>
          match parse(jsonText)
          case None =>
          case Some(parsed) =>
            EffectsOfPair(call, SaveAttempt(Record(symptoms, parsed)));
    }
  }

  // ---------------------------------------------------------------------
  // The paths through the handler
  // ---------------------------------------------------------------------

  /** The fixed emergency response has no conditions, the two fixed
      recommendations, a triage line that opens with the emergency marker,
      and the fixed disclaimer and note. */
  lemma EmergencyResponseShape()
    ensures EmergencyResponse.conditions == []
    ensures EmergencyResponse.recommendations
      == ["Call your local emergency number immediately.", "Avoid physical exertion until help arrives."]
    ensures OccursAt(EmergencyMarker, EmergencyResponse.triage, 0)
    ensures EmergencyResponse.disclaimer == EmergencyDisclaimer
    ensures EmergencyResponse.notes == Some(EmergencyNote)
  {
  }

  /** Any text the emergency filter fires on passes validation. */
  lemma EmergencyPassesValidation(symptoms: string)
    requires CheckEmergency(symptoms)
    ensures !TooShort(symptoms)
  {
    EmergencyTextIsLong(symptoms);
  }

  /** Too-short input gets the 400 answer, and neither the model nor the
      store is touched. */
  lemma TooShortRejected(input: SymptomInput, systemPrompt: string,
                         llm: (string, string) -> LlmReply, parse: string -> Option<Json>, saveOk: bool)
    requires TooShort(input.symptoms)
    ensures SymptomCheck(input, systemPrompt, llm, parse, saveOk) == Run(HttpError(BadRequest, ValidationDetail), [])
  {
  }

  /** On any text the filter fires on, whatever the other fields: the model
      is not called, the fixed response is written once, and it is the
      answer if the write succeeds; a failed write is not caught here. */
  lemma EmergencyShortCircuit(input: SymptomInput, systemPrompt: string,
                              llm: (string, string) -> LlmReply, parse: string -> Option<Json>, saveOk: bool)
    requires CheckEmergency(input.symptoms)
    ensures var run := SymptomCheck(input, systemPrompt, llm, parse, saveOk);
      && run.effects == [SaveAttempt(Record(input.symptoms, ResponseToJson(EmergencyResponse)))]
      && run.outcome == if saveOk then Ok(Structured(EmergencyResponse)) else Raised
  {
    EmergencyPassesValidation(input.symptoms);
  }

  /** A failing model call becomes a 500 carrying the model's message; no
      extraction and no write follow. */
  lemma LlmFailureReported(input: SymptomInput, systemPrompt: string,
                           llm: (string, string) -> LlmReply, parse: string -> Option<Json>, saveOk: bool,
                           message: string)
    requires !TooShort(input.symptoms) && !CheckEmergency(input.symptoms)
    requires llm(systemPrompt, UserPrompt(input)) == LlmErr(message)
    ensures SymptomCheck(input, systemPrompt, llm, parse, saveOk)
      == Run(HttpError(InternalServerError, LlmErrorPrefix + message), [LlmCall(systemPrompt, UserPrompt(input))])
  {
  }

  /** A reply without a `{` before a `}` becomes the "failed to parse" 500,
      and the parser is never consulted. */
  lemma NoJsonReported(input: SymptomInput, systemPrompt: string,
                       llm: (string, string) -> LlmReply, parse: string -> Option<Json>, saveOk: bool,
                       raw: string)
    requires !TooShort(input.symptoms) && !CheckEmergency(input.symptoms)
    requires llm(systemPrompt, UserPrompt(input)) == LlmOk(raw)
    requires forall i, j :: 0 <= i < j < |raw| ==> !(raw[i] == '{' && raw[j] == '}')
    ensures SymptomCheck(input, systemPrompt, llm, parse, saveOk).outcome == HttpError(InternalServerError, NoJsonDetail)
  {
    NoBracePairNoSpan(raw);
  }

  /** A brace span the parser rejects becomes the "invalid JSON" 500, whose
      detail differs from the no-span one. */
  lemma InvalidJsonReported(input: SymptomInput, systemPrompt: string,
                            llm: (string, string) -> LlmReply, parse: string -> Option<Json>, saveOk: bool,
                            raw: string)
    requires !TooShort(input.symptoms) && !CheckEmergency(input.symptoms)
    requires llm(systemPrompt, UserPrompt(input)) == LlmOk(raw)
    requires ExtractSpan(raw).Some? && parse(ExtractSpan(raw).value).None?
    ensures SymptomCheck(input, systemPrompt, llm, parse, saveOk).outcome == HttpError(InternalServerError, InvalidJsonDetail)
    ensures InvalidJsonDetail != NoJsonDetail
  {
  }

  /** A parsed reply is returned unchanged and written once with the
      symptom text. */
  lemma ParsedReplyReturned(input: SymptomInput, systemPrompt: string,
                            llm: (string, string) -> LlmReply, parse: string -> Option<Json>, saveOk: bool,
                            raw: string, parsed: Json)
    requires !TooShort(input.symptoms) && !CheckEmergency(input.symptoms)
    requires llm(systemPrompt, UserPrompt(input)) == LlmOk(raw)
    requires ExtractSpan(raw).Some? && parse(ExtractSpan(raw).value) == Some(parsed)
    ensures var run := SymptomCheck(input, systemPrompt, llm, parse, saveOk);
      && run.outcome == Ok(PassThrough(parsed))
      && run.effects == [LlmCall(systemPrompt, UserPrompt(input)), SaveAttempt(Record(input.symptoms, parsed))]
  {
  }

  /** Away from the emergency path a failing store changes nothing: the
      outcome and the effects are those of a succeeding store. */
  lemma SaveFailureSwallowed(input: SymptomInput, systemPrompt: string,
                             llm: (string, string) -> LlmReply, parse: string -> Option<Json>)
    requires !CheckEmergency(input.symptoms)
    ensures SymptomCheck(input, systemPrompt, llm, parse, false) == SymptomCheck(input, systemPrompt, llm, parse, true)
  {
  }

  /** On the emergency path it does change the outcome. */
  lemma EmergencySaveFailureEscapes(input: SymptomInput, systemPrompt: string,
                                    llm: (string, string) -> LlmReply, parse: string -> Option<Json>)
    requires CheckEmergency(input.symptoms)
    ensures SymptomCheck(input, systemPrompt, llm, parse, false).outcome == Raised
    ensures SymptomCheck(input, systemPrompt, llm, parse, true).outcome == Ok(Structured(EmergencyResponse))
  {
    EmergencyPassesValidation(input.symptoms);
  }

  /** What the store receives on the emergency path reads back as the fixed
      response. */
  lemma EmergencyRecordReadsBack(input: SymptomInput, systemPrompt: string,
                                 llm: (string, string) -> LlmReply, parse: string -> Option<Json>, saveOk: bool)
    requires CheckEmergency(input.symptoms)
    ensures var saved := Saves(SymptomCheck(input, systemPrompt, llm, parse, saveOk).effects);
      |saved| == 1 && ResponseFromJson(saved[0].response) == Some(EmergencyResponse)
  {
    EmergencyPassesValidation(input.symptoms);
    EffectsOfOne(SaveAttempt(Record(input.symptoms, ResponseToJson(EmergencyResponse))));
    ResponseRoundTrip(EmergencyResponse);
  }
}
