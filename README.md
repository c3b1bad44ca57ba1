# Symptom checker: the request handler, modelled in Dafny

The service takes a free-text description of symptoms at
`POST /api/symptom-check` and acts as follows:

1. It rejects input that is empty or shorter than three characters once
   stripped.
2. It answers a fixed emergency response when the lower-cased text contains
   one of seven high-risk phrases.
3. Otherwise it asks a language model for an answer. It cuts the JSON
   object out of the reply with the pattern `(\{.*\})`, parses it, stores
   the exchange and returns the parsed value.

All of this lives in `app/main.py`. The model treats the handler as a pure
function, `Handler.SymptomCheck`, of four inputs:

- the request;
- the model's reply to the prompts it is given (a success text or an error
  message);
- the JSON parser (a partial function);
- whether the store accepts a write.

The function returns two things:

- the outcome: a 200 body, an HTTP error with its status and detail, or an
  exception from the store that escapes the handler;
- the effects, in order: at most one model call and at most one write.

Files, one module each:

- `options.dfy`: `Option`.
- `text.dfy`: the Python string operations the handler uses. These are
  `str.strip()` (Python's full `isspace` set), ASCII `str.lower()`, the `in`
  substring test and `str(int)`, with its inverse.
- `models.dfy`: `SymptomInput`, `Condition`, `SymptomResponse` (from
  `app/models.py`), JSON values, and `.dict()` with its inverse.
- `emergency.dfy`: `EMERGENCY_KEYWORDS` and `check_emergency`.
- `extraction.dfy`: the brace-span search, with the regular-expression
  search semantics it implements stated on their own.
- `prompt.dfy`: the user-prompt f-string.
- `handler.dfy`: `symptom_check` and its paths.
- `scenarios.dfy`: two complete requests, one per 200 path.

The two writes are handled differently. Only the normal-path write
(`app/main.py:91-94`) is guarded. The emergency write (`app/main.py:58`) is
not, so a store failure there escapes the handler.
`Handler.EmergencySaveFailureEscapes` states this behaviour.

## Model

| member | source | states |
|---|---|---|
| Text.TrimStart | app/main.py:42 | the result is a suffix of the input, everything removed is whitespace, and the result does not start with whitespace |
| Text.TrimEnd | app/main.py:42 | the result is a prefix of the input, everything removed is whitespace, and the result does not end with whitespace |
| Text.StripKeepsSpan | app/main.py:42 | stripping removes only whitespace: two non-whitespace characters keep at least the span between them |
| Text.LowerIdempotent | app/main.py:23 | lower-casing a lower-cased text changes nothing |
| Text.ContainsIff | app/main.py:24 | the `word in text` scan succeeds exactly when the word occurs as a contiguous block somewhere in the text |
| Text.MissingCharNotContained | app/main.py:24 | a word with a character the text lacks is not in the text |
| Text.NatToDecimal | app/main.py:65 | the decimal form of a natural number is non-empty, is all digits and has no leading zero |
| Text.NatToDecimalValue | app/main.py:65 | the decimal form of a natural number reads back as that number |
| Text.IntToDecimalRoundTrip | app/main.py:65 | `str(n)` of any integer, sign included, parses back to `n` |
| Emergency.AnyInIff | app/main.py:24 | `any(word in text for word in words)` holds exactly when some word of the list is contained in the text |
| Emergency.CheckEmergencyIff | app/main.py:21-24 | `check_emergency(s)` holds exactly when some keyword occurs as a contiguous block of `lower(s)` |
| Emergency.CheckEmergencyCaseInsensitive | app/main.py:23-24 | the filter gives the same answer on a text and on its lower-cased form |
| Emergency.ShoutedChestPainMatches | app/main.py:16-24 | "CHEST PAIN" triggers the filter |
| Emergency.NoKeywordWithout | app/main.py:16-19 | every keyword contains one of s, f, u, t, so a text without them triggers nothing |
| Emergency.KeywordsAreTrimmed | app/main.py:16-19 | every keyword has at least six characters and neither starts nor ends with whitespace |
| Emergency.EmergencyTextIsLong | app/main.py:16-24 | a text the filter fires on still has at least six characters after stripping |
| Extraction.FirstIndexOf | app/main.py:79 | the index found holds the character and no earlier index does; nothing found means the character is absent |
| Extraction.LastIndexOf | app/main.py:79 | the index found holds the character and no later index does; nothing found means the character is absent |
| Extraction.ExtractSpanIsSearch | app/main.py:79-82 | extraction fails exactly when no `{` comes before a `}`; otherwise it returns the leftmost, longest match of `\{.*\}` (with `.` matching newlines), which runs from the first `{` through the last `}` |
| Extraction.ExtractSurroundedObject | app/main.py:79-82 | prose without `{`, then a brace-delimited object, then prose without `}` yields exactly that object, whatever braces it contains inside |
| Extraction.NoBracePairNoSpan | app/main.py:79-81 | a reply with no `{` before a `}` yields no span |
| Models.ConditionsRoundTrip | app/main.py:58 | a list of conditions written as mappings reads back as the same list |
| Models.StringsRoundTrip | app/main.py:58 | a list of strings written as JSON reads back as the same list |
| Models.ResponseRoundTrip | app/main.py:58 | the `.dict()` mapping of a `SymptomResponse` reads back as the same response |
| Models.ResponseToJsonInjective | app/main.py:58 | distinct responses are stored as distinct mappings |
| Prompt.UserPromptLayout | app/main.py:62-70 | the prompt opens with the fixed head, holds the symptom text verbatim right after it, then the age, sex and duration lines in that order, and ends with the fixed instruction |
| Prompt.RenderAgeUnknownIff | app/main.py:65 | the age is written as `unknown` exactly when it is absent or 0 |
| Prompt.RenderAgeReadsBack | app/main.py:65 | any non-zero age is written in decimal and reads back as itself |
| Prompt.RenderTextUnknownIff | app/main.py:66-67 | sex and duration are written as `unknown` exactly when they are absent, empty or the word `unknown` itself, and are otherwise copied verbatim |
| Handler.SymptomCheckSummary | app/main.py:41-97 | 400 exactly for too-short input; the model is called once exactly when the input is long enough and no keyword matches; a 200 comes with exactly one write attempt and an error with none; an escaping exception happens only when the emergency write fails |
| Handler.EmergencyResponseShape | app/main.py:47-56 | the emergency response has no conditions, exactly the two fixed recommendations, a triage line opening with the emergency marker, the fixed disclaimer and the fixed note |
| Handler.EmergencyPassesValidation | app/main.py:42-46 | any text the emergency filter fires on passes validation |
| Handler.TooShortRejected | app/main.py:42-43 | too-short input gets 400 "Please describe your symptoms in detail." and touches neither the model nor the store |
| Handler.EmergencyShortCircuit | app/main.py:46-59 | on a keyword match, whatever the other fields: no model call, exactly one write of the fixed response, and that response as the answer when the write succeeds |
| Handler.LlmFailureReported | app/main.py:73-76 | a failed model call gives 500 "LLM error: " followed by the message, and neither extraction nor a write follows |
| Handler.NoJsonReported | app/main.py:79-81 | a reply without a `{` before a `}` gives 500 "Failed to parse LLM response as JSON." |
| Handler.InvalidJsonReported | app/main.py:84-88 | a span the parser rejects gives 500 "LLM returned invalid JSON format.", a detail distinct from the no-span one |
| Handler.ParsedReplyReturned | app/main.py:90-97 | a parsed reply is returned unchanged after one model call and one write of the symptoms with that value |
| Handler.SaveFailureSwallowed | app/main.py:91-94 | off the emergency path, a failing store leaves the outcome and the effects unchanged |
| Handler.EmergencySaveFailureEscapes | app/main.py:58 | on the emergency path, a failing store makes the handler raise instead of answering |
| Handler.EmergencyRecordReadsBack | app/main.py:57-58 | the emergency path writes exactly one record, and its response reads back as the fixed emergency response |
| Scenarios.MildHeadachePassesValidation | app/main.py:42 | "I have a mild headache" passes validation |
| Scenarios.MildHeadacheIsNotEmergency | app/main.py:16-24 | "I have a mild headache" triggers no keyword |
| Scenarios.ChestPainIsEmergency | app/main.py:16-24 | "chest pain and sweating" triggers the filter |
| Scenarios.ReplyObjectExtracted | app/main.py:79-82 | the example reply, prose followed by a JSON object, yields exactly that object |
| Scenarios.MildHeadacheAnswered | app/main.py:41-97 | a mild headache at age 30, with the model wrapping its JSON in prose, gets the parsed object back unchanged, with one model call and one write |
| Scenarios.ChestPainShortCircuits | app/main.py:41-59 | "chest pain and sweating" gets the fixed emergency response with no conditions and no model call |

## Left out

- The web framework: the FastAPI app object, the `GET /` liveness route, `async`, coercion of the request body, and validation of the returned value against `response_model`. The normal path is modelled as returning the parsed value as is.
- The translation of an exception that escapes the handler into a 500 by the framework. The model stops at `Raised`.
- Reading the system prompt from a file at import time. The prompt text is a parameter.
- `call_llm` (HTTP, environment configuration, headers, indexing of the response). It is the `llm` parameter, which answers with a reply text or an error message. A reply whose content is not a string is not modelled.
- `save_query` (the MongoDB driver and the `utcnow()` timestamp). It is the `saveOk` flag, and the attempted record is returned as an effect without a timestamp.
- The `print` of the save warning.
- The internals of `json.loads`. It is the `parse` parameter, where `None` stands for `JSONDecodeError`. Other exceptions it could raise, such as running out of recursion depth, are not modelled.
- Uniqueness of object keys. A JSON object is an ordered list of members and may repeat a key, which a parsed object never does; nothing in the model relies on it either way.
- Non-integer JSON numbers. JSON values carry integers only, since the parser is abstract anyway.
- Text.Lower: models ASCII case mapping only. Python's `str.lower` also maps other letters and can change length (for example the Kelvin sign lower-cases to `k`), so on such input the real filter can fire where the model's does not.
