# Inbox manager: the `/summary/<id>` handler

This project models the one piece of the inbox manager that has behaviour beyond page
rendering. That piece is the request handler `get_email_summary` behind `GET /summary/<id>`,
together with the fixed email list it searches. The handler is modelled as a pure function
`SummaryHandler.GetSummary` of five inputs:

- the email list;
- the requested id;
- the credential configuration (`Config`: the API key read from the environment, and
  whether a client was built);
- `backend`, the completion service's answer to the one chat request this call would send
  (`Completion`: `Raised`, or `Returned` with content that may be null);
- `parse`, the JSON decoder (`Decoded`: `Malformed`, or any JSON `Value`).

The result is a `Response`: a status code and a JSON object body (`map<string, Value>`).

The handler runs in four steps:

1. It looks up the first record with the id (`EmailStore.Lookup`). If there is none, the
   response is 404 with `{"error": "Email not found"}`.
2. If the credential is missing or empty, or no client exists, the response is 200 with fixed
   placeholder text. The backend is not consulted.
3. Otherwise it builds the chat request from the record's subject, sender and body
   (`Analysis.RequestFor`) and consults the backend once.
4. Any failure gives 500 with fixed fallback text. A failure is a raised call, empty or null
   content, content that is not JSON, or JSON that is not an object. On success it returns 200
   with exactly `summary`, `intent` and `suggested_action`. Each key takes the reply's value
   when the reply has that key, and its own fallback text when it does not (`Analysis.Analyze`).

Modules: `Wrappers` (Option), `EmailStore` (records, the fixed list, lookup), `Analysis`
(JSON values, prompt and request, reply normalisation), `SummaryHandler` (configuration,
responses, the handler and its decision-table lemmas).

Two consequences of step 4 are easy to miss:

- The handler makes sure the three keys are present, not that their values are non-empty
  text. A present key's value passes through as it is, even when it is empty text, `null`
  or a number. `SummaryHandler.EmptySummaryPassesThrough` shows a 200 response with an
  empty summary.
- A reply that does not decode as JSON does not get defaulted fields. The decode error
  raises inside the guarded block and gives the 500 fallback. Defaulting happens only for
  keys missing from a reply that decoded to a JSON object.

## Model

| member | source | states |
|---|---|---|
| EmailStore.Lookup | main.py:252 | Result is none exactly when no record has the id; otherwise it is the record at the first index whose id matches |
| EmailStore.LookupHasId | main.py:252-253 | A record the lookup returns carries the requested id |
| EmailStore.LookupUnique | main.py:252 | When ids are unique, any record with the id is the one the lookup returns |
| EmailStore.EmailsWellFormed | main.py:32-68 | The fixed list has five records with ids 1 to 5 in order, all distinct |
| EmailStore.EmailsLookup | main.py:32-68 | Against the fixed list, lookup succeeds exactly for ids 1 to 5 and returns the record at position id - 1, so every request for an id sees the same record |
| Analysis.Prompt | main.py:270-282 | The prompt starts with the fixed instruction text and ends with the fixed closing instruction. The subject comes directly after the head, the sender directly after the "Sender: " label, and the body directly after the "Body: " label, in that order. Its length is the fixed text plus the three fields |
| Analysis.RequestFor | main.py:285-292 | The chat request names the model gpt-4o-mini, carries the fixed system message, asks for a JSON-object response, and sends the email's prompt as the user message |
| Analysis.Triple | main.py:301-305 | A result body built from three values has exactly the keys summary, intent and suggested_action, holding those values. It builds the placeholder, success and fallback bodies |
| Analysis.RequestIgnoresIdAndTimestamp | main.py:270-292 | Records with equal subject, sender and body give the same chat request; id and timestamp play no part |
| Analysis.Normalise | main.py:301-305 | The result has exactly the three analysis keys; a key present in the reply object keeps its value unchanged, an absent key gets that key's fallback text |
| Analysis.Analyze | main.py:285-305 | The guarded step fails exactly when the call raised, the content is null or empty, the content is not JSON, or the JSON is not an object; otherwise it yields the three keys, each defaulted independently |
| Analysis.PartialReplyDefaultsIntentOnly | main.py:301-305 | A reply with summary and suggested_action but no intent keeps both given values and defaults only intent to "Unknown" |
| SummaryHandler.StartupConfig | main.py:11-29 | A client is built exactly when the credential from the environment is present and non-empty |
| SummaryHandler.Configured | main.py:257 | Analysis is unavailable exactly when the key is missing or empty, or no client exists |
| SummaryHandler.StartupConfigured | main.py:11-29 | With the startup configuration, analysis is available exactly when the credential is present and non-empty |
| SummaryHandler.GetSummary | main.py:247-317 | Status is 200, 404 or 500. 404 holds exactly when no record has the id, with the not-found body. Other bodies have exactly the three keys. A found id without configuration gives 200 with the placeholder triple. 500 holds exactly when the id is found, analysis is configured and the reply for the first match fails, with the fallback triple |
| SummaryHandler.SuccessNormalises | main.py:294-307 | When the first match's reply does not fail, the status is 200 and each of the three keys holds the reply's value or that key's fallback text |
| SummaryHandler.MissingIdIgnoresConfig | main.py:252-262 | Lookup precedes the configuration check: a missing id gives the same 404 response for any configuration, backend and decoder |
| SummaryHandler.NoBackendCallWhenUnavailable | main.py:252-262 | For a missing id or an unconfigured handler, the response does not depend on the backend or decoder |
| SummaryHandler.OnlyFirstMatchIsSent | main.py:252-292 | Backends that agree on the request built from the first matching record give the same response |
| SummaryHandler.ResponseIgnoresTimestamp | main.py:270-282 | Two stores whose first matches agree on subject, sender and body give the same response |
| SummaryHandler.FixedStoreStatus | main.py:252-254 | With the application's own list, the response is 404 exactly for ids outside 1 to 5 |
| SummaryHandler.EmptySummaryPassesThrough | main.py:301-307 | A reply object whose summary is empty text gives a 200 response whose summary is empty text |

## Left out

- Flask routing. The `<int:email_id>` converter only passes non-negative decimal ids, and
  other paths get the framework's own 404 page. The model accepts any integer id.
- The HTML template, the embedded JavaScript and its `||` display fallbacks, and the `/`
  route: these are presentation only.
- Building the HTTP and OpenAI clients, including the 15-second timeout, the three transport
  retries and certificate settings. These are library configuration, and retries cannot be
  seen by the handler. Only "was a client built" is modelled, in `Config.hasClient`.
- The completion call and `json.loads`. Both are inputs (`backend`, `parse`), not network
  code or a JSON parser. The backend's non-determinism across requests is a different
  `backend` function per request.
- JSON serialisation by `jsonify`: bodies are maps, so key order and encoding are not modelled.
  JSON numbers are `real`.
- The diagnostic `print` calls and `app.run`, which are side effects only.
