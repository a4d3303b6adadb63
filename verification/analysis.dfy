/**
 * The analysis step of the summary handler: the chat request built from an
 * email, the abstract outcome of the completion call and of JSON decoding,
 * and the normalisation of a decoded reply into the three-key result.
 */
module Analysis {
  import opened Wrappers
  import opened EmailStore

  /** A JSON value as the decoder produces it. */
  datatype Value =
    | Null
    | Bool(b: bool)
    | Number(n: real)
    | Str(s: string)
    | Array(items: seq<Value>)
    | Object(fields: map<string, Value>)

  /** What decoding a reply text yields: a decode error, or a JSON value of any shape. */
  datatype Decoded = Malformed | Decoded(value: Value)

  /**
   * The outcome of the chat-completion call: it raised (transport error,
   * timeout, API error, no choices), or it returned the first choice's
   * message content, which the API may leave null.
   */
  datatype Completion = Raised | Returned(content: Option<string>)

  /** The chat request sent to the completion endpoint. */
  datatype ChatRequest = ChatRequest(
    model: string,
    systemMessage: string,
    userMessage: string,
    jsonObjectFormat: bool)

  const ModelName: string := "gpt-4o-mini"
  const SystemMessage: string :=
    "You are an email analysis assistant. Always respond with valid JSON in the exact format requested."

  /** The fixed instruction text that precedes the subject in the user prompt. */
  const PromptHead: string :=
    "\n        Analyze the following email and provide a JSON response with exactly these keys:"
    + "\n        - summary: A 1-2 sentence summary of the email"
    + "\n        - intent: The purpose/type of the email (e.g., \"support request\", \"payment confirmation\", \"collaboration inquiry\", \"security alert\", \"newsletter\")"
    + "\n        - suggested_action: A short and practical next step"
    + "\n        "
    + "\n        Email details:"
    + "\n        Subject: "
  const SenderLabel: string := "\n        Sender: "
  const BodyLabel: string := "\n        Body: "
  /** The fixed closing instruction that follows the body. */
  const PromptTail: string := "\n        \n        Respond only with valid JSON in the requested format.\n        "

  /**
   * The user prompt: fixed instructions, then the subject, sender and body
   * of the email in that order, each after its label, then the closing
   * instruction.
   */
  function Prompt(e: Email): (r: string)
    ensures |r| == |PromptHead| + |e.subject| + |SenderLabel| + |e.sender| + |BodyLabel| + |e.body| + |PromptTail|
    ensures r[..|PromptHead|] == PromptHead
    ensures r[|PromptHead|..|PromptHead| + |e.subject|] == e.subject
    ensures var at := |PromptHead| + |e.subject|;
      r[at..at + |SenderLabel|] == SenderLabel
      && r[at + |SenderLabel|..at + |SenderLabel| + |e.sender|] == e.sender
    ensures var at := |PromptHead| + |e.subject| + |SenderLabel| + |e.sender|;
      r[at..at + |BodyLabel|] == BodyLabel
      && r[at + |BodyLabel|..at + |BodyLabel| + |e.body|] == e.body
    ensures r[|r| - |PromptTail|..] == PromptTail
  {
    var withSubject := PromptHead + e.subject;
    var withSender := withSubject + SenderLabel + e.sender;
    var withBody := withSender + BodyLabel + e.body;
    assert withSender[..|withSubject|] == withSubject;
    assert withBody[..|withSender|] == withSender;
    withBody + PromptTail
  }

  /** The request the handler sends for `e`: fixed model, system message and JSON-object mode. */
  function RequestFor(e: Email): (r: ChatRequest)
    ensures r.model == ModelName && r.systemMessage == SystemMessage
    ensures r.jsonObjectFormat
    ensures r.userMessage == Prompt(e)
  {
    ChatRequest(ModelName, SystemMessage, Prompt(e), true)
  }

  /**
   * The request depends on the subject, sender and body alone: two records
   * that differ only in id and timestamp produce the same request.
   */
  lemma RequestIgnoresIdAndTimestamp(a: Email, b: Email)
    requires a.subject == b.subject && a.sender == b.sender && a.body == b.body
    ensures RequestFor(a) == RequestFor(b)
    ensures RequestFor(a).userMessage[|PromptHead|..|PromptHead| + |a.subject|] == b.subject
  {
  }

  const SummaryKey: string := "summary"
  const IntentKey: string := "intent"
  const ActionKey: string := "suggested_action"

  /** The keys of every analysis result, and of nothing else. */
  const AnalysisKeys: set<string> := {SummaryKey, IntentKey, ActionKey}

  /** The fallback text for each analysis key that the reply leaves out. */
  function DefaultFor(key: string): string
    requires key in AnalysisKeys
  {
    if key == SummaryKey then "Unable to generate summary"
    else if key == IntentKey then "Unknown"
    else "Review email manually"
  }

  /** A three-key result body. */
  function Triple(summary: Value, intent: Value, action: Value): (r: map<string, Value>)
    ensures r.Keys == AnalysisKeys
    ensures r[SummaryKey] == summary && r[IntentKey] == intent && r[ActionKey] == action
  {
    map[SummaryKey := summary, IntentKey := intent, ActionKey := action]
  }

  /** Dictionary lookup with a text default for an absent key. */
  function Get(fields: map<string, Value>, key: string, default: string): Value
  {
    if key in fields then fields[key] else Str(default)
  }

  /**
   * The reply cannot be turned into a result: the call raised, the content
   * is null or empty, the content is not JSON, or the JSON is not an object
   * (so looking up a key on it raises).
   */
  predicate ReplyFails(reply: Completion, parse: string -> Decoded)
  {
    || reply.Raised?
    || reply.content.None?
    || reply.content.value == ""
    || parse(reply.content.value).Malformed?
    || !parse(reply.content.value).value.Object?
  }

  /** The fields of the decoded object, when the reply does not fail. */
  function ReplyFields(reply: Completion, parse: string -> Decoded): map<string, Value>
    requires !ReplyFails(reply, parse)
  {
    parse(reply.content.value).value.fields
  }

  /** Three-key result from a decoded object, one default per absent key. */
  function Normalise(fields: map<string, Value>): (r: map<string, Value>)
    ensures r.Keys == AnalysisKeys
    ensures forall k :: k in AnalysisKeys && k in fields ==> r[k] == fields[k]
    ensures forall k :: k in AnalysisKeys && k !in fields ==> r[k] == Str(DefaultFor(k))
  {
    Triple(
      Get(fields, "summary", "Unable to generate summary"),
      Get(fields, "intent", "Unknown"),
      Get(fields, "suggested_action", "Review email manually"))
  }

  /**
   * The guarded part of the handler, after the request is sent: `None` when
   * any step raises, otherwise the normalised three-key result. A present
   * key's value passes through whatever it is (empty text, null, a number);
   * keys other than the three are dropped.
   */
  function Analyze(reply: Completion, parse: string -> Decoded): (r: Option<map<string, Value>>)
    ensures r.None? <==> ReplyFails(reply, parse)
    ensures r.Some? ==> r.value.Keys == AnalysisKeys
    ensures r.Some? ==> forall k :: k in AnalysisKeys ==>
      var fields := ReplyFields(reply, parse);
      r.value[k] == (if k in fields then fields[k] else Str(DefaultFor(k)))
  {
    match reply
    case Raised => None
    case Returned(content) =>
      if content.None? || content.value == "" then None
      else
        match parse(content.value)
        case Malformed => None
        case Decoded(v) =>
          if v.Object? then Some(Normalise(v.fields)) else None
  }

  /**
   * Defaulting is per key: a reply object with a summary and a suggested
   * action but no intent keeps the two given values and defaults only the
   * intent.
   */
  lemma PartialReplyDefaultsIntentOnly(reply: Completion, parse: string -> Decoded, s: Value, a: Value)
    requires reply.Returned? && reply.content.Some? && reply.content.value != ""
    requires parse(reply.content.value) == Decoded(Object(map["summary" := s, "suggested_action" := a]))
    ensures Analyze(reply, parse) == Some(Triple(s, Str("Unknown"), a))
  {
  }
}
