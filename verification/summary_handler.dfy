/**
 * The `/summary/<id>` handler as a pure function of the email list, the
 * requested id, the credential configuration, the backend's reply and the
 * JSON decoder: lookup, then the configuration check, then one guarded
 * backend call whose outcome is normalised or replaced by fixed fallback text.
 */
module SummaryHandler {
  import opened Wrappers
  import opened EmailStore
  import opened Analysis

  /** The process-wide configuration: the credential as read from the environment, and whether a client was built. */
  datatype Config = Config(apiKey: Option<string>, hasClient: bool)

  /** Python truthiness of an optional string: present and non-empty. */
  predicate Truthy(s: Option<string>)
  {
    s.Some? && s.value != ""
  }

  /** Startup: a client is built exactly when the credential read from the environment is truthy. */
  function StartupConfig(env: Option<string>): (c: Config)
    ensures c.apiKey == env
    ensures c.hasClient <==> env.Some? && |env.value| > 0
  {
    if Truthy(env) then Config(env, true) else Config(env, false)
  }

  /**
   * The handler may call the backend: a truthy credential and a client. It
   * may not exactly when the key is missing or empty, or there is no client.
   */
  predicate Configured(c: Config)
    ensures !Configured(c) <==> c.apiKey.None? || |c.apiKey.value| == 0 || !c.hasClient
  {
    Truthy(c.apiKey) && c.hasClient
  }

  /** With the startup configuration, the credential alone decides whether analysis is available. */
  lemma StartupConfigured(env: Option<string>)
    ensures Configured(StartupConfig(env)) <==> env.Some? && |env.value| > 0
  {
  }

  /** An HTTP response: status code and JSON object body. */
  datatype Response = Response(status: int, body: map<string, Value>)

  const NotFoundBody: map<string, Value> := map["error" := Str("Email not found")]

  /** The informational result when analysis is not configured. */
  const UnconfiguredBody: map<string, Value> :=
    Triple(Str("AI not available"), Str("N/A"), Str("Add OPENAI_API_KEY secret in Replit"))

  /** The fallback result when the backend step fails. */
  const ServiceErrorBody: map<string, Value> :=
    Triple(Str("AI analysis temporarily unavailable"), Str("Service Error"), Str("Please try again in a moment"))

  /**
   * The reply `backend` gives for the first record of `store` with `id`
   * fails, with `parse` as the decoder.
   */
  ghost predicate BackendFails(store: seq<Email>, id: int, backend: ChatRequest -> Completion, parse: string -> Decoded)
  {
    exists i :: IsFirstMatch(store, id, i) && ReplyFails(backend(RequestFor(store[i])), parse)
  }

  /**
   * One request for `/summary/<id>`. `backend` stands for the completion
   * service's answer to this request, and `parse` for the JSON decoder.
   */
  function GetSummary(
    store: seq<Email>, id: int, config: Config,
    backend: ChatRequest -> Completion, parse: string -> Decoded): (r: Response)
    ensures r.status == 200 || r.status == 404 || r.status == 500
    ensures r.status == 404 <==> Absent(store, id)
    ensures r.status == 404 ==> r.body == NotFoundBody
    ensures r.status != 404 ==> r.body.Keys == AnalysisKeys
    ensures !Absent(store, id) && !Configured(config) ==> r == Response(200, UnconfiguredBody)
    ensures r.status == 500 <==> !Absent(store, id) && Configured(config) && BackendFails(store, id, backend, parse)
    ensures r.status == 500 ==> r.body == ServiceErrorBody
  {
    match Lookup(store, id)
    case None => Response(404, NotFoundBody)
    case Some(email) =>
      if !Configured(config) then Response(200, UnconfiguredBody)
      else
        match Analyze(backend(RequestFor(email)), parse)
        case None => Response(500, ServiceErrorBody)
        case Some(result) => Response(200, result)
  }

  /**
   * On success the body carries exactly the three analysis keys: each holds
   * the reply's value when the reply object has that key, and that key's
   * fallback text when it does not; other reply keys are dropped.
   */
  lemma SuccessNormalises(
    store: seq<Email>, id: int, i: int, config: Config,
    backend: ChatRequest -> Completion, parse: string -> Decoded)
    requires IsFirstMatch(store, id, i) && Configured(config)
    requires !ReplyFails(backend(RequestFor(store[i])), parse)
    ensures var r := GetSummary(store, id, config, backend, parse);
      && r.status == 200
      && r.body.Keys == AnalysisKeys
      && forall k :: k in AnalysisKeys ==>
           var fields := ReplyFields(backend(RequestFor(store[i])), parse);
           r.body[k] == (if k in fields then fields[k] else Str(DefaultFor(k)))
  {
    var e := Lookup(store, id).value;
    assert e == store[i] by {
      var k :| IsFirstMatch(store, id, k) && store[k] == e;
      assert k == i;
    }
  }

  /**
   * Lookup comes before the configuration check: a missing id is a 404
   * whatever the configuration, backend or decoder.
   */
  lemma MissingIdIgnoresConfig(
    store: seq<Email>, id: int, c1: Config, c2: Config,
    b1: ChatRequest -> Completion, b2: ChatRequest -> Completion,
    p1: string -> Decoded, p2: string -> Decoded)
    requires Absent(store, id)
    ensures GetSummary(store, id, c1, b1, p1) == GetSummary(store, id, c2, b2, p2) == Response(404, NotFoundBody)
  {
  }

  /**
   * The backend is never consulted for a missing id or an unconfigured
   * handler: the response is the same whatever the backend and decoder.
   */
  lemma NoBackendCallWhenUnavailable(
    store: seq<Email>, id: int, config: Config,
    b1: ChatRequest -> Completion, b2: ChatRequest -> Completion,
    p1: string -> Decoded, p2: string -> Decoded)
    requires Absent(store, id) || !Configured(config)
    ensures GetSummary(store, id, config, b1, p1) == GetSummary(store, id, config, b2, p2)
  {
  }

  /**
   * The backend is consulted with one request only, the one built from the
   * first matching record: backends that agree on that request yield the
   * same response.
   */
  lemma OnlyFirstMatchIsSent(
    store: seq<Email>, id: int, i: int, config: Config,
    b1: ChatRequest -> Completion, b2: ChatRequest -> Completion, parse: string -> Decoded)
    requires IsFirstMatch(store, id, i)
    requires b1(RequestFor(store[i])) == b2(RequestFor(store[i]))
    ensures GetSummary(store, id, config, b1, parse) == GetSummary(store, id, config, b2, parse)
  {
    var e := Lookup(store, id).value;
    assert e == store[i] by {
      var k :| IsFirstMatch(store, id, k) && store[k] == e;
      assert k == i;
    }
  }

  /**
   * Only the subject, sender and body of the record reach the backend: two
   * stores whose first matches differ at most in timestamp (and position)
   * give the same response.
   */
  lemma ResponseIgnoresTimestamp(
    s1: seq<Email>, s2: seq<Email>, id: int, i1: int, i2: int, config: Config,
    backend: ChatRequest -> Completion, parse: string -> Decoded)
    requires IsFirstMatch(s1, id, i1) && IsFirstMatch(s2, id, i2)
    requires s1[i1].subject == s2[i2].subject && s1[i1].sender == s2[i2].sender && s1[i1].body == s2[i2].body
    ensures GetSummary(s1, id, config, backend, parse) == GetSummary(s2, id, config, backend, parse)
  {
    var e1 := Lookup(s1, id).value;
    assert e1 == s1[i1] by {
      var k :| IsFirstMatch(s1, id, k) && s1[k] == e1;
      assert k == i1;
    }
    var e2 := Lookup(s2, id).value;
    assert e2 == s2[i2] by {
      var k :| IsFirstMatch(s2, id, k) && s2[k] == e2;
      assert k == i2;
    }
    RequestIgnoresIdAndTimestamp(e1, e2);
  }

  /**
   * With the application's own store, ids 1 to 5 get an analysis response
   * (200 or 500) and every other id a 404.
   */
  lemma FixedStoreStatus(id: int, config: Config, backend: ChatRequest -> Completion, parse: string -> Decoded)
    ensures GetSummary(Emails, id, config, backend, parse).status == 404 <==> !(1 <= id <= 5)
  {
    EmailsLookup(id);
  }

  /**
   * A present key passes through even when its value is empty text, so a
   * successful response can carry an empty summary: the handler guarantees
   * that the three keys are present, not that their values are non-empty.
   */
  lemma EmptySummaryPassesThrough(
    store: seq<Email>, id: int, i: int, config: Config,
    backend: ChatRequest -> Completion, parse: string -> Decoded)
    requires IsFirstMatch(store, id, i) && Configured(config)
    requires backend(RequestFor(store[i])) == Returned(Some("{\"summary\": \"\"}"))
    requires parse("{\"summary\": \"\"}") == Decoded(Object(map["summary" := Str("")]))
    ensures GetSummary(store, id, config, backend, parse).status == 200
    ensures GetSummary(store, id, config, backend, parse).body[SummaryKey] == Str("")
  {
    SuccessNormalises(store, id, i, config, backend, parse);
  }
}
