/**
 * The provider backed by a local Ollama HTTP server. The HTTP POST
 * done by `requests.post` is an abstract function from the request sent to
 * the transport's outcome; `raise_for_status()` and `response.json()` are
 * modelled on that outcome.
 */
module Ollama {
  import opened Wrappers

  const DefaultModel := "llama3"
  const DefaultHost := "http://localhost:11434"
  const GeneratePath := "/api/generate"
  const MissingFieldSentinel := "No response field found in Ollama output."
  const ConnectionErrorPrefix := "Error: Could not connect to the Ollama server at "
  const ConnectionErrorSuffix := ". Is Ollama running?"
  const GenericErrorPrefix := "An error occurred with the Ollama provider: "

  /** The JSON values a request body holds. */
  datatype Json = JString(str: string) | JBool(flag: bool)

  /** What `requests.post(url, json=payload)` sends. */
  datatype HttpRequest = HttpRequest(url: string, json: map<string, Json>)

  /** A response body: a JSON object (its string fields) or a body that does not decode. */
  datatype ResponseBody = JsonObject(fields: map<string, string>) | Undecodable(detail: string)

  /**
   * A response that arrived: its status code, the text the HTTPError of
   * `raise_for_status()` would carry for it, and its body.
   */
  datatype HttpResponse = HttpResponse(status: int, statusErrorDetail: string, body: ResponseBody)

  /**
   * The `requests.exceptions.RequestException` family that can reach the
   * handlers. ConnectionError is the one subclass with its own handler.
   */
  datatype RequestException =
    | ConnectionError(detail: string)
    | HTTPError(detail: string)
    | JSONDecodeError(detail: string)
    | OtherRequestError(detail: string)

  /** `requests.post` either returns a response or raises. */
  datatype PostOutcome = Received(response: HttpResponse) | Raised(exception: RequestException)

  /** The status codes for which `raise_for_status()` raises (4xx and 5xx). */
  predicate IsErrorStatus(status: int)
  {
    400 <= status < 600
  }

  /**
   * The steps between the POST and reading the `response` field:
   * `raise_for_status()` then `response.json()`. Either the decoded fields
   * or the exception that was raised.
   */
  function Decode(outcome: PostOutcome): (r: Result<map<string, string>, RequestException>)
    ensures outcome.Raised? ==> r == Failure(outcome.exception)
    ensures r.Failure? && r.error.ConnectionError? ==> outcome.Raised?
    ensures r.Success? <==>
              outcome.Received? && !IsErrorStatus(outcome.response.status) && outcome.response.body.JsonObject?
  {
    match outcome
    case Raised(e) => Failure(e)
    case Received(resp) =>
      if IsErrorStatus(resp.status) then Failure(HTTPError(resp.statusErrorDetail))
      else match resp.body
        case Undecodable(detail) => Failure(JSONDecodeError(detail))
        case JsonObject(fields) => Success(fields)
  }

  class OllamaProvider {
    const modelName: string
    const host: string
    const apiUrl: string

    /** `OllamaProvider(config)`: defaults for a missing `model` or `host`; the endpoint derived from the host. */
    constructor (config: map<string, string>)
      ensures modelName == (if "model" in config then config["model"] else DefaultModel)
      ensures host == (if "host" in config then config["host"] else DefaultHost)
      ensures apiUrl == host + GeneratePath
    {
      var host := if "host" in config then config["host"] else DefaultHost;
      modelName := if "model" in config then config["model"] else DefaultModel;
      this.host := host;
      apiUrl := host + GeneratePath;
    }

    /** The JSON body: exactly the model, the prompt and `stream = false`. */
    function Payload(prompt: string): (p: map<string, Json>)
      ensures p.Keys == {"model", "prompt", "stream"}
      ensures p["model"] == JString(modelName) && p["prompt"] == JString(prompt) && p["stream"] == JBool(false)
    {
      map["model" := JString(modelName), "prompt" := JString(prompt), "stream" := JBool(false)]
    }

    /** The one request a call sends: the payload, to the derived endpoint. */
    function Request(prompt: string): HttpRequest
    {
      HttpRequest(apiUrl, Payload(prompt))
    }

    /** The diagnostic for an unreachable server. */
    function ConnectionMessage(): string
    {
      ConnectionErrorPrefix + host + ConnectionErrorSuffix
    }

    /**
     * One call: the `response` field of a decoded reply (or the sentinel
     * when it is missing); a connection failure becomes the message naming
     * the host; every other request exception becomes the generic message
     * carrying its detail. Every modelled outcome gives text, never an exception.
     */
    function GetAiAssistance(prompt: string, post: HttpRequest -> PostOutcome): (r: string)
      ensures Decode(post(Request(prompt))).Success? ==>
                var fields := Decode(post(Request(prompt))).value;
                r == (if "response" in fields then fields["response"] else MissingFieldSentinel)
      ensures Decode(post(Request(prompt))).Failure? && Decode(post(Request(prompt))).error.ConnectionError? ==>
                r == ConnectionMessage()
      ensures Decode(post(Request(prompt))).Failure? && !Decode(post(Request(prompt))).error.ConnectionError? ==>
                r == GenericErrorPrefix + Decode(post(Request(prompt))).error.detail
    {
      match Decode(post(Request(prompt)))
      case Success(fields) => if "response" in fields then fields["response"] else MissingFieldSentinel
      case Failure(ConnectionError(_)) => ConnectionMessage()
      case Failure(e) => GenericErrorPrefix + e.detail
    }
  }

  /** The connection diagnostic names the configured host, right after its fixed prefix. */
  lemma ConnectionMessageNamesHost(p: OllamaProvider)
    ensures |ConnectionErrorPrefix| + |p.host| <= |p.ConnectionMessage()|
    ensures p.ConnectionMessage()[|ConnectionErrorPrefix|..|ConnectionErrorPrefix| + |p.host|] == p.host
  {
  }

  /** The generic tag and the connection diagnostic never share a prefix: the two failure classes stay distinct. */
  lemma ConnectionMessageIsNotGeneric(p: OllamaProvider)
    ensures !(GenericErrorPrefix <= p.ConnectionMessage())
  {
    TagsDiffer();
    var m := p.ConnectionMessage();
    assert m[43] == ConnectionErrorPrefix[43];
  }

  /**
   * The two failure tags differ at the last character of the generic one
   * (index 43). A character near the end of a string literal is cheap for
   * the solver to read; the first character is not.
   */
  lemma TagsDiffer()
    ensures |GenericErrorPrefix| == 44 && |ConnectionErrorPrefix| == 49
    ensures ConnectionErrorPrefix[43] != GenericErrorPrefix[43]
  {
    assert ConnectionErrorPrefix[43] == 'e';
    assert GenericErrorPrefix[43] == ' ';
  }

  /**
   * A refused connection yields the host-naming diagnostic and not the
   * generic message, whatever detail the exception carries.
   */
  lemma ConnectionFailureReply(p: OllamaProvider, prompt: string, post: HttpRequest -> PostOutcome)
    requires post(p.Request(prompt)).Raised? && post(p.Request(prompt)).exception.ConnectionError?
    ensures p.GetAiAssistance(prompt, post) == p.ConnectionMessage()
    ensures !(GenericErrorPrefix <= p.GetAiAssistance(prompt, post))
  {
    ConnectionMessageIsNotGeneric(p);
  }

  /** Any 4xx or 5xx reply (500 included) is reported by the generic message with the HTTPError's detail. */
  lemma ErrorStatusReply(p: OllamaProvider, prompt: string, post: HttpRequest -> PostOutcome)
    requires post(p.Request(prompt)).Received? && IsErrorStatus(post(p.Request(prompt)).response.status)
    ensures p.GetAiAssistance(prompt, post) == GenericErrorPrefix + post(p.Request(prompt)).response.statusErrorDetail
  {
  }

  /**
   * Every reply has one of four forms: the `response` field of a decoded
   * success body, the sentinel, the connection diagnostic, or the generic tag.
   */
  lemma ReplyForms(p: OllamaProvider, prompt: string, post: HttpRequest -> PostOutcome)
    ensures var r := p.GetAiAssistance(prompt, post);
            || (exists fields :: Decode(post(p.Request(prompt))) == Success(fields) && "response" in fields && r == fields["response"])
            || r == MissingFieldSentinel
            || r == p.ConnectionMessage()
            || GenericErrorPrefix <= r
  {
    var r := p.GetAiAssistance(prompt, post);
    match Decode(post(p.Request(prompt)))
    case Success(fields) =>
    case Failure(e) =>
      if !e.ConnectionError? {
        assert r == GenericErrorPrefix + e.detail;
      }
  }

  /** A provider built from an empty configuration talks to the default local endpoint with the default model. */
  method DefaultProvider() returns (p: OllamaProvider)
    ensures p.modelName == "llama3" && p.host == "http://localhost:11434"
    ensures p.apiUrl == "http://localhost:11434/api/generate"
  {
    p := new OllamaProvider(map[]);
  }

  /** A configured host is used as the base of the endpoint. */
  method ConfiguredHostProvider() returns (p: OllamaProvider)
    ensures p.host == "http://example:9999" && p.modelName == "llama3"
    ensures p.apiUrl == "http://example:9999/api/generate"
  {
    p := new OllamaProvider(map["host" := "http://example:9999"]);
  }

  /** A 200 reply whose body holds `response = "42"` yields exactly "42"; an empty body yields the sentinel. */
  lemma SuccessfulReplies(p: OllamaProvider, prompt: string, post: HttpRequest -> PostOutcome)
    ensures post(p.Request(prompt)) == Received(HttpResponse(200, "", JsonObject(map["response" := "42"]))) ==>
              p.GetAiAssistance(prompt, post) == "42"
    ensures post(p.Request(prompt)) == Received(HttpResponse(200, "", JsonObject(map[]))) ==>
              p.GetAiAssistance(prompt, post) == MissingFieldSentinel
  {
  }
}
