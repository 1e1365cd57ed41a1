/**
 * The cloud provider backed by the Google Gemini SDK. The SDK call
 * (`genai.configure`, `GenerativeModel(..).generate_content(..)`, reading
 * `response.text`) is an abstract function from the request it receives to
 * its outcome.
 */
module Gemini {
  import opened Wrappers

  /** The placeholder credential shipped in the configuration. */
  const PlaceholderKey := "YOUR_API_KEY"
  /** The fixed model every call uses. */
  const ModelName := "gemini-pro"
  const ErrorPrefix := "An error occurred with the Gemini provider: "
  /** The message of the ValueError the constructor raises. */
  const MissingKeyMessage := "Gemini API key is missing. Please configure it in school_work_helper.py"

  /** The constructor's fast-fail guard: the key must be non-empty and not the placeholder. */
  predicate AcceptsKey(apiKey: string)
  {
    apiKey != "" && apiKey != PlaceholderKey
  }

  /** What one call hands to the SDK: the key it configures, the model and the prompt. */
  datatype GenerateRequest = GenerateRequest(apiKey: string, model: string, prompt: string)

  /** The SDK either yields the response text or raises an exception with some detail. */
  datatype GenerateOutcome = Generated(text: string) | Raised(detail: string)

  class GeminiProvider {
    const apiKey: string

    /** Only reachable through `New`, which performs the guard. */
    constructor (apiKey: string)
      requires AcceptsKey(apiKey)
      ensures this.apiKey == apiKey
    {
      this.apiKey := apiKey;
    }

    /** A live provider always holds an accepted key: it is never partly built. */
    predicate Valid()
    {
      AcceptsKey(apiKey)
    }

    /**
     * One call: the SDK is configured with the stored key and asked for
     * `gemini-pro`; its text is returned unchanged, and any exception
     * becomes a tagged error string instead of propagating.
     */
    function GetAiAssistance(prompt: string, generate: GenerateRequest -> GenerateOutcome): (r: string)
      ensures generate(GenerateRequest(apiKey, ModelName, prompt)).Generated? ==>
                r == generate(GenerateRequest(apiKey, ModelName, prompt)).text
      ensures generate(GenerateRequest(apiKey, ModelName, prompt)).Raised? ==>
                r == ErrorPrefix + generate(GenerateRequest(apiKey, ModelName, prompt)).detail
    {
      match generate(GenerateRequest(apiKey, ModelName, prompt))
      case Generated(text) => text
      case Raised(detail) => ErrorPrefix + detail
    }
  }

  /**
   * `GeminiProvider(api_key)`: either raises the ValueError (here a Failure
   * carrying its message) or returns a fully built provider holding the key.
   */
  method New(apiKey: string) returns (r: Result<GeminiProvider, string>)
    ensures r.Success? <==> AcceptsKey(apiKey)
    ensures r.Success? ==> fresh(r.value) && r.value.apiKey == apiKey && r.value.Valid()
    ensures r.Failure? ==> r.error == MissingKeyMessage
  {
    if apiKey == "" || apiKey == PlaceholderKey {
      return Failure(MissingKeyMessage);
    }
    var p := new GeminiProvider(apiKey);
    return Success(p);
  }

  /** The guard rejects exactly the empty key and the placeholder, and keeps every other key. */
  lemma KeyGuard(apiKey: string)
    ensures !AcceptsKey("")
    ensures !AcceptsKey(PlaceholderKey)
    ensures apiKey != "" && apiKey != "YOUR_API_KEY" ==> AcceptsKey(apiKey)
  {
  }

  /**
   * An error reply is always tagged, so a reply that does not start with the
   * tag came from the SDK's text unchanged.
   */
  lemma UntaggedReplyIsSdkText(p: GeminiProvider, prompt: string, generate: GenerateRequest -> GenerateOutcome)
    requires !(ErrorPrefix <= p.GetAiAssistance(prompt, generate))
    ensures generate(GenerateRequest(p.apiKey, ModelName, prompt)).Generated?
    ensures p.GetAiAssistance(prompt, generate) == generate(GenerateRequest(p.apiKey, ModelName, prompt)).text
  {
  }

  /**
   * A reply depends on the SDK only through the one request carrying the
   * stored key, the fixed model and the prompt: no state accumulates between calls.
   */
  lemma ReplyDependsOnlyOnRequest(p: GeminiProvider, prompt: string, g1: GenerateRequest -> GenerateOutcome, g2: GenerateRequest -> GenerateOutcome)
    requires g1(GenerateRequest(p.apiKey, ModelName, prompt)) == g2(GenerateRequest(p.apiKey, ModelName, prompt))
    ensures p.GetAiAssistance(prompt, g1) == p.GetAiAssistance(prompt, g2)
  {
  }
}
