/**
 * The one-method provider contract, `get_ai_assistance(prompt) -> str`,
 * as a closed union over the two concrete providers, and the backends the
 * providers talk to during a session.
 */
module Providers {
  import Gemini
  import Ollama

  /** A constructed provider instance of one of the two kinds. */
  datatype Provider =
    | GeminiBackend(gemini: Gemini.GeminiProvider)
    | OllamaBackend(ollama: Ollama.OllamaProvider)

  /** The outbound calls of a session: the Gemini SDK and the HTTP POST to an Ollama server. */
  datatype Backend = Backend(
    generate: Gemini.GenerateRequest -> Gemini.GenerateOutcome,
    post: Ollama.HttpRequest -> Ollama.PostOutcome)

  /** `provider.get_ai_assistance(prompt)`, dispatched to the provider's own implementation. */
  function Assist(p: Provider, prompt: string, backend: Backend): string
  {
    match p
    case GeminiBackend(g) => g.GetAiAssistance(prompt, backend.generate)
    case OllamaBackend(o) => o.GetAiAssistance(prompt, backend.post)
  }
}
