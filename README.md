# School work helper: provider dispatch, modelled in Dafny

This project models the provider-dispatch layer of a small command-line
assistant. The shell reads a provider name from its configuration and
resolves it to a provider object. It then forwards each prompt the user types
to that provider's one method, `get_ai_assistance(prompt) -> str`, and prints
the reply. There are two providers:

- `GeminiProvider` wraps the Google Gemini SDK. Its constructor rejects an empty
  or placeholder API key.
- `OllamaProvider` talks to a local Ollama HTTP server. Its constructor works out
  a model name, a host and an endpoint from a configuration mapping.

Within the outcomes this model covers, neither provider raises at call time:
every failure comes back as a text reply. "## Left out" lists what escapes the
Ollama handlers.

Files and modules:

- `wrappers.dfy` (`Wrappers`): `Option` for Python's `None`; `Result` for a
  value or a raised exception.
- `ascii.dfy` (`Ascii`): `str.lower()` and `str.capitalize()`, using ASCII case
  mapping only.
- `gemini_provider.dfy` (`Gemini`): the key guard and the `GeminiProvider`
  class. `New` stands for the constructor call, which either raises or returns
  a fully built object. The SDK call is a function from the request it gets
  (key, model, prompt) to an outcome (`Generated(text)` or `Raised(detail)`).
- `ollama_provider.dfy` (`Ollama`): the `OllamaProvider` class with its
  derived fields, the JSON payload, and the reply mapping. `requests.post` is a
  function from the request sent to an outcome: a response (status, body) or a
  raised `RequestException`. `raise_for_status()` and `response.json()` are
  modelled on that outcome by `Decode`.
- `providers.dfy` (`Providers`): the abstract `BaseProvider` contract. It
  becomes a closed union of the two provider classes, plus the session's
  backends and the dispatching `Assist`.
- `school_work_helper.dfy` (`SchoolWorkHelper`): the shipped configuration.
  Reflection over module and class names becomes a closed import table
  (`ImportModule`). It also holds:
  - `Resolution`: the outcome of `get_provider`, without the objects.
  - `GetProvider`: `get_provider` itself, which builds the object.
  - `ForwardPrompts` and `RunShell`: the prompt loop of `main`.

Provider fields are `const`. They are set once by the constructor and never
change, so no call can alter `model_name`, `host`, `api_url` or `api_key`.

How `get_provider` resolves a name:

- It passes a constructor only `api_key=`, and only when `API_KEYS` holds a
  truthy key for the name. Otherwise it calls the constructor with no
  arguments.
- Every failure becomes `None`. `LoadFailure` records which handler was taken,
  as an explanation, but `GetProvider` returns only `None`.
- The local provider is named `ollama`, and it never resolves.
  `OllamaProvider()` is missing its `config` argument, and
  `OllamaProvider(api_key=...)` gets an unexpected keyword. Either way a
  `TypeError` is raised and caught by the generic handler.
- The name `base` reaches `BaseProvider`, which never resolves either. Called
  with no arguments it is abstract. Called with `api_key=` it takes no
  arguments. Both raise `TypeError`.

## Model

| member | source | states |
|---|---|---|
| `Ascii.Lower` | school_work_helper.py:59 | `lower()` keeps the length and lower-cases every character in place |
| `Ascii.Capitalize` | school_work_helper.py:24 | `capitalize()` keeps the length, upper-cases the first character and lower-cases the rest |
| `Ascii.LowerIdempotent` | school_work_helper.py:59 | lower-casing an already lower-cased line changes nothing |
| `Gemini.GeminiProvider.constructor` | providers/gemini_provider.py:9-12 | an object is built only for an accepted key, and stores that key unchanged |
| `Gemini.New` | providers/gemini_provider.py:9-12 | construction succeeds iff the key is non-empty and not `"YOUR_API_KEY"`; otherwise the ValueError with its message; success is a fresh, valid object holding the key |
| `Gemini.KeyGuard` | providers/gemini_provider.py:10-11 | the empty key and the placeholder are rejected; every other key is accepted |
| `Gemini.GeminiProvider.GetAiAssistance` | providers/gemini_provider.py:14-24 | the SDK is asked with the stored key and model `gemini-pro`; its text is returned unchanged; an exception becomes `"An error occurred with the Gemini provider: " + detail` |
| `Gemini.UntaggedReplyIsSdkText` | providers/gemini_provider.py:21-24 | a reply without the error tag is the SDK's text for that request |
| `Gemini.ReplyDependsOnlyOnRequest` | providers/gemini_provider.py:18-22 | two SDKs that agree on the one request give the same reply: no state between calls |
| `Ollama.Decode` | providers/ollama_provider.py:32-36 | a raised exception is passed through; a 4xx/5xx status or a body that does not decode fails; success iff a non-error status with a JSON object; a connection error only comes from the POST |
| `Ollama.OllamaProvider.constructor` | providers/ollama_provider.py:10-19 | `model_name` defaults to `"llama3"`, `host` to `"http://localhost:11434"`, and `api_url == host + "/api/generate"` |
| `Ollama.OllamaProvider.Payload` | providers/ollama_provider.py:26-30 | the body has exactly the keys model, prompt and stream, holding the model name, the prompt and `false` |
| `Ollama.OllamaProvider.Request` | providers/ollama_provider.py:32 | the one request a call sends: that payload, posted to `api_url` |
| `Ollama.OllamaProvider.ConnectionMessage` | providers/ollama_provider.py:40 | the diagnostic for an unreachable server, built around the configured host |
| `Ollama.OllamaProvider.GetAiAssistance` | providers/ollama_provider.py:21-42 | the outcome is that of posting `Request(prompt)`; success gives the `response` field or the literal sentinel; a connection failure gives the host-naming message; every other request exception gives the generic message with its detail |
| `Ollama.ConnectionMessageNamesHost` | providers/ollama_provider.py:40 | the connection message holds the configured host right after its prefix |
| `Ollama.TagsDiffer` | providers/ollama_provider.py:40-42 | the two failure tags differ at the generic tag's last character |
| `Ollama.ConnectionMessageIsNotGeneric` | providers/ollama_provider.py:39-42 | the connection message never starts with the generic tag |
| `Ollama.ConnectionFailureReply` | providers/ollama_provider.py:39-40 | a refused connection yields the host-naming message, never the generic one |
| `Ollama.ErrorStatusReply` | providers/ollama_provider.py:33 | a 4xx/5xx response (500 included) yields the generic message with the HTTPError's detail |
| `Ollama.ReplyForms` | providers/ollama_provider.py:21-42 | every reply is a `response` field, the sentinel, the connection message or a generically tagged message |
| `Ollama.DefaultProvider` | providers/ollama_provider.py:17-19 | an empty config gives `llama3` at `http://localhost:11434/api/generate` |
| `Ollama.ConfiguredHostProvider` | providers/ollama_provider.py:18-19 | host `http://example:9999` gives endpoint `http://example:9999/api/generate` |
| `Ollama.SuccessfulReplies` | providers/ollama_provider.py:36-37 | a 200 reply with `response = "42"` gives `"42"`; a 200 reply with `{}` gives the sentinel |
| `SchoolWorkHelper.ModulePath` | school_work_helper.py:22 | the module imported for a name, `"providers." + name + "_provider"` |
| `SchoolWorkHelper.ClassName` | school_work_helper.py:24 | the class looked up, `capitalize(name) + "Provider"` |
| `SchoolWorkHelper.ImportModule` | school_work_helper.py:22-25 | the closed import table: the three modules of the `providers` package and their `...Provider` classes |
| `SchoolWorkHelper.ConstructorFailure` | school_work_helper.py:29-32 | what each constructor call raises: the Gemini missing-argument error and key guard, Ollama's missing `config` and unexpected keyword, BaseProvider's abstract-class and no-argument errors |
| `SchoolWorkHelper.Resolution` | school_work_helper.py:21-40 | the outcome of `get_provider`: module not found, class not found, constructor raised, or the class and arguments that were constructed |
| `SchoolWorkHelper.IsExitCommand` | school_work_helper.py:59 | a line ends the session when its lower-cased form is `exit` |
| `Providers.Assist` | school_work_helper.py:62 | `provider.get_ai_assistance(prompt)`, dispatched to the provider's own implementation |
| `SchoolWorkHelper.ArgumentsFor` | school_work_helper.py:28-32 | `api_key=` is passed exactly when `API_KEYS` holds a non-empty key for the name, and it is that key |
| `SchoolWorkHelper.Instantiate` | school_work_helper.py:29-32 | a constructor call fails exactly when the class's constructor raises for those arguments; the only success is a fresh, valid Gemini provider holding the passed key |
| `SchoolWorkHelper.GetProvider` | school_work_helper.py:17-40 | a provider is returned iff resolution succeeds; it is then a fresh, valid Gemini provider built with the configured key; every failure is `None` |
| `SchoolWorkHelper.PromptsBeforeExit` | school_work_helper.py:57-60 | the forwarded prompts are a prefix of the input with no exit command, stopped only by an exit command or the end of input |
| `SchoolWorkHelper.PromptsBeforeExitIsLongestExitFreePrefix` | school_work_helper.py:57-60 | any exit-free prefix that ends at an exit command or at the end of input is exactly the forwarded prompts |
| `SchoolWorkHelper.ForwardPrompts` | school_work_helper.py:57-64 | the loop forwards exactly the lines before the first exit command, each once and in order, and collects one reply per prompt from the provider |
| `SchoolWorkHelper.RunShell` | school_work_helper.py:44-64 | no provider means no prompt is forwarded; otherwise the lines before the first exit command are forwarded, and the session ends by `exit` iff one was typed |
| `SchoolWorkHelper.RunConfigured` | school_work_helper.py:51-53 | with the shipped configuration, `main` forwards nothing |
| `SchoolWorkHelper.ModulePathInjective` | school_work_helper.py:22 | different names never import the same `providers.<name>_provider` module |
| `SchoolWorkHelper.BaseName` | school_work_helper.py:22-24 | `base` gives `providers.base_provider` and `BaseProvider` |
| `SchoolWorkHelper.GeminiName` | school_work_helper.py:22-24 | `gemini` gives `providers.gemini_provider` and `GeminiProvider` |
| `SchoolWorkHelper.OllamaName` | school_work_helper.py:22-24 | `ollama` gives `providers.ollama_provider` and `OllamaProvider` |
| `SchoolWorkHelper.KnownNames` | school_work_helper.py:22-25 | the module paths and class names of the three names whose modules exist |
| `SchoolWorkHelper.ImportedNames` | school_work_helper.py:22 | only `base`, `gemini` and `ollama` lead to an existing module |
| `SchoolWorkHelper.UnknownNameFails` | school_work_helper.py:34-37 | any other name takes the ImportError branch for module `providers.<name>_provider`: `None`, never an instance |
| `SchoolWorkHelper.ResolutionSucceedsIff` | school_work_helper.py:21-40 | resolution succeeds iff the name is `gemini` and its configured key passes the Gemini guard; the constructor then gets `api_key=` with that key |
| `SchoolWorkHelper.OllamaNeverResolves` | school_work_helper.py:28-40 | `ollama` always fails in the generic handler: with no truthy key because `config` is missing, with one because `api_key` is an unexpected keyword |
| `SchoolWorkHelper.BaseNeverResolves` | school_work_helper.py:28-40 | `base` always fails in the generic handler: with no truthy key because `BaseProvider` is abstract, with one because it takes no arguments |
| `SchoolWorkHelper.ShippedConfigurationFails` | school_work_helper.py:6-13 | the placeholder key for `gemini` is passed on and the Gemini guard rejects it, so resolution fails |
| `SchoolWorkHelper.ExitCommands` | school_work_helper.py:59 | `exit`, `EXIT` and `Exit` end the session; `exit ` with a trailing space, `quit` and the empty line do not |

## Left out

- The network and SDK calls (`requests.post`, `genai.configure`, `GenerativeModel.generate_content`, `response.text`) are foreign library code. Each is a function parameter from the request sent to its outcome. The global `configure` side effect shows up only as the key carried by each request.
- Each backend is one fixed function for the whole session, so replies are deterministic. A real server or SDK is not.
- Reflection (`importlib.import_module`, `getattr`) is a closed table of the three modules in the `providers` package. It lists only their attributes whose names end in `Provider`. The table assumes `google.generativeai` and `requests` can be imported, and that module names are case-sensitive.
- Console I/O is not modelled: the banners and the diagnostics `get_provider` prints, and `input()`/`print`. Input is a sequence of lines; the output is the sequence of forwarded prompts and the replies printed for them.
- When input runs out, `input()` raises `EOFError` and the program stops with a traceback. The model records this as `SessionEnd.InputExhausted` and does not model the traceback. Interruption by the user (`KeyboardInterrupt`) is not modelled.
- The text of library exceptions (`{e}`) is an opaque `detail` string. For an HTTP error status, the text comes with the response as `statusErrorDetail`.
- `str.lower()` and `str.capitalize()` use ASCII case mapping only. Full Unicode mapping is not modelled.
- Ollama.Decode: a response body is either a JSON object whose fields are strings or a body that does not decode. A JSON body that is not an object makes `.get` raise `AttributeError`, which escapes the handlers; this is not modelled. A non-string `response` value is not modelled either. Decode failures are treated as `requests`' `JSONDecodeError`, a `RequestException` since requests 2.27. Under older versions the decode failure escapes the handlers.
- Ollama.GetAiAssistance: `RequestException` subclasses other than `ConnectionError` (timeouts, invalid URLs and the rest) are grouped into `HTTPError`, `JSONDecodeError` and `OtherRequestError`. `ConnectTimeout` is both a `ConnectionError` and a `Timeout`, and counts as a `ConnectionError`. Exceptions outside the `RequestException` family would propagate from the source; they are not modelled.
- The abstract base class `BaseProvider` is not a type of its own. It becomes the union `Providers.Provider` and the dispatching function `Providers.Assist`. It is still a class in the import table, so resolving `base` is modelled.
- `script.js` is unrelated browser UI and is not part of this model.
