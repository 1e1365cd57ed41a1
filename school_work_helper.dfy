/**
 * The command-line shell: its configuration, the resolution of a provider
 * name into a constructed provider (or `None`), and the prompt loop.
 */
module SchoolWorkHelper {
  import opened Wrappers
  import opened Ascii
  import Gemini
  import opened Providers

  /** The shipped configuration: the provider to use, and the API key per provider name. */
  const AiProvider := "gemini"
  const ApiKeys: map<string, string> := map["gemini" := "YOUR_API_KEY"]

  // ---------------------------------------------------------------------------
  // Provider resolution
  // ---------------------------------------------------------------------------

  /** The classes the `providers` package defines. */
  datatype ProviderClass = BaseProviderClass | GeminiProviderClass | OllamaProviderClass

  /** The module imported for a provider name. */
  function ModulePath(name: string): string
  {
    "providers." + name + "_provider"
  }

  /** The class looked up in that module. */
  function ClassName(name: string): string
  {
    Capitalize(name) + "Provider"
  }

  /**
   * `importlib.import_module` over the closed set of modules in the
   * `providers` package: each module with its class attributes whose names
   * end in "Provider" (the only attributes a derived class name can reach).
   */
  function ImportModule(path: string): Option<map<string, ProviderClass>>
  {
    if path == "providers.base_provider" then
      Some(map["BaseProvider" := BaseProviderClass])
    else if path == "providers.gemini_provider" then
      Some(map["BaseProvider" := BaseProviderClass, "GeminiProvider" := GeminiProviderClass])
    else if path == "providers.ollama_provider" then
      Some(map["BaseProvider" := BaseProviderClass, "OllamaProvider" := OllamaProviderClass])
    else
      None
  }

  /** How the constructor is called: `cls()` or `cls(api_key=key)`. */
  datatype Arguments = NoArguments | ApiKeyArgument(apiKey: string)

  /** The key is passed exactly when the configuration holds a non-empty (truthy) key for the name. */
  function ArgumentsFor(name: string, apiKeys: map<string, string>): (a: Arguments)
    ensures a.ApiKeyArgument? <==> name in apiKeys && apiKeys[name] != ""
    ensures a.ApiKeyArgument? ==> a.apiKey == apiKeys[name]
  {
    if name in apiKeys && apiKeys[name] != "" then ApiKeyArgument(apiKeys[name]) else NoArguments
  }

  /** The exceptions a constructor call can raise. */
  datatype ConstructorError =
    | MissingArgument(parameter: string)   // TypeError: a required positional argument is missing
    | UnexpectedKeyword(keyword: string)   // TypeError: the constructor takes no such keyword
    | TakesNoArguments                     // TypeError: BaseProvider defines no __init__, so object() refuses arguments
    | AbstractClass                        // TypeError: BaseProvider has an abstract method
    | KeyRejected(message: string)         // ValueError raised by the Gemini key guard

  /** What calling a class's constructor with these arguments raises, if anything. */
  function ConstructorFailure(cls: ProviderClass, args: Arguments): Option<ConstructorError>
  {
    match cls
    case BaseProviderClass =>
      (match args
       case NoArguments => Some(AbstractClass)
       case ApiKeyArgument(_) => Some(TakesNoArguments))
    case GeminiProviderClass =>
      (match args
       case NoArguments => Some(MissingArgument("api_key"))
       case ApiKeyArgument(key) =>
         if Gemini.AcceptsKey(key) then None else Some(KeyRejected(Gemini.MissingKeyMessage)))
    case OllamaProviderClass =>
      (match args
       case NoArguments => Some(MissingArgument("config"))
       case ApiKeyArgument(_) => Some(UnexpectedKeyword("api_key")))
  }

  /** Why resolution gave `None`: the ImportError/AttributeError handler, or the generic handler. */
  datatype LoadFailure =
    | ModuleNotFound(path: string)
    | ClassNotFound(path: string, className: string)
    | ConstructorRaised(cls: ProviderClass, error: ConstructorError)

  /** A successful resolution: the class that was constructed and how it was called. */
  datatype Loaded = Loaded(cls: ProviderClass, args: Arguments)

  /** The outcome of `get_provider(name)`, with the objects left out. */
  function Resolution(name: string, apiKeys: map<string, string>): Result<Loaded, LoadFailure>
  {
    var path := ModulePath(name);
    match ImportModule(path)
    case None => Failure(ModuleNotFound(path))
    case Some(attributes) =>
      var className := ClassName(name);
      if className !in attributes then Failure(ClassNotFound(path, className))
      else
        var cls := attributes[className];
        var args := ArgumentsFor(name, apiKeys);
        match ConstructorFailure(cls, args)
        case Some(e) => Failure(ConstructorRaised(cls, e))
        case None => Success(Loaded(cls, args))
  }

  /** Calls a class's constructor: a fully built provider, or the exception raised. */
  method Instantiate(cls: ProviderClass, args: Arguments) returns (r: Result<Provider, ConstructorError>)
    ensures r.Failure? <==> ConstructorFailure(cls, args).Some?
    ensures r.Failure? ==> r.error == ConstructorFailure(cls, args).value
    ensures r.Success? ==> cls == GeminiProviderClass && args.ApiKeyArgument? && r.value.GeminiBackend?
    ensures r.Success? ==> fresh(r.value.gemini) && r.value.gemini.apiKey == args.apiKey && r.value.gemini.Valid()
  {
    match cls {
      case BaseProviderClass =>
        match args {
          case NoArguments =>
            r := Failure(AbstractClass);
          case ApiKeyArgument(_) =>
            r := Failure(TakesNoArguments);
        }
      case GeminiProviderClass =>
        match args {
          case NoArguments =>
            r := Failure(MissingArgument("api_key"));
          case ApiKeyArgument(key) =>
            var built := Gemini.New(key);
            match built {
              case Success(g) => r := Success(GeminiBackend(g));
              case Failure(message) => r := Failure(KeyRejected(message));
            }
        }
      case OllamaProviderClass =>
        match args {
          case NoArguments =>
            r := Failure(MissingArgument("config"));
          case ApiKeyArgument(_) =>
            r := Failure(UnexpectedKeyword("api_key"));
        }
    }
  }

  /**
   * `get_provider(name)`: every failure collapses into `None`; a returned
   * provider is fully built and matches the resolution.
   */
  method GetProvider(name: string, apiKeys: map<string, string>) returns (p: Option<Provider>)
    ensures p.Some? <==> Resolution(name, apiKeys).Success?
    ensures p.Some? ==> p.value.GeminiBackend? && fresh(p.value.gemini) && p.value.gemini.Valid()
    ensures p.Some? ==> Resolution(name, apiKeys).value == Loaded(GeminiProviderClass, ApiKeyArgument(p.value.gemini.apiKey))
  {
    var path := ModulePath(name);
    var imported := ImportModule(path);
    if imported.None? {
      return None;
    }
    var className := ClassName(name);
    if className !in imported.value {
      return None;
    }
    var cls := imported.value[className];
    var args := ArgumentsFor(name, apiKeys);
    var built := Instantiate(cls, args);
    match built
    case Failure(_) => p := None;
    case Success(provider) => p := Some(provider);
  }

  // ---------------------------------------------------------------------------
  // The prompt loop
  // ---------------------------------------------------------------------------

  /** `line.lower() == 'exit'`. */
  predicate IsExitCommand(line: string)
  {
    Lower(line) == "exit"
  }

  /** The input lines before the first exit command: the prompts a session forwards. */
  function PromptsBeforeExit(lines: seq<string>): (r: seq<string>)
    ensures r <= lines
    ensures forall i :: 0 <= i < |r| ==> !IsExitCommand(r[i])
    ensures |r| < |lines| ==> IsExitCommand(lines[|r|])
  {
    if lines == [] || IsExitCommand(lines[0]) then [] else [lines[0]] + PromptsBeforeExit(lines[1..])
  }

  /** How a session ended: no provider, `exit` typed, or input exhausted (where `input()` raises EOFError). */
  datatype SessionEnd = NoProvider | ExitTyped | InputExhausted

  /**
   * The `while True` loop of `main()` with a provider in hand: forwards each
   * line, in order and once, until the first exit command, and collects the
   * replies it prints.
   */
  method ForwardPrompts(p: Provider, lines: seq<string>, backend: Backend)
    returns (forwarded: seq<string>, replies: seq<string>, exited: bool)
    ensures forwarded == PromptsBeforeExit(lines)
    ensures exited <==> |forwarded| < |lines|
    ensures |replies| == |forwarded|
    ensures forall i :: 0 <= i < |replies| ==> replies[i] == Assist(p, forwarded[i], backend)
  {
    forwarded, replies, exited := [], [], false;
    var i := 0;
    while i < |lines|
      invariant 0 <= i <= |lines|
      invariant forwarded == lines[..i]
      invariant forall k :: 0 <= k < i ==> !IsExitCommand(lines[k])
      invariant |replies| == i
      invariant forall k :: 0 <= k < i ==> replies[k] == Assist(p, lines[k], backend)
    {
      if IsExitCommand(lines[i]) {
        exited := true;
        break;
      }
      var reply := Assist(p, lines[i], backend);
      forwarded, replies := forwarded + [lines[i]], replies + [reply];
      i := i + 1;
    }
    PromptsBeforeExitIsLongestExitFreePrefix(lines, i);
  }

  /**
   * `main()` with the provider name and keys as parameters and the console
   * as a sequence of input lines: no prompt at all when resolution fails,
   * otherwise the prompt loop.
   */
  method RunShell(name: string, apiKeys: map<string, string>, lines: seq<string>, backend: Backend)
    returns (provider: Option<Provider>, forwarded: seq<string>, replies: seq<string>, end: SessionEnd)
    ensures provider.Some? <==> Resolution(name, apiKeys).Success?
    ensures provider.None? ==> end == NoProvider && forwarded == [] && replies == []
    ensures provider.Some? ==> forwarded == PromptsBeforeExit(lines)
    ensures provider.Some? ==> (end == ExitTyped <==> |forwarded| < |lines|) && end != NoProvider
    ensures |replies| == |forwarded|
    ensures provider.Some? ==> forall i :: 0 <= i < |replies| ==> replies[i] == Assist(provider.value, forwarded[i], backend)
  {
    provider := GetProvider(name, apiKeys);
    if provider.None? {
      return provider, [], [], NoProvider;
    }
    var exited;
    forwarded, replies, exited := ForwardPrompts(provider.value, lines, backend);
    end := if exited then ExitTyped else InputExhausted;
  }

  /** The session with the shipped configuration. */
  method RunConfigured(lines: seq<string>, backend: Backend)
    returns (forwarded: seq<string>, replies: seq<string>, end: SessionEnd)
    ensures end == NoProvider && forwarded == [] && replies == []
  {
    ShippedConfigurationFails();
    var provider;
    provider, forwarded, replies, end := RunShell(AiProvider, ApiKeys, lines, backend);
  }

  // ---------------------------------------------------------------------------
  // Properties
  // ---------------------------------------------------------------------------

  /** A prefix free of exit commands that ends at an exit command (or at the end) is exactly what is forwarded. */
  lemma PromptsBeforeExitIsLongestExitFreePrefix(lines: seq<string>, n: nat)
    requires n <= |lines|
    requires forall k :: 0 <= k < n ==> !IsExitCommand(lines[k])
    requires n < |lines| ==> IsExitCommand(lines[n])
    ensures PromptsBeforeExit(lines) == lines[..n]
  {
  }

  /** The module imported is determined by the name: different names never share a module. */
  lemma {:induction false} ModulePathInjective(a: string, b: string)
    requires ModulePath(a) == ModulePath(b)
    ensures a == b
  {
    var pa, pb := ModulePath(a), ModulePath(b);
    assert |a| == |pa| - 19 == |pb| - 19 == |b|;
    assert a == pa[10..10 + |a|];
    assert b == pb[10..10 + |b|];
  }

  /**
   * The three names whose module exists, and their modules and classes
   * (one small lemma per name, since unfolding all six string literals in
   * one proof is too costly for the solver).
   */
  lemma KnownNames()
    ensures ModulePath("base") == "providers.base_provider" && ClassName("base") == "BaseProvider"
    ensures ModulePath("gemini") == "providers.gemini_provider" && ClassName("gemini") == "GeminiProvider"
    ensures ModulePath("ollama") == "providers.ollama_provider" && ClassName("ollama") == "OllamaProvider"
  {
    BaseName();
    GeminiName();
    OllamaName();
  }

  lemma BaseName()
    ensures ModulePath("base") == "providers.base_provider"
    ensures ClassName("base") == "BaseProvider"
  {
  }

  lemma GeminiName()
    ensures ModulePath("gemini") == "providers.gemini_provider"
    ensures ClassName("gemini") == "GeminiProvider"
  {
  }

  lemma OllamaName()
    ensures ModulePath("ollama") == "providers.ollama_provider"
    ensures ClassName("ollama") == "OllamaProvider"
  {
  }

  /** Only the names "base", "gemini" and "ollama" lead to a module at all. */
  lemma ImportedNames(name: string)
    requires ImportModule(ModulePath(name)).Some?
    ensures name == "base" || name == "gemini" || name == "ollama"
  {
    KnownNames();
    var path := ModulePath(name);
    if path == ModulePath("base") {
      ModulePathInjective(name, "base");
    } else if path == ModulePath("gemini") {
      ModulePathInjective(name, "gemini");
    } else {
      ModulePathInjective(name, "ollama");
    }
  }

  /** An unknown name yields the ImportError branch (so `None`), never an instance. */
  lemma UnknownNameFails(name: string, apiKeys: map<string, string>)
    requires name != "base" && name != "gemini" && name != "ollama"
    ensures Resolution(name, apiKeys) == Failure(ModuleNotFound("providers." + name + "_provider"))
  {
    if ImportModule(ModulePath(name)).Some? {
      ImportedNames(name);
    }
  }

  /**
   * Resolution succeeds exactly for "gemini" with a configured key that the
   * Gemini guard accepts; the constructor is then called with that key.
   */
  lemma ResolutionSucceedsIff(name: string, apiKeys: map<string, string>)
    ensures Resolution(name, apiKeys).Success? <==>
              name == "gemini" && name in apiKeys && Gemini.AcceptsKey(apiKeys[name])
    ensures Resolution(name, apiKeys).Success? ==>
              Resolution(name, apiKeys).value == Loaded(GeminiProviderClass, ApiKeyArgument(apiKeys[name]))
  {
    KnownNames();
    if name != "base" && name != "gemini" && name != "ollama" {
      UnknownNameFails(name, apiKeys);
    }
  }

  /**
   * "ollama" never resolves, and always fails in the generic handler:
   * `OllamaProvider()` lacks its config, and `OllamaProvider(api_key=..)` is refused.
   */
  lemma OllamaNeverResolves(apiKeys: map<string, string>)
    ensures !("ollama" in apiKeys && apiKeys["ollama"] != "") ==>
              Resolution("ollama", apiKeys) == Failure(ConstructorRaised(OllamaProviderClass, MissingArgument("config")))
    ensures "ollama" in apiKeys && apiKeys["ollama"] != "" ==>
              Resolution("ollama", apiKeys) == Failure(ConstructorRaised(OllamaProviderClass, UnexpectedKeyword("api_key")))
    ensures Resolution("ollama", apiKeys).Failure? && Resolution("ollama", apiKeys).error.ConstructorRaised?
  {
    KnownNames();
  }

  /**
   * "base" finds BaseProvider, whose construction always raises in the
   * generic handler: without arguments because it is abstract, with
   * `api_key=` because it takes no arguments at all.
   */
  lemma BaseNeverResolves(apiKeys: map<string, string>)
    ensures !("base" in apiKeys && apiKeys["base"] != "") ==>
              Resolution("base", apiKeys) == Failure(ConstructorRaised(BaseProviderClass, AbstractClass))
    ensures "base" in apiKeys && apiKeys["base"] != "" ==>
              Resolution("base", apiKeys) == Failure(ConstructorRaised(BaseProviderClass, TakesNoArguments))
    ensures Resolution("base", apiKeys).Failure? && Resolution("base", apiKeys).error.ConstructorRaised?
  {
    KnownNames();
  }

  /**
   * The shipped configuration resolves to nothing: the placeholder key is
   * truthy, so it is passed on, and the Gemini guard rejects it.
   */
  lemma ShippedConfigurationFails()
    ensures ArgumentsFor(AiProvider, ApiKeys) == ApiKeyArgument("YOUR_API_KEY")
    ensures Resolution(AiProvider, ApiKeys) ==
              Failure(ConstructorRaised(GeminiProviderClass, KeyRejected(Gemini.MissingKeyMessage)))
  {
    KnownNames();
  }

  /** "exit" is matched ignoring case, and nothing else (not even with surrounding spaces) ends the session. */
  lemma ExitCommands()
    ensures IsExitCommand("exit") && IsExitCommand("EXIT") && IsExitCommand("Exit")
    ensures !IsExitCommand("exit ") && !IsExitCommand("quit") && !IsExitCommand("")
  {
  }
}
