/**
 * The provider registry (src/infrastructure/llm/factory.py). Python keeps
 * it as a class-level dict shared by every caller; here it is the
 * `registry` field of one `LlmFactory` object. A class is an opaque
 * token: `create` only looks it up and calls it with `config` and the
 * keyword arguments, so an instance is recorded as the class and those
 * arguments.
 */
module Factory {
  import opened Wrappers
  import opened Domain
  import opened Resolution

  /** A model wrapper class: one of the seven adapters, or any class a caller registers. */
  datatype ModelClass =
    | OpenAIModelClass | AzureOpenAIModelClass | AnthropicModelClass | GeminiModelClass
    | BedrockModelClass | GrokModelClass | OllamaModelClass
    | UserClass(name: string)

  /** The result of `model_cls(config=config, **kwargs)`. */
  datatype Instance = Instance(cls: ModelClass, config: Option<ConfigObject>, kwargs: map<string, Value>)

  datatype FactoryError = ValueError(message: string)

  function NotRegistered(provider: string): FactoryError {
    ValueError("Provider '" + provider + "' is not registered.")
  }

  /**
   * What `create` does against a registry: a registered provider's class
   * is instantiated with exactly the given `config` and keyword
   * arguments; any other provider is a ValueError naming it.
   */
  function CreateFrom(registry: map<string, ModelClass>, provider: string, config: Option<ConfigObject>,
                      kwargs: map<string, Value>): (r: Result<Instance, FactoryError>)
    ensures r.Success? <==> provider in registry
    ensures r.Success? ==> r.value.cls == registry[provider] && r.value.config == config && r.value.kwargs == kwargs
    ensures r.Failure? ==> r.error == NotRegistered(provider)
  {
    if provider !in registry then Failure(NotRegistered(provider))
    else Success(Instance(registry[provider], config, kwargs))
  }

  /** A sequence of registrations applied in order, later ones overwriting earlier ones. */
  function RegisterAll(registry: map<string, ModelClass>, registrations: seq<(string, ModelClass)>): map<string, ModelClass>
    decreases |registrations|
  {
    if registrations == [] then registry
    else RegisterAll(registry[registrations[0].0 := registrations[0].1], registrations[1..])
  }

  /**
   * The registrations the adapter modules' decorators make when the
   * adapters package is imported, in import order. The Ollama adapter is
   * registered under the HuggingFace identifier, whose value is "ollama".
   */
  const BUILTIN_REGISTRATIONS: seq<(string, ModelClass)> := [
    (Anthropic.Id(), AnthropicModelClass),
    (Azure.Id(), AzureOpenAIModelClass),
    (Aws.Id(), BedrockModelClass),
    (Google.Id(), GeminiModelClass),
    (Xai.Id(), GrokModelClass),
    (HuggingFace.Id(), OllamaModelClass),
    (OpenAI.Id(), OpenAIModelClass)
  ]

  /** The adapter class each provider identifier is registered with. */
  function AdapterFor(p: LlmProvider): (r: ModelClass)
    ensures (p.Id(), r) in BUILTIN_REGISTRATIONS
  {
    match p
    case OpenAI => OpenAIModelClass
    case Azure => AzureOpenAIModelClass
    case Anthropic => AnthropicModelClass
    case Google => GeminiModelClass
    case Aws => BedrockModelClass
    case Xai => GrokModelClass
    case HuggingFace => OllamaModelClass
  }

  class LlmFactory {
    var registry: map<string, ModelClass>

    /** The registry before any adapter module is imported. */
    constructor ()
      ensures registry == map[]
    {
      registry := map[];
    }

    /**
     * `register(provider)(model_cls)`: the class is stored under the
     * provider, replacing any earlier one, and the decorator hands the
     * class back unchanged.
     */
    method Register(provider: string, cls: ModelClass) returns (r: ModelClass)
      modifies this
      ensures registry == old(registry)[provider := cls]
      ensures r == cls
    {
      registry := registry[provider := cls];
      r := cls;
    }

    /** `create`: looks the provider up and instantiates its class; it never changes the registry. */
    method Create(provider: string, config: Option<ConfigObject>, kwargs: map<string, Value>)
      returns (r: Result<Instance, FactoryError>)
      ensures provider in registry ==> r == Success(Instance(registry[provider], config, kwargs))
      ensures provider !in registry ==> r == Failure(NotRegistered(provider))
    {
      if provider !in registry {
        return Failure(NotRegistered(provider));
      }
      var cls := registry[provider];
      r := Success(Instance(cls, config, kwargs));
    }

    /** Importing the adapters package: each decorator registers its class in turn. */
    method RegisterBuiltins()
      modifies this
      ensures registry == RegisterAll(old(registry), BUILTIN_REGISTRATIONS)
    {
      for i := 0 to |BUILTIN_REGISTRATIONS|
        invariant RegisterAll(registry, BUILTIN_REGISTRATIONS[i..]) == RegisterAll(old(registry), BUILTIN_REGISTRATIONS)
      {
        assert BUILTIN_REGISTRATIONS[i..][1..] == BUILTIN_REGISTRATIONS[i + 1..];
        var _ := Register(BUILTIN_REGISTRATIONS[i].0, BUILTIN_REGISTRATIONS[i].1);
      }
      assert BUILTIN_REGISTRATIONS[|BUILTIN_REGISTRATIONS|..] == [];
    }
  }

  /** Registering a class makes `create` instantiate it with the caller's config and arguments. */
  lemma RegisterThenCreate(registry: map<string, ModelClass>, provider: string, cls: ModelClass,
                           config: Option<ConfigObject>, kwargs: map<string, Value>)
    ensures CreateFrom(registry[provider := cls], provider, config, kwargs) == Success(Instance(cls, config, kwargs))
  {
  }

  /** Registering a second class under the same provider replaces the first. */
  lemma RegisterOverwrites(registry: map<string, ModelClass>, provider: string, first: ModelClass, second: ModelClass,
                           config: Option<ConfigObject>, kwargs: map<string, Value>)
    ensures CreateFrom(registry[provider := first][provider := second], provider, config, kwargs)
         == CreateFrom(registry[provider := second], provider, config, kwargs)
  {
  }

  /** Registering under one provider leaves what `create` does for every other provider unchanged. */
  lemma RegisterLeavesOthers(registry: map<string, ModelClass>, provider: string, cls: ModelClass, other: string,
                             config: Option<ConfigObject>, kwargs: map<string, Value>)
    requires other != provider
    ensures CreateFrom(registry[provider := cls], other, config, kwargs) == CreateFrom(registry, other, config, kwargs)
  {
  }

  /** Applying registrations keeps every earlier provider and adds exactly the registered ones. */
  lemma {:induction false} RegisterAllKeys(registry: map<string, ModelClass>, registrations: seq<(string, ModelClass)>, k: string)
    ensures k in RegisterAll(registry, registrations) <==> k in registry || exists e | e in registrations :: e.0 == k
    decreases |registrations|
  {
    if registrations != [] {
      var e0 := registrations[0];
      RegisterAllKeys(registry[e0.0 := e0.1], registrations[1..], k);
      if exists e | e in registrations[1..] :: e.0 == k {
        var e :| e in registrations[1..] && e.0 == k;
        assert e in registrations;
      }
      forall e | e in registrations && e.0 == k && e != e0
        ensures e in registrations[1..]
      {
        assert registrations == [e0] + registrations[1..];
      }
    }
  }

  /** When a provider is registered once, its registered class is the one left. */
  lemma {:induction false} RegisterAllSingle(registry: map<string, ModelClass>, registrations: seq<(string, ModelClass)>, i: nat)
    requires i < |registrations|
    requires forall j | 0 <= j < |registrations| && j != i :: registrations[j].0 != registrations[i].0
    ensures registrations[i].0 in RegisterAll(registry, registrations)
    ensures RegisterAll(registry, registrations)[registrations[i].0] == registrations[i].1
    decreases |registrations|
  {
    var e0 := registrations[0];
    var rest := registrations[1..];
    if i == 0 {
      RegisterAllUntouched(registry[e0.0 := e0.1], rest, e0.0);
    } else {
      forall j | 0 <= j < |rest| && j != i - 1
        ensures rest[j].0 != rest[i - 1].0
      {
        assert rest[j] == registrations[j + 1];
      }
      RegisterAllSingle(registry[e0.0 := e0.1], rest, i - 1);
    }
  }

  /** A provider no registration names keeps whatever the registry held for it. */
  lemma {:induction false} RegisterAllUntouched(registry: map<string, ModelClass>, registrations: seq<(string, ModelClass)>, k: string)
    requires forall j | 0 <= j < |registrations| :: registrations[j].0 != k
    ensures k in RegisterAll(registry, registrations) <==> k in registry
    ensures k in registry ==> RegisterAll(registry, registrations)[k] == registry[k]
    decreases |registrations|
  {
    if registrations != [] {
      var rest := registrations[1..];
      forall j | 0 <= j < |rest|
        ensures rest[j].0 != k
      {
        assert rest[j] == registrations[j + 1];
      }
      RegisterAllUntouched(registry[registrations[0].0 := registrations[0].1], rest, k);
    }
  }

  /**
   * After the adapters package is imported, every provider identifier is
   * registered, and `create` instantiates that provider's adapter class.
   */
  lemma BuiltinsRegistered(registry: map<string, ModelClass>, p: LlmProvider, config: Option<ConfigObject>, kwargs: map<string, Value>)
    ensures CreateFrom(RegisterAll(registry, BUILTIN_REGISTRATIONS), p.Id(), config, kwargs)
         == Success(Instance(AdapterFor(p), config, kwargs))
  {
    var b := BUILTIN_REGISTRATIONS;
    var i := match p
      case Anthropic => 0 case Azure => 1 case Aws => 2 case Google => 3
      case Xai => 4 case HuggingFace => 5 case OpenAI => 6;
    assert b[i].0 == p.Id() && b[i].1 == AdapterFor(p);
    forall j | 0 <= j < |b| && j != i
      ensures b[j].0 != b[i].0
    {
    }
    RegisterAllSingle(registry, b, i);
  }

  /**
   * Starting from an empty registry, the imports register exactly the
   * provider identifiers, so `create` with any other string fails.
   */
  lemma BuiltinsOnly(k: string, config: Option<ConfigObject>, kwargs: map<string, Value>)
    ensures k in RegisterAll(map[], BUILTIN_REGISTRATIONS) <==> exists p: LlmProvider :: p.Id() == k
    ensures (forall p: LlmProvider :: p.Id() != k) ==>
      CreateFrom(RegisterAll(map[], BUILTIN_REGISTRATIONS), k, config, kwargs) == Failure(NotRegistered(k))
  {
    var b := BUILTIN_REGISTRATIONS;
    RegisterAllKeys(map[], b, k);
    if e :| e in b && e.0 == k {
      var p: LlmProvider :=
        if e == b[0] then Anthropic else if e == b[1] then Azure else if e == b[2] then Aws
        else if e == b[3] then Google else if e == b[4] then Xai else if e == b[5] then HuggingFace
        else OpenAI;
      assert p.Id() == k;
    }
    if p: LlmProvider :| p.Id() == k {
      assert (p.Id(), AdapterFor(p)) in b;
    }
  }
}
