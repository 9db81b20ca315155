/**
 * The provider adapters. Each one resolves its arguments, renames them
 * with its table (or not at all), applies its post-step, and hands the
 * final dict to the provider's native client constructor, storing the
 * result as `client`. The native constructors are foreign library code:
 * a client is recorded here as its class and the keyword arguments it
 * received.
 */
module Adapters {
  import opened Wrappers
  import opened Domain
  import opened ParamMaps
  import opened Resolution
  import opened Remapping

  datatype ClientClass =
    | ChatOpenAI | AzureChatOpenAI | ChatBedrock | ChatAnthropic
    | ChatGoogleGenerativeAI | ChatXAI | ChatOllama

  /** A native client, recorded as its class and the keyword arguments it was constructed with. */
  datatype NativeClient = NativeClient(cls: ClientClass, kwargs: Params)

  // The overrides an adapter hands to the resolver: its named arguments
  // together with `**kwargs`. Python's argument binding never lets a
  // named argument's name into `kwargs`, so the updates below add keys
  // and never replace one.

  function StandardOverrides(model: Value, apiKey: Value, kwargs: Params): Params {
    kwargs["model" := model]["api_key" := apiKey]
  }

  function AzureOverrides(model: Value, apiKey: Value, azureEndpoint: Value, apiVersion: Value, kwargs: Params): Params {
    kwargs["model" := model]["api_key" := apiKey]["azure_endpoint" := azureEndpoint]["api_version" := apiVersion]
  }

  function OllamaOverrides(model: Value, baseUrl: Value, apiKey: Value, kwargs: Params): Params {
    kwargs["model" := model]["base_url" := baseUrl]["api_key" := apiKey]
  }

  // What each adapter passes to its native constructor. The rename table
  // is a parameter: the adapters read a module-level dict that tests
  // replace with their own.

  function OpenAIKwargs(table: ParamMap, config: Option<ConfigObject>, model: Value, apiKey: Value, kwargs: Params): Params {
    Remapped(Resolved(MODEL_CONFIG_FIELDS, config, StandardOverrides(model, apiKey, kwargs)), table)
  }

  function AzureKwargs(table: ParamMap, config: Option<ConfigObject>, model: Value, apiKey: Value,
                       azureEndpoint: Value, apiVersion: Value, kwargs: Params): Params {
    RemappedGuarded(Resolved(MODEL_CONFIG_FIELDS, config, AzureOverrides(model, apiKey, azureEndpoint, apiVersion, kwargs)), table)
  }

  function BedrockKwargs(table: ParamMap, config: Option<ConfigObject>, model: Value, apiKey: Value, kwargs: Params): Params {
    Remapped(Resolved(MODEL_CONFIG_FIELDS, config, StandardOverrides(model, apiKey, kwargs)), table) - {"api_key"}
  }

  function AnthropicKwargs(table: ParamMap, config: Option<ConfigObject>, model: Value, apiKey: Value, kwargs: Params): Params {
    Remapped(Resolved(OwnAnnotations(config), config, StandardOverrides(model, apiKey, kwargs)), table)
  }

  function GeminiKwargs(table: ParamMap, config: Option<ConfigObject>, model: Value, apiKey: Value, kwargs: Params): Params {
    Remapped(Resolved(OwnAnnotations(config), config, StandardOverrides(model, apiKey, kwargs)), table)
  }

  function GrokKwargs(table: ParamMap, config: Option<ConfigObject>, model: Value, apiKey: Value, kwargs: Params): Params {
    Remapped(Resolved(OwnAnnotations(config), config, StandardOverrides(model, apiKey, kwargs)), table)
  }

  function OllamaKwargs(config: Option<ConfigObject>, model: Value, baseUrl: Value, apiKey: Value, kwargs: Params): (r: Params)
    ensures "api_key" !in r
  {
    Resolved(OwnAnnotations(config), config, OllamaOverrides(model, baseUrl, apiKey, kwargs)) - {"api_key"}
  }

  class OpenAIModel {
    var client: NativeClient

    constructor (config: Option<ConfigObject>, model: Value, apiKey: Value, kwargs: Params)
      ensures client == NativeClient(ChatOpenAI, OpenAIKwargs(OPENAI_PARAM_MAP, config, model, apiKey, kwargs))
    {
      var params := ResolveParameters(MODEL_CONFIG_FIELDS, config, StandardOverrides(model, apiKey, kwargs));
      params := RemapUnguarded(params, OPENAI_PARAM_MAP);
      client := NativeClient(ChatOpenAI, params);
    }
  }

  class AzureOpenAIModel {
    var client: NativeClient

    constructor (config: Option<ConfigObject>, model: Value, apiKey: Value, azureEndpoint: Value, apiVersion: Value, kwargs: Params)
      ensures client == NativeClient(AzureChatOpenAI,
        AzureKwargs(AZURE_OPENAI_PARAM_MAP, config, model, apiKey, azureEndpoint, apiVersion, kwargs))
    {
      var params := ResolveParameters(MODEL_CONFIG_FIELDS, config, AzureOverrides(model, apiKey, azureEndpoint, apiVersion, kwargs));
      params := RemapGuarded(params, AZURE_OPENAI_PARAM_MAP);
      client := NativeClient(AzureChatOpenAI, params);
    }
  }

  class BedrockModel {
    var client: NativeClient

    constructor (config: Option<ConfigObject>, model: Value, apiKey: Value, kwargs: Params)
      ensures client == NativeClient(ChatBedrock, BedrockKwargs(BEDROCK_PARAM_MAP, config, model, apiKey, kwargs))
    {
      var params := ResolveParameters(MODEL_CONFIG_FIELDS, config, StandardOverrides(model, apiKey, kwargs));
      params := RemapUnguarded(params, BEDROCK_PARAM_MAP);
      params := params - {"api_key"};
      client := NativeClient(ChatBedrock, params);
    }
  }

  class AnthropicModel {
    var client: NativeClient

    constructor (config: Option<ConfigObject>, model: Value, apiKey: Value, kwargs: Params)
      ensures client == NativeClient(ChatAnthropic, AnthropicKwargs(CLAUDE_PARAM_MAP, config, model, apiKey, kwargs))
    {
      var params := ResolveParameters(OwnAnnotations(config), config, StandardOverrides(model, apiKey, kwargs));
      params := RemapUnguarded(params, CLAUDE_PARAM_MAP);
      client := NativeClient(ChatAnthropic, params);
    }
  }

  class GeminiModel {
    var client: NativeClient

    constructor (config: Option<ConfigObject>, model: Value, apiKey: Value, kwargs: Params)
      ensures client == NativeClient(ChatGoogleGenerativeAI, GeminiKwargs(GEMINI_PARAM_MAP, config, model, apiKey, kwargs))
    {
      var params := ResolveParameters(OwnAnnotations(config), config, StandardOverrides(model, apiKey, kwargs));
      params := RemapUnguarded(params, GEMINI_PARAM_MAP);
      client := NativeClient(ChatGoogleGenerativeAI, params);
    }
  }

  class GrokModel {
    var client: NativeClient

    constructor (config: Option<ConfigObject>, model: Value, apiKey: Value, kwargs: Params)
      ensures client == NativeClient(ChatXAI, GrokKwargs(XAI_PARAM_MAP, config, model, apiKey, kwargs))
    {
      var params := ResolveParameters(OwnAnnotations(config), config, StandardOverrides(model, apiKey, kwargs));
      params := RemapUnguarded(params, XAI_PARAM_MAP);
      client := NativeClient(ChatXAI, params);
    }
  }

  class OllamaModel {
    var client: NativeClient

    constructor (config: Option<ConfigObject>, model: Value, baseUrl: Value, apiKey: Value, kwargs: Params)
      ensures client == NativeClient(ChatOllama, OllamaKwargs(config, model, baseUrl, apiKey, kwargs))
    {
      var params := ResolveParameters(OwnAnnotations(config), config, OllamaOverrides(model, baseUrl, apiKey, kwargs));
      params := params - {"api_key"};
      client := NativeClient(ChatOllama, params);
    }
  }

  /** `t` holds what `r` held under `g`, when `r` had `g`. */
  predicate Carries(r: Params, f: Params, g: string, t: string) {
    g in r ==> t in f && f[t] == r[g]
  }

  /**
   * Under `t`, `f` holds the explicit argument for `g` when one was given,
   * and otherwise the value the config supplies for `g`.
   */
  predicate Prefers(explicit: Value, fields: seq<string>, config: Option<ConfigObject>, f: Params, g: string, t: string) {
    && (explicit != Null ==> t in f && f[t] == explicit)
    && (explicit == Null && config.Some? && g in fields && Supplies(config.value, g) ==>
          t in f && f[t] == config.value.attributes[g])
  }

  /** Resolution lets an explicit argument beat the config and an unset one inherit from it. */
  lemma PrefersResolved(explicit: Value, fields: seq<string>, config: Option<ConfigObject>, overrides: Params, k: string)
    requires k in overrides && overrides[k] == explicit
    ensures Prefers(explicit, fields, config, Resolved(fields, config, overrides), k, k)
  {
  }

  /** Precedence survives a step that carries `g`'s value to `t`. */
  lemma PrefersCarried(explicit: Value, fields: seq<string>, config: Option<ConfigObject>, r: Params, f: Params, g: string, t: string)
    requires Prefers(explicit, fields, config, r, g, g) && Carries(r, f, g, t)
    ensures Prefers(explicit, fields, config, f, g, t)
  {
  }

  /** An explicit argument for `g` that a later step carries to `t` decides what `t` holds. */
  lemma PrefersThrough(explicit: Value, fields: seq<string>, config: Option<ConfigObject>, overrides: Params,
                       f: Params, g: string, t: string)
    requires g in overrides && overrides[g] == explicit
    requires Carries(Resolved(fields, config, overrides), f, g, t)
    ensures Prefers(explicit, fields, config, f, g, t)
  {
    PrefersResolved(explicit, fields, config, overrides, g);
    PrefersCarried(explicit, fields, config, Resolved(fields, config, overrides), f, g, t);
  }

  /** A non-None keyword argument other than a named one is resolved as given. */
  lemma KwargResolved(fields: seq<string>, config: Option<ConfigObject>, model: Value, apiKey: Value, kwargs: Params, k: string)
    requires k in kwargs && kwargs[k] != Null && k != "model" && k != "api_key"
    ensures var r := Resolved(fields, config, StandardOverrides(model, apiKey, kwargs));
      k in r && r[k] == kwargs[k]
  {
  }

  //
  // OpenAI
  //

  /**
   * What ChatOpenAI receives for resolved parameters `r`: the four generic
   * names are gone; each one `r` has is there under its OpenAI name,
   * overwriting an explicitly passed OpenAI-named argument, as the loop
   * has no collision guard; every other key of `r` passes unchanged.
   */
  lemma OpenAIRenames(r: Params)
    ensures var f := Remapped(r, OPENAI_PARAM_MAP);
      && "api_key" !in f && "base_url" !in f && "proxy" !in f && "organization" !in f
      && Carries(r, f, "api_key", "openai_api_key") && Carries(r, f, "base_url", "openai_api_base")
      && Carries(r, f, "proxy", "openai_proxy") && Carries(r, f, "organization", "openai_organization")
      && Same(r, f, "model")
      && (forall k | k !in Mentioned(OPENAI_PARAM_MAP) :: Same(r, f, k))
  {
    assert "model" !in Mentioned(OPENAI_PARAM_MAP);
    OpenAITableDisjoint();
    RemappedSpec(r, OPENAI_PARAM_MAP);
  }

  /**
   * An explicit `api_key` beats the config's and an unset one inherits it,
   * observed as `openai_api_key`.
   */
  lemma OpenAIExplicitApiKey(config: Option<ConfigObject>, model: Value, apiKey: Value, kwargs: Params)
    ensures Prefers(apiKey, MODEL_CONFIG_FIELDS, config, OpenAIKwargs(OPENAI_PARAM_MAP, config, model, apiKey, kwargs), "api_key", "openai_api_key")
  {
    var o := StandardOverrides(model, apiKey, kwargs);
    OpenAIRenames(Resolved(MODEL_CONFIG_FIELDS, config, StandardOverrides(model, apiKey, kwargs)));
    PrefersThrough(apiKey, MODEL_CONFIG_FIELDS, config, o, OpenAIKwargs(OPENAI_PARAM_MAP, config, model, apiKey, kwargs), "api_key", "openai_api_key");
  }

  /** An explicit `model` beats the config's and an unset one inherits it. */
  lemma OpenAIExplicitModel(config: Option<ConfigObject>, model: Value, apiKey: Value, kwargs: Params)
    ensures Prefers(model, MODEL_CONFIG_FIELDS, config, OpenAIKwargs(OPENAI_PARAM_MAP, config, model, apiKey, kwargs), "model", "model")
  {
    var o := StandardOverrides(model, apiKey, kwargs);
    OpenAIRenames(Resolved(MODEL_CONFIG_FIELDS, config, StandardOverrides(model, apiKey, kwargs)));
    PrefersThrough(model, MODEL_CONFIG_FIELDS, config, o, OpenAIKwargs(OPENAI_PARAM_MAP, config, model, apiKey, kwargs), "model", "model");
  }

  /** Keyword arguments outside the table, such as `temperature`, reach ChatOpenAI as given. */
  lemma OpenAIKwargsPassThrough(config: Option<ConfigObject>, model: Value, apiKey: Value, kwargs: Params, k: string)
    requires k in kwargs && kwargs[k] != Null && k !in Mentioned(OPENAI_PARAM_MAP) && k != "model"
    ensures var f := OpenAIKwargs(OPENAI_PARAM_MAP, config, model, apiKey, kwargs);
      k in f && f[k] == kwargs[k]
  {
    OpenAIRenames(Resolved(MODEL_CONFIG_FIELDS, config, StandardOverrides(model, apiKey, kwargs)));
    assert "api_key" in Mentioned(OPENAI_PARAM_MAP);
    KwargResolved(MODEL_CONFIG_FIELDS, config, model, apiKey, kwargs, k);
  }

  //
  // Azure OpenAI
  //

  /**
   * What AzureChatOpenAI receives for resolved parameters `r`: a generic
   * name moves to its Azure name only when `r` lacks that name; on a
   * collision both keep their values. The identity entries leave
   * `api_key` and `api_version` as resolved, and keys the table does not
   * mention are untouched.
   */
  lemma AzureRenames(r: Params)
    ensures var f := RemappedGuarded(r, AZURE_OPENAI_PARAM_MAP);
      && ("azure_endpoint" !in r ==> "base_url" !in f && Carries(r, f, "base_url", "azure_endpoint"))
      && ("azure_endpoint" in r ==> Same(r, f, "base_url") && Same(r, f, "azure_endpoint"))
      && ("azure_deployment" !in r ==> "model" !in f && Carries(r, f, "model", "azure_deployment"))
      && ("azure_deployment" in r ==> Same(r, f, "model") && Same(r, f, "azure_deployment"))
      && ("openai_proxy" !in r ==> "proxy" !in f && Carries(r, f, "proxy", "openai_proxy"))
      && ("openai_proxy" in r ==> Same(r, f, "proxy") && Same(r, f, "openai_proxy"))
      && ("openai_organization" !in r ==> "organization" !in f && Carries(r, f, "organization", "openai_organization"))
      && ("openai_organization" in r ==> Same(r, f, "organization") && Same(r, f, "openai_organization"))
      && Same(r, f, "api_key") && Same(r, f, "api_version")
      && (forall k | k !in Mentioned(AZURE_OPENAI_PARAM_MAP) :: Same(r, f, k))
  {
    var t := AZURE_OPENAI_PARAM_MAP;
    AzureTableDisjoint();
    RemappedGuardedSpec(r, t);
    assert t[0] in t && t[1] in t && t[2] in t && t[3] in t && t[4] in t && t[5] in t;
  }

  /**
   * An explicit `azure_endpoint` beats the config's and an unset one
   * inherits it; with an explicit one, a resolved `base_url` stays beside
   * it instead of replacing it.
   */
  lemma AzureExplicitEndpoint(config: Option<ConfigObject>, model: Value, apiKey: Value,
                              azureEndpoint: Value, apiVersion: Value, kwargs: Params)
    ensures var r := Resolved(MODEL_CONFIG_FIELDS, config, AzureOverrides(model, apiKey, azureEndpoint, apiVersion, kwargs));
            var f := AzureKwargs(AZURE_OPENAI_PARAM_MAP, config, model, apiKey, azureEndpoint, apiVersion, kwargs);
      && Prefers(azureEndpoint, MODEL_CONFIG_FIELDS, config, f, "azure_endpoint", "azure_endpoint")
      && (azureEndpoint != Null && "base_url" in r ==> "base_url" in f && f["base_url"] == r["base_url"])
  {
    var o := AzureOverrides(model, apiKey, azureEndpoint, apiVersion, kwargs);
    AzureRenames(Resolved(MODEL_CONFIG_FIELDS, config, AzureOverrides(model, apiKey, azureEndpoint, apiVersion, kwargs)));
    PrefersThrough(azureEndpoint, MODEL_CONFIG_FIELDS, config, o, AzureKwargs(AZURE_OPENAI_PARAM_MAP, config, model, apiKey, azureEndpoint, apiVersion, kwargs), "azure_endpoint", "azure_endpoint");
  }

  /** Explicit `api_version` and `api_key` beat the config and unset ones inherit from it. */
  lemma AzureExplicitVersionAndKey(config: Option<ConfigObject>, model: Value, apiKey: Value,
                                   azureEndpoint: Value, apiVersion: Value, kwargs: Params)
    ensures var f := AzureKwargs(AZURE_OPENAI_PARAM_MAP, config, model, apiKey, azureEndpoint, apiVersion, kwargs);
      && Prefers(apiVersion, MODEL_CONFIG_FIELDS, config, f, "api_version", "api_version")
      && Prefers(apiKey, MODEL_CONFIG_FIELDS, config, f, "api_key", "api_key")
  {
    var o := AzureOverrides(model, apiKey, azureEndpoint, apiVersion, kwargs);
    var r := Resolved(MODEL_CONFIG_FIELDS, config, o);
    var f := AzureKwargs(AZURE_OPENAI_PARAM_MAP, config, model, apiKey, azureEndpoint, apiVersion, kwargs);
    AzureRenames(Resolved(MODEL_CONFIG_FIELDS, config, AzureOverrides(model, apiKey, azureEndpoint, apiVersion, kwargs)));
    PrefersThrough(apiVersion, MODEL_CONFIG_FIELDS, config, o, f, "api_version", "api_version");
    PrefersThrough(apiKey, MODEL_CONFIG_FIELDS, config, o, f, "api_key", "api_key");
  }

  //
  // Bedrock
  //

  /**
   * What ChatBedrock receives for resolved parameters `r`: never
   * `api_key`, whether it came from the config or from an argument, since
   * no entry targets it and it is dropped after the renames; `model`,
   * `base_url` and `timeout` arrive as `model_id`, `endpoint_url` and
   * `client_config`; every other key of `r` passes unchanged.
   */
  lemma BedrockRenames(r: Params)
    ensures var f := Remapped(r, BEDROCK_PARAM_MAP) - {"api_key"};
      && "api_key" !in f
      && "model" !in f && "base_url" !in f && "timeout" !in f
      && Carries(r, f, "model", "model_id") && Carries(r, f, "base_url", "endpoint_url")
      && Carries(r, f, "timeout", "client_config")
      && (forall k | k !in Mentioned(BEDROCK_PARAM_MAP) && k != "api_key" :: Same(r, f, k))
  {
    BedrockTableDisjoint();
    RemappedSpec(r, BEDROCK_PARAM_MAP);
  }

  /** An explicit `model` beats the config's and an unset one inherits it, observed as `model_id`. */
  lemma BedrockExplicitModel(config: Option<ConfigObject>, model: Value, apiKey: Value, kwargs: Params)
    ensures Prefers(model, MODEL_CONFIG_FIELDS, config, BedrockKwargs(BEDROCK_PARAM_MAP, config, model, apiKey, kwargs), "model", "model_id")
  {
    var o := StandardOverrides(model, apiKey, kwargs);
    var r := Resolved(MODEL_CONFIG_FIELDS, config, o);
    BedrockRenames(Resolved(MODEL_CONFIG_FIELDS, config, StandardOverrides(model, apiKey, kwargs)));
    PrefersThrough(model, MODEL_CONFIG_FIELDS, config, o, BedrockKwargs(BEDROCK_PARAM_MAP, config, model, apiKey, kwargs), "model", "model_id");
  }

  //
  // Anthropic
  //

  /**
   * What ChatAnthropic receives for resolved parameters `r` with the
   * production table: `timeout`, `proxy` and `base_url` arrive as
   * `default_request_timeout`, `anthropic_proxy` and `anthropic_api_url`,
   * overwriting arguments already under those names, while the identity
   * entry pops and reinserts `api_key`, keeping its value.
   */
  lemma ClaudeRenames(r: Params)
    ensures var f := Remapped(r, CLAUDE_PARAM_MAP);
      && "timeout" !in f && "proxy" !in f && "base_url" !in f
      && Carries(r, f, "timeout", "default_request_timeout") && Carries(r, f, "proxy", "anthropic_proxy")
      && Carries(r, f, "base_url", "anthropic_api_url")
      && Same(r, f, "api_key")
      && (forall k | k !in Mentioned(CLAUDE_PARAM_MAP) :: Same(r, f, k))
  {
    ClaudeTableDisjoint();
    RemappedSpec(r, CLAUDE_PARAM_MAP);
    assert ("api_key", "api_key") in CLAUDE_PARAM_MAP;
  }

  /** The substitute table the Anthropic tests install. */
  const ANTHROPIC_TEST_PARAM_MAP: ParamMap := [("api_key", "anthropic_api_key"), ("base_url", "anthropic_api_url")]

  /** With the tests' table, `api_key` and `base_url` are gone and their targets hold the values. */
  lemma AnthropicSubstitutedTable(config: Option<ConfigObject>, model: Value, apiKey: Value, kwargs: Params)
    ensures var r := Resolved(OwnAnnotations(config), config, StandardOverrides(model, apiKey, kwargs));
            var f := AnthropicKwargs(ANTHROPIC_TEST_PARAM_MAP, config, model, apiKey, kwargs);
      && "api_key" !in f && "base_url" !in f
      && Carries(r, f, "api_key", "anthropic_api_key") && Carries(r, f, "base_url", "anthropic_api_url")
      && (forall k | k !in Mentioned(ANTHROPIC_TEST_PARAM_MAP) :: Same(r, f, k))
  {
    var r := Resolved(OwnAnnotations(config), config, StandardOverrides(model, apiKey, kwargs));
    var t := ANTHROPIC_TEST_PARAM_MAP;
    assert Disjoint(t) by {
      assert Apart(t[0], t[1..]);
    }
    RemappedSpec(r, t);
  }

  /**
   * With the tests' table, explicit arguments beat the config and unset
   * ones inherit from it, observed as `anthropic_api_key` and `model`.
   */
  lemma AnthropicExplicitArguments(config: Option<ConfigObject>, model: Value, apiKey: Value, kwargs: Params)
    ensures var f := AnthropicKwargs(ANTHROPIC_TEST_PARAM_MAP, config, model, apiKey, kwargs);
      && Prefers(apiKey, OwnAnnotations(config), config, f, "api_key", "anthropic_api_key")
      && Prefers(model, OwnAnnotations(config), config, f, "model", "model")
  {
    var o := StandardOverrides(model, apiKey, kwargs);
    var r := Resolved(OwnAnnotations(config), config, o);
    var f := AnthropicKwargs(ANTHROPIC_TEST_PARAM_MAP, config, model, apiKey, kwargs);
    AnthropicSubstitutedTable(config, model, apiKey, kwargs);
    PrefersThrough(apiKey, OwnAnnotations(config), config, o, f, "api_key", "anthropic_api_key");
    assert "model" !in Mentioned(ANTHROPIC_TEST_PARAM_MAP);
    PrefersThrough(model, OwnAnnotations(config), config, o, f, "model", "model");
  }

  //
  // Gemini
  //

  /**
   * What ChatGoogleGenerativeAI receives for resolved parameters `r` with
   * the production table: `api_key` and `timeout` arrive as
   * `google_api_key` and `request_timeout`, and keys outside the table,
   * such as `model` and `temperature`, pass unchanged.
   */
  lemma GeminiRenames(r: Params)
    ensures var f := Remapped(r, GEMINI_PARAM_MAP);
      && "api_key" !in f && "timeout" !in f
      && Carries(r, f, "api_key", "google_api_key") && Carries(r, f, "timeout", "request_timeout")
      && Same(r, f, "model")
      && (forall k | k !in Mentioned(GEMINI_PARAM_MAP) :: Same(r, f, k))
  {
    assert "model" !in Mentioned(GEMINI_PARAM_MAP);
    GeminiTableDisjoint();
    RemappedSpec(r, GEMINI_PARAM_MAP);
  }

  /**
   * An explicit `api_key` (a secret included) is forwarded as the same
   * value under `google_api_key`; an unset one inherits the config's.
   */
  lemma GeminiExplicitArguments(config: Option<ConfigObject>, model: Value, apiKey: Value, kwargs: Params)
    ensures var f := GeminiKwargs(GEMINI_PARAM_MAP, config, model, apiKey, kwargs);
      && Prefers(apiKey, OwnAnnotations(config), config, f, "api_key", "google_api_key")
      && Prefers(model, OwnAnnotations(config), config, f, "model", "model")
  {
    var o := StandardOverrides(model, apiKey, kwargs);
    var r := Resolved(OwnAnnotations(config), config, o);
    var f := GeminiKwargs(GEMINI_PARAM_MAP, config, model, apiKey, kwargs);
    GeminiRenames(Resolved(OwnAnnotations(config), config, StandardOverrides(model, apiKey, kwargs)));
    PrefersThrough(apiKey, OwnAnnotations(config), config, o, f, "api_key", "google_api_key");
    PrefersThrough(model, OwnAnnotations(config), config, o, f, "model", "model");
  }

  /** The substitute table the Gemini tests install. */
  const GEMINI_TEST_PARAM_MAP: ParamMap := [("api_key", "google_api_key"), ("model", "model")]

  /** With the tests' table, the identity entry leaves `model` with its resolved value. */
  lemma GeminiSubstitutedTable(config: Option<ConfigObject>, model: Value, apiKey: Value, kwargs: Params)
    ensures var r := Resolved(OwnAnnotations(config), config, StandardOverrides(model, apiKey, kwargs));
            var f := GeminiKwargs(GEMINI_TEST_PARAM_MAP, config, model, apiKey, kwargs);
      && Same(r, f, "model") && "api_key" !in f && Carries(r, f, "api_key", "google_api_key")
  {
    var r := Resolved(OwnAnnotations(config), config, StandardOverrides(model, apiKey, kwargs));
    var t := GEMINI_TEST_PARAM_MAP;
    assert Disjoint(t) by {
      assert Apart(t[0], t[1..]);
    }
    RemappedSpec(r, t);
    assert t[0] in t && t[1] in t;
  }

  //
  // Grok
  //

  /**
   * What ChatXAI receives for resolved parameters `r`: `api_key` and
   * `base_url` arrive as `xai_api_key` and `xai_api_base`, overwriting
   * explicitly passed xAI-named arguments, and keys outside the table
   * pass unchanged.
   */
  lemma XaiRenames(r: Params)
    ensures var f := Remapped(r, XAI_PARAM_MAP);
      && "api_key" !in f && "base_url" !in f
      && Carries(r, f, "api_key", "xai_api_key") && Carries(r, f, "base_url", "xai_api_base")
      && Same(r, f, "model")
      && (forall k | k !in Mentioned(XAI_PARAM_MAP) :: Same(r, f, k))
  {
    assert "model" !in Mentioned(XAI_PARAM_MAP);
    XaiTableDisjoint();
    RemappedSpec(r, XAI_PARAM_MAP);
  }

  /** Explicit arguments beat the config and unset ones inherit from it, observed as `xai_api_key` and `model`. */
  lemma GrokExplicitArguments(config: Option<ConfigObject>, model: Value, apiKey: Value, kwargs: Params)
    ensures var f := GrokKwargs(XAI_PARAM_MAP, config, model, apiKey, kwargs);
      && Prefers(apiKey, OwnAnnotations(config), config, f, "api_key", "xai_api_key")
      && Prefers(model, OwnAnnotations(config), config, f, "model", "model")
  {
    var o := StandardOverrides(model, apiKey, kwargs);
    var r := Resolved(OwnAnnotations(config), config, o);
    var f := GrokKwargs(XAI_PARAM_MAP, config, model, apiKey, kwargs);
    XaiRenames(Resolved(OwnAnnotations(config), config, StandardOverrides(model, apiKey, kwargs)));
    PrefersThrough(apiKey, OwnAnnotations(config), config, o, f, "api_key", "xai_api_key");
    PrefersThrough(model, OwnAnnotations(config), config, o, f, "model", "model");
  }

  //
  // Ollama
  //

  /**
   * ChatOllama never receives `api_key`; nothing is renamed, so every
   * other resolved key, `base_url` included, arrives with its resolved
   * value; explicit `model` and `base_url` beat the config and None ones
   * inherit from it.
   */
  lemma OllamaFinalArguments(config: Option<ConfigObject>, model: Value, baseUrl: Value, apiKey: Value, kwargs: Params)
    ensures var r := Resolved(OwnAnnotations(config), config, OllamaOverrides(model, baseUrl, apiKey, kwargs));
            var f := OllamaKwargs(config, model, baseUrl, apiKey, kwargs);
      && "api_key" !in f
      && (forall k | k != "api_key" :: Same(r, f, k))
      && Prefers(model, OwnAnnotations(config), config, f, "model", "model")
      && Prefers(baseUrl, OwnAnnotations(config), config, f, "base_url", "base_url")
  {
    var o := OllamaOverrides(model, baseUrl, apiKey, kwargs);
    PrefersResolved(model, OwnAnnotations(config), config, o, "model");
    PrefersResolved(baseUrl, OwnAnnotations(config), config, o, "base_url");
  }
}
