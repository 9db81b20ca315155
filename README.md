# GenAI application template: a Dafny model of its core

This project models the part of the GenAI application template that decides
what reaches a language-model client, how prompts are built and how a chat
request is dispatched. It covers:

- **Parameter resolution** (`Resolution`). `resolve_parameters` merges an
  optional configuration object with explicit keyword overrides into a fresh
  dict: first the config's listed fields, in order, then every override;
  None values are skipped in both loops, and an override wins over the
  config. The shared helper reads the field names from the config's own
  class annotations. The OpenAI, Azure and Bedrock adapters keep their own
  copy, which reads them from the `ModelConfig` protocol instead. All of
  them are the one loop method `ResolveParameters`, given the field list
  they read.
- **Rename tables** (`ParamMaps`). These are the provider tables that
  translate generic names (`api_key`, `base_url`, `timeout`, ...) into each
  client's argument names, plus the template project's copy of three of
  them.
- **Remapping** (`Remapping`). There are two variants:
  - the unguarded loop `params[target] = params.pop(source)`, used by the
    OpenAI, Bedrock, Anthropic, Gemini and Grok adapters;
  - the guarded loop of the Azure adapter, which moves a key only when its
    target is not there yet.
- **The seven adapters** (`Adapters`). Each is a class whose constructor
  resolves, remaps, drops `api_key` where the source does (Bedrock, Ollama)
  and records the keyword arguments the native client is called with.
- **The factory** (`Factory`). This is the `LlmFactory` registry:
  `register` stores a class under a provider id and `create` instantiates
  it, or fails with `ValueError("Provider '<p>' is not registered.")`.
- **Prompt building** (`Prompts`). `_build_prompt` loads a template through
  the storage collaborator and applies Python's
  `string.Template.safe_substitute`. That function is modelled from the
  Python Library Reference's description of template strings:
  - `$$` is an escape;
  - `$name` is a named placeholder with an ASCII identifier, matched
    greedily;
  - `${name}` is a braced placeholder;
  - any other `$` is left as it is.
- **Chat services** (`Chat`). `BaseChatService` merges its defaults, config
  and overrides and routes by mode. `LangChainChatService` adds the direct
  reply, which is appended to the history, and the streamed reply.

Python values are the `Domain.Value` datatype, with `Null` for None. A dict
of keyword arguments is a `map<string, Value>`. The native LangChain clients
are not modelled: a constructor records the class it would call and the
exact keyword arguments it would pass.

## Model

| member | source | states |
|---|---|---|
| Resolution.NonNull | src/infrastructure/utils.py:25-27 | A key is kept exactly when its value is not None, and it keeps its value. |
| Resolution.Resolved | src/infrastructure/utils.py:4-29 | A key is present iff a non-None override names it or it is a listed field the config supplies. A non-None override wins. Otherwise the value is the config's. No value is None. With no config, the result is the non-None overrides. |
| Resolution.ResolveParameters | src/infrastructure/utils.py:14-29 | The imperative two-loop resolver computes exactly `Resolved`, for any iteration order of the overrides. It also models the private copies in the OpenAI, Azure and Bedrock adapters (openai.py lines 72-86 and the like), given the protocol's field list. |
| ParamMaps.Mentioned | src/domain/llm/constants.py:5-52 | Every source and target name of a table is mentioned. |
| ParamMaps.Apart | src/domain/llm/constants.py:5-52 | The recursive check equals "no shared source or target with any later entry, in either direction". |
| ParamMaps.ProductionTablesDisjoint | src/domain/llm/constants.py:5-52 | All six production tables are disjoint, so the rename loops over them do not depend on entry order. |
| ParamMaps.TemplateTablesAgree | genai-application-template/src/domain/llm/constants.py:5-30 | The template project's Anthropic, Azure and xAI tables equal the main ones entry for entry. |
| Remapping.RemapUnguarded | src/infrastructure/llm/adapters/openai.py:51-53 | The loop computes the table-order fold `Remapped`. |
| Remapping.RemapGuarded | src/infrastructure/llm/adapters/azure_openai.py:50-53 | The guarded loop computes the table-order fold `RemappedGuarded`. |
| Remapping.RemappedSpec | src/infrastructure/llm/adapters/openai.py:51-53 | For a disjoint table: a present source's value lands under its target, overwriting it. A renamed source is gone. A target whose source is absent is untouched. Unmentioned keys are untouched. |
| Remapping.RemappedGuardedSpec | src/infrastructure/llm/adapters/azure_openai.py:50-53 | For a disjoint table: a present source moves only when its target is absent. On a collision both keys keep their values. Unmentioned keys are untouched. |
| Remapping.RemapOrderIrrelevant | src/infrastructure/llm/adapters/openai.py:51-53 | Two disjoint tables with the same entries give the same unguarded remap. |
| Remapping.RemapGuardedOrderIrrelevant | src/infrastructure/llm/adapters/azure_openai.py:50-53 | Two disjoint tables with the same entries give the same guarded remap. |
| Adapters.OpenAIModel.constructor | src/infrastructure/llm/adapters/openai.py:24-55 | The client is ChatOpenAI, called with the resolved parameters remapped by `OPENAI_PARAM_MAP`. |
| Adapters.AzureOpenAIModel.constructor | src/infrastructure/llm/adapters/azure_openai.py:21-55 | The client is AzureChatOpenAI, called with the resolved parameters (the explicit endpoint and version included) remapped with the guard. |
| Adapters.BedrockModel.constructor | src/infrastructure/llm/adapters/bedrock.py:24-56 | The client is ChatBedrock, called with the remapped parameters minus `api_key`. |
| Adapters.AnthropicModel.constructor | src/infrastructure/llm/adapters/anthropic.py:25-55 | The client is ChatAnthropic, called with the parameters resolved from the config's own annotations and remapped by `CLAUDE_PARAM_MAP`. |
| Adapters.GeminiModel.constructor | src/infrastructure/llm/adapters/gemini.py:25-55 | The client is ChatGoogleGenerativeAI, called with the parameters resolved by the shared helper and remapped by `GEMINI_PARAM_MAP`. |
| Adapters.GrokModel.constructor | src/infrastructure/llm/adapters/grok.py:25-55 | The client is ChatXAI, called with the parameters resolved by the shared helper and remapped by `XAI_PARAM_MAP`. |
| Adapters.OllamaModel.constructor | src/infrastructure/llm/adapters/ollama.py:24-55 | The client is ChatOllama, called with the resolved parameters (model, base_url, api_key, kwargs) minus `api_key`, with no renaming. |
| Adapters.OllamaKwargs | src/infrastructure/llm/adapters/ollama.py:48-55 | The final arguments never hold `api_key`. |
| Adapters.OpenAIRenames | src/domain/llm/constants.py:5-10 | The four generic names are gone. Each of them present is under its OpenAI name, overwriting an explicit OpenAI-named argument. `model` and every other key pass unchanged. |
| Adapters.OpenAIExplicitApiKey | src/infrastructure/llm/adapters/openai.py:47-55 | `openai_api_key` holds an explicit `api_key`; when `api_key` is None it holds the config's. |
| Adapters.OpenAIExplicitModel | src/infrastructure/llm/adapters/openai.py:47-55 | `model` holds an explicit model; when model is None it holds the config's. |
| Adapters.OpenAIKwargsPassThrough | src/infrastructure/llm/adapters/openai.py:47-55 | A non-None keyword argument the table does not mention reaches ChatOpenAI as given. |
| Adapters.AzureRenames | src/domain/llm/constants.py:12-21 | Each generic name moves to its Azure name only when that name is absent, and both keep their values on a collision. `api_key` and `api_version` stay as resolved. Other keys are untouched. |
| Adapters.AzureExplicitEndpoint | src/infrastructure/llm/adapters/azure_openai.py:41-55 | `azure_endpoint` holds an explicit endpoint, or else the config's. With an explicit endpoint, a resolved `base_url` stays beside it. |
| Adapters.AzureExplicitVersionAndKey | src/infrastructure/llm/adapters/azure_openai.py:41-55 | Explicit `api_version` and `api_key` win over the config; None ones inherit its values. |
| Adapters.BedrockRenames | src/infrastructure/llm/adapters/bedrock.py:50-54 | `api_key` is never passed. `model`, `base_url` and `timeout` arrive as `model_id`, `endpoint_url` and `client_config`. Other keys pass unchanged. |
| Adapters.BedrockExplicitModel | src/infrastructure/llm/adapters/bedrock.py:46-56 | `model_id` holds an explicit model, or else the config's. |
| Adapters.ClaudeRenames | src/domain/llm/constants.py:47-52 | `timeout`, `proxy` and `base_url` arrive under their Anthropic names, overwriting what was there. The identity entry keeps `api_key`'s value. Other keys pass unchanged. |
| Adapters.AnthropicSubstitutedTable | genai-application-template/tests/infrastructure/llm/providers/test_anthropic.py:18-29 | With the tests' table, `api_key` and `base_url` are gone and their targets hold their values. |
| Adapters.AnthropicExplicitArguments | genai-application-template/tests/infrastructure/llm/providers/test_anthropic.py:18-29 | With the tests' table, explicit `api_key` and `model` win over the config; None ones inherit. |
| Adapters.GeminiRenames | src/domain/llm/constants.py:25-28 | `api_key` and `timeout` arrive as `google_api_key` and `request_timeout`. `model` and other keys pass unchanged. |
| Adapters.GeminiExplicitArguments | src/infrastructure/llm/adapters/gemini.py:47-55 | `google_api_key` and `model` hold the explicit arguments, or else the config's. |
| Adapters.GeminiSubstitutedTable | tests/infrastructure/llm/providers/test_gemini.py:22-33 | With the tests' table, the `model` identity entry keeps the resolved model. |
| Adapters.XaiRenames | src/domain/llm/constants.py:40-43 | `api_key` and `base_url` arrive as `xai_api_key` and `xai_api_base`. `model` and other keys pass unchanged. |
| Adapters.GrokExplicitArguments | src/infrastructure/llm/adapters/grok.py:47-55 | `xai_api_key` and `model` hold the explicit arguments, or else the config's. |
| Adapters.OllamaFinalArguments | src/infrastructure/llm/adapters/ollama.py:48-55 | `api_key` is gone and every other resolved key is unchanged. Explicit `model` and `base_url` win over the config; None ones inherit. |
| Factory.CreateFrom | src/infrastructure/llm/factory.py:47-51 | It succeeds iff the provider is registered, instantiating the registered class with the caller's config and kwargs. Otherwise it fails with the "is not registered" message. |
| Factory.LlmFactory.constructor | src/infrastructure/llm/factory.py:13 | The registry starts empty. |
| Factory.LlmFactory.Register | src/infrastructure/llm/factory.py:26-28 | The class is stored under the provider, overwriting any earlier one, and returned unchanged. |
| Factory.LlmFactory.Create | src/infrastructure/llm/factory.py:33-51 | If registered, it returns the registered class's instance; otherwise a `ValueError`. |
| Factory.LlmFactory.RegisterBuiltins | src/infrastructure/llm/adapters/__init__.py:1-7 | Importing the adapters applies the seven registrations in import order. |
| Factory.RegisterThenCreate | src/infrastructure/llm/factory.py:26-51 | After registering a class, `create` for that provider instantiates it. |
| Factory.RegisterOverwrites | tests/infrastructure/llm/test_factory.py:95-114 | A second registration under one id replaces the first. |
| Factory.RegisterLeavesOthers | src/infrastructure/llm/factory.py:26-28 | Registering under one id does not change `create` for any other id. |
| Factory.RegisterAllKeys | src/infrastructure/llm/factory.py:26-28 | After a sequence of registrations, an id is registered iff it was before or some registration names it. |
| Factory.RegisterAllSingle | src/infrastructure/llm/factory.py:26-28 | An id registered exactly once maps to that registration's class. |
| Factory.RegisterAllUntouched | src/infrastructure/llm/factory.py:26-28 | An id no registration names keeps its earlier entry, or stays absent. |
| Factory.AdapterFor | src/infrastructure/llm/adapters/__init__.py:1-7 | Each provider's adapter class, paired with the provider's id, is one of the registrations that importing the adapter modules makes through their `@LlmFactory.register` decorators (for example openai.py line 13). |
| Factory.BuiltinsRegistered | src/domain/llm/types.py:4-11 | After the imports, `create` with each provider enum's string value builds that provider's adapter. |
| Factory.BuiltinsOnly | src/infrastructure/llm/factory.py:47-48 | Starting from an empty registry, the imports register an id iff it is a provider enum value. `create` with any other string fails with the "is not registered" error. |
| Prompts.IdentifierLength | src/infrastructure/prompt/repositories/base.py:32-33 | The length is 0 iff no identifier starts the text. Otherwise the prefix is an identifier not followed by an identifier character (a greedy match). |
| Prompts.Placeholders | src/infrastructure/prompt/repositories/base.py:32-33 | Every placeholder name is an ASCII identifier. |
| Prompts.ScanUnscan | src/infrastructure/prompt/repositories/base.py:32-33 | The lexer loses nothing: the pieces spell the template again. |
| Prompts.UnboundLeftVerbatim | tests/infrastructure/prompt/repositories/test_base.py:56-76 | With no `$$` and no bound placeholder, `safe_substitute` returns the template unchanged, never failing. |
| Prompts.NoDollarUnchanged | src/infrastructure/prompt/repositories/base.py:32-33 | Text without `$` is returned unchanged. |
| Prompts.ExtraVariablesIgnored | tests/infrastructure/prompt/repositories/test_base.py:79-99 | Only the variables the template names affect the result. |
| Prompts.SubstituteChar | src/infrastructure/prompt/repositories/base.py:32-33 | A non-`$` character is copied. |
| Prompts.SubstituteLiteral | src/infrastructure/prompt/repositories/base.py:32-33 | A run of text without `$` is copied. |
| Prompts.SubstituteEscaped | src/infrastructure/prompt/repositories/base.py:32-33 | `$$` yields one `$`. |
| Prompts.SubstituteNamed | src/infrastructure/prompt/repositories/base.py:32-33 | `$name` becomes the bound value, or stays `$name` when unbound. |
| Prompts.SubstituteBraced | src/infrastructure/prompt/repositories/base.py:32-33 | `${name}` becomes the bound value, or stays `${name}` when unbound. |
| Prompts.SubstituteLone | src/infrastructure/prompt/repositories/base.py:32-33 | A `$` that starts no escape, no `$name` and no well-formed `${name}` is kept as it is. This includes the malformed brace forms `${1}`, `${}` and an unclosed `${a`. |
| Prompts.SubstituteDot | src/infrastructure/prompt/repositories/base.py:32-33 | The empty template renders as the empty string, and `.` renders as itself. |
| Prompts.TwoPlaceholders | src/infrastructure/prompt/repositories/base.py:32-33 | A sentence with two named placeholders between plain runs: the text is copied and each placeholder is replaced or kept. |
| Prompts.WelcomeExample | tests/infrastructure/prompt/repositories/test_base.py:31-53 | "Welcome $user, your role is $role." with user=Alice, role=Admin gives "Welcome Alice, your role is Admin.". |
| Prompts.MissingVariableExample | tests/infrastructure/prompt/repositories/test_base.py:56-76 | "Hello $name, today is $date." with only name=Bob gives "Hello Bob, today is $date.". |
| Prompts.ExtraVariableExample | tests/infrastructure/prompt/repositories/test_base.py:79-99 | "Hi $name." with an extra unused variable gives "Hi Charlie.". |
| Prompts.BuildPrompt | src/infrastructure/prompt/repositories/base.py:22-36 | It fails iff the storage fails, with the storage's own error. Otherwise the content is the loaded template after `safe_substitute`. |
| Prompts.BuildPromptWithoutPlaceholders | src/infrastructure/prompt/repositories/base.py:22-36 | A template without `$` yields a prompt with exactly its content. |
| Chat.ChatParams | src/application/services/chat/base.py:34-40 | A key is present iff it is an override, a non-None config attribute or a default. Overrides (None included) beat config, which beats defaults. |
| Chat.ResolveConfig | src/application/services/chat/base.py:34-40 | The update loop computes exactly `ChatParams`. |
| Chat.Route | src/application/services/chat/base.py:56-62 | Stream iff mode is STREAM; batch iff mode is BATCH; otherwise direct, a missing or None mode included. |
| Chat.StreamMessages | src/application/services/chat/langchain.py:25-26 | One assistant message per chunk, in order, each carrying that chunk's content. |
| Chat.BaseChatService.constructor | src/application/services/chat/base.py:14-32 | It stores the collaborators, starts with an empty history and sets `params` to the merged configuration. |
| Chat.BaseChatService.ChatDirect | src/application/services/chat/base.py:64-66 | Awaiting it raises NotImplementedError. |
| Chat.BaseChatService.ChatStream | src/application/services/chat/base.py:68-72 | It returns an un-awaited coroutine that raises NotImplementedError once awaited. |
| Chat.BaseChatService.Chat | src/application/services/chat/base.py:42-62 | Direct raises NotImplementedError. Stream returns the un-awaited coroutine. Batch raises AttributeError for the missing `_chat_batch`. |
| Chat.LangChainChatService.constructor | src/application/services/chat/base.py:14-32 | It is the inherited initialiser, with the same state. |
| Chat.LangChainChatService.ChatDirect | src/application/services/chat/langchain.py:9-17 | The reply is an assistant message with the client's answer to the prompt. It is appended to the history, and params are unchanged. |
| Chat.LangChainChatService.ChatStream | src/application/services/chat/langchain.py:19-26 | It returns the per-chunk assistant messages for the prompt and leaves the history unchanged. |
| Chat.LangChainChatService.Chat | src/application/services/chat/base.py:56-62 | Direct returns the reply and appends it to the history. Stream returns the chunk messages. Batch raises AttributeError. |
| Chat.DefaultParams | tests/application/services/chat/test_langchain.py:28-36 | With no config and no overrides, the params are exactly mode DIRECT and max_history 10, routed directly. |
| Chat.ExplicitModeRoutes | tests/application/services/chat/test_langchain.py:39-50 | An explicit mode override decides the route, whatever the config says. |
| Chat.NoneModeOverride | src/application/services/chat/base.py:39 | An explicit `mode=None` is not filtered: it replaces the default and routes directly. |
| Chat.ConfigMerge | src/application/services/chat/base.py:37-38 | Without overrides, a non-None config attribute appears with its value; a None one falls back to the default or is absent. |

## Left out

- Native clients (ChatOpenAI, AzureChatOpenAI, ChatBedrock, ChatAnthropic,
  ChatGoogleGenerativeAI, ChatXAI, ChatOllama): their validation and
  behaviour are outside this code. A constructor records the class and
  keyword arguments it would call them with.
- Python keyword binding: `model`, `api_key` and the other named parameters
  are bound apart from `**kwargs`, so those names never appear in kwargs.
  The model represents this as a map update of kwargs.
- A config object whose `__bool__` is false: `if config:` is modelled as
  "a config was given".
- src/domain/llm/protocols.py is not part of this model. The `ModelConfig`
  field list is taken from genai-application-template/src/domain/llm/protocols.py.
- src/infrastructure/llm/utils.py, imported by the Anthropic and Ollama
  adapters, is not part of this model. It is taken to be
  src/infrastructure/utils.py.
- Asynchrony: `await`, coroutines and async generators. A streamed reply is
  the whole list of its messages, produced eagerly. Its laziness and
  interleaving are not modelled.
- The history limit `max_history` is stored but
  never used by the source, so the model does not use it either.
- get_prompt: BasePromptRepository does not define it, so the chat services
  see the repository only as a function from prompt path and variables to a
  prompt.
- Prompts.BuildPrompt: variables are strings. Python applies `str` to other
  values, and that conversion is not modelled.
- Prompts.BuildPrompt: storage is a pure function applied once, so the
  model does not state that the storage is called exactly once.
- Prompts.SafeSubstitute: there are no Unicode subtleties. Identifiers are
  ASCII, as the Template pattern requires.
- The LangChain prompt adapter, the storage adapters, the vector store, the
  end-to-end chat application and the project-generation hook are outside
  the modelled core.
- Fresh result dicts, and arguments left unchanged by the callee, follow
  from value semantics and are not stated separately.
- The `__all__` list of the adapters package has no effect on registration,
  only on star-imports, so it is not modelled.
