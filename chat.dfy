/**
 * The chat services (src/application/services/chat/). `BaseChatService`
 * merges its configuration, keeps a history of messages and dispatches
 * `chat` on the configured mode to handlers it leaves unimplemented;
 * `LangChainChatService` implements the direct and streaming handlers
 * against an LLM client. The LLM's reply and its chunk stream, and the
 * prompt source, are inputs: functions of the prompt content and of the
 * prompt path and variables.
 */
module Chat {
  import opened Wrappers
  import opened Domain
  import opened Resolution

  /** `ChatMode.DIRECT` and a history limit of 10, before any configuration. */
  const DEFAULT_CHAT_PARAMS: map<string, Value> := map["mode" := Mode(Direct), "max_history" := Int(10)]

  /** A chat configuration object, seen through its instance `__dict__`. */
  datatype ChatConfigObject = ChatConfigObject(instanceDict: map<string, Value>)

  /** The config's contribution: every instance attribute that is not None. */
  function ConfigEntries(config: Option<ChatConfigObject>): map<string, Value> {
    if config.Some? then NonNull(config.value.instanceDict) else map[]
  }

  /**
   * The merged chat parameters: the defaults, then the config's non-None
   * attributes, then the explicit overrides, which are taken as given,
   * None included.
   */
  function ChatParams(config: Option<ChatConfigObject>, overrides: map<string, Value>): (r: map<string, Value>)
    ensures forall k :: k in r <==>
      k in overrides || (config.Some? && k in config.value.instanceDict && config.value.instanceDict[k] != Null)
      || k in DEFAULT_CHAT_PARAMS
    ensures forall k | k in overrides :: r[k] == overrides[k]
    ensures forall k | k !in overrides && config.Some? && k in config.value.instanceDict && config.value.instanceDict[k] != Null ::
      r[k] == config.value.instanceDict[k]
    ensures forall k | k !in overrides && k !in ConfigEntries(config) && k in DEFAULT_CHAT_PARAMS :: r[k] == DEFAULT_CHAT_PARAMS[k]
  {
    DEFAULT_CHAT_PARAMS + ConfigEntries(config) + overrides
  }

  /** `_resolve_config`: start from the defaults, update with the filtered config dict, then with the overrides. */
  method ResolveConfig(config: Option<ChatConfigObject>, overrides: map<string, Value>) returns (params: map<string, Value>)
    ensures params == ChatParams(config, overrides)
  {
    params := DEFAULT_CHAT_PARAMS;
    if config.Some? {
      var attributes := config.value.instanceDict;
      var filtered: map<string, Value> := map[];
      var todo := attributes.Keys;
      while todo != {}
        invariant todo <= attributes.Keys
        invariant filtered == NonNull(attributes - todo)
        decreases todo
      {
        var k :| k in todo;
        // OverrideStep with an empty base: the filtered dict gains `k` unless its value is None
        OverrideStep(map[], attributes, todo, k);
        assert map[] + NonNull(attributes - (todo - {k})) == NonNull(attributes - (todo - {k}));
        assert map[] + NonNull(attributes - todo) == NonNull(attributes - todo);
        if attributes[k] != Null {
          filtered := filtered[k := attributes[k]];
        }
        todo := todo - {k};
      }
      assert attributes - {} == attributes;
      params := params + filtered;
    }
    params := params + overrides;
  }

  /** The handler `chat` hands a request to. */
  datatype Handler = DirectHandler | StreamHandler | BatchHandler

  /**
   * `chat`'s dispatch on `params.get("mode")`: STREAM and BATCH select
   * their handlers; anything else, a missing or None mode included,
   * selects the direct handler.
   */
  function Route(params: map<string, Value>): (h: Handler)
    ensures h == StreamHandler <==> "mode" in params && params["mode"] == Mode(Stream)
    ensures h == BatchHandler <==> "mode" in params && params["mode"] == Mode(Batch)
  {
    var mode := if "mode" in params then params["mode"] else Null;
    if mode == Mode(Stream) then StreamHandler
    else if mode == Mode(Batch) then BatchHandler
    else DirectHandler
  }

  /** The errors the handlers raise. */
  datatype ChatError = NotImplementedError | AttributeError(attribute: string)

  /** What awaiting `chat` gives its caller. */
  datatype ChatOutcome =
    | Reply(message: ChatMessage)
    | Streamed(messages: seq<ChatMessage>)      // what iterating the returned generator yields
    | Unawaited(error: ChatError)               // a coroutine that raises when awaited
    | Raised(error: ChatError)

  /** The LLM client: the content of its reply to a prompt, and the contents of its stream chunks. */
  datatype LlmClient = LlmClient(invoke: string -> string, stream: string -> seq<string>)

  /** The repository's `get_prompt`, as a function of the path and the variables. */
  type PromptSource = (string, map<string, Value>) -> Prompt

  function AssistantMessage(content: string): ChatMessage {
    ChatMessage("assistant", content, map[])
  }

  /** The message the direct handler produces for a request. */
  function DirectReply(llm: LlmClient, repository: PromptSource, promptPath: string, variables: map<string, Value>): ChatMessage {
    AssistantMessage(llm.invoke(repository(promptPath, variables).content))
  }

  /** One assistant message per chunk, in chunk order. */
  function StreamMessages(chunks: seq<string>): (messages: seq<ChatMessage>)
    ensures |messages| == |chunks|
    ensures forall i | 0 <= i < |chunks| :: messages[i].role == "assistant" && messages[i].content == chunks[i]
  {
    if chunks == [] then [] else [AssistantMessage(chunks[0])] + StreamMessages(chunks[1..])
  }

  class BaseChatService {
    const llm: LlmClient
    const repository: PromptSource
    var history: seq<ChatMessage>
    var params: map<string, Value>

    constructor (llm: LlmClient, repository: PromptSource, config: Option<ChatConfigObject>, kwargs: map<string, Value>)
      ensures this.llm == llm && this.repository == repository
      ensures history == []
      ensures params == ChatParams(config, kwargs)
    {
      var resolved := ResolveConfig(config, kwargs);
      this.llm := llm;
      this.repository := repository;
      history := [];
      params := resolved;
    }

    /** The base direct handler raises NotImplementedError when awaited. */
    method ChatDirect(promptPath: string, variables: map<string, Value>) returns (outcome: ChatOutcome)
      ensures outcome == Raised(NotImplementedError)
    {
      outcome := Raised(NotImplementedError);
    }

    /** The base stream handler is a coroutine that raises NotImplementedError once awaited. */
    method ChatStream(promptPath: string, variables: map<string, Value>) returns (outcome: ChatOutcome)
      ensures outcome == Unawaited(NotImplementedError)
    {
      outcome := Unawaited(NotImplementedError);
    }

    /**
     * `chat`: STREAM returns the stream handler's coroutine without
     * awaiting it; BATCH fails looking up `_chat_batch`, which the class
     * does not define; every other mode awaits the direct handler. Nothing
     * is added to the history.
     */
    method Chat(promptPath: string, variables: map<string, Value>) returns (outcome: ChatOutcome)
      ensures Route(params) == StreamHandler ==> outcome == Unawaited(NotImplementedError)
      ensures Route(params) == BatchHandler ==> outcome == Raised(AttributeError("_chat_batch"))
      ensures Route(params) == DirectHandler ==> outcome == Raised(NotImplementedError)
    {
      match Route(params)
      case StreamHandler =>
        outcome := ChatStream(promptPath, variables);
      case BatchHandler =>
        outcome := Raised(AttributeError("_chat_batch"));
      case DirectHandler =>
        outcome := ChatDirect(promptPath, variables);
    }
  }

  class LangChainChatService {
    const llm: LlmClient
    const repository: PromptSource
    var history: seq<ChatMessage>
    var params: map<string, Value>

    /** The inherited `BaseChatService.__init__`. */
    constructor (llm: LlmClient, repository: PromptSource, config: Option<ChatConfigObject>, kwargs: map<string, Value>)
      ensures this.llm == llm && this.repository == repository
      ensures history == []
      ensures params == ChatParams(config, kwargs)
    {
      var resolved := ResolveConfig(config, kwargs);
      this.llm := llm;
      this.repository := repository;
      history := [];
      params := resolved;
    }

    /**
     * `_chat_direct`: the reply to the built prompt becomes one assistant
     * message, appended to the history and returned; the earlier history
     * is kept whole, as `max_history` is never consulted.
     */
    method ChatDirect(promptPath: string, variables: map<string, Value>) returns (message: ChatMessage)
      modifies this
      ensures message == DirectReply(llm, repository, promptPath, variables)
      ensures history == old(history) + [message]
      ensures params == old(params)
    {
      var prompt := repository(promptPath, variables);
      var response := llm.invoke(prompt.content);
      message := AssistantMessage(response);
      history := history + [message];
    }

    /** `_chat_stream`: one assistant message per chunk of the streamed reply, and no change to the history. */
    method ChatStream(promptPath: string, variables: map<string, Value>) returns (messages: seq<ChatMessage>)
      ensures messages == StreamMessages(llm.stream(repository(promptPath, variables).content))
    {
      var prompt := repository(promptPath, variables);
      var chunks := llm.stream(prompt.content);
      messages := [];
      for i := 0 to |chunks|
        invariant messages + StreamMessages(chunks[i..]) == StreamMessages(chunks)
      {
        assert chunks[i..][1..] == chunks[i + 1..];
        messages := messages + [AssistantMessage(chunks[i])];
      }
      assert chunks[|chunks|..] == [];
    }

    /**
     * `chat` with the LangChain handlers: a direct request appends exactly
     * its reply to the history; a streamed one yields a message per chunk
     * and leaves the history alone; BATCH fails, as neither class defines
     * `_chat_batch`.
     */
    method Chat(promptPath: string, variables: map<string, Value>) returns (outcome: ChatOutcome)
      modifies this
      ensures params == old(params)
      ensures Route(params) == DirectHandler ==>
        outcome == Reply(DirectReply(llm, repository, promptPath, variables))
        && history == old(history) + [outcome.message]
      ensures Route(params) == StreamHandler ==>
        outcome == Streamed(StreamMessages(llm.stream(repository(promptPath, variables).content)))
        && history == old(history)
      ensures Route(params) == BatchHandler ==>
        outcome == Raised(AttributeError("_chat_batch")) && history == old(history)
    {
      match Route(params)
      case StreamHandler =>
        var messages := ChatStream(promptPath, variables);
        outcome := Streamed(messages);
      case BatchHandler =>
        outcome := Raised(AttributeError("_chat_batch"));
      case DirectHandler =>
        var message := ChatDirect(promptPath, variables);
        outcome := Reply(message);
    }
  }

  /** With no config and no overrides the parameters are exactly the defaults, and chat runs directly. */
  lemma DefaultParams()
    ensures ChatParams(None, map[]) == DEFAULT_CHAT_PARAMS
    ensures Route(DEFAULT_CHAT_PARAMS) == DirectHandler
  {
    assert DEFAULT_CHAT_PARAMS + map[] + map[] == DEFAULT_CHAT_PARAMS;
  }

  /** Explicit overrides win over both the defaults and the config, so an explicit mode decides the route. */
  lemma ExplicitModeRoutes(config: Option<ChatConfigObject>, overrides: map<string, Value>, mode: ChatMode)
    requires "mode" in overrides && overrides["mode"] == Mode(mode)
    ensures Route(ChatParams(config, overrides)) ==
      match mode
      case Direct => DirectHandler
      case Stream => StreamHandler
      case Batch => BatchHandler
  {
  }

  /** An explicit `mode=None` is not filtered out: it replaces the default and chat runs directly. */
  lemma NoneModeOverride(config: Option<ChatConfigObject>, overrides: map<string, Value>)
    requires "mode" in overrides && overrides["mode"] == Null
    ensures "mode" in ChatParams(config, overrides) && ChatParams(config, overrides)["mode"] == Null
    ensures Route(ChatParams(config, overrides)) == DirectHandler
  {
  }

  /**
   * A None config attribute does not displace a default, while a config's
   * other attributes, extras such as `temperature` included, are merged.
   */
  lemma ConfigMerge(instanceDict: map<string, Value>, k: string)
    requires k in instanceDict
    ensures var r := ChatParams(Some(ChatConfigObject(instanceDict)), map[]);
      && (instanceDict[k] != Null ==> k in r && r[k] == instanceDict[k])
      && (instanceDict[k] == Null && k in DEFAULT_CHAT_PARAMS ==> r[k] == DEFAULT_CHAT_PARAMS[k])
      && (instanceDict[k] == Null && k !in DEFAULT_CHAT_PARAMS ==> k !in r)
  {
  }
}
