/**
 * The declaration-only parts of the system: the runtime values that flow
 * through the parameter pipeline, the provider identifiers, the fields of
 * the model-configuration protocol, and the chat and prompt value types.
 */
module Domain {

  /**
   * A runtime value as the core sees it. The core never computes with a
   * value: it only tests it against `None`, compares it and forwards it.
   */
  datatype Value =
    | Null                            // Python's None
    | Str(s: string)
    | Secret(s: string)               // a pydantic SecretStr, forwarded as is
    | Int(i: int)
    | Float(r: real)
    | Dict(entries: seq<(string, Value)>)
    | Mode(mode: ChatMode)
    | Object(id: nat)                 // any other object: an HTTP client, a mock, ...

  /** The chat execution modes (src/domain/chat/types.py). */
  datatype ChatMode = Direct | Stream | Batch

  /** One message of a conversation; `metadata` defaults to the empty dict. */
  datatype ChatMessage = ChatMessage(role: string, content: string, metadata: map<string, Value>)

  /** A raw template as storage returns it, and the prompt built from it. */
  datatype PromptTemplate = PromptTemplate(content: string, path: string)
  datatype Prompt = Prompt(content: string)

  /** The provider identifiers the registry is keyed by (src/domain/llm/types.py). */
  datatype LlmProvider = OpenAI | Azure | Anthropic | Google | Aws | Xai | HuggingFace {
    function Id(): string {
      match this
      case OpenAI => "openai"
      case Azure => "azure-openai"
      case Anthropic => "claude"
      case Google => "gemini"
      case Aws => "bedrock"
      case Xai => "grok"
      case HuggingFace => "ollama"
    }
  }

  /** The annotated fields of the ModelConfig protocol, in declaration order. */
  const MODEL_CONFIG_FIELDS: seq<string> := [
    "api_key", "model",
    "base_url", "organization",
    "azure_endpoint", "azure_deployment", "api_version",
    "timeout", "max_retries", "proxy", "http_client",
    "temperature", "top_p", "model_kwargs"
  ]
}
