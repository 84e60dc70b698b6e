/**
 * The older registry and client factory of `src/config/models.js`, which
 * `src/services/chatService.js` uses. Here `apiType` is an untyped string
 * and `createClient` switches on it to pick one of three SDK constructors.
 */
module LegacyRegistry {
  import opened Js

  datatype LegacyConfig = LegacyConfig(
    name: string,
    baseUrl: string,
    model: string,
    apiType: string,
    supportsVision: bool)

  /** `modelConfigs`, entry for entry. Unlike the newer table, entries carry no `id`. */
  const ModelConfigs: map<string, LegacyConfig> := map[
    "grok-beta" := LegacyConfig("Grog Beta", "https://api.aimlapi.com", "x-ai/grok-beta", "openai", false),
    "llama-3" := LegacyConfig("Llama 3.2", "https://api.aimlapi.com/v1", "meta-llama/Llama-3.2-90B-Vision-Instruct-Turbo", "together", true),
    "o1-preview" := LegacyConfig("O1 Preview", "https://api.aimlapi.com", "o1-preview", "openai", false),
    "gpt4-mini" := LegacyConfig("Chat GPT 4O Mini", "https://api.aimlapi.com", "gpt-4o-mini-2024-07-18", "openai", false),
    "claude-sonnet" := LegacyConfig("Claude 3.5 Sonnet", "https://api.aimlapi.com/v1", "claude-3-5-sonnet-20241022", "anthropic", false),
    "gemma-2" := LegacyConfig("Google Gemma 2", "https://api.aimlapi.com", "google/gemma-2-27b-it", "openai", false)
  ]

  /** `modelConfigs[modelId]`: `None` is `undefined`. */
  function Lookup(modelId: string): Option<LegacyConfig>
  {
    if modelId in ModelConfigs then Some(ModelConfigs[modelId]) else None
  }

  /** The three SDK constructors the switch calls. */
  datatype Sdk = OpenAISdk | AnthropicSdk | TogetherSdk

  function SdkName(sdk: Sdk): string
  {
    match sdk
    case OpenAISdk => "OpenAI"
    case AnthropicSdk => "Anthropic"
    case TogetherSdk => "Together"
  }

  /** What `createClient` reads besides the table: the module-level
      `API_KEY`, and which SDK constructors are bound as globals. The file
      imports none of the three, so as it stands that set is empty. */
  datatype Scope = Scope(apiKey: Option<string>, globals: set<Sdk>)

  /** The `{ type, client }` pair; `client` is represented by the
      constructor called and the options it received. `apiKey` is the
      credential option whatever its name: the OpenAI and Together
      constructors receive it as `apiKey`, the Anthropic one as `authToken`
      (see `CredentialOption`). */
  datatype LegacyClient = LegacyClient(clientType: string, sdk: Sdk, baseUrl: string, apiKey: Option<string>)

  /** The option name under which each constructor receives `API_KEY`. */
  function CredentialOption(sdk: Sdk): string
  {
    if sdk == AnthropicSdk then "authToken" else "apiKey"
  }

  const KnownApiTypes: set<string> := {"openai", "anthropic", "together"}

  /** The constructor each known `apiType` selects. */
  function SdkFor(apiType: string): Sdk
    requires apiType in KnownApiTypes
  {
    if apiType == "openai" then OpenAISdk
    else if apiType == "anthropic" then AnthropicSdk
    else TogetherSdk
  }

  /** The switch of `createClient` applied to the looked-up entry. */
  function ClientFor(config: Option<LegacyConfig>, scope: Scope): (r: Result<LegacyClient>)
    ensures config.None? ==> r.Err? && r.error.TypeError?
    ensures config.Some? && config.value.apiType !in KnownApiTypes ==>
      r == Err(UnknownApiType(config.value.apiType))
    ensures config.Some? && config.value.apiType in KnownApiTypes ==>
      (r.Ok? <==> SdkFor(config.value.apiType) in scope.globals)
    ensures config.Some? && config.value.apiType in KnownApiTypes && SdkFor(config.value.apiType) !in scope.globals ==>
      r == Err(ReferenceError(SdkName(SdkFor(config.value.apiType))))
    ensures r.Ok? ==>
      && config.Some?
      && r.value.clientType == config.value.apiType
      && r.value.sdk == SdkFor(config.value.apiType)
      && r.value.baseUrl == config.value.baseUrl
      && r.value.apiKey == scope.apiKey
  {
    if config.None? then
      Err(TypeError("Cannot read properties of undefined (reading 'apiType')"))
    else if config.value.apiType !in KnownApiTypes then
      Err(UnknownApiType(config.value.apiType))
    else
      var sdk := SdkFor(config.value.apiType);
      if sdk !in scope.globals then Err(ReferenceError(SdkName(sdk)))
      else Ok(LegacyClient(config.value.apiType, sdk, config.value.baseUrl, scope.apiKey))
  }

  /** `createClient(modelId)` */
  function CreateClient(modelId: string, scope: Scope): (r: Result<LegacyClient>)
    ensures modelId !in ModelConfigs ==> r.Err? && r.error.TypeError?
    ensures r.Ok? ==>
      && modelId in ModelConfigs
      && r.value.clientType == ModelConfigs[modelId].apiType
      && r.value.baseUrl == ModelConfigs[modelId].baseUrl
  {
    ClientFor(Lookup(modelId), scope)
  }

  /** Every entry's `apiType` is one the switch knows, so `Unknown API type`
      never arises from the table itself. */
  lemma TableApiTypesKnown()
    ensures forall k :: k in ModelConfigs ==> ModelConfigs[k].apiType in KnownApiTypes
  {
  }

  /** With no SDK constructor in scope, which is the file as written,
      `createClient` never returns a client: a registered id fails on the
      unresolved constructor name, an unknown id already on the lookup. */
  lemma {:induction false} NoImportsNoClient(modelId: string, scope: Scope)
    requires scope.globals == {}
    ensures CreateClient(modelId, scope).Err?
    ensures modelId in ModelConfigs ==>
      CreateClient(modelId, scope).error == ReferenceError(SdkName(SdkFor(ModelConfigs[modelId].apiType)))
    ensures modelId !in ModelConfigs ==> CreateClient(modelId, scope).error.TypeError?
  {
    TableApiTypesKnown();
  }
}
