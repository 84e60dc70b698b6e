/**
 * The model registry and client factory of `src/config/models.ts`: a static
 * table from model id to upstream configuration, and `createClient`, which
 * resolves an id to an OpenAI-SDK client bound to the entry's base URL.
 */
module Registry {
  import opened Js

  /** The provider families; the source types `apiType` as exactly these three strings. */
  datatype ApiType = Together | OpenAI | Anthropic

  datatype ModelConfig = ModelConfig(
    id: string,
    name: string,
    baseUrl: string,
    model: string,
    apiType: ApiType,
    supportsVision: bool,
    inputPrice: real,
    outputPrice: real,
    contextSize: Option<nat>)

  const OpenRouterBaseUrl: string := "https://openrouter.ai/api/v1"

  /** `modelConfigs`, key for key and field for field. */
  const ModelConfigs: map<string, ModelConfig> := map[
    "deepseek-qwen-32b" := ModelConfig("deepseek-qwen-32b", "DeepSeek R1 Distill Qwen 32B", OpenRouterBaseUrl, "deepseek/deepseek-r1-distill-qwen-32b", Together, false, 0.7, 0.7, None),
    "deepseek-qwen-14b" := ModelConfig("deepseek-qwen-14b", "DeepSeek R1 Distill Qwen 14B", OpenRouterBaseUrl, "deepseek/deepseek-r1-distill-qwen-14b", Together, false, 0.75, 0.75, None),
    "sonar-reasoning" := ModelConfig("sonar-reasoning", "Perplexity Sonar Reasoning", OpenRouterBaseUrl, "perplexity/sonar-reasoning", Together, false, 1.0, 5.0, None),
    "sonar" := ModelConfig("sonar", "Perplexity Sonar", OpenRouterBaseUrl, "perplexity/sonar", Together, false, 1.0, 1.0, None),
    "claude-3-sonnet" := ModelConfig("claude-3-sonnet", "Claude 3.5 Sonnet", OpenRouterBaseUrl, "anthropic/claude-3.5-sonnet", Anthropic, true, 3.0, 15.0, None),
    "claude-3-haiku" := ModelConfig("claude-3-haiku", "Claude 3.5 Haiku", OpenRouterBaseUrl, "anthropic/claude-3.5-haiku", Anthropic, true, 0.8, 4.0, None),
    "grok-beta" := ModelConfig("grok-beta", "Grok Beta", OpenRouterBaseUrl, "x-ai/grok-beta", Together, true, 5.0, 15.0, None),
    "gemini-pro" := ModelConfig("gemini-pro", "Gemini 2.0 Flash", OpenRouterBaseUrl, "google/gemini-2.0-flash-thinking-exp:free", Together, true, 0.0, 0.0, None),
    "mistral-large" := ModelConfig("mistral-large", "Mistral Large", OpenRouterBaseUrl, "mistralai/mistral-large-2411", Together, false, 2.0, 6.0, None),
    "phi-4" := ModelConfig("phi-4", "Microsoft Phi 4", OpenRouterBaseUrl, "microsoft/phi-4", Together, false, 0.07, 0.14, None),
    "qwen-72b" := ModelConfig("qwen-72b", "Qwen QvQ 72B Preview", OpenRouterBaseUrl, "qwen/qvq-72b-preview", Together, false, 0.25, 0.5, None),
    "nova-lite" := ModelConfig("nova-lite", "Amazon Nova Lite 1.0", OpenRouterBaseUrl, "amazon/nova-lite-v1", Together, false, 0.06, 0.24, None),
    "liquid-lfm-7b" := ModelConfig("liquid-lfm-7b", "Liquid LFM 7B", OpenRouterBaseUrl, "liquid/lfm-7b", Together, false, 0.01, 0.01, Some(32768)),
    "liquid-lfm-3b" := ModelConfig("liquid-lfm-3b", "Liquid LFM 3B", OpenRouterBaseUrl, "liquid/lfm-3b", Together, false, 0.02, 0.02, Some(32768)),
    "deepseek-llama-70b" := ModelConfig("deepseek-llama-70b", "DeepSeek R1 Distill Llama 70B", OpenRouterBaseUrl, "deepseek/deepseek-r1-distill-llama-70b", Together, false, 0.23, 0.69, Some(131072)),
    "deepseek-r1" := ModelConfig("deepseek-r1", "DeepSeek R1", OpenRouterBaseUrl, "deepseek/deepseek-r1", Together, false, 6.5, 8.0, Some(32768)),
    "deepseek-r1-nitro" := ModelConfig("deepseek-r1-nitro", "DeepSeek R1 (nitro)", OpenRouterBaseUrl, "deepseek/deepseek-r1:nitro", Together, false, 7.0, 7.0, Some(163840)),
    "minimax-01" := ModelConfig("minimax-01", "MiniMax-01", OpenRouterBaseUrl, "minimax/minimax-01", Together, false, 0.2, 1.1, Some(1000192)),
    "codestral-2501" := ModelConfig("codestral-2501", "Mistral Codestral 2501", OpenRouterBaseUrl, "mistralai/codestral-2501", Together, false, 0.3, 0.9, Some(256000)),
    "hanami-x1" := ModelConfig("hanami-x1", "Llama 3.1 70B Hanami x1", OpenRouterBaseUrl, "sao10k/l3.1-70b-hanami-x1", Together, false, 3.0, 3.0, Some(16000)),
    "deepseek-v3" := ModelConfig("deepseek-v3", "DeepSeek V3", OpenRouterBaseUrl, "deepseek/deepseek-chat", Together, false, 0.85, 0.9, Some(16000)),
    "llama-3-euryale" := ModelConfig("llama-3-euryale", "Llama 3.3 Euryale 70B", OpenRouterBaseUrl, "sao10k/l3.3-euryale-70b", Together, false, 0.7, 0.8, Some(131072)),
    "eva-llama-3" := ModelConfig("eva-llama-3", "EVA Llama 3.33 70b", OpenRouterBaseUrl, "eva-unit-01/eva-llama-3.33-70b", Together, false, 4.0, 6.0, Some(16384)),
    "grok-2-vision" := ModelConfig("grok-2-vision", "Grok 2 Vision 1212", OpenRouterBaseUrl, "x-ai/grok-2-vision-1212", Together, true, 2.0, 10.0, Some(32768)),
    "grok-2" := ModelConfig("grok-2", "Grok 2 1212", OpenRouterBaseUrl, "x-ai/grok-2-1212", Together, false, 2.0, 10.0, Some(131072)),
    "command-r7b" := ModelConfig("command-r7b", "Cohere Command R7B", OpenRouterBaseUrl, "cohere/command-r7b-12-2024", Together, false, 0.0375, 0.15, Some(128000)),
    "llama-3-instruct" := ModelConfig("llama-3-instruct", "Meta Llama 3.3 70B Instruct", OpenRouterBaseUrl, "meta-llama/llama-3.3-70b-instruct", Together, false, 0.12, 0.3, Some(131072)),
    "nova-micro" := ModelConfig("nova-micro", "Amazon Nova Micro 1.0", OpenRouterBaseUrl, "amazon/nova-micro-v1", Together, false, 0.035, 0.14, Some(128000)),
    "nova-pro" := ModelConfig("nova-pro", "Amazon Nova Pro 1.0", OpenRouterBaseUrl, "amazon/nova-pro-v1", Together, false, 0.8, 3.2, Some(300000)),
    "qwq-32b" := ModelConfig("qwq-32b", "Qwen QwQ 32B Preview", OpenRouterBaseUrl, "qwen/qwq-32b-preview", Together, false, 0.12, 0.18, Some(32768)),
    "eva-qwen-72b" := ModelConfig("eva-qwen-72b", "EVA Qwen2.5 72B", OpenRouterBaseUrl, "eva-unit-01/eva-qwen-2.5-72b", Together, false, 4.0, 6.0, Some(16384)),
    "mistral-large-2407" := ModelConfig("mistral-large-2407", "Mistral Large 2407", OpenRouterBaseUrl, "mistralai/mistral-large-2407", Together, false, 2.0, 6.0, Some(128000)),
    "pixtral-large" := ModelConfig("pixtral-large", "Mistral Pixtral Large 2411", OpenRouterBaseUrl, "mistralai/pixtral-large-2411", Together, true, 2.0, 6.0, Some(128000)),
    "grok-vision-beta" := ModelConfig("grok-vision-beta", "Grok Vision Beta", OpenRouterBaseUrl, "x-ai/grok-vision-beta", Together, true, 5.0, 15.0, Some(8192)),
    "inferor-12b" := ModelConfig("inferor-12b", "Mistral Nemo Inferor 12B", OpenRouterBaseUrl, "infermatic/mn-inferor-12b", Together, false, 0.25, 0.5, Some(32000)),
    "qwen-coder" := ModelConfig("qwen-coder", "Qwen2.5 Coder 32B Instruct", OpenRouterBaseUrl, "qwen/qwen-2.5-coder-32b-instruct", Together, false, 0.07, 0.16, Some(33000)),
    "sorcerer-8x22b" := ModelConfig("sorcerer-8x22b", "SorcererLM 8x22B", OpenRouterBaseUrl, "raifle/sorcererlm-8x22b", Together, false, 4.5, 4.5, Some(16000)),
    "eva-qwen-32b" := ModelConfig("eva-qwen-32b", "EVA Qwen2.5 32B", OpenRouterBaseUrl, "eva-unit-01/eva-qwen-2.5-32b", Together, false, 2.6, 3.4, Some(16384)),
    "unslopnemo-12b" := ModelConfig("unslopnemo-12b", "Unslopnemo 12b", OpenRouterBaseUrl, "thedrummer/unslopnemo-12b", Together, false, 0.5, 0.5, Some(32000)),
    "lumimaid-70b" := ModelConfig("lumimaid-70b", "NeverSleep Lumimaid v0.2 70B", OpenRouterBaseUrl, "neversleep/llama-3.1-lumimaid-70b", Together, false, 3.375, 4.5, Some(16384)),
    "magnum-v4" := ModelConfig("magnum-v4", "Magnum v4 72B", OpenRouterBaseUrl, "anthracite-org/magnum-v4-72b", Together, false, 1.875, 2.25, Some(16384))
  ]

  /** What `createClient` reads from its surroundings. `env` is Vite's
      `import.meta.env` (absent outside a Vite bundle, e.g. under Node or in
      a Netlify function); `origin` is `window.location.origin` (absent where
      there is no `window`). */
  datatype Runtime = Runtime(env: Option<ViteEnv>, origin: Option<string>)

  datatype ViteEnv = ViteEnv(
    siteUrl: Option<string>,          // VITE_SITE_URL
    siteName: Option<string>,         // VITE_SITE_NAME
    openRouterApiKey: Option<string>, // VITE_OPENROUTER_API_KEY
    apiKey: Option<string>)           // VITE_API_KEY

  /** The object `createClient` returns: the `type` tag, the `model` string,
      and the SDK client's constructor options. */
  datatype Client = Client(
    apiType: ApiType,
    model: string,
    baseUrl: string,
    apiKey: Option<string>,
    headers: map<string, string>)

  const DefaultSiteName: string := "Grog Chat"

  /** A string JavaScript treats as true: present and non-empty. */
  predicate Filled(v: Option<string>)
  {
    v.Some? && v.value != ""
  }

  /** `a || b` on an optional string: `undefined` and "" fall through. */
  function Or(a: Option<string>, b: string): string
  {
    if Filled(a) then a.value else b
  }

  /** A template literal renders `undefined` as the word itself. */
  function Render(v: Option<string>): string
  {
    if v.Some? then v.value else "undefined"
  }

  /** Whether the `HTTP-Referer` default can be computed at all: reading
      `import.meta.env.VITE_SITE_URL` needs `import.meta.env`, and falling
      back to `window.location.origin` needs a `window`. */
  predicate HeadersResolvable(rt: Runtime)
  {
    rt.env.Some? && (Filled(rt.env.value.siteUrl) || rt.origin.Some?)
  }

  /** The `HTTP-Referer` value, or the error evaluating it throws. */
  function Referer(rt: Runtime): (r: Result<string>)
    ensures r.Ok? <==> HeadersResolvable(rt)
    ensures r.Ok? && Filled(rt.env.value.siteUrl) ==> r.value == rt.env.value.siteUrl.value
    ensures r.Ok? && !Filled(rt.env.value.siteUrl) ==> r.value == rt.origin.value
    ensures r.Err? && rt.env.Some? ==> r.error == ReferenceError("window")
    ensures r.Err? && rt.env.None? ==> r.error.TypeError?
  {
    if rt.env.None? then
      Err(TypeError("Cannot read properties of undefined (reading 'VITE_SITE_URL')"))
    else if Filled(rt.env.value.siteUrl) then
      Ok(rt.env.value.siteUrl.value)
    else if rt.origin.None? then
      Err(ReferenceError("window"))
    else
      Ok(rt.origin.value)
  }

  /** Client construction for a resolved entry: the two default headers, an
      `Authorization` header for OpenRouter base URLs, and the entry's
      `apiType`, `model` and `baseUrl` carried over. */
  function ClientFor(config: ModelConfig, rt: Runtime): (r: Result<Client>)
    ensures r.Ok? <==> HeadersResolvable(rt)
    ensures r.Err? ==> r.error.TypeError? || r.error.ReferenceError?
    ensures r.Ok? ==>
      && r.value.apiType == config.apiType
      && r.value.model == config.model
      && r.value.baseUrl == config.baseUrl
      && r.value.apiKey == rt.env.value.apiKey
    ensures r.Ok? ==>
      && "HTTP-Referer" in r.value.headers && "X-Title" in r.value.headers
      && r.value.headers["HTTP-Referer"] == Or(rt.env.value.siteUrl, Render(rt.origin))
      && r.value.headers["X-Title"] == Or(rt.env.value.siteName, DefaultSiteName)
      && ("Authorization" in r.value.headers <==> Includes(config.baseUrl, "openrouter.ai"))
    ensures r.Ok? && "Authorization" in r.value.headers ==>
      r.value.headers["Authorization"] == "Bearer " + Render(rt.env.value.openRouterApiKey)
    ensures r.Ok? ==> r.value.headers.Keys <= {"HTTP-Referer", "X-Title", "Authorization"}
  {
    match Referer(rt)
    case Err(e) => Err(e)
    case Ok(referer) =>
      var env := rt.env.value;
      var defaults := map["HTTP-Referer" := referer, "X-Title" := Or(env.siteName, DefaultSiteName)];
      var headers :=
        if Includes(config.baseUrl, "openrouter.ai")
        then defaults["Authorization" := "Bearer " + Render(env.openRouterApiKey)]
        else defaults;
      Ok(Client(config.apiType, config.model, config.baseUrl, env.apiKey, headers))
  }

  /** `createClient(modelId)`. An unknown id throws before any header is
      computed, so the error does not depend on the runtime. */
  function CreateClient(modelId: string, rt: Runtime): (r: Result<Client>)
    ensures modelId !in ModelConfigs ==> r == Err(InvalidModelId(modelId))
    ensures modelId in ModelConfigs ==> (r.Ok? <==> HeadersResolvable(rt))
    ensures modelId in ModelConfigs && r.Err? ==> r.error.TypeError? || r.error.ReferenceError?
    ensures r.Ok? ==>
      && modelId in ModelConfigs
      && r.value.apiType == ModelConfigs[modelId].apiType
      && r.value.model == ModelConfigs[modelId].model
      && r.value.baseUrl == ModelConfigs[modelId].baseUrl
  {
    if modelId !in ModelConfigs then Err(InvalidModelId(modelId))
    else ClientFor(ModelConfigs[modelId], rt)
  }

  /** A JavaScript error other than `Invalid model ID` comes only from the
      runtime: where `import.meta.env` is missing, every known id fails. */
  lemma NoViteEnvMeansNoClient(modelId: string, rt: Runtime)
    requires rt.env.None?
    ensures CreateClient(modelId, rt).Err?
    ensures modelId in ModelConfigs ==> CreateClient(modelId, rt).error.TypeError?
  {
  }

  /** Dafny proves this by expanding the 41-entry map literal, which sits
      well inside the resource limit; bodies that enumerate the keys
      expand it more than once and cost more, not less. */
  lemma KeysMatchIds()
    ensures forall k :: k in ModelConfigs ==> ModelConfigs[k].id == k
  {
  }

  /** Every entry names an upstream model string that differs from its id. */
  lemma UpstreamModelIsNeverTheId()
    ensures forall k :: k in ModelConfigs ==> ModelConfigs[k].model != k
  {
  }

  /** Every entry of the table is served from the same OpenRouter URL. */
  lemma EveryEntryUsesOpenRouter()
    ensures forall k :: k in ModelConfigs ==> ModelConfigs[k].baseUrl == OpenRouterBaseUrl
  {
  }

  lemma OpenRouterBaseUrlIncludesHost()
    ensures Includes(OpenRouterBaseUrl, "openrouter.ai")
  {
    assert StartsWith(OpenRouterBaseUrl[8..], "openrouter.ai");
  }

  /** Every entry is served through OpenRouter, so every client the factory
      builds from the table carries an `Authorization` header. */
  lemma {:induction false} EveryClientAuthorizes(modelId: string, rt: Runtime)
    requires CreateClient(modelId, rt).Ok?
    ensures "Authorization" in CreateClient(modelId, rt).value.headers
  {
    EveryEntryUsesOpenRouter();
    OpenRouterBaseUrlIncludesHost();
  }
}
