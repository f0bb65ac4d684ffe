/**
  The configuration document's schema, combinator by combinator, as in
  src/schema/configSchema.ts. Every object there is `.strict()` except
  `clientCertificate`, which strips unknown keys. A `.default(x)` placed
  before `.optional()` never fires (an absent key stays absent), so
  `roles` and `level` are plain optional keys.
 */
module Config {
  import opened Json
  import opened Text
  import opened Zod

  function Req(key: string, s: Schema): Field { Field(key, s, false) }
  function Opt(key: string, s: Schema): Field { Field(key, s, true) }

  const Str := ZString([])
  const UrlStr := ZString([Url])
  const StrList := ZArray(Str)
  const AnyRecord := ZRecord(ZAny)
  const PositiveInt := ZNumber([Int, Gt(0.0)])
  function IntAtLeast(b: real): Schema { ZNumber([Int, Ge(b)]) }
  function Between(lo: real, hi: real): Schema { ZNumber([Ge(lo), Le(hi)]) }

  const RoleNames := ["chat", "autocomplete", "embed", "rerank", "edit", "apply", "summarize"]
  const Roles := ZEnum(RoleNames)

  const CapabilityNames := ["tool_use", "image_input"]
  const Capabilities := ZEnum(CapabilityNames)

  const CompletionOptions := ZObject([
    Opt("contextLength", PositiveInt),
    Opt("maxTokens", PositiveInt),
    Opt("temperature", Between(0.0, 2.0)),
    Opt("topP", Between(0.0, 1.0)),
    Opt("topK", IntAtLeast(1.0)),
    Opt("stop", StrList),
    Opt("reasoning", ZBoolean),
    Opt("reasoningBudgetTokens", PositiveInt)
  ], Strict)

  const ClientCertificate := ZObject([
    Req("cert", Str),
    Req("key", Str),
    Opt("passphrase", Str)
  ], Strip)

  const RequestOptions := ZObject([
    Opt("timeout", PositiveInt),
    Opt("verifySsl", ZBoolean),
    Opt("caBundlePath", Str),
    Opt("proxy", UrlStr),
    Opt("headers", AnyRecord),
    Opt("extraBodyProperties", AnyRecord),
    Opt("noProxy", StrList),
    Opt("clientCertificate", ClientCertificate)
  ], Strict)

  const EmbedOptions := ZObject([
    Opt("maxChunkSize", IntAtLeast(128.0)),
    Opt("maxBatchSize", IntAtLeast(1.0))
  ], Strict)

  const AutocompleteOptions := ZObject([
    Opt("disable", ZBoolean),
    Opt("maxPromptTokens", PositiveInt),
    Opt("debounceDelay", IntAtLeast(0.0)),
    Opt("modelTimeout", IntAtLeast(0.0)),
    Opt("maxSuffixPercentage", Between(0.0, 1.0)),
    Opt("prefixPercentage", Between(0.0, 1.0)),
    Opt("transform", ZBoolean),
    Opt("template", Str),
    Opt("onlyMyCode", ZBoolean),
    Opt("useCache", ZBoolean),
    Opt("useImports", ZBoolean),
    Opt("useRecentlyEdited", ZBoolean),
    Opt("useRecentlyOpened", ZBoolean)
  ], Strict)

  const ChatOptions := ZObject([
    Opt("baseSystemMessage", Str),
    Opt("baseAgentSystemMessage", Str),
    Opt("basePlanSystemMessage", Str)
  ], Strict)

  /** Its keys are optional already, so `.partial()` changes nothing. */
  const PromptTemplates := ZObject([
    Opt("chat", Str),
    Opt("edit", Str),
    Opt("apply", Str),
    Opt("autocomplete", Str)
  ], Strict)

  const ExplicitModel := ZObject([
    Req("name", Str),
    Req("provider", Str),
    Req("model", Str),
    Opt("apiBase", UrlStr),
    Opt("apiKey", Str),
    Opt("useLegacyCompletionsEndpoint", ZBoolean),
    Opt("roles", ZArray(Roles)),
    Opt("capabilities", ZArray(Capabilities)),
    Opt("maxStopWords", IntAtLeast(0.0)),
    Opt("promptTemplates", PromptTemplates),
    Opt("chatOptions", ChatOptions),
    Opt("embedOptions", EmbedOptions),
    Opt("defaultCompletionOptions", CompletionOptions),
    Opt("requestOptions", RequestOptions),
    Opt("autocompleteOptions", AutocompleteOptions)
  ], Strict)

  const ReferencedModel := ZObject([
    Req("uses", Str),
    Opt("with", AnyRecord),
    Opt("override", Partial(ExplicitModel))
  ], Strict)

  const ModelItem := ZUnion([ExplicitModel, ReferencedModel])

  const ProviderNames := [
    "file", "code", "diff", "http", "terminal", "open", "clipboard",
    "tree", "problems", "debugger", "repo-map", "currentFile", "os"
  ]
  const BuiltInContextProvider := ZEnum(ProviderNames)

  const ContextItem := ZObject([
    Req("provider", BuiltInContextProvider),
    Opt("name", Str),
    Opt("params", AnyRecord)
  ], Strict)

  const RuleRef := ZObject([Req("uses", Str)], Strict)
  const RuleItem := ZUnion([Str, RuleRef])

  const PromptInline := ZObject([
    Req("name", Str),
    Opt("description", Str),
    Req("prompt", Str),
    Opt("invokable", ZBoolean)
  ], Strict)
  const PromptRef := ZObject([Req("uses", Str)], Strict)
  const PromptItem := ZUnion([PromptInline, PromptRef])

  const DocsItem := ZObject([
    Req("name", Str),
    Req("startUrl", UrlStr),
    Opt("favicon", UrlStr),
    Opt("useLocalCrawling", ZBoolean)
  ], Strict)

  const McpServer := ZObject([
    Req("name", Str),
    Req("command", Str),
    Opt("args", StrList),
    Opt("env", ZRecord(Str)),
    Opt("cwd", Str),
    Opt("requestOptions", RequestOptions),
    Opt("connectionTimeout", PositiveInt)
  ], Strict)

  const DataSchemaVersions := ["0.1.0", "0.2.0"]
  const Levels := ["all", "noCode"]

  /** A data item before its refinement. */
  const DataItemObject := ZObject([
    Req("name", Str),
    Req("destination", Str),
    Req("schema", ZEnum(DataSchemaVersions)),
    Opt("events", StrList),
    Opt("level", ZEnum(Levels)),
    Opt("apiKey", Str),
    Opt("requestOptions", RequestOptions)
  ], Strict)

  const DestinationMessage := "destination must be file:///... or http(s)://..."

  /** `startsWith("file://")` or a match of `^https?:\/\/`. */
  predicate SupportedDestination(d: string) {
    StartsWith(d, "file://") || StartsWith(d, "http://") || StartsWith(d, "https://")
  }

  /** The refinement's test, on a parsed data item. */
  predicate DestinationHolds(item: Json) {
    "destination" in Props(item) && Props(item)["destination"].JStr?
    && SupportedDestination(Props(item)["destination"].str)
  }

  const DataItem := ZRefine(DataItemObject, DestinationHolds, [Key("destination")], DestinationMessage)

  const ConfigSchema := ZObject([
    Req("name", ZString([MinLength(1, "name is required")])),
    Req("version", ZUnion([Str, ZNumber([])])),
    Req("schema", ZLiteral("v1")),
    Opt("models", ZArray(ModelItem)),
    Opt("context", ZArray(ContextItem)),
    Opt("rules", ZArray(RuleItem)),
    Opt("prompts", ZArray(PromptItem)),
    Opt("docs", ZArray(DocsItem)),
    Opt("mcpServers", ZArray(McpServer)),
    Opt("data", ZArray(DataItem))
  ], Strict)

  const TopLevelKeys := {"name", "version", "schema", "models", "context", "rules", "prompts", "docs", "mcpServers", "data"}
}
