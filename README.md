# Config wizard schema and sync layer, in Dafny

This project models the core of a browser wizard that edits a `config.yaml` for an AI coding assistant. It covers five parts:

- **The configuration schema.** `src/schema/configSchema.ts` is a zod schema: strict objects, closed enumerations, integer bounds, either/or entries for models, rules and prompts, and a refinement on `data[].destination`.
  - The schema is written as a value of a small embedding of zod (`Zod.Schema`).
  - Three functions give it meaning. `Valid` says whether a value conforms. `Check` gives the issues zod reports, as a set of paths, codes and schema messages, with the exceptions listed under "Left out". `Output` gives the value a successful parse returns.
  - Everything listed below about the schema is proved from those definitions.
- **The form transformers.** `src/lib/form/transformers.ts` has `toFormValues` and `toConfigDraft`, and the form schema that narrows `version` to a string.
- **The wizard store.** `src/store/wizardStore.ts` is a class holding `mode`, `config` and `yaml`, with `setMode`, `setConfig`, `setYaml` and `reset`. The default configuration is the output of `ConfigSchema.parse`.
- **The form sync.** From `src/components/form/FormRenderer.tsx`, the project models three pieces:
  - the watch callback, which drafts, validates and publishes the form's values;
  - the effect that resets the form when the store's configuration changes under it, guarded by `lastSerialized`;
  - the "Reset to last valid config" button.
- **The YAML helpers.** From `src/lib/yaml.ts`: the line-ending rewrite of `stringifyYaml` and the `?? []` defaults of `parseYaml`.

Behaviour that belongs to the browser or to libraries enters as function-valued parameters, bundled in `Runtime.Host`:

- `isUrl`: WHATWG URL parsing, used by `z.string().url()`;
- `numberText`: `Number.prototype.toString`;
- `yamlText`: the YAML library's rendering;
- `jsonText`: `JSON.stringify`.

`YAML.parseDocument` is a parameter of `Yaml.ParseYaml`.

Some headline results:

- **Parsing a config is stable.** The schema is *tame*: each object declares each key once, and the refinement looks through parsing. So whatever `ConfigSchema` parses out of a document conforms to it again (`ConfigReparse.ParsedConfigValid`).
- **The store keeps a conforming config.** The watch callback only ever puts a schema-valid configuration in the store, and it leaves the reset effect with nothing to do.
- **Drafting is idempotent.** Together with `toFormValues`, it round-trips.

Notes on how zod's semantics are modelled:

- **Required or optional.** `.default(x).optional()` never applies its default, because zod's optional wrapper answers an absent value before the default sees it. So `roles` and `level` are plain optional keys.
- **Stripping.** `clientCertificate` is the one object that is not `.strict()`. Its unknown keys are stripped from the parse output, not reported.
- **Dirty and aborted results.** zod distinguishes an aborted result (a type mismatch) from one that is merely dirty (a failed check or an unknown key). Both the refinement and unions depend on the difference:
  - a refinement runs on any result that was not aborted;
  - a union with no clean alternative reports its first dirty alternative.

## Model

| member | source | states |
|---|---|---|
| Zod.CheckSound | src/schema/configSchema.ts:210-223 | zod reports no issue for a value (`Check`) exactly when the value conforms to the schema (`Valid`, zod's acceptance), for every schema and at every path |
| Zod.SafeParse | src/components/form/FormRenderer.tsx:57-58 | `safeParse` succeeds exactly on conforming values and returns the parsed value; otherwise it fails with the non-empty issue set the parser reports |
| Zod.Check | src/schema/configSchema.ts:210-223 | an aborted parse always carries an issue, and every issue lies at or below the path being parsed |
| Zod.StrictRejectsUnknown | src/schema/configSchema.ts:136-142 | a `.strict()` object reports an `unrecognized_keys` issue at its own path naming every undeclared key, and rejects the value |
| Zod.OutputKeys | src/schema/configSchema.ts:37-43 | the parse output (`Output`) of an object holds exactly the input's declared keys, so the non-strict `clientCertificate` drops unknown keys |
| Zod.RefineOfValid | src/schema/configSchema.ts:191-208 | on a value whose object part conforms, a refinement adds exactly one issue, at its own path and with its message, exactly when its test fails on the parsed value |
| Zod.RefineOfDirty | src/schema/configSchema.ts:202-208 | a refinement whose inner result is dirty but not aborted still runs its test on the parsed value and adds its issue to the inner issues |
| Zod.OneKeyObject | src/schema/configSchema.ts:145-149 | a strict object with one required key accepts exactly the objects holding that key alone with a conforming value |
| Zod.PartialValid | src/schema/configSchema.ts:114 | `.partial()` keeps the declared keys and the entry schemas and drops only the presence requirement |
| Zod.ExtendValid | src/lib/form/transformers.ts:5-7 | replacing an entry's schema by one its new value conforms to keeps an object with distinct keys conforming |
| Zod.UnionOfTwo | src/schema/configSchema.ts:118 | a two-way union accepts exactly what either alternative accepts |
| Zod.ElementIssuesReported | src/schema/configSchema.ts:221 | an array reports every issue of each element, under the element's index |
| Zod.OutputValid | src/schema/configSchema.ts:210-223 | for a tame schema, what a successful parse returns (`Output`) conforms again |
| ConfigFacts.ConfigKeys | src/schema/configSchema.ts:210-223 | the document declares exactly the ten top-level keys |
| ConfigFacts.UnknownTopLevelKeyRejected | src/schema/configSchema.ts:210-223 | any top-level key outside the ten is reported at the root and makes the parse fail |
| ConfigFacts.MissingScalarReported | src/schema/configSchema.ts:212-214 | a document missing `name`, `version` or `schema` is rejected, with `invalid_type`, `invalid_union` or `invalid_literal` respectively at that key, the codes zod gives `undefined` under each entry's schema |
| ConfigFacts.TopLevelScalars | src/schema/configSchema.ts:212-214 | a conforming document has a non-empty string `name`, a string or number `version`, `schema` "v1", and only declared keys |
| ConfigFacts.NameOfValid | src/schema/configSchema.ts:212 | a conforming document's `name` is a string of length at least 1 |
| ConfigFacts.VersionOfValid | src/schema/configSchema.ts:213 | a conforming document's `version` is a string or a number |
| ConfigFacts.ScalarDocument | src/schema/configSchema.ts:210-223 | a document holding only the three scalar keys conforms exactly when all three are as required |
| ConfigFacts.ScalarDocumentParses | src/schema/configSchema.ts:210-223 | such a document, for instance the minimal `{name, version, schema}` one, parses to itself |
| ConfigFacts.DestinationKept | src/schema/configSchema.ts:194-203 | a data item whose object part was not aborted has a string `destination`, and the refinement's test on the parsed item is the prefix test on that string |
| ConfigFacts.DestinationRule | src/schema/configSchema.ts:202-208 | a data item with a conforming object part is accepted exactly when its destination passes the refine test (`Config.DestinationHolds`): it starts with "file://", "http://" or "https://"; otherwise the only issue is at `destination`, with the schema's message |
| ConfigFacts.DestinationReportedWhenDirty | src/schema/configSchema.ts:201-208 | an unsupported destination is reported even when the item has other issues, on top of them |
| ConfigFacts.DataDestinationReported | src/schema/configSchema.ts:221 | a document whose i-th data item has an unsupported destination and an object part that was not aborted (it may be dirty, with an unknown key say) is rejected, with the destination issue at `data[i].destination` |
| ItemFacts.RuleItemForms | src/schema/configSchema.ts:144-151 | a rule conforms exactly when it is a string or exactly `{uses: string}` |
| ItemFacts.PromptInlineForm | src/schema/configSchema.ts:153-160 | an inline prompt conforms exactly when it has string `name` and `prompt`, an optional string `description`, an optional boolean `invokable`, and nothing else |
| ItemFacts.PromptItemForms | src/schema/configSchema.ts:168 | a prompt conforms exactly when it is an inline prompt or exactly `{uses: string}` |
| ItemFacts.ModelFormsDisjoint | src/schema/configSchema.ts:90-116 | no value is both an explicit model and a reference |
| ItemFacts.ModelItemForms | src/schema/configSchema.ts:118 | a models entry conforms exactly when it is one of the two forms, never both |
| ItemFacts.ExplicitModelRequired | src/schema/configSchema.ts:90-108 | an explicit model has string `name`, `provider` and `model` and holds only declared keys |
| ItemFacts.ReferenceForm | src/schema/configSchema.ts:110-116 | a value is a reference exactly when it has a string `uses`, an object `with` when present, an `override` the partial explicit model accepts when present, and no other key |
| ItemFacts.ReferenceWithOverride | src/schema/configSchema.ts:114 | any selection of a conforming explicit model's entries is an acceptable `override` |
| ItemFacts.ContextProviderClosed | src/schema/configSchema.ts:120-142 | a context item's provider is one of the thirteen built-ins |
| ItemFacts.UnknownProviderReported | src/schema/configSchema.ts:136-142 | any other provider name is reported on `provider` as an invalid enum value, and the item is rejected |
| ItemFacts.RolesClosed | src/schema/configSchema.ts:98 | every role of an explicit model is one of the seven role names |
| ItemFacts.CapabilitiesClosed | src/schema/configSchema.ts:99 | every capability is "tool_use" or "image_input" |
| ItemFacts.DataEnumsClosed | src/schema/configSchema.ts:195-197 | a data item's `schema` is "0.1.0" or "0.2.0", and its `level`, when present, is "all" or "noCode" |
| ItemFacts.PositiveIntForm | src/schema/configSchema.ts:17 | `.int().positive()` accepts exactly the whole numbers from 1 up |
| ItemFacts.IntAtLeastForm | src/schema/configSchema.ts:21 | `.int().min(b)` accepts exactly the whole numbers from `b` up |
| ItemFacts.CompletionBounds | src/schema/configSchema.ts:17-24 | `contextLength`, `maxTokens` and `reasoningBudgetTokens` are whole and positive; `topK` is whole and at least 1 |
| ItemFacts.EmbedBounds | src/schema/configSchema.ts:49-50 | `maxChunkSize` is whole and at least 128; `maxBatchSize` is whole and at least 1 |
| ItemFacts.AutocompleteBounds | src/schema/configSchema.ts:57-59 | `maxPromptTokens` is whole and positive; `debounceDelay` and `modelTimeout` are whole and not negative |
| ItemFacts.MaxStopWordsBound | src/schema/configSchema.ts:100 | `maxStopWords` is whole and not negative |
| ItemFacts.RequestTimeoutBound | src/schema/configSchema.ts:30 | a request's `timeout` is whole and positive |
| ItemFacts.ConnectionTimeoutBound | src/schema/configSchema.ts:187 | an MCP server's `connectionTimeout` is whole and positive |
| ConfigReparse.DestinationSeesThroughParse | src/schema/configSchema.ts:202-203 | parsing a data item keeps its destination, so the refinement judges the parsed item as it judges the input |
| ConfigReparse.ConfigSchemaTame | src/schema/configSchema.ts:210-223 | every object in the configuration schema declares each key once, and the refinement is stable under parsing |
| ConfigReparse.ParsedConfigValid | src/schema/configSchema.ts:210-223 | what `ConfigSchema` parses out of a conforming document conforms again |
| Text.Trim | src/lib/form/transformers.ts:21-22 | `trim` returns a contiguous slice of its input |
| Text.TrimSpec | src/lib/form/transformers.ts:21-22 | everything `trim` cuts off is ECMAScript white space or a line terminator, and the result neither starts nor ends with one |
| Text.TrimIdempotent | src/lib/form/transformers.ts:21-22 | trimming twice is trimming once |
| Transformers.ToFormValues | src/lib/form/transformers.ts:11-17 | the form values keep every key; a numeric version becomes its printed text, any other version and every other field stay as they are |
| Transformers.ToConfigDraft | src/lib/form/transformers.ts:19-36 | the draft holds the trimmed name and version (or "" for non-strings) and schema "v1"; it holds each collection exactly when the form holds it non-empty, unchanged; it holds no other key |
| Transformers.FormValuesOfDraft | src/lib/form/transformers.ts:11-17 | a draft's version is already a string, so the form values of a draft are the draft |
| Transformers.DraftIsDraft | src/lib/form/transformers.ts:19-36 | every draft has a trimmed name and version, schema "v1", only top-level keys and only non-empty collections |
| Transformers.DraftFixed | src/lib/form/transformers.ts:19-36 | drafting a value of that shape gives it back |
| Transformers.DraftIdempotent | src/lib/form/transformers.ts:19-36 | drafting twice is drafting once |
| Transformers.DraftRoundTrip | src/lib/form/transformers.ts:11-36 | drafting the form values of a draft gives the draft back |
| Transformers.FormValuesConform | src/lib/form/transformers.ts:5-17 | the form schema accepts the form values of every conforming configuration |
| Transformers.DraftNeedsName | src/lib/form/transformers.ts:21 | a draft conforms only if the trimmed name is non-empty |
| Transformers.ScalarDraft | src/lib/form/transformers.ts:19-36 | with every collection empty or missing, the draft conforms exactly when the trimmed name is non-empty, and then it parses to itself |
| Yaml.ReplaceNewlines | src/lib/yaml.ts:51 | the rewrite keeps the number of '\n' characters and grows the text by one character per line ending when the ending is "\r\n" |
| Yaml.ReplaceLfIdentity | src/lib/yaml.ts:51 | with "\n" as the line ending the text is unchanged |
| Yaml.CrlfNewlinesPreceded | src/lib/yaml.ts:51 | with "\r\n", every '\n' of the result comes right after a '\r' |
| Yaml.CollapseUndoesCrlf | src/lib/yaml.ts:51 | with "\r\n", collapsing each "\r\n" back gives the original text, so all other characters keep their order |
| Yaml.StringifyYaml | src/lib/yaml.ts:35-52 | with the default "\n" the result is the library's text; with "\r\n" it is that text with CRLF endings only |
| Yaml.OrEmpty | src/lib/yaml.ts:25-26 | a missing list becomes the empty list, a present one is kept |
| Yaml.ParseYaml | src/lib/yaml.ts:19-28 | the result carries the parsed document, its data, and its errors and warnings as lists, empty when missing |
| Store.DefaultInputParses | src/store/wizardStore.ts:18-22 | `ConfigSchema.parse` succeeds on the default object and returns it unchanged |
| Store.DefaultConfig | src/store/wizardStore.ts:18-22 | the default configuration is `{name "Untitled Config", version "0.0.1", schema "v1"}` and conforms |
| Store.WizardStore.constructor | src/store/wizardStore.ts:24-27 | the store starts in form mode with the default configuration and its YAML, in sync and conforming |
| Store.WizardStore.SetMode | src/store/wizardStore.ts:28 | only the mode changes; sync and conformance are kept |
| Store.WizardStore.SetConfig | src/store/wizardStore.ts:29-33 | configuration and YAML change together and are in sync; the mode stays; conformance is that of the new configuration |
| Store.WizardStore.SetYaml | src/store/wizardStore.ts:34 | only the text changes; the store stays in sync exactly when the text is the configuration's YAML |
| Store.WizardStore.Reset | src/store/wizardStore.ts:35-40 | whatever the prior state, the store returns to form mode with the default configuration and its YAML |
| Form.Parse | src/components/form/FormRenderer.tsx:57-58 | the draft parses exactly when it conforms, and the parsed data conforms in turn |
| Form.FormRenderer.constructor | src/components/form/FormRenderer.tsx:30-38 | the form starts from the store's configuration as form values, and the ref holds their serialization |
| Form.FormRenderer.OnWatch | src/components/form/FormRenderer.tsx:49-67 | a missing or falsy event changes nothing; any other event is published; the form values and the mode never change |
| Form.FormRenderer.Publish | src/components/form/FormRenderer.tsx:55-66 | a conforming draft replaces the configuration with the parse output, which conforms; the YAML is in sync and the ref holds the new form values' serialization. Otherwise the configuration and ref stay and the YAML shows the draft. A conforming configuration stays conforming, and a settled reset effect stays settled |
| Form.FormRenderer.SyncDefaults | src/components/form/FormRenderer.tsx:40-47 | the effect leaves the ref equal to the serialized default values; it resets the form to those values exactly when the ref differed, and otherwise changes nothing |
| Form.FormRenderer.ResetToLastValid | src/components/form/FormRenderer.tsx:135 | the form takes the store's configuration as form values; the store and the ref are untouched |

## Left out

- The YAML library is a parameter: `YAML.parseDocument`, `toJS`, `Document`, `createNode`, `clone` and `toString`. Only the text it renders is seen.
- The `base` option of `stringifyYaml`, which clones a parsed document, is not modelled: it lives entirely inside the library.
- `JSON.stringify`, `Number.prototype.toString` and URL parsing are parameters, with no assumed properties.
- Numbers are exact rationals. IEEE-754 rounding, NaN, infinities and -0 are not modelled, so `Truthy` has no NaN case.
- Zod.Check: issues form a set, so the order zod lists them in is not modelled. Every issue keeps only its path, its code and a message the schema itself gives: zod's default messages (such as "Required") and the fields specific to each code (expected and received types, minimum and inclusive, the `invalid_union` errors, the enum options) are not modelled.
- Zod.Check: an absent required key is always rejected. zod parses `undefined` with the key's schema, so a required `z.any()` key (or a union with such an alternative) would accept absence; the configuration schema has no such key.
- Object key order is not modelled: `Json.JObj` is a map. JavaScript objects keep insertion order, which `toConfigDraft` sets (scalars first, then the collections) and `JSON.stringify` and the YAML text follow; `Store.WizardStore.Render` and `Form.FormRenderer.SerializedOf` receive the object without that order.
- `z.record(z.any())` accepts any value and reports nothing about it.
- Transformers.ToConfigDraft: `values.k && values.k.length > 0` is modelled for the arrays and strings a form holds. An object whose own `length` property compares greater than 0 under JavaScript's coercion (a positive number, `true`, a string such as "5") would be kept by the source and dropped by the model.
- Transformers.ToFormValues: on a value that is not an object the model returns it unchanged. On `null` or `undefined` the source throws at `typeof config.version`; on another non-object its spread would build an object. Its type never allows such input, and the store only ever holds the default or a successful parse, both objects.
- Transformers.ToConfigDraft: on `null` or `undefined` the source throws at `typeof values.name`, while the model returns a draft with an empty name and version. The watch callback only passes values that are truthy, so the case is never reached there.
- The react-hook-form machinery (`useForm`, `watch` subscriptions, `zodResolver` validation of the form) and zustand's `create`/`set` notifications are not modelled. They are reduced to the `formValues` field and the store's methods.
- The form's JSX, the other UI components, `src/lib/validation.ts` (an Ajv wrapper over a generated artefact), the JSON-schema generation script and the static section and field tables are not part of this model.
