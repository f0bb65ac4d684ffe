/** What the schema demands of the entries of the document's lists. */
module ItemFacts {
  import opened Wrappers
  import opened Json
  import opened Zod
  import opened Config

  /** `{uses: string}` and nothing else. */
  predicate UsesOnly(v: Json) {
    v.JObj? && v.fields.Keys == {"uses"} && v.fields["uses"].JStr?
  }

  /** A rule is inline text or a reference `{uses: string}`, and nothing else. */
  lemma RuleItemForms(v: Json, isUrl: string -> bool)
    ensures Valid(RuleItem, v, isUrl) <==> v.JStr? || UsesOnly(v)
  {
    UnionOfTwo(Str, RuleRef, v, isUrl);
    OneKeyObject("uses", Str, v, isUrl);
  }

  /** The keys an inline prompt may hold. */
  const PromptInlineKeys := {"name", "description", "prompt", "invokable"}

  /** `{name, prompt, description?, invokable?}` with string texts and a boolean flag. */
  predicate InlinePrompt(v: Json) {
    && v.JObj?
    && v.fields.Keys <= PromptInlineKeys
    && "name" in v.fields && v.fields["name"].JStr?
    && "prompt" in v.fields && v.fields["prompt"].JStr?
    && ("description" in v.fields ==> v.fields["description"].JStr?)
    && ("invokable" in v.fields ==> v.fields["invokable"].JBool?)
  }

  lemma PromptInlineKeysDeclared()
    ensures Keys(PromptInline.shape) == PromptInlineKeys
  {
    var shape := PromptInline.shape;
    assert shape[0].key in Keys(shape) && shape[1].key in Keys(shape);
    assert shape[2].key in Keys(shape) && shape[3].key in Keys(shape);
    forall i | 0 <= i < |shape| ensures shape[i].key in PromptInlineKeys {
      assert i in {0, 1, 2, 3};
    }
  }

  lemma PromptInlineForm(v: Json, isUrl: string -> bool)
    ensures Valid(PromptInline, v, isUrl) <==> InlinePrompt(v)
  {
    PromptInlineKeysDeclared();
    var shape := PromptInline.shape;
    if Valid(PromptInline, v, isUrl) {
      FieldValid(PromptInline, v, 0, isUrl);
      FieldValid(PromptInline, v, 1, isUrl);
      FieldValid(PromptInline, v, 2, isUrl);
      FieldValid(PromptInline, v, 3, isUrl);
    }
    if InlinePrompt(v) {
      forall i | 0 <= i < |shape| && shape[i].key in v.fields
        ensures Valid(shape[i].schema, v.fields[shape[i].key], isUrl)
      {
        assert i in {0, 1, 2, 3};
      }
      forall i | 0 <= i < |shape| && shape[i].key !in v.fields ensures shape[i].optional {
        assert i in {0, 1, 2, 3};
      }
      ObjectValidIntro(PromptInline, v, isUrl);
    }
  }

  /** A prompt is an inline prompt or a reference `{uses: string}`, and nothing else. */
  lemma PromptItemForms(v: Json, isUrl: string -> bool)
    ensures Valid(PromptItem, v, isUrl) <==> InlinePrompt(v) || UsesOnly(v)
  {
    UnionOfTwo(PromptInline, PromptRef, v, isUrl);
    PromptInlineForm(v, isUrl);
    OneKeyObject("uses", Str, v, isUrl);
  }

  lemma ReferencedModelKeys()
    ensures Keys(ReferencedModel.shape) == {"uses", "with", "override"}
  {
    var shape := ReferencedModel.shape;
    assert shape[0].key in Keys(shape) && shape[1].key in Keys(shape) && shape[2].key in Keys(shape);
  }

  /** No value is both an explicit model and a reference: the former needs a `name` the latter may not hold. */
  lemma ModelFormsDisjoint(v: Json, isUrl: string -> bool)
    ensures !(Valid(ExplicitModel, v, isUrl) && Valid(ReferencedModel, v, isUrl))
  {
    if Valid(ExplicitModel, v, isUrl) && Valid(ReferencedModel, v, isUrl) {
      FieldValid(ExplicitModel, v, 0, isUrl);
      FieldValid(ReferencedModel, v, 0, isUrl);
      ReferencedModelKeys();
      assert false;
    }
  }

  /** A `models` entry conforms exactly when it is one of the two forms, never both. */
  lemma ModelItemForms(v: Json, isUrl: string -> bool)
    ensures Valid(ModelItem, v, isUrl) <==> (Valid(ExplicitModel, v, isUrl) != Valid(ReferencedModel, v, isUrl))
  {
    UnionOfTwo(ExplicitModel, ReferencedModel, v, isUrl);
    ModelFormsDisjoint(v, isUrl);
  }

  /** An explicit model names its `name`, `provider` and `model` as strings and holds no undeclared key. */
  lemma ExplicitModelRequired(v: Json, isUrl: string -> bool)
    requires Valid(ExplicitModel, v, isUrl)
    ensures v.JObj? && v.fields.Keys <= Keys(ExplicitModel.shape)
    ensures "name" in v.fields && v.fields["name"].JStr?
    ensures "provider" in v.fields && v.fields["provider"].JStr?
    ensures "model" in v.fields && v.fields["model"].JStr?
  {
    ExplicitModelDeclared(v, isUrl);
    ExplicitModelStrings(v, isUrl);
  }

  lemma ExplicitModelDeclared(v: Json, isUrl: string -> bool)
    requires Valid(ExplicitModel, v, isUrl)
    ensures v.JObj? && v.fields.Keys <= Keys(ExplicitModel.shape)
  {
    FieldValid(ExplicitModel, v, 0, isUrl);
  }

  lemma ExplicitModelStrings(v: Json, isUrl: string -> bool)
    requires Valid(ExplicitModel, v, isUrl)
    ensures v.JObj?
    ensures "name" in v.fields && v.fields["name"].JStr?
    ensures "provider" in v.fields && v.fields["provider"].JStr?
    ensures "model" in v.fields && v.fields["model"].JStr?
  {
    ExplicitModelHead();
    ExplicitModelText(v, 0, isUrl);
    ExplicitModelText(v, 1, isUrl);
    ExplicitModelText(v, 2, isUrl);
  }

  lemma ExplicitModelHead()
    ensures ExplicitModel.shape[0].key == "name" && ExplicitModel.shape[1].key == "provider"
    ensures ExplicitModel.shape[2].key == "model"
  {
  }

  /** The first three entries of an explicit model are required strings. */
  lemma ExplicitModelText(v: Json, i: nat, isUrl: string -> bool)
    requires i < 3 && Valid(ExplicitModel, v, isUrl)
    ensures v.JObj? && ExplicitModel.shape[i].key in v.fields && v.fields[ExplicitModel.shape[i].key].JStr?
  {
    RequiredText(ExplicitModel, v, i, isUrl);
  }

  /** A required string entry of a conforming object is present and a string. */
  lemma RequiredText(s: Schema, v: Json, i: nat, isUrl: string -> bool)
    requires s.ZObject? && i < |s.shape| && !s.shape[i].optional && s.shape[i].schema == Str && Valid(s, v, isUrl)
    ensures v.JObj? && s.shape[i].key in v.fields && v.fields[s.shape[i].key].JStr?
  {
    FieldValid(s, v, i, isUrl);
  }

  /**
    A reference holds a string `uses`, optionally `with` and `override`, and
    any part of a conforming explicit model is an acceptable `override`.
   */
  lemma ReferenceWithOverride(u: string, model: Json, keep: set<string>, isUrl: string -> bool)
    requires Valid(ExplicitModel, model, isUrl)
    ensures Valid(ReferencedModel, JObj(map["uses" := JStr(u), "override" := Restrict(model, keep)]), isUrl)
  {
    var r := JObj(map["uses" := JStr(u), "override" := Restrict(model, keep)]);
    var shape := ReferencedModel.shape;
    ReferencedModelKeys();
    PartialAcceptsRestriction(ExplicitModel, model, keep, isUrl);
    forall i | 0 <= i < |shape| && shape[i].key in r.fields
      ensures Valid(shape[i].schema, r.fields[shape[i].key], isUrl)
    {
      assert i in {0, 1, 2};
    }
    ObjectValidIntro(ReferencedModel, r, isUrl);
  }

  /** The shape of a reference: a string `uses`, an optional `with` object and an optional partial explicit model as `override`, nothing else. */
  predicate ReferenceShape(v: Json, isUrl: string -> bool) {
    && v.JObj? && v.fields.Keys <= {"uses", "with", "override"}
    && "uses" in v.fields && v.fields["uses"].JStr?
    && ("with" in v.fields ==> v.fields["with"].JObj?)
    && ("override" in v.fields ==> Valid(Partial(ExplicitModel), v.fields["override"], isUrl))
  }

  /** A value is a reference exactly when it has the reference shape. */
  lemma ReferenceForm(v: Json, isUrl: string -> bool)
    ensures Valid(ReferencedModel, v, isUrl) <==> ReferenceShape(v, isUrl)
  {
    ReferencedModelKeys();
    if Valid(ReferencedModel, v, isUrl) {
      FieldValid(ReferencedModel, v, 0, isUrl);
      FieldValid(ReferencedModel, v, 1, isUrl);
      FieldValid(ReferencedModel, v, 2, isUrl);
    }
    if ReferenceShape(v, isUrl) {
      var shape := ReferencedModel.shape;
      forall i | 0 <= i < |shape| && shape[i].key in v.fields
        ensures Valid(shape[i].schema, v.fields[shape[i].key], isUrl)
      {
        assert i in {0, 1, 2};
      }
      forall i | 0 <= i < |shape| && shape[i].key !in v.fields
        ensures shape[i].optional
      {
        assert i in {0, 1, 2};
      }
      ObjectValidIntro(ReferencedModel, v, isUrl);
    }
  }

  // Closed enumerations

  /** A context item names one of the thirteen built-in providers. */
  lemma ContextProviderClosed(v: Json, isUrl: string -> bool)
    requires Valid(ContextItem, v, isUrl)
    ensures "provider" in v.fields && v.fields["provider"].JStr? && v.fields["provider"].str in ProviderNames
  {
    FieldValid(ContextItem, v, 0, isUrl);
  }

  /** Any other provider name is reported on the item's `provider` as an invalid enum value. */
  lemma UnknownProviderReported(v: Json, path: Path, isUrl: string -> bool)
    requires v.JObj? && "provider" in v.fields && v.fields["provider"].JStr?
    requires v.fields["provider"].str !in ProviderNames
    ensures Issue(path + [Key("provider")], InvalidEnumValue, None) in Check(ContextItem, v, path, isUrl).issues
    ensures !Valid(ContextItem, v, isUrl)
  {
    EntryIssuesReported(ContextItem, v, path, 0, isUrl);
    CheckSound(ContextItem, v, path, isUrl);
  }

  /** Every element of a list of a closed enumeration is one of its options. */
  lemma EnumListClosed(options: seq<string>, x: Json, isUrl: string -> bool)
    requires Valid(ZArray(ZEnum(options)), x, isUrl)
    ensures x.JArr? && forall i :: 0 <= i < |x.items| ==> x.items[i].JStr? && x.items[i].str in options
  {
  }

  /** Roles of an explicit model come from the seven role names. */
  lemma RolesClosed(v: Json, isUrl: string -> bool)
    requires Valid(ExplicitModel, v, isUrl) && "roles" in v.fields
    ensures v.fields["roles"].JArr?
    ensures forall i :: 0 <= i < |v.fields["roles"].items| ==>
              v.fields["roles"].items[i].JStr? && v.fields["roles"].items[i].str in RoleNames
  {
    FieldValid(ExplicitModel, v, 6, isUrl);
    EnumListClosed(RoleNames, v.fields["roles"], isUrl);
  }

  /** Capabilities of an explicit model come from the two capability names. */
  lemma CapabilitiesClosed(v: Json, isUrl: string -> bool)
    requires Valid(ExplicitModel, v, isUrl) && "capabilities" in v.fields
    ensures v.fields["capabilities"].JArr?
    ensures forall i :: 0 <= i < |v.fields["capabilities"].items| ==>
              v.fields["capabilities"].items[i].JStr? && v.fields["capabilities"].items[i].str in CapabilityNames
  {
    FieldValid(ExplicitModel, v, 7, isUrl);
    EnumListClosed(CapabilityNames, v.fields["capabilities"], isUrl);
  }

  /** A data item's `schema` is "0.1.0" or "0.2.0", and its `level`, when given, is "all" or "noCode". */
  lemma DataEnumsClosed(v: Json, isUrl: string -> bool)
    requires Valid(DataItemObject, v, isUrl)
    ensures "schema" in v.fields && v.fields["schema"].JStr? && v.fields["schema"].str in DataSchemaVersions
    ensures "level" in v.fields ==> v.fields["level"].JStr? && v.fields["level"].str in Levels
  {
    FieldValid(DataItemObject, v, 2, isUrl);
    FieldValid(DataItemObject, v, 4, isUrl);
  }

  // Integer fields

  predicate IsInteger(n: real) {
    n == n.Floor as real
  }

  /** A whole number no smaller than `b`. */
  predicate WholeFrom(x: Json, b: real) {
    x.JNum? && IsInteger(x.num) && x.num >= b
  }

  /** `.int().positive()` accepts exactly the whole numbers from 1 up. */
  lemma PositiveIntForm(x: Json, isUrl: string -> bool)
    ensures Valid(PositiveInt, x, isUrl) <==> WholeFrom(x, 1.0)
  {
    var checks := [Int, Gt(0.0)];
    if Valid(PositiveInt, x, isUrl) {
      assert NumOk(checks[0], x.num) && NumOk(checks[1], x.num);
    }
  }

  /** `.int().min(b)` accepts exactly the whole numbers from `b` up. */
  lemma IntAtLeastForm(b: real, x: Json, isUrl: string -> bool)
    ensures Valid(IntAtLeast(b), x, isUrl) <==> WholeFrom(x, b)
  {
    var checks := [Int, Ge(b)];
    if Valid(IntAtLeast(b), x, isUrl) {
      assert NumOk(checks[0], x.num) && NumOk(checks[1], x.num);
    }
  }

  /** An object entry declared `.int().min(b)`, or `.int().positive()` with `b` = 1, holds a whole number from `b` up when present. */
  lemma WholeField(s: Schema, v: Json, i: nat, b: real, isUrl: string -> bool)
    requires s.ZObject? && i < |s.shape| && Valid(s, v, isUrl)
    requires s.shape[i].schema == IntAtLeast(b) || (s.shape[i].schema == PositiveInt && b == 1.0)
    ensures v.JObj? && (s.shape[i].key in v.fields ==> WholeFrom(v.fields[s.shape[i].key], b))
  {
    FieldValid(s, v, i, isUrl);
    if s.shape[i].key in v.fields {
      PositiveIntForm(v.fields[s.shape[i].key], isUrl);
      IntAtLeastForm(b, v.fields[s.shape[i].key], isUrl);
    }
  }

  /** `contextLength`, `maxTokens` and `reasoningBudgetTokens` are whole and positive; `topK` is whole and at least 1. */
  lemma CompletionBounds(c: Json, isUrl: string -> bool)
    requires Valid(CompletionOptions, c, isUrl)
    ensures "contextLength" in c.fields ==> WholeFrom(c.fields["contextLength"], 1.0)
    ensures "maxTokens" in c.fields ==> WholeFrom(c.fields["maxTokens"], 1.0)
    ensures "topK" in c.fields ==> WholeFrom(c.fields["topK"], 1.0)
    ensures "reasoningBudgetTokens" in c.fields ==> WholeFrom(c.fields["reasoningBudgetTokens"], 1.0)
  {
    CompletionIntegerEntries();
    WholeField(CompletionOptions, c, 0, 1.0, isUrl);
    WholeField(CompletionOptions, c, 1, 1.0, isUrl);
    WholeField(CompletionOptions, c, 4, 1.0, isUrl);
    WholeField(CompletionOptions, c, 7, 1.0, isUrl);
  }

  lemma CompletionIntegerEntries()
    ensures CompletionOptions.shape[0] == Opt("contextLength", PositiveInt)
    ensures CompletionOptions.shape[1] == Opt("maxTokens", PositiveInt)
    ensures CompletionOptions.shape[4] == Opt("topK", IntAtLeast(1.0))
    ensures CompletionOptions.shape[7] == Opt("reasoningBudgetTokens", PositiveInt)
  {
  }

  /** `maxChunkSize` is a whole number of at least 128 and `maxBatchSize` one of at least 1. */
  lemma EmbedBounds(e: Json, isUrl: string -> bool)
    requires Valid(EmbedOptions, e, isUrl)
    ensures "maxChunkSize" in e.fields ==> WholeFrom(e.fields["maxChunkSize"], 128.0)
    ensures "maxBatchSize" in e.fields ==> WholeFrom(e.fields["maxBatchSize"], 1.0)
  {
    WholeField(EmbedOptions, e, 0, 128.0, isUrl);
    WholeField(EmbedOptions, e, 1, 1.0, isUrl);
  }

  /** `maxPromptTokens` is whole and positive; `debounceDelay` and `modelTimeout` are whole and not negative. */
  lemma AutocompleteBounds(a: Json, isUrl: string -> bool)
    requires Valid(AutocompleteOptions, a, isUrl)
    ensures "maxPromptTokens" in a.fields ==> WholeFrom(a.fields["maxPromptTokens"], 1.0)
    ensures "debounceDelay" in a.fields ==> WholeFrom(a.fields["debounceDelay"], 0.0)
    ensures "modelTimeout" in a.fields ==> WholeFrom(a.fields["modelTimeout"], 0.0)
  {
    AutocompleteIntegerEntries();
    WholeField(AutocompleteOptions, a, 1, 1.0, isUrl);
    WholeField(AutocompleteOptions, a, 2, 0.0, isUrl);
    WholeField(AutocompleteOptions, a, 3, 0.0, isUrl);
  }

  lemma AutocompleteIntegerEntries()
    ensures AutocompleteOptions.shape[1] == Opt("maxPromptTokens", PositiveInt)
    ensures AutocompleteOptions.shape[2] == Opt("debounceDelay", IntAtLeast(0.0))
    ensures AutocompleteOptions.shape[3] == Opt("modelTimeout", IntAtLeast(0.0))
  {
  }

  /** An explicit model's `maxStopWords` is whole and not negative. */
  lemma MaxStopWordsBound(v: Json, isUrl: string -> bool)
    requires Valid(ExplicitModel, v, isUrl)
    ensures "maxStopWords" in v.fields ==> WholeFrom(v.fields["maxStopWords"], 0.0)
  {
    WholeField(ExplicitModel, v, 8, 0.0, isUrl);
  }

  /** A request's `timeout` is whole and positive. */
  lemma RequestTimeoutBound(r: Json, isUrl: string -> bool)
    requires Valid(RequestOptions, r, isUrl)
    ensures "timeout" in r.fields ==> WholeFrom(r.fields["timeout"], 1.0)
  {
    WholeField(RequestOptions, r, 0, 1.0, isUrl);
  }

  /** An MCP server's `connectionTimeout` is whole and positive. */
  lemma ConnectionTimeoutBound(m: Json, isUrl: string -> bool)
    requires Valid(McpServer, m, isUrl)
    ensures "connectionTimeout" in m.fields ==> WholeFrom(m.fields["connectionTimeout"], 1.0)
  {
    WholeField(McpServer, m, 6, 1.0, isUrl);
  }
}
