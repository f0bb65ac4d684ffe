/**
  The configuration schema is tame: each object declares each key once, and
  the destination refinement judges a data item as it judges its parsed
  form. So whatever `ConfigSchema` parses out of a document conforms to it
  again, which is what lets the store hold only conforming configurations.
 */
module ConfigReparse {
  import opened Json
  import opened Zod
  import opened Config

  lemma ClientCertificateTame(isUrl: string -> bool)
    ensures Tame(ClientCertificate, isUrl)
  {
  }

  lemma RequestOptionsTame(isUrl: string -> bool)
    ensures Tame(RequestOptions, isUrl)
  {
    var shape := RequestOptions.shape;
    assert DistinctKeys(shape);
    ClientCertificateTame(isUrl);
    forall i | 0 <= i < |shape| ensures Tame(shape[i].schema, isUrl) {
      assert i in {0, 1, 2, 3, 4, 5, 6, 7};
    }
  }

  lemma CompletionOptionsTame(isUrl: string -> bool)
    ensures Tame(CompletionOptions, isUrl)
  {
    var shape := CompletionOptions.shape;
    assert DistinctKeys(shape);
    forall i | 0 <= i < |shape| ensures Tame(shape[i].schema, isUrl) {
      assert i in {0, 1, 2, 3, 4, 5, 6, 7};
    }
  }

  lemma SmallOptionObjectsTame(isUrl: string -> bool)
    ensures Tame(EmbedOptions, isUrl) && Tame(ChatOptions, isUrl) && Tame(PromptTemplates, isUrl)
  {
  }

  lemma AutocompleteOptionsTame(isUrl: string -> bool)
    ensures Tame(AutocompleteOptions, isUrl)
  {
    var shape := AutocompleteOptions.shape;
    assert DistinctKeys(shape);
    forall i | 0 <= i < |shape| ensures Tame(shape[i].schema, isUrl) {
      assert i in {0, 1, 2, 3, 4, 5, 6, 7, 8, 9, 10, 11, 12};
    }
  }

  lemma ExplicitModelKeys()
    ensures DistinctKeys(ExplicitModel.shape)
  {
    ExplicitModelKeysFirst();
    ExplicitModelKeysMiddle();
    ExplicitModelKeysLast();
  }

  lemma ExplicitModelKeysFirst()
    ensures forall i, j :: 0 <= i < 5 && i < j < |ExplicitModel.shape| ==> ExplicitModel.shape[i].key != ExplicitModel.shape[j].key
  {
  }

  lemma ExplicitModelKeysMiddle()
    ensures forall i, j :: 5 <= i < 10 && i < j < |ExplicitModel.shape| ==> ExplicitModel.shape[i].key != ExplicitModel.shape[j].key
  {
  }

  lemma ExplicitModelKeysLast()
    ensures forall i, j :: 10 <= i < j < |ExplicitModel.shape| ==> ExplicitModel.shape[i].key != ExplicitModel.shape[j].key
  {
  }

  lemma ExplicitModelLeavesTame(isUrl: string -> bool)
    ensures forall i :: 0 <= i < 9 ==> Tame(ExplicitModel.shape[i].schema, isUrl)
  {
    var shape := ExplicitModel.shape;
    forall i | 0 <= i < 9 ensures Tame(shape[i].schema, isUrl) {
      assert i in {0, 1, 2, 3, 4, 5, 6, 7, 8};
    }
  }

  lemma ExplicitModelSmallOptionsTame(isUrl: string -> bool)
    ensures forall i :: 9 <= i < 12 ==> Tame(ExplicitModel.shape[i].schema, isUrl)
  {
    var shape := ExplicitModel.shape;
    SmallOptionObjectsTame(isUrl);
    assert shape[9].schema == PromptTemplates && shape[10].schema == ChatOptions && shape[11].schema == EmbedOptions;
  }

  lemma ExplicitModelLargeOptionsTame(isUrl: string -> bool)
    ensures forall i :: 12 <= i < 15 ==> Tame(ExplicitModel.shape[i].schema, isUrl)
  {
    var shape := ExplicitModel.shape;
    CompletionOptionsTame(isUrl);
    RequestOptionsTame(isUrl);
    AutocompleteOptionsTame(isUrl);
    assert shape[12].schema == CompletionOptions && shape[13].schema == RequestOptions && shape[14].schema == AutocompleteOptions;
  }

  lemma ExplicitModelTame(isUrl: string -> bool)
    ensures Tame(ExplicitModel, isUrl)
  {
    ExplicitModelKeys();
    ExplicitModelLeavesTame(isUrl);
    ExplicitModelSmallOptionsTame(isUrl);
    ExplicitModelLargeOptionsTame(isUrl);
  }

  lemma ModelItemTame(isUrl: string -> bool)
    ensures Tame(ModelItem, isUrl)
  {
    ExplicitModelTame(isUrl);
    PartialTame(ExplicitModel, isUrl);
    var shape := ReferencedModel.shape;
    assert Tame(shape[0].schema, isUrl) && Tame(shape[1].schema, isUrl) && Tame(shape[2].schema, isUrl);
    assert Tame(ReferencedModel, isUrl);
  }

  lemma McpServerTame(isUrl: string -> bool)
    ensures Tame(McpServer, isUrl)
  {
    var shape := McpServer.shape;
    assert DistinctKeys(shape);
    RequestOptionsTame(isUrl);
    forall i | 0 <= i < |shape| ensures Tame(shape[i].schema, isUrl) {
      assert i in {0, 1, 2, 3, 4, 5, 6};
    }
  }

  lemma PlainItemsTame(isUrl: string -> bool)
    ensures Tame(ContextItem, isUrl) && Tame(RuleItem, isUrl) && Tame(PromptItem, isUrl) && Tame(DocsItem, isUrl)
  {
  }

  /** Parsing keeps a data item's destination as it is, so the refinement's test sees through it. */
  lemma DestinationSeesThroughParse(w: Json, isUrl: string -> bool)
    ensures DestinationHolds(Output(DataItemObject, w, isUrl)) == DestinationHolds(w)
  {
    if w.JObj? {
      assert DataItemObject.shape[1].key == "destination";
      OutputKeys(DataItemObject, w, isUrl);
      if "destination" in w.fields {
        OutputField(DataItemObject, w, 1, isUrl);
      }
    }
  }

  lemma DataItemObjectTame(isUrl: string -> bool)
    ensures Tame(DataItemObject, isUrl)
  {
    var shape := DataItemObject.shape;
    assert DistinctKeys(shape);
    RequestOptionsTame(isUrl);
    forall i | 0 <= i < |shape| ensures Tame(shape[i].schema, isUrl) {
      assert i in {0, 1, 2, 3, 4, 5, 6};
    }
  }

  lemma DataItemTame(isUrl: string -> bool)
    ensures Tame(DataItem, isUrl)
  {
    DataItemObjectTame(isUrl);
    forall w ensures DestinationHolds(Output(DataItemObject, w, isUrl)) == DestinationHolds(w) {
      DestinationSeesThroughParse(w, isUrl);
    }
  }

  lemma ConfigKeysDistinct()
    ensures DistinctKeys(ConfigSchema.shape)
  {
  }

  lemma ConfigScalarsTame(isUrl: string -> bool)
    ensures Tame(ConfigSchema.shape[0].schema, isUrl) && Tame(ConfigSchema.shape[1].schema, isUrl)
    ensures Tame(ConfigSchema.shape[2].schema, isUrl)
  {
  }

  lemma ConfigModelsTame(isUrl: string -> bool)
    ensures Tame(ConfigSchema.shape[3].schema, isUrl)
  {
    ModelItemTame(isUrl);
  }

  lemma ConfigPlainListsTame(isUrl: string -> bool)
    ensures Tame(ConfigSchema.shape[4].schema, isUrl) && Tame(ConfigSchema.shape[5].schema, isUrl)
    ensures Tame(ConfigSchema.shape[6].schema, isUrl) && Tame(ConfigSchema.shape[7].schema, isUrl)
  {
    PlainItemsTame(isUrl);
  }

  lemma ConfigMcpServersTame(isUrl: string -> bool)
    ensures Tame(ConfigSchema.shape[8].schema, isUrl)
  {
    McpServerTame(isUrl);
  }

  lemma ConfigDataTame(isUrl: string -> bool)
    ensures Tame(ConfigSchema.shape[9].schema, isUrl)
  {
    DataItemTame(isUrl);
  }

  lemma ConfigSchemaTame(isUrl: string -> bool)
    ensures Tame(ConfigSchema, isUrl)
  {
    var shape := ConfigSchema.shape;
    ConfigScalarsTame(isUrl);
    ConfigModelsTame(isUrl);
    ConfigPlainListsTame(isUrl);
    ConfigMcpServersTame(isUrl);
    ConfigDataTame(isUrl);
    EntriesTameUpTo(shape, 0, isUrl);
    EntriesTameUpTo(shape, 1, isUrl);
    EntriesTameUpTo(shape, 2, isUrl);
    EntriesTameUpTo(shape, 3, isUrl);
    EntriesTameUpTo(shape, 4, isUrl);
    EntriesTameUpTo(shape, 5, isUrl);
    EntriesTameUpTo(shape, 6, isUrl);
    EntriesTameUpTo(shape, 7, isUrl);
    EntriesTameUpTo(shape, 8, isUrl);
    EntriesTameUpTo(shape, 9, isUrl);
    ConfigKeysDistinct();
    ObjectTame(shape, Strict, isUrl);
  }

  /** What `ConfigSchema.safeParse` returns on success conforms to `ConfigSchema` in turn. */
  lemma ParsedConfigValid(v: Json, isUrl: string -> bool)
    requires Valid(ConfigSchema, v, isUrl)
    ensures Valid(ConfigSchema, Output(ConfigSchema, v, isUrl), isUrl)
  {
    ConfigSchemaTame(isUrl);
    OutputValid(ConfigSchema, v, isUrl);
  }
}
