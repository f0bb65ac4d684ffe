/** What the configuration schema accepts and reports, proved from its combinators. */
module ConfigFacts {
  import opened Wrappers
  import opened Json
  import opened Zod
  import opened Config

  /** The top-level keys the document may hold are exactly the ten it declares. */
  lemma ConfigKeys()
    ensures Keys(ConfigSchema.shape) == TopLevelKeys
  {
    DeclaredKeysAreTopLevel();
    TopLevelKeysAreDeclared();
  }

  lemma DeclaredKeysAreTopLevel()
    ensures Keys(ConfigSchema.shape) <= TopLevelKeys
  {
    var shape := ConfigSchema.shape;
    forall i | 0 <= i < |shape| ensures shape[i].key in TopLevelKeys {
      assert i in {0, 1, 2, 3, 4, 5, 6, 7, 8, 9};
    }
  }

  lemma TopLevelKeysAreDeclared()
    ensures TopLevelKeys <= Keys(ConfigSchema.shape)
  {
    var shape := ConfigSchema.shape;
    var keys := Keys(shape);
    assert shape[0].key in keys && shape[1].key in keys && shape[2].key in keys && shape[3].key in keys && shape[4].key in keys;
    assert shape[5].key in keys && shape[6].key in keys && shape[7].key in keys && shape[8].key in keys && shape[9].key in keys;
  }

  predicate NameOk(v: Json)
    requires v.JObj?
  {
    "name" in v.fields && v.fields["name"].JStr? && |v.fields["name"].str| >= 1
  }

  predicate VersionOk(v: Json)
    requires v.JObj?
  {
    "version" in v.fields && (v.fields["version"].JStr? || v.fields["version"].JNum?)
  }

  predicate SchemaOk(v: Json)
    requires v.JObj?
  {
    "schema" in v.fields && v.fields["schema"] == JStr("v1")
  }

  /** A key outside the ten declared ones is reported at the document root and makes the parse fail. */
  lemma UnknownTopLevelKeyRejected(v: Json, k: string, isUrl: string -> bool)
    requires v.JObj? && k in v.fields && k !in TopLevelKeys
    ensures Issue([], UnrecognizedKeys(v.fields.Keys - TopLevelKeys), None) in Check(ConfigSchema, v, [], isUrl).issues
    ensures SafeParse(ConfigSchema, v, isUrl).Failure?
  {
    ConfigKeys();
    StrictRejectsUnknown(ConfigSchema, v, [], isUrl);
  }

  /**
    An absent scalar is reported at its own key with the code its schema
    gives `undefined`: `invalid_type` for `name`, `invalid_union` for
    `version`, `invalid_literal` for `schema`; the parse fails.
   */
  lemma MissingScalarReported(v: Json, isUrl: string -> bool)
    requires v.JObj? && !(v.fields.Keys >= ScalarKeys)
    ensures "name" !in v.fields ==> Issue([Key("name")], InvalidType, None) in Check(ConfigSchema, v, [], isUrl).issues
    ensures "version" !in v.fields ==> Issue([Key("version")], InvalidUnion, None) in Check(ConfigSchema, v, [], isUrl).issues
    ensures "schema" !in v.fields ==> Issue([Key("schema")], InvalidLiteral, None) in Check(ConfigSchema, v, [], isUrl).issues
    ensures SafeParse(ConfigSchema, v, isUrl).Failure?
  {
    ScalarEntries();
    if "name" !in v.fields {
      MissingReported(ConfigSchema, v, [], 0, isUrl);
      assert [] + [Key("name")] == [Key("name")];
    }
    if "version" !in v.fields {
      MissingReported(ConfigSchema, v, [], 1, isUrl);
      assert [] + [Key("version")] == [Key("version")];
    }
    if "schema" !in v.fields {
      MissingReported(ConfigSchema, v, [], 2, isUrl);
      assert [] + [Key("schema")] == [Key("schema")];
    }
  }

  /** A conforming document has a non-empty string name, a string or number version, and schema "v1". */
  lemma TopLevelScalars(v: Json, isUrl: string -> bool)
    requires Valid(ConfigSchema, v, isUrl)
    ensures v.JObj? && NameOk(v) && VersionOk(v) && SchemaOk(v)
    ensures v.fields.Keys <= TopLevelKeys
  {
    ConfigKeys();
    NameOfValid(v, isUrl);
    VersionOfValid(v, isUrl);
    FieldValid(ConfigSchema, v, 2, isUrl);
  }

  lemma NameOfValid(v: Json, isUrl: string -> bool)
    requires Valid(ConfigSchema, v, isUrl)
    ensures v.JObj? && NameOk(v)
  {
    FieldValid(ConfigSchema, v, 0, isUrl);
    var checks := [MinLength(1, "name is required")];
    assert Valid(ZString(checks), v.fields["name"], isUrl);
    assert StrOk(checks[0], v.fields["name"].str, isUrl);
  }

  lemma VersionOfValid(v: Json, isUrl: string -> bool)
    requires Valid(ConfigSchema, v, isUrl)
    ensures v.JObj? && VersionOk(v)
  {
    FieldValid(ConfigSchema, v, 1, isUrl);
    UnionOfTwo(Str, ZNumber([]), v.fields["version"], isUrl);
  }

  const ScalarKeys := {"name", "version", "schema"}

  /** A document holding only the three scalar keys conforms exactly when each of them is as required. */
  lemma ScalarDocument(v: Json, isUrl: string -> bool)
    requires v.JObj? && v.fields.Keys <= ScalarKeys
    ensures Valid(ConfigSchema, v, isUrl) <==> NameOk(v) && VersionOk(v) && SchemaOk(v)
  {
    if NameOk(v) && VersionOk(v) && SchemaOk(v) {
      ScalarDocumentValid(v, isUrl);
    }
    if Valid(ConfigSchema, v, isUrl) {
      TopLevelScalars(v, isUrl);
    }
  }

  lemma ScalarDocumentValid(v: Json, isUrl: string -> bool)
    requires v.JObj? && v.fields.Keys <= ScalarKeys
    requires NameOk(v) && VersionOk(v) && SchemaOk(v)
    ensures Valid(ConfigSchema, v, isUrl)
  {
    ConfigKeys();
    ScalarEntriesValid(v, isUrl);
    ScalarAbsentOptional(v);
    ObjectValidIntro(ConfigSchema, v, isUrl);
  }

  lemma ScalarEntriesValid(v: Json, isUrl: string -> bool)
    requires v.JObj? && v.fields.Keys <= ScalarKeys
    requires NameOk(v) && VersionOk(v) && SchemaOk(v)
    ensures forall i :: 0 <= i < |ConfigSchema.shape| && ConfigSchema.shape[i].key in v.fields ==>
              Valid(ConfigSchema.shape[i].schema, v.fields[ConfigSchema.shape[i].key], isUrl)
  {
    var shape := ConfigSchema.shape;
    ScalarEntries();
    var checks := [MinLength(1, "name is required")];
    assert StrOk(checks[0], v.fields["name"].str, isUrl);
    UnionOfTwo(Str, ZNumber([]), v.fields["version"], isUrl);
  }

  /** The three scalar entries come first; every later one is an optional collection. */
  lemma ScalarEntries()
    ensures ConfigSchema.shape[0] == Req("name", ZString([MinLength(1, "name is required")]))
    ensures ConfigSchema.shape[1] == Req("version", ZUnion([Str, ZNumber([])]))
    ensures ConfigSchema.shape[2] == Req("schema", ZLiteral("v1"))
    ensures forall i :: 3 <= i < |ConfigSchema.shape| ==> ConfigSchema.shape[i].key !in ScalarKeys && ConfigSchema.shape[i].optional
  {
    var shape := ConfigSchema.shape;
    forall i | 3 <= i < |shape| ensures shape[i].key !in ScalarKeys && shape[i].optional {
      assert i in {3, 4, 5, 6, 7, 8, 9};
    }
  }

  lemma ScalarAbsentOptional(v: Json)
    requires v.JObj? && NameOk(v) && VersionOk(v) && SchemaOk(v)
    ensures forall i :: 0 <= i < |ConfigSchema.shape| && ConfigSchema.shape[i].key !in v.fields ==> ConfigSchema.shape[i].optional
  {
    ScalarEntries();
  }

  /** A conforming scalar-only document parses to itself: zod's `parse` returns it unchanged. */
  lemma ScalarDocumentParses(v: Json, isUrl: string -> bool)
    requires v.JObj? && v.fields.Keys <= ScalarKeys
    requires NameOk(v) && VersionOk(v) && SchemaOk(v)
    ensures SafeParse(ConfigSchema, v, isUrl) == Success(v)
  {
    ScalarDocumentValid(v, isUrl);
    ScalarOutput(v, isUrl);
  }

  lemma ScalarOutput(v: Json, isUrl: string -> bool)
    requires v.JObj? && v.fields.Keys <= ScalarKeys
    requires NameOk(v) && VersionOk(v) && SchemaOk(v)
    ensures Output(ConfigSchema, v, isUrl) == v
  {
    ConfigKeys();
    ScalarEntriesUnchanged(v, isUrl);
    OutputUnchanged(ConfigSchema, v, isUrl);
  }

  lemma ScalarEntriesUnchanged(v: Json, isUrl: string -> bool)
    requires v.JObj? && v.fields.Keys <= ScalarKeys
    requires NameOk(v) && VersionOk(v) && SchemaOk(v)
    ensures forall i :: 0 <= i < |ConfigSchema.shape| && ConfigSchema.shape[i].key in v.fields ==>
              && (forall j :: 0 <= j < i ==> ConfigSchema.shape[j].key != ConfigSchema.shape[i].key)
              && Output(ConfigSchema.shape[i].schema, v.fields[ConfigSchema.shape[i].key], isUrl) == v.fields[ConfigSchema.shape[i].key]
  {
    ScalarEntries();
    var version := ZUnion([Str, ZNumber([])]);
    assert Output(version, v.fields["version"], isUrl) == v.fields["version"] by {
      match FirstValid(version, 0, v.fields["version"], isUrl)
      case Some(j) => assert j in {0, 1};
      case None =>
    }
    var shape := ConfigSchema.shape;
    forall i | 0 <= i < |shape| && shape[i].key in v.fields
      ensures (forall j :: 0 <= j < i ==> shape[j].key != shape[i].key)
      ensures Output(shape[i].schema, v.fields[shape[i].key], isUrl) == v.fields[shape[i].key]
    {
      assert i in {0, 1, 2};
    }
  }

  /** The issue the refinement adds at a data item sitting at `path`. */
  function DestinationIssueAt(path: Path): (iss: Issue)
    ensures iss.path == path + [Key("destination")] && iss.code == Custom
    ensures iss.message == Some(DestinationMessage)
  {
    Issue(path + [Key("destination")], Custom, Some(DestinationMessage))
  }

  /** The destination of a data item whose object part was not aborted is a string, and the parse keeps it. */
  lemma DestinationKept(item: Json, path: Path, isUrl: string -> bool)
    requires !Check(DataItemObject, item, path, isUrl).aborted
    ensures item.JObj? && "destination" in item.fields && item.fields["destination"].JStr?
    ensures DestinationHolds(Output(DataItemObject, item, isUrl)) <==> SupportedDestination(item.fields["destination"].str)
  {
    RequiredNotAborted(DataItemObject, item, path, 1, isUrl);
    OutputField(DataItemObject, item, 1, isUrl);
  }

  /**
    On a data item whose object part conforms, the refinement adds exactly
    one issue, on the item's `destination`, with the schema's message, and
    only when the destination starts with neither "file://" nor "http://"
    nor "https://".
   */
  lemma DestinationRule(item: Json, path: Path, isUrl: string -> bool)
    requires Valid(DataItemObject, item, isUrl)
    ensures item.JObj? && "destination" in item.fields && item.fields["destination"].JStr?
    ensures Valid(DataItem, item, isUrl) <==> SupportedDestination(item.fields["destination"].str)
    ensures Check(DataItem, item, path, isUrl).issues ==
              if SupportedDestination(item.fields["destination"].str) then {} else {DestinationIssueAt(path)}
  {
    RefineOfValid(DataItem, item, path, isUrl);
    DestinationKept(item, path, isUrl);
  }

  /**
    zod runs the refinement on an item that is merely dirty too (an unknown
    key, say), so an unsupported destination is reported alongside the
    item's other issues.
   */
  lemma DestinationReportedWhenDirty(item: Json, path: Path, isUrl: string -> bool)
    requires !Check(DataItemObject, item, path, isUrl).aborted
    ensures item.JObj? && "destination" in item.fields && item.fields["destination"].JStr?
    ensures !SupportedDestination(item.fields["destination"].str) ==> DestinationIssueAt(path) in Check(DataItem, item, path, isUrl).issues
    ensures Check(DataItemObject, item, path, isUrl).issues <= Check(DataItem, item, path, isUrl).issues
  {
    RefineOfDirty(DataItem, item, path, isUrl);
    DestinationKept(item, path, isUrl);
  }

  lemma DataEntry()
    ensures ConfigSchema.shape[9] == Opt("data", ZArray(DataItem))
  {
  }

  /**
    A document is rejected when one of its data items has an unsupported
    destination and an object part that was not aborted (it may still be
    dirty, with an unknown key say); the issue names that item's
    `destination` by its index in `data`, with the refinement's message.
   */
  lemma DataDestinationReported(v: Json, i: nat, isUrl: string -> bool)
    requires v.JObj? && "data" in v.fields && v.fields["data"].JArr? && i < |v.fields["data"].items|
    requires !Check(DataItemObject, v.fields["data"].items[i], [Key("data"), Index(i)], isUrl).aborted
    requires !DestinationHolds(v.fields["data"].items[i])
    ensures DestinationIssueAt([Key("data"), Index(i)]) in Check(ConfigSchema, v, [], isUrl).issues
    ensures SafeParse(ConfigSchema, v, isUrl).Failure?
  {
    DataEntry();
    EntryIssuesReported(ConfigSchema, v, [], 9, isUrl);
    assert [] + [Key("data")] == [Key("data")];
    DataListDestinationReported(v.fields["data"], i, isUrl);
  }

  lemma DataListDestinationReported(list: Json, i: nat, isUrl: string -> bool)
    requires list.JArr? && i < |list.items|
    requires !Check(DataItemObject, list.items[i], [Key("data"), Index(i)], isUrl).aborted
    requires !DestinationHolds(list.items[i])
    ensures DestinationIssueAt([Key("data"), Index(i)]) in Check(ZArray(DataItem), list, [Key("data")], isUrl).issues
  {
    ElementIssuesReported(ZArray(DataItem), list, [Key("data")], i, isUrl);
    assert [Key("data")] + [Index(i)] == [Key("data"), Index(i)];
    DestinationReportedWhenDirty(list.items[i], [Key("data"), Index(i)], isUrl);
  }
}
