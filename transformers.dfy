/**
  The two conversions between the stored configuration and the values the
  form edits (src/lib/form/transformers.ts). The form schema narrows
  `version` to a string; `toFormValues` prints a numeric version, and
  `toConfigDraft` rebuilds a configuration from whatever the form holds.
 */
module Transformers {
  import opened Json
  import opened Text
  import opened Zod
  import opened Config
  import ConfigFacts
  import ConfigReparse

  /** `ConfigFormSchema`: `ConfigSchema.extend({version: z.string()})`. */
  const FormSchema := Extend(ConfigSchema, 1, Str)

  /** The seven optional collections the draft copies when non-empty (listed in the source's order; the object built from them does not keep it). */
  const CollectionKeys := ["models", "context", "rules", "prompts", "docs", "mcpServers", "data"]

  /** The collections are top-level keys, distinct from the three scalar ones. */
  lemma CollectionKeysAreTopLevel()
    ensures "name" !in CollectionKeys && "version" !in CollectionKeys && "schema" !in CollectionKeys
    ensures forall k :: k in CollectionKeys ==> k in TopLevelKeys
  {
    forall k | k in CollectionKeys ensures k in TopLevelKeys {
      var i :| 0 <= i < |CollectionKeys| && CollectionKeys[i] == k;
      assert i in {0, 1, 2, 3, 4, 5, 6};
    }
  }

  /** `values.k`, with a missing key read as null: both are falsy and neither is a string. */
  function Member(values: Json, k: string): Json {
    if k in Props(values) then Props(values)[k] else JNull
  }

  /** The form's version: a number is printed, anything else is kept. */
  function FormVersion(version: Json, numberText: real -> string): Json {
    if version.JNum? then JStr(numberText(version.num)) else version
  }

  /** `toFormValues`: `{...config, version}` with a numeric version printed as text. */
  function ToFormValues(config: Json, numberText: real -> string): (r: Json)
    ensures r.JObj? <==> config.JObj?
    ensures config.JObj? ==> r.fields.Keys == config.fields.Keys
    ensures forall k :: k in Props(config) && k != "version" ==> Props(r)[k] == Props(config)[k]
    ensures "version" in Props(config) && Props(config)["version"].JNum? ==>
              Props(r)["version"] == JStr(numberText(Props(config)["version"].num))
    ensures "version" in Props(config) && !Props(config)["version"].JNum? ==> Props(r)["version"] == Props(config)["version"]
  {
    if config.JObj? && "version" in config.fields then
      JObj(config.fields["version" := FormVersion(config.fields["version"], numberText)])
    else
      config
  }

  /** `typeof x === "string" ? x.trim() : ""`. */
  function TrimmedText(x: Json): string {
    if x.JStr? then Trim(x.str) else ""
  }

  /** `x && x.length > 0`, for the arrays and strings a form holds. */
  predicate Populated(x: Json) {
    (x.JArr? && |x.items| > 0) || (x.JStr? && |x.str| > 0)
  }

  /**
    `toConfigDraft`: the trimmed name and version (or "" where they are not
    strings), schema "v1", and each of the seven collections exactly when
    the form holds it non-empty, as it is (the conditional spreads of
    `values.k && values.k.length > 0`). Nothing else survives.
   */
  function ToConfigDraft(values: Json): (d: Json)
    ensures d.JObj? && d.fields.Keys <= TopLevelKeys
    ensures "name" in d.fields && d.fields["name"] == JStr(TrimmedText(Member(values, "name")))
    ensures "version" in d.fields && d.fields["version"] == JStr(TrimmedText(Member(values, "version")))
    ensures "schema" in d.fields && d.fields["schema"] == JStr("v1")
    ensures forall k :: k in CollectionKeys ==> (k in d.fields <==> Populated(Member(values, k)))
    ensures forall k :: k in CollectionKeys && k in d.fields ==> d.fields[k] == Member(values, k)
  {
    var base := map[
      "name" := JStr(TrimmedText(Member(values, "name"))),
      "version" := JStr(TrimmedText(Member(values, "version"))),
      "schema" := JStr("v1")
    ];
    CollectionKeysAreTopLevel();
    JObj(base + map k | k in CollectionKeys && Populated(Member(values, k)) :: Member(values, k))
  }

  /** A draft's version is already a string, so the form shows a draft as it is. */
  lemma FormValuesOfDraft(values: Json, numberText: real -> string)
    ensures ToFormValues(ToConfigDraft(values), numberText) == ToConfigDraft(values)
  {
    var d := ToConfigDraft(values);
    assert d.fields["version" := d.fields["version"]] == d.fields;
  }

  /** Every top-level key is one of the three scalars or one of the seven collections. */
  lemma TopLevelKeySplit(k: string)
    requires k in TopLevelKeys
    ensures k == "name" || k == "version" || k == "schema" || k in CollectionKeys
  {
    if k !in {"name", "version", "schema"} {
      assert k in {"models", "context", "rules", "prompts", "docs", "mcpServers", "data"};
      assert CollectionKeys[0] == "models" && CollectionKeys[1] == "context" && CollectionKeys[2] == "rules";
      assert CollectionKeys[3] == "prompts" && CollectionKeys[4] == "docs" && CollectionKeys[5] == "mcpServers";
      assert CollectionKeys[6] == "data";
    }
  }

  /** A string `trim` leaves as it is. */
  predicate IsTrimmedText(x: Json) {
    x.JStr? && Trim(x.str) == x.str
  }

  /** The keys and entries every draft has: top-level keys only, schema "v1", non-empty collections. */
  predicate IsDraftShape(d: Json) {
    && d.JObj? && d.fields.Keys <= TopLevelKeys
    && "name" in d.fields && "version" in d.fields
    && "schema" in d.fields && d.fields["schema"] == JStr("v1")
    && forall k :: k in CollectionKeys && k in d.fields ==> Populated(d.fields[k])
  }

  /** What every draft looks like: that shape, with a trimmed name and version. */
  predicate IsDraft(d: Json) {
    IsDraftShape(d) && IsTrimmedText(d.fields["name"]) && IsTrimmedText(d.fields["version"])
  }

  lemma TrimmedTextIsTrimmed(x: Json)
    ensures IsTrimmedText(JStr(TrimmedText(x)))
  {
    if x.JStr? {
      TrimIdempotent(x.str);
    }
  }

  /** Every draft is of that form. */
  lemma DraftIsDraft(values: Json)
    ensures IsDraft(ToConfigDraft(values))
  {
    TrimmedTextIsTrimmed(Member(values, "name"));
    TrimmedTextIsTrimmed(Member(values, "version"));
  }

  /** Drafting a draft gives it back. */
  lemma DraftFixed(d: Json)
    requires IsDraft(d)
    ensures ToConfigDraft(d) == d
  {
    DraftKeysFixed(d);
    DraftEntriesFixed(d);
    SameFields(ToConfigDraft(d), d);
  }

  lemma DraftKeysFixed(d: Json)
    requires IsDraft(d)
    ensures forall k :: k in d.fields <==> k in ToConfigDraft(d).fields
  {
    forall k | k in d.fields ensures k in ToConfigDraft(d).fields {
      DraftEntryFixed(d, k);
    }
    forall k | k in ToConfigDraft(d).fields ensures k in d.fields {
      DraftKeyBack(d, k);
    }
  }

  lemma DraftEntriesFixed(d: Json)
    requires IsDraft(d)
    ensures forall k :: k in d.fields ==> k in ToConfigDraft(d).fields && ToConfigDraft(d).fields[k] == d.fields[k]
  {
    forall k | k in d.fields ensures k in ToConfigDraft(d).fields && ToConfigDraft(d).fields[k] == d.fields[k] {
      DraftEntryFixed(d, k);
    }
  }

  /** Two objects with the same keys and the same entries are equal. */
  lemma SameFields(a: Json, b: Json)
    requires a.JObj? && b.JObj? && forall k :: k in a.fields <==> k in b.fields
    requires forall k :: k in a.fields ==> a.fields[k] == b.fields[k]
    ensures a == b
  {
    assert a.fields == b.fields;
  }

  lemma DraftKeyBack(d: Json, k: string)
    requires IsDraftShape(d) && k in ToConfigDraft(d).fields
    ensures k in d.fields
  {
    TopLevelKeySplit(k);
    if k in CollectionKeys {
      assert Populated(Member(d, k));
    }
  }

  lemma DraftEntryFixed(d: Json, k: string)
    requires IsDraft(d) && k in d.fields
    ensures k in ToConfigDraft(d).fields && ToConfigDraft(d).fields[k] == d.fields[k]
  {
    TopLevelKeySplit(k);
    if k in CollectionKeys {
    } else if k == "name" {
    } else if k == "version" {
    }
  }

  /** Drafting is idempotent. */
  lemma DraftIdempotent(values: Json)
    ensures ToConfigDraft(ToConfigDraft(values)) == ToConfigDraft(values)
  {
    DraftIsDraft(values);
    DraftFixed(ToConfigDraft(values));
  }

  /** Form values round-trip: drafting what the form shows for a draft gives that draft back. */
  lemma DraftRoundTrip(values: Json, numberText: real -> string)
    ensures ToConfigDraft(ToFormValues(ToConfigDraft(values), numberText)) == ToConfigDraft(values)
  {
    FormValuesOfDraft(values, numberText);
    DraftIdempotent(values);
  }

  /** The form schema accepts the form values of every conforming configuration. */
  lemma FormValuesConform(config: Json, numberText: real -> string, isUrl: string -> bool)
    requires Valid(ConfigSchema, config, isUrl)
    ensures config.JObj? && "version" in config.fields
    ensures Valid(FormSchema, ToFormValues(config, numberText), isUrl)
  {
    ConfigFacts.TopLevelScalars(config, isUrl);
    var x := FormVersion(config.fields["version"], numberText);
    assert Valid(Str, x, isUrl);
    ConfigReparse.ConfigKeysDistinct();
    VersionEntry();
    ExtendValid(ConfigSchema, 1, Str, config, x, isUrl);
  }

  lemma VersionEntry()
    ensures ConfigSchema.shape[1].key == "version"
  {
  }

  /** A draft conforms only when the trimmed name is non-empty: a blank name is never accepted. */
  lemma DraftNeedsName(values: Json, isUrl: string -> bool)
    requires Valid(ConfigSchema, ToConfigDraft(values), isUrl)
    ensures TrimmedText(Member(values, "name")) != ""
  {
    ConfigFacts.TopLevelScalars(ToConfigDraft(values), isUrl);
  }

  /** A form whose collections are all empty or missing drafts to the three scalars only. */
  lemma ScalarDraftKeys(values: Json)
    requires forall k :: k in CollectionKeys ==> !Populated(Member(values, k))
    ensures ToConfigDraft(values).fields.Keys <= ConfigFacts.ScalarKeys
  {
    var d := ToConfigDraft(values);
    forall k | k in d.fields ensures k in ConfigFacts.ScalarKeys {
      TopLevelKeySplit(k);
    }
  }

  /**
    With no collection filled in, the draft conforms exactly when the trimmed
    name is non-empty, and then `safeParse` returns the draft itself.
   */
  lemma ScalarDraft(values: Json, isUrl: string -> bool)
    requires forall k :: k in CollectionKeys ==> !Populated(Member(values, k))
    ensures Valid(ConfigSchema, ToConfigDraft(values), isUrl) <==> TrimmedText(Member(values, "name")) != ""
    ensures TrimmedText(Member(values, "name")) != "" ==>
              SafeParse(ConfigSchema, ToConfigDraft(values), isUrl) == Success(ToConfigDraft(values))
  {
    var d := ToConfigDraft(values);
    ScalarDraftKeys(values);
    ConfigFacts.ScalarDocument(d, isUrl);
    if TrimmedText(Member(values, "name")) != "" {
      ConfigFacts.ScalarDocumentParses(d, isUrl);
    }
  }
}
