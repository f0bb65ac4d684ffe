/**
  How the form keeps the store in step (src/components/form/FormRenderer.tsx):
  the watch callback that drafts, validates and publishes the form's values,
  the effect that resets the form when the store's configuration changes
  under it, and the "Reset to last valid config" button. react-hook-form's
  state is the `formValues` field; the ref is `lastSerialized`.
 */
module Form {
  import opened Wrappers
  import opened Json
  import opened Zod
  import opened Config
  import opened Runtime
  import opened Transformers
  import opened Store
  import ConfigReparse

  /** `ConfigSchema.safeParse(draft)`, as the watch callback uses it: on success the data conforms in turn. */
  function Parse(draft: Json, isUrl: string -> bool): (r: Parsed)
    ensures r.Success? <==> Valid(ConfigSchema, draft, isUrl)
    ensures r.Success? ==> r.data == Output(ConfigSchema, draft, isUrl) && Valid(ConfigSchema, r.data, isUrl)
  {
    var parsed := SafeParse(ConfigSchema, draft, isUrl);
    if parsed.Success? then
      ConfigReparse.ParsedConfigValid(draft, isUrl);
      parsed
    else
      parsed
  }

  class FormRenderer {
    const store: WizardStore
    /** The values the form holds. */
    var formValues: Json
    /** `lastSerialized.current`: the serialized form values the form last started from or published. */
    var lastSerialized: string

    /** `defaultValues` for a store holding `config`: the configuration as form values. */
    function FormValuesOf(config: Json): Json {
      ToFormValues(config, store.host.numberText)
    }

    /** `JSON.stringify(toFormValues(config))`: what the ref holds once the form shows `config`. */
    function SerializedOf(config: Json): string {
      store.host.jsonText(FormValuesOf(config))
    }

    /** The reset effect has nothing to do: the ref holds the serialized default values. */
    predicate Synced()
      reads this, store
    {
      lastSerialized == SerializedOf(store.config)
    }

    /** `useForm({defaultValues})` and `useRef(JSON.stringify(defaultValues))`. */
    constructor(store: WizardStore)
      ensures this.store == store
      ensures formValues == ToFormValues(store.config, store.host.numberText)
      ensures Synced()
    {
      this.store := store;
      formValues := ToFormValues(store.config, store.host.numberText);
      lastSerialized := store.host.jsonText(ToFormValues(store.config, store.host.numberText));
    }

    /**
      The `form.watch` callback. Missing or falsy values change nothing;
      other values are published.
     */
    method OnWatch(values: Option<Json>)
      modifies this, store
      ensures values.None? || !Truthy(values.value) ==>
                && store.config == old(store.config) && store.yaml == old(store.yaml)
                && lastSerialized == old(lastSerialized)
      ensures values.Some? && Truthy(values.value) ==> Published(values.value)
      ensures formValues == old(formValues) && store.mode == old(store.mode)
    {
      if values.None? || !Truthy(values.value) {
        return;
      }
      Publish(values.value);
    }

    /** What publishing `current` leaves behind (a two-state predicate over the store and the ref). */
    twostate predicate Published(current: Json)
      reads this, store
    {
      var draft := ToConfigDraft(current);
      if Valid(ConfigSchema, draft, store.host.isUrl) then
        && store.config == Output(ConfigSchema, draft, store.host.isUrl)
        && store.ConfigValid() && store.InSync() && Synced()
      else
        && store.config == old(store.config)
        && store.yaml == store.Render(draft)
        && lastSerialized == old(lastSerialized)
    }

    /**
      The body of the watch callback for values it accepts: the draft's YAML
      is shown at once; only a draft that passes `ConfigSchema` replaces the
      configuration (with what the parse returns), and then the ref is
      updated first so that the reset effect leaves the form alone.
     */
    method Publish(current: Json)
      modifies this, store
      ensures Published(current)
      ensures formValues == old(formValues) && store.mode == old(store.mode)
      ensures old(store.ConfigValid()) ==> store.ConfigValid()
      ensures old(Synced()) ==> Synced()
    {
      var draft := ToConfigDraft(current);
      var parsed := Parse(draft, store.host.isUrl);
      store.SetYaml(store.Render(draft));
      if parsed.Success? {
        lastSerialized := store.host.jsonText(ToFormValues(parsed.data, store.host.numberText));
        store.SetConfig(parsed.data);
      }
    }

    /**
      The effect on `defaultValues`: when the serialized default values
      differ from the ref, the ref takes them and the form is reset to them;
      otherwise nothing happens.
     */
    method SyncDefaults()
      modifies this
      ensures Synced()
      ensures old(Synced()) ==> formValues == old(formValues) && lastSerialized == old(lastSerialized)
      ensures !old(Synced()) ==> formValues == FormValuesOf(store.config)
    {
      var serialized := store.host.jsonText(ToFormValues(store.config, store.host.numberText));
      if serialized == lastSerialized {
        return;
      }
      lastSerialized := serialized;
      formValues := ToFormValues(store.config, store.host.numberText);
    }

    /** "Reset to last valid config": the form takes the store's configuration; the store is untouched. */
    method ResetToLastValid()
      modifies this
      ensures formValues == FormValuesOf(store.config) && lastSerialized == old(lastSerialized)
    {
      formValues := ToFormValues(store.config, store.host.numberText);
    }
  }
}
