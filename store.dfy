/**
  The wizard's state container (src/store/wizardStore.ts): the editing
  mode, the canonical configuration and the YAML text shown beside it.
 */
module Store {
  import opened Json
  import opened Zod
  import opened Config
  import opened Runtime
  import opened Yaml
  import ConfigFacts

  /** `WizardMode`. */
  datatype Mode = Form | Blocks

  /** The object `DEFAULT_CONFIG` is parsed from. */
  const DefaultInput := JObj(map["name" := JStr("Untitled Config"), "version" := JStr("0.0.1"), "schema" := JStr("v1")])

  lemma DefaultInputParses(isUrl: string -> bool)
    ensures SafeParse(ConfigSchema, DefaultInput, isUrl) == Success(DefaultInput)
  {
    var v := DefaultInput;
    assert v.fields.Keys <= ConfigFacts.ScalarKeys;
    assert ConfigFacts.NameOk(v) && ConfigFacts.VersionOk(v) && ConfigFacts.SchemaOk(v);
    ConfigFacts.ScalarDocumentParses(v, isUrl);
  }

  /** `DEFAULT_CONFIG`: `ConfigSchema.parse` succeeds on the default object and returns it unchanged. */
  function DefaultConfig(isUrl: string -> bool): (c: Json)
    ensures c == DefaultInput && Valid(ConfigSchema, c, isUrl)
  {
    DefaultInputParses(isUrl);
    SafeParse(ConfigSchema, DefaultInput, isUrl).data
  }

  class WizardStore {
    /** The libraries the store calls, fixed for its lifetime. */
    const host: Host
    var mode: Mode
    var config: Json
    var yaml: string

    /** `stringifyYaml(c)`, with its default line ending. */
    function Render(c: Json): (t: string)
      ensures t == host.yamlText(c)
    {
      StringifyYaml(c, host.yamlText)
    }

    /** The YAML text shows the configuration. */
    predicate InSync()
      reads this
    {
      yaml == Render(config)
    }

    /** The configuration conforms to `ConfigSchema`. */
    predicate ConfigValid()
      reads this
    {
      Valid(ConfigSchema, config, host.isUrl)
    }

    /** The store as `create` builds it: form mode, the default configuration and its YAML. */
    constructor(host: Host)
      ensures this.host == host
      ensures mode == Form && config == DefaultConfig(host.isUrl) && yaml == Render(config)
      ensures InSync() && ConfigValid()
    {
      this.host := host;
      mode := Form;
      config := DefaultConfig(host.isUrl);
      yaml := StringifyYaml(DefaultConfig(host.isUrl), host.yamlText);
    }

    /** `setMode`: only the mode changes. */
    method SetMode(m: Mode)
      modifies this
      ensures mode == m && config == old(config) && yaml == old(yaml)
      ensures old(InSync()) ==> InSync()
      ensures old(ConfigValid()) ==> ConfigValid()
    {
      mode := m;
    }

    /** `setConfig`: the configuration and its YAML change together; the mode stays. */
    method SetConfig(c: Json)
      modifies this
      ensures config == c && yaml == Render(c) && mode == old(mode)
      ensures InSync()
      ensures ConfigValid() <==> Valid(ConfigSchema, c, host.isUrl)
    {
      config := c;
      yaml := StringifyYaml(c, host.yamlText);
    }

    /** `setYaml`: only the text changes, so the store may fall out of sync. */
    method SetYaml(t: string)
      modifies this
      ensures yaml == t && config == old(config) && mode == old(mode)
      ensures InSync() <==> t == Render(config)
      ensures old(ConfigValid()) ==> ConfigValid()
    {
      yaml := t;
    }

    /** `reset`: back to the initial state, whatever came before. */
    method Reset()
      modifies this
      ensures mode == Form && config == DefaultConfig(host.isUrl) && yaml == Render(config)
      ensures InSync() && ConfigValid()
    {
      mode := Form;
      config := DefaultConfig(host.isUrl);
      yaml := StringifyYaml(DefaultConfig(host.isUrl), host.yamlText);
    }
  }
}
