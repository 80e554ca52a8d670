/** Template configuration per method category (AbstractDocConfig.java,
    SetterDocConfig.java). The abstract contract and its subclasses become one class,
    DocConfig, whose per-category constants (display name, persistence key, default
    template) are a ConfigSpec value. */
module Config {

  /** IntelliJ's PropertiesComponent: a key -> string store. An absent key stands for
      a null value. `accessible` is false when reflective field access fails, which
      makes loadFields and saveFields throw IllegalAccessException. */
  class PropertiesComponent {
    var values: map<string, string>
    const accessible: bool

    constructor (values: map<string, string>, accessible: bool)
      ensures this.values == values && this.accessible == accessible
    {
      this.values := values;
      this.accessible := accessible;
    }
  }

  /** What a concrete config fixes: `getConfigName`, the @PropertyName key of its
      `template` field, and `getDefaultTemplate`. */
  datatype ConfigSpec = ConfigSpec(configName: string, key: string, defaultTemplate: string)

  const SETTER_DEFAULT_TEMPLATE: string :=
    "/**\n" +
    " * Setter for field $field.\n" +
    " *\n" +
    " * @param $field the value to set for the field.\n" +
    " */"

  /** SetterDocConfig's constants. */
  const SetterSpec: ConfigSpec := ConfigSpec("Setter", "gendoc.setter.template", SETTER_DEFAULT_TEMPLATE)

  /** The template a config holds right after its constructor: the stored value when
      loading works and finds a non-empty one, the default template otherwise. */
  function InitialTemplate(values: map<string, string>, accessible: bool, spec: ConfigSpec): (template: string)
    ensures accessible && spec.key in values && values[spec.key] != "" ==> template == values[spec.key]
    ensures !(accessible && spec.key in values && values[spec.key] != "") ==> template == spec.defaultTemplate
    ensures spec.defaultTemplate != "" ==> template != ""
  {
    if accessible && spec.key in values && values[spec.key] != "" then values[spec.key]
    else spec.defaultTemplate
  }

  datatype SaveOutcome =
    | Stored
    | PersistFailed  // IllegalAccessException from saveFields, rethrown as RuntimeException

  class DocConfig {
    const spec: ConfigSpec
    const store: PropertiesComponent
    var template: string

    /** Loads the stored template; a null or empty value, or a failing load, falls
        back to the default template. */
    constructor (spec: ConfigSpec, store: PropertiesComponent)
      ensures this.spec == spec && this.store == store
      ensures template == InitialTemplate(store.values, store.accessible, spec)
    {
      this.spec := spec;
      this.store := store;
      if store.accessible {
        var loaded: string := if spec.key in store.values then store.values[spec.key] else "";
        template := if loaded == "" then spec.defaultTemplate else loaded;
      } else {
        template := spec.defaultTemplate;
      }
    }

    /** `setTemplate`: overwrites the current template; nothing is stored. */
    method SetTemplate(t: string)
      modifies this`template
      ensures template == t
      ensures store.values == old(store.values)
    {
      template := t;
    }

    /** `save`: sets the current template first, then persists it under the
        config's key. A failing persist leaves the new current template in place. */
    method Save(t: string) returns (outcome: SaveOutcome)
      modifies this`template, store`values
      ensures template == t
      ensures outcome == (if store.accessible then Stored else PersistFailed)
      ensures store.values == if store.accessible then old(store.values)[spec.key := t] else old(store.values)
    {
      template := t;
      if store.accessible {
        store.values := store.values[spec.key := template];
        outcome := Stored;
      } else {
        outcome := PersistFailed;
      }
    }
  }

  /** A setter config never starts with an empty template. */
  lemma SetterTemplateNeverEmpty(values: map<string, string>, accessible: bool)
    ensures InitialTemplate(values, accessible, SetterSpec) != ""
    ensures InitialTemplate(values, accessible, SetterSpec) == SETTER_DEFAULT_TEMPLATE
      <== !accessible || SetterSpec.key !in values || values[SetterSpec.key] == ""
  {
  }

  /** Saving and loading again returns the saved text, except that an empty text
      comes back as the default template. */
  lemma SaveThenReload(values: map<string, string>, spec: ConfigSpec, t: string)
    ensures InitialTemplate(values[spec.key := t], true, spec) == if t == "" then spec.defaultTemplate else t
  {
  }
}
