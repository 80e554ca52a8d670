/** A template being edited in the settings dialog (Template.java). */
module ConfigurationTemplate {
  import opened Psi
  import opened Config
  import opened Generator

  class Template {
    /** The edited content; None until `setContent` or `reset` is called. */
    var content: Option<string>
    const config: DocConfig

    constructor (config: DocConfig)
      ensures this.config == config && content == None
    {
      this.config := config;
      content := None;
    }

    /** `setContent`. */
    method SetContent(c: string)
      modifies this`content
      ensures content == Some(c)
    {
      content := Some(c);
    }

    /** `save`: hands the edited content to the config's `save`; the content itself
        stays as it is. The config's `save` takes a non-null template. */
    method Save() returns (outcome: SaveOutcome)
      requires content.Some?
      modifies config`template, config.store`values
      ensures config.template == content.value
      ensures outcome == (if config.store.accessible then Stored else PersistFailed)
      ensures config.store.values ==
        if config.store.accessible then old(config.store.values)[config.spec.key := content.value]
        else old(config.store.values)
    {
      outcome := config.Save(content.value);
    }

    /** `reset`: the edited content becomes the config's current template. */
    method Reset()
      modifies this`content
      ensures content == Some(config.template)
    {
      content := Some(config.template);
    }

    /** `validate`: false without a project in focus; otherwise the generator's
        verdict on the content. A null content makes rendering throw, which
        `validateTemplate` reports as false. Nothing is changed. */
    method Validate(focusProject: Option<Project>, engine: Engine) returns (valid: bool)
      ensures valid <==> focusProject.Some? && content.Some? && ValidateTemplate(engine, focusProject, content.value)
    {
      valid := false;
      if focusProject.Some? {
        var generator := new JavadocGenerator(focusProject, false, engine);
        if content.Some? {
          valid := ValidateTemplate(generator.engine, generator.project, content.value);
        }
      }
    }
  }
}
