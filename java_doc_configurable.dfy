/** The settings page with one template per category (JavaDocConfigurable.java).
    The Swing list and text area become the selected index and the text-area string. */
module ConfigurationDialog {
  import opened Psi
  import opened Config
  import opened Generator
  import opened ConfigurationTemplate

  datatype ApplyOutcome =
    | Applied
    | NoSelection                                     // templateMap.get(-1) is null
    | InvalidTemplate(slot: nat, configName: string)  // ConfigurationException naming the config
    | SaveFailed(slot: nat)                           // RuntimeException from the config's save

  /** What validating and saving one slot came to. */
  datatype SlotOutcome = SlotSaved | SlotInvalid | SlotSaveFailed

  /** How many slots, from slot 0 on, `apply` validated and saved before it stopped. */
  function SavedCount(outcome: ApplyOutcome): nat
  {
    match outcome
    case Applied => 2
    case NoSelection => 0
    case InvalidTemplate(slot, _) => slot
    case SaveFailed(slot) => slot
  }

  /** What a text area shows after setText(content): a null content empties it. */
  function TextOf(content: Option<string>): string
  {
    if content.Some? then content.value else ""
  }

  class JavaDocConfigurable {
    /** `templateMap`: slot 0 holds the getter template, slot 1 the setter template. */
    const templateMap: seq<Template>
    /** The list's selected index; -1 when nothing is selected. */
    var selectedIndex: int
    var textArea: string

    ghost predicate Valid()
    {
      && |templateMap| == 2
      && templateMap[0] != templateMap[1]
      && templateMap[0].config != templateMap[1].config
      && templateMap[0].config.store == templateMap[1].config.store
    }

    /** A slot whose content `validate` accepts. */
    ghost predicate Accepted(k: nat, focusProject: Option<Project>, engine: Engine)
      requires Valid() && k < 2
      reads templateMap[k]
    {
      templateMap[k].content.Some? && ValidateTemplate(engine, focusProject, templateMap[k].content.value)
    }

    /** The store after saving the contents of slots 0 .. n-1 in order. */
    ghost function Persisted(base: map<string, string>, n: nat): map<string, string>
      requires Valid() && n <= 2
      reads templateMap
    {
      if n == 0 then base
      else Persisted(base, n - 1)[templateMap[n - 1].config.spec.key := TextOf(templateMap[n - 1].content)]
    }

    /** The field initializer of `templateMap` (a getter and a setter config loaded
        from the same store); nothing is selected yet. */
    constructor (getterSpec: ConfigSpec, store: PropertiesComponent)
      ensures Valid()
      ensures templateMap[0].config.spec == getterSpec && templateMap[1].config.spec == SetterSpec
      ensures templateMap[0].config.store == store
      ensures templateMap[0].config.template == InitialTemplate(store.values, store.accessible, getterSpec)
      ensures templateMap[1].config.template == InitialTemplate(store.values, store.accessible, SetterSpec)
      ensures templateMap[0].content.None? && templateMap[1].content.None?
      ensures selectedIndex == -1 && textArea == ""
    {
      var getterConfig := new DocConfig(getterSpec, store);
      var setterConfig := new DocConfig(SetterSpec, store);
      var getter := new Template(getterConfig);
      var setter := new Template(setterConfig);
      templateMap := [getter, setter];
      selectedIndex := -1;
      textArea := "";
    }

    /** `isModified` always reports a change. */
    function IsModified(): (modified: bool)
      ensures modified
    {
      true
    }

    /** `select`: selects a slot and shows its config's stored template, not the
        edited content. It is only ever called with slot 0. */
    method Select(index: int)
      requires Valid() && 0 <= index < 2
      modifies this`selectedIndex, this`textArea
      ensures selectedIndex == index
      ensures textArea == templateMap[index].config.template
    {
      selectedIndex := index;
      textArea := templateMap[index].config.template;
    }

    /** `createComponent`: fills the list, installs the selection listener
        (ListSelectionChanged) and selects slot 0. */
    method CreateComponent()
      requires Valid()
      modifies this`selectedIndex, this`textArea
      ensures selectedIndex == 0 && textArea == templateMap[0].config.template
    {
      Select(0);
    }

    /** The selection listener, run after the list's selection became `newIndex`.
        On an adjusting event to a slot in range, the text area is stored into slot
        1 - newIndex and then shows slot newIndex's edited content. */
    method ListSelectionChanged(isAdjusting: bool, newIndex: int)
      requires Valid()
      modifies this`selectedIndex, this`textArea, templateMap
      ensures selectedIndex == newIndex
      ensures isAdjusting && 0 <= newIndex < 2 ==>
        && templateMap[1 - newIndex].content == Some(old(textArea))
        && templateMap[newIndex].content == old(templateMap[newIndex].content)
        && textArea == TextOf(old(templateMap[newIndex].content))
      ensures !(isAdjusting && 0 <= newIndex < 2) ==>
        && textArea == old(textArea)
        && templateMap[0].content == old(templateMap[0].content)
        && templateMap[1].content == old(templateMap[1].content)
      // Moving from one slot to the other stores the edited text in the slot that was shown.
      ensures isAdjusting && 0 <= newIndex < 2 && 0 <= old(selectedIndex) < 2 && old(selectedIndex) != newIndex ==>
        templateMap[old(selectedIndex)].content == Some(old(textArea))
    {
      selectedIndex := newIndex;
      if isAdjusting {
        if selectedIndex >= 0 && selectedIndex < |templateMap| {
          templateMap[1 - selectedIndex].SetContent(textArea);
          var content := templateMap[selectedIndex].content;
          textArea := TextOf(content);
        }
      }
    }

    /** `reset`: every slot's content becomes its config's current template, then
        slot 0 is selected. */
    method Reset()
      requires Valid()
      modifies this`selectedIndex, this`textArea, templateMap
      ensures forall k :: 0 <= k < 2 ==> templateMap[k].content == Some(templateMap[k].config.template)
      ensures selectedIndex == 0 && textArea == templateMap[0].config.template
    {
      for k := 0 to |templateMap|
        invariant forall j :: 0 <= j < k ==> templateMap[j].content == Some(templateMap[j].config.template)
      {
        templateMap[k].Reset();
      }
      Select(0);
    }

    /** The templates of the slots' configs, in slot order. */
    ghost function ConfigTemplates(): seq<string>
      requires Valid()
      reads templateMap[0].config, templateMap[1].config
    {
      [templateMap[0].config.template, templateMap[1].config.template]
    }

    /** The state `apply`'s loop leaves behind, given how it ended, from a store
        holding `baseValues` and configs holding `baseTemplates`: the slots before
        the stopping point were accepted and saved in slot order into a store that
        accepts writes (a failing save ends the loop at the first slot); the slot it
        stopped at is named, and was rejected or accepted but not persisted;
        every later config kept its template. */
    ghost predicate SavedInOrder(outcome: ApplyOutcome, focusProject: Option<Project>, engine: Engine,
                                 baseValues: map<string, string>, baseTemplates: seq<string>)
      requires Valid()
      reads templateMap, templateMap[0].config, templateMap[1].config, templateMap[0].config.store
    {
      var store := templateMap[0].config.store;
      && |baseTemplates| == 2
      && !outcome.NoSelection?
      && SavedCount(outcome) <= 2
      && (outcome.InvalidTemplate? || outcome.SaveFailed? ==> SavedCount(outcome) < 2)
      && (SavedCount(outcome) > 0 ==> store.accessible)
      && (forall k :: 0 <= k < SavedCount(outcome) ==>
            Accepted(k, focusProject, engine) && templateMap[k].config.template == templateMap[k].content.value)
      && (outcome.InvalidTemplate? ==>
            && !Accepted(outcome.slot, focusProject, engine)
            && outcome.configName == templateMap[outcome.slot].config.spec.configName)
      && (outcome.SaveFailed? ==>
            && !store.accessible
            && Accepted(outcome.slot, focusProject, engine)
            && templateMap[outcome.slot].config.template == templateMap[outcome.slot].content.value)
      && (forall k :: SavedCount(outcome) <= k < 2 && !(outcome.SaveFailed? && k == outcome.slot) ==>
            templateMap[k].config.template == baseTemplates[k])
      && store.values == if store.accessible then Persisted(baseValues, SavedCount(outcome)) else baseValues
    }

    /** `apply`: copies the text area into the selected slot, then validates and
        saves the slots in order (SaveInOrder). Without a selection the text area
        has nowhere to go and nothing changes. */
    method Apply(focusProject: Option<Project>, engine: Engine) returns (outcome: ApplyOutcome)
      requires Valid()
      modifies templateMap, templateMap[0].config, templateMap[1].config, templateMap[0].config.store
      ensures outcome.NoSelection? <==> !(0 <= selectedIndex < 2)
      ensures outcome.NoSelection? ==>
        && (forall k :: 0 <= k < 2 ==> templateMap[k].content == old(templateMap[k].content))
        && ConfigTemplates() == old(ConfigTemplates())
        && templateMap[0].config.store.values == old(templateMap[0].config.store.values)
      ensures !outcome.NoSelection? ==>
        && templateMap[selectedIndex].content == Some(textArea)
        && templateMap[1 - selectedIndex].content == old(templateMap[1 - selectedIndex].content)
        && SavedInOrder(outcome, focusProject, engine, old(templateMap[0].config.store.values), old(ConfigTemplates()))
    {
      if !(0 <= selectedIndex < |templateMap|) {
        return NoSelection;
      }
      templateMap[selectedIndex].SetContent(textArea);
      outcome := SaveInOrder(focusProject, engine);
    }

    /** The loop of `apply`: each slot in turn is validated, then saved; the first
        invalid template or failing save ends it. The contents are not changed. */
    method SaveInOrder(focusProject: Option<Project>, engine: Engine) returns (outcome: ApplyOutcome)
      requires Valid()
      modifies templateMap[0].config, templateMap[1].config, templateMap[0].config.store
      ensures SavedInOrder(outcome, focusProject, engine, old(templateMap[0].config.store.values), old(ConfigTemplates()))
    {
      var store := templateMap[0].config.store;
      ghost var base := store.values;
      ghost var templates := ConfigTemplates();
      for k := 0 to |templateMap|
        invariant forall j :: 0 <= j < k ==>
          Accepted(j, focusProject, engine) && templateMap[j].config.template == templateMap[j].content.value
        invariant forall j :: k <= j < 2 ==> templateMap[j].config.template == templates[j]
        invariant k > 0 ==> store.accessible
        invariant store.values == if store.accessible then Persisted(base, k) else base
      {
        var slot := ValidateAndSave(k, focusProject, engine);
        if slot == SlotInvalid {
          return InvalidTemplate(k, templateMap[k].config.spec.configName);
        }
        if slot == SlotSaveFailed {
          return SaveFailed(k);
        }
      }
      return Applied;
    }

    /** One iteration of `apply`'s loop: validate the slot, then save it. */
    method ValidateAndSave(k: nat, focusProject: Option<Project>, engine: Engine) returns (slot: SlotOutcome)
      requires Valid() && k < 2
      modifies templateMap[k].config, templateMap[0].config.store
      ensures slot == SlotInvalid <==> !Accepted(k, focusProject, engine)
      ensures slot == SlotSaveFailed <==> Accepted(k, focusProject, engine) && !templateMap[0].config.store.accessible
      ensures slot == SlotInvalid ==>
        && templateMap[k].config.template == old(templateMap[k].config.template)
        && templateMap[0].config.store.values == old(templateMap[0].config.store.values)
      ensures slot != SlotInvalid ==>
        && templateMap[k].config.template == templateMap[k].content.value
        && templateMap[0].config.store.values ==
             if templateMap[0].config.store.accessible
             then old(templateMap[0].config.store.values)[templateMap[k].config.spec.key := templateMap[k].content.value]
             else old(templateMap[0].config.store.values)
    {
      var template := templateMap[k];
      var valid := template.Validate(focusProject, engine);
      if !valid {
        return SlotInvalid;
      }
      var saved := template.Save();
      slot := if saved.PersistFailed? then SlotSaveFailed else SlotSaved;
    }
  }
}
