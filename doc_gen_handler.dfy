/** The generating action (DocGenHandler.java): it finds the class under the caret,
    offers the class's methods of the handler's category, and writes comments into
    the chosen ones, getters first and setters second. The dialog itself is not
    modelled: whether the project was disposed, the exit code and the chosen members
    are parameters. */
module Actions {
  import opened Psi
  import opened MethodTypes
  import opened GenDocPsiUtil
  import opened Config
  import opened Generator

  /** MemberChooser.OK_EXIT_CODE. */
  const OK_EXIT_CODE: int := 0

  datatype DialogOutcome =
    | NotShown                      // the project was disposed before the dialog could run
    | Cancelled                     // the dialog closed with another exit code
    | Generated                     // both passes completed
    | GetterPassAborted(index: nat) // the exception raised on getters[index]; no setter pass
    | SetterPassAborted(index: nat) // the exception raised on setters[index]

  /** Filtering for setters looks only at methods that are not getter-shaped:
      changing the children of getters leaves its result as it was. */
  twostate lemma {:induction false} SetterFilterIgnoresGetters(ms: seq<PsiMethod>)
    requires forall m :: m in ms && m.shape != SimplePropertyGetter ==> m.children == old(m.children)
    ensures Filtered(ms, Setter) == old(Filtered(ms, Setter))
    decreases |ms|
  {
    if ms != [] {
      SetterFilterIgnoresGetters(ms[..|ms| - 1]);
    }
  }

  /** A method `filter` keeps for the getter category is never one it keeps for
      the setter category. */
  lemma GetterAndSetterListsAreDisjoint(ms: seq<PsiMethod>, m: PsiMethod)
    ensures !(m in Filtered(ms, Getter) && m in Filtered(ms, Setter))
  {
    FilteredMembership(ms, Getter, m);
    FilteredMembership(ms, Setter, m);
  }

  class DocGenHandler {
    /** The category of methods the dialog offers. */
    var methodType: MethodType
    /** The header checkbox: replace existing comments. */
    var overwrite: bool

    /** The default handler offers getters and setters and does not overwrite. */
    constructor ()
      ensures methodType == SetterAndGetter && !overwrite
    {
      methodType := SetterAndGetter;
      overwrite := false;
    }

    constructor WithMethodType(methodType: MethodType)
      ensures this.methodType == methodType && !overwrite
    {
      this.methodType := methodType;
      overwrite := false;
    }

    /** The checkbox listener: the flag follows the checkbox. */
    method OverwriteToggled(selected: bool)
      modifies this`overwrite
      ensures overwrite == selected && methodType == old(methodType)
    {
      overwrite := selected;
    }

    /** `isEnabled`: the action is offered exactly where the caret sits inside a
        class that is not an interface. */
    function IsEnabled(file: Option<PsiFile>, offset: int): (enabled: bool)
      ensures enabled <==>
        && file.Some?
        && offset in file.value.elementAt
        && file.value.elementAt[offset].enclosingClass.Some?
        && !file.value.elementAt[offset].enclosingClass.value.isInterface
    {
      GetSubjectClass(file, offset).Some?
    }

    /** `showDialog` up to the deferred call: the dialog is built over the class's
        methods of the handler's category, in class order. The deferred body is
        RunDialog. */
    method ShowDialog(psiClass: PsiClass) returns (dialogMembers: array<PsiMethodMember?>)
      ensures dialogMembers.Length == |old(Filtered(MethodsIn(psiClass.children), methodType))|
      ensures forall i :: 0 <= i < dialogMembers.Length ==>
        dialogMembers[i] != null && dialogMembers[i].psiMethod == old(Filtered(MethodsIn(psiClass.children), methodType))[i]
    {
      ghost var offered := Filtered(MethodsIn(psiClass.children), methodType);
      var methodList := RetrieveMethods(psiClass, methodType);
      assert methodList == offered;
      dialogMembers := ConvertPsiMethodsToMembers(methodList);
    }

    /** The body `showDialog` hands to invokeLater. Whether the project was
        disposed, the dialog's exit code and the members chosen in it are
        parameters; on OK, the chosen members go through GeneratePasses. */
    method RunDialog(project: Project, psiClass: PsiClass, engine: Engine, store: PropertiesComponent,
                     getterSpec: ConfigSpec, disposed: bool, exitCode: int,
                     selectedMembers: seq<PsiMethodMember>)
      returns (outcome: DialogOutcome)
      modifies set m | m in MethodsOf(selectedMembers)
      ensures outcome.NotShown? <==> disposed
      ensures outcome.Cancelled? <==> !disposed && exitCode != OK_EXIT_CODE
      ensures outcome.NotShown? || outcome.Cancelled? ==>
        forall m :: m in MethodsOf(selectedMembers) ==> m.children == old(m.children)
      ensures !outcome.NotShown? && !outcome.Cancelled? ==>
        PassesDone(project, psiClass, engine, store, getterSpec, MethodsOf(selectedMembers), outcome)
    {
      if disposed {
        return NotShown;
      }
      if exitCode != OK_EXIT_CODE {
        return Cancelled;
      }
      var selectedMethodList := ConvertMembersToPsiMethods(selectedMembers);
      outcome := GeneratePasses(project, psiClass, engine, store, getterSpec, selectedMethodList);
    }

    /** What the two passes did to the chosen methods, given how the run ended:
        each kept getter, then each kept setter, visited in list order with its
        category's template; the pass that failed names the method it failed on,
        after visiting the ones before it; everything not yet visited is unchanged. */
    twostate predicate PassesDone(project: Project, psiClass: PsiClass, engine: Engine,
                                  store: PropertiesComponent, getterSpec: ConfigSpec,
                                  chosen: seq<PsiMethod>, outcome: DialogOutcome)
      reads this, store, set m | m in chosen
    {
      var getters := old(Filtered(chosen, Getter));
      var setters := old(Filtered(chosen, Setter));
      var getterTemplate := InitialTemplate(store.values, store.accessible, getterSpec);
      var setterTemplate := InitialTemplate(store.values, store.accessible, SetterSpec);
      && (outcome.Generated? || outcome.GetterPassAborted? || outcome.SetterPassAborted?)
      && (outcome.Generated? || outcome.SetterPassAborted? ==>
            forall m :: m in chosen && m in getters ==>
              Visit(engine, Some(project), overwrite, psiClass, m, getterTemplate, old(m.children)) == Some(m.children))
      && (outcome.GetterPassAborted? ==>
            && outcome.index < |getters|
            && getters[outcome.index] in chosen
            && Visit(engine, Some(project), overwrite, psiClass, getters[outcome.index], getterTemplate,
                     old(getters[outcome.index].children)) == None
            && (forall m :: m in chosen && m in getters[..outcome.index] ==>
                  Visit(engine, Some(project), overwrite, psiClass, m, getterTemplate, old(m.children)) == Some(m.children))
            && forall m :: m in chosen && m !in getters[..outcome.index] ==> m.children == old(m.children))
      && (outcome.Generated? ==>
            forall m :: m in chosen && m in setters ==>
              Visit(engine, Some(project), overwrite, psiClass, m, setterTemplate, old(m.children)) == Some(m.children))
      && (outcome.SetterPassAborted? ==>
            && outcome.index < |setters|
            && setters[outcome.index] in chosen
            && Visit(engine, Some(project), overwrite, psiClass, setters[outcome.index], setterTemplate,
                     old(setters[outcome.index].children)) == None
            && (forall m :: m in chosen && m in setters[..outcome.index] ==>
                  Visit(engine, Some(project), overwrite, psiClass, m, setterTemplate, old(m.children)) == Some(m.children))
            && forall m :: m in chosen && m !in getters && m !in setters[..outcome.index] ==>
                 m.children == old(m.children))
      && forall m :: m in chosen && m !in getters && m !in setters ==> m.children == old(m.children)
    }

    /** The body of the dialog's OK branch: the chosen getters are generated with a
        getter config, then the chosen setters with a setter config, both loaded
        from `store`. An exception in the getter pass ends the run before the
        setter pass. */
    method GeneratePasses(project: Project, psiClass: PsiClass, engine: Engine, store: PropertiesComponent,
                          getterSpec: ConfigSpec, chosen: seq<PsiMethod>)
      returns (outcome: DialogOutcome)
      modifies set m | m in chosen
      ensures PassesDone(project, psiClass, engine, store, getterSpec, chosen, outcome)
    {
      ghost var getters := Filtered(chosen, Getter);
      ghost var setters := Filtered(chosen, Setter);
      forall m | m in getters
        ensures m.shape == SimplePropertyGetter
      {
        FilteredMembership(chosen, Getter, m);
      }
      forall m | m in setters
        ensures m.shape == SimplePropertySetter
      {
        FilteredMembership(chosen, Setter, m);
      }
      var generator := new JavadocGenerator(Some(project), overwrite, engine);
      assert Filtered(chosen, Getter) == getters;
      var getterOutcome := RunPass(generator, psiClass, chosen, Getter, getterSpec, store);
      if getterOutcome.Aborted? {
        return GetterPassAborted(getterOutcome.index);
      }
      SetterFilterIgnoresGetters(chosen);
      assert Filtered(chosen, Setter) == setters;
      var setterOutcome := RunPass(generator, psiClass, chosen, Setter, SetterSpec, store);
      if setterOutcome.Aborted? {
        return SetterPassAborted(setterOutcome.index);
      }
      return Generated;
    }
  }

  /** One pass of the OK branch: `filter` the chosen methods for a category, load
      the category's config from `store`, then `generate` over the filtered list.
      Only methods of that category are touched. */
  method RunPass(generator: JavadocGenerator, psiClass: PsiClass, chosen: seq<PsiMethod>, t: MethodType,
                 spec: ConfigSpec, store: PropertiesComponent)
    returns (outcome: GenerateOutcome)
    modifies set m | m in chosen
    ensures outcome.Completed? ==>
      forall m :: m in chosen && m in old(Filtered(chosen, t)) ==>
        Visit(generator.engine, generator.project, generator.overwrite, psiClass, m,
              InitialTemplate(store.values, store.accessible, spec), old(m.children)) == Some(m.children)
    ensures outcome.Aborted? ==>
      && outcome.index < |old(Filtered(chosen, t))|
      && var failed := old(Filtered(chosen, t))[outcome.index];
         && failed in chosen
         && Visit(generator.engine, generator.project, generator.overwrite, psiClass, failed,
                  InitialTemplate(store.values, store.accessible, spec), old(failed.children)) == None
         && (forall m :: m in chosen && m in old(Filtered(chosen, t))[..outcome.index] ==>
               Visit(generator.engine, generator.project, generator.overwrite, psiClass, m,
                     InitialTemplate(store.values, store.accessible, spec), old(m.children)) == Some(m.children))
         && (forall m :: m in chosen && m !in old(Filtered(chosen, t))[..outcome.index] ==>
               m.children == old(m.children))
    ensures forall m :: m in chosen && !t.IsType(m) ==> m.children == old(m.children)
    ensures forall m :: m in chosen && m !in old(Filtered(chosen, t)) ==> m.children == old(m.children)
  {
    var list := Filter(chosen, t);
    forall m | m in list
      ensures m in chosen && t.IsType(m)
    {
      FilteredMembership(chosen, t, m);
    }
    var config := new DocConfig(spec, store);
    outcome := generator.Generate(psiClass, list, config);
  }
}
