# gen-javadoc in Dafny

A model of the gen-javadoc IntelliJ plugin, which writes Javadoc comments for
the getters and setters of a Java class from user-editable templates. The
project models and proves four parts of the plugin:

- **Classifying and filtering methods** (module `MethodTypes`, module `GenDocPsiUtil`).
  - A method is a getter, a setter, or neither.
  - `retrieveMethods` and `filter` keep the methods of a category that are not
    marked `@Override`, in their original order.
  - `containsOverride` looks only at the last annotation in the method's first
    child.
- **Writing comments** (module `Generator`).
  - `generate` walks the methods in order. For each method it skips, replaces
    the existing doc comment, or inserts a new one before the first child.
  - The first exception ends the pass.
  - `validateTemplate` renders the template against a fixed context.
- **Template configuration** (modules `Config`, `ConfigurationTemplate`,
  `ConfigurationDialog`).
  - A config loads its template from a key/value store, falls back to a default,
    and saves back to the store.
  - The settings page has two template slots, Getter and Setter.
  - The page's `apply` validates and then saves each slot in turn, and stops at
    the first failure.
  - The page also has `reset`, `select`, and a list-selection rule that swaps
    the text area between the two slots.
- **The action** (module `Actions`).
  - The dialog offers the class's methods.
  - On OK, the chosen getters are generated with the getter template, and then
    the chosen setters with the setter template.

The IntelliJ structures the plugin reads and edits are in module `Psi`:
classes, methods, a method's leading children, its modifier list, and the
caret's view of a file.

Parts of each object-oriented class are modelled as Dafny classes:

- A method's children, edited in place by `generate`.
- A config's current template.
- The store's values.
- A template's edited content.
- The page's selection and text area.
- The handler's category and overwrite flag.

Each state-changing method states its new state. Where it can, it states that
state through a specification function whose properties are proved as lemmas:

- `Filtered`, `MethodsIn` and `LastAnnotationIsOverride` for the list operations.
- `Visit` for what one iteration of `generate` makes of a method.
- `InitialTemplate` for a freshly loaded config.
- `SavedInOrder` and `Persisted` for what `apply` leaves in the configs and
  the store.

Template rendering and doc-comment parsing are not modelled. They are the two
fields of an `Engine` value, which the operations take as a parameter:

- `render` gives None where Velocity throws.
- `parsesAsDocComment` is false where `createDocCommentFromText` throws.

The persisted settings are a `PropertiesComponent` holding a `map<string,
string>`. Its `accessible` flag is false when the reflective load and save
throw `IllegalAccessException`.

Java exceptions that end an operation become outcome values:

| outcome | operation | what it stands for |
|---|---|---|
| `Aborted(i)` | `generate` | an exception on method i |
| `PersistFailed` | `save` | the `RuntimeException` from `save` |
| `InvalidTemplate(slot, name)` | `apply` | the `ConfigurationException` naming the config |
| `SaveFailed(slot)` | `apply` | `save` failed on that slot |
| `NoSelection` | `apply` | `templateMap.get(-1)` is null |
| `GetterPassAborted(i)`, `SetterPassAborted(i)` | the dialog's OK branch | an exception in that pass |

Decisions where the model had to choose:

- The abstract config `AbstractDocConfig` and its subclasses are one class,
  `Config.DocConfig`. A `ConfigSpec` value holds the per-category constants:
  the config name, the persistence key and the default template. `SetterSpec`
  holds `SetterDocConfig`'s constants.
- `GetterDocConfig.java` is not part of this model, so its spec is a parameter.
- A method's getter or setter shape comes from IntelliJ's `PropertyUtil`. It
  follows the bean naming of section 8.3 of the JavaBeans 1.01 specification.
  The model gives each method this shape, `Shape`, as a constant field.
- `templateMap` in `JavaDocConfigurable` is a `HashMap` keyed by the integers
  0 and 1. Its `values()` iterates in key order, so the model keeps the two
  templates as a two-element sequence, getter first.

## Model

| member | source | states |
|---|---|---|
| MethodTypes.MethodType.IsType | src/org/github/bpark/util/MethodType.java:36-57 | SETTER accepts exactly the simple property setters, GETTER exactly the simple property getters, and SETTER_AND_GETTER either; a method that is neither is accepted by no category |
| MethodTypes.SetterAndGetterIsUnion | src/org/github/bpark/util/MethodType.java:53-57 | the combined category accepts a method exactly when the setter category or the getter category does |
| MethodTypes.GetterAndSetterAreDisjoint | src/org/github/bpark/util/MethodType.java:39-50 | no method is accepted by both the getter and the setter category |
| MethodTypes.IsTypeDependsOnShapeOnly | src/org/github/bpark/util/MethodType.java:36-67 | every category's verdict depends only on the method's getter/setter shape; the enum has no state |
| GenDocPsiUtil.ContainsOverride | src/org/github/bpark/util/GenDocPsiUtil.java:159-172 | the loop's flag is true exactly when the method has a first child and the last annotation among that child's children is java.lang.Override; with no first child it is false |
| GenDocPsiUtil.LastAnnotationDecides | src/org/github/bpark/util/GenDocPsiUtil.java:163-169 | the flag ends true if and only if some element is the Override annotation and no annotation follows it; other elements never change it |
| GenDocPsiUtil.OnlyLastAnnotationCounts | src/org/github/bpark/util/GenDocPsiUtil.java:164-168 | `@Override @Deprecated` is not recognised as an override, `@Deprecated @Override` is, and a keyword after `@Override` keeps it |
| GenDocPsiUtil.DocumentedMethodIsNotOverrideMarked | src/org/github/bpark/util/GenDocPsiUtil.java:161-163 | a method with no children, or whose first child is a doc comment, is never override-marked, because only the first child's children are searched |
| GenDocPsiUtil.ExtractPsiMethods | src/org/github/bpark/util/GenDocPsiUtil.java:181-189 | the result is the method children of the class, in child order |
| GenDocPsiUtil.MethodsInMembership | src/org/github/bpark/util/GenDocPsiUtil.java:181-189 | a method is extracted if and only if it is a child of the class |
| GenDocPsiUtil.Filter | src/org/github/bpark/util/GenDocPsiUtil.java:114-122 | the result is `Filtered(methodList, methodType)`: the methods of the category that are not override-marked, in input order |
| GenDocPsiUtil.RetrieveMethods | src/org/github/bpark/util/GenDocPsiUtil.java:60-73 | the result is the class's method children filtered the same way, in child order |
| GenDocPsiUtil.RetrievedMembership | src/org/github/bpark/util/GenDocPsiUtil.java:60-73 | a method is retrieved if and only if it is a child of the class, is of the category and is not override-marked |
| GenDocPsiUtil.FilteredMembership | src/org/github/bpark/util/GenDocPsiUtil.java:116-119 | a method is in the filter's result if and only if it is in the input, is of the category and is not override-marked |
| GenDocPsiUtil.FilteredIsSubsequence | src/org/github/bpark/util/GenDocPsiUtil.java:114-122 | the result is a subsequence of the input (order kept, nothing added) and every element passes the test |
| GenDocPsiUtil.FilteredLength | src/org/github/bpark/util/GenDocPsiUtil.java:114-122 | the result is never longer than the input, and it is as long exactly when every input method passes |
| GenDocPsiUtil.FilteredAppend | src/org/github/bpark/util/GenDocPsiUtil.java:114-122 | filtering a concatenation is the concatenation of the filtered parts |
| GenDocPsiUtil.FilterIdempotent | src/org/github/bpark/util/GenDocPsiUtil.java:114-122 | filtering twice for the same category gives the same list as filtering once |
| GenDocPsiUtil.FilterWidening | src/org/github/bpark/util/MethodType.java:53-57 | the list kept for the getter or the setter category is a subsequence of the list kept for the combined category |
| GenDocPsiUtil.FilterNarrowing | src/org/github/bpark/util/GenDocPsiUtil.java:114-122 | filtering the combined category's list for getters or setters gives the same list as filtering the original |
| GenDocPsiUtil.ConvertPsiMethodsToMembers | src/org/github/bpark/util/GenDocPsiUtil.java:82-88 | an array of the list's length whose i-th entry wraps the i-th method |
| GenDocPsiUtil.ConvertMembersToPsiMethods | src/org/github/bpark/util/GenDocPsiUtil.java:97-104 | the wrapped methods, one per member, in member order |
| GenDocPsiUtil.MembersRoundTrip | src/org/github/bpark/util/GenDocPsiUtil.java:82-104 | wrapping a method list into members and unwrapping again returns the original list |
| GenDocPsiUtil.GetSubjectClass | src/org/github/bpark/util/GenDocPsiUtil.java:131-151 | a class is returned if and only if there is a file, an element at the offset and an enclosing class that is not an interface, and then it is that class |
| Config.InitialTemplate | src/org/github/bpark/config/SetterDocConfig.java:53-62 | a loaded config holds the stored value when loading works and finds a non-empty one, and the default template otherwise; a non-empty default gives a non-empty template |
| Config.DocConfig.constructor | src/org/github/bpark/config/SetterDocConfig.java:53-62 | the new config's template is `InitialTemplate` of the store's contents |
| Config.DocConfig.SetTemplate | src/org/github/bpark/config/SetterDocConfig.java:92-95 | the current template becomes the argument and the store is untouched |
| Config.DocConfig.Save | src/org/github/bpark/config/SetterDocConfig.java:76-84 | the current template becomes the argument even when persisting fails; the store gains it under the config's key when accessible, else the outcome is PersistFailed and the store is unchanged |
| Config.SetterTemplateNeverEmpty | src/org/github/bpark/config/SetterDocConfig.java:40-62 | a setter config never starts with an empty template, and starts with the default whenever loading fails or finds nothing |
| Config.SaveThenReload | src/org/github/bpark/config/SetterDocConfig.java:53-84 | loading after saving `t` gives `t` back, except that an empty `t` comes back as the default template |
| Generator.RenderContext | src/org/github/bpark/generator/JavadocGenerator.java:119-127 | the render context binds exactly field, field_type, class_name, full_class_name and project_name to the given values |
| Generator.RenderContextUnique | src/org/github/bpark/generator/JavadocGenerator.java:119-127 | any context binding exactly the five names to the given values is the one RenderContext builds |
| Generator.ProcessTemplate | src/org/github/bpark/generator/JavadocGenerator.java:117-136 | the comment text is what rendering the template gives against any context that binds exactly field, field_type, class_name, full_class_name and project_name to the method's property name and type, the class's simple and qualified names, and the project's name; None where rendering throws |
| Generator.ValidateTemplate | src/org/github/bpark/generator/JavadocGenerator.java:144-171 | a template is valid if and only if rendering it against the fixed test context succeeds, a project exists, and the result parses as a doc comment |
| Generator.ValidationIsSampleGeneration | src/org/github/bpark/generator/JavadocGenerator.java:144-171 | a template is valid exactly when a project is open and generating for a sample property testName of type int in com.test.MyClass of project test-project would produce a comment; which project is open does not matter |
| Generator.JavadocGenerator.constructor | src/org/github/bpark/generator/JavadocGenerator.java:63-66 | the generator keeps the project and the overwrite flag it is given |
| Generator.JavadocGenerator.Generate | src/org/github/bpark/generator/JavadocGenerator.java:76-107 | on completion every listed method's children are what `Visit` makes of its old children. On an exception at index i, method i is one whose visit fails, the methods before it were visited, and all others are unchanged |
| Generator.KeepsCommentWithoutOverwrite | src/org/github/bpark/generator/JavadocGenerator.java:79-85 | a method whose first child is a doc comment is left as it is when overwriting is off |
| Generator.SkipsWithoutProjectOrChild | src/org/github/bpark/generator/JavadocGenerator.java:85 | without a project, or with no first child, a method is left as it is |
| Generator.ReplacesExistingComment | src/org/github/bpark/generator/JavadocGenerator.java:97-98 | with overwriting on, an existing comment is replaced by the rendered one and the other children stay |
| Generator.InsertsOneComment | src/org/github/bpark/generator/JavadocGenerator.java:99-100 | a method with a first child but no comment gets the rendered comment inserted before that child, whatever the flag, raising its comment count by exactly one |
| Generator.FailsOnlyWhenProcessing | src/org/github/bpark/generator/JavadocGenerator.java:85-93 | a visit throws only for a method it processes, and only when rendering or parsing fails |
| Generator.VisitIdempotent | src/org/github/bpark/generator/JavadocGenerator.java:76-107 | visiting a method again after a successful visit changes nothing more |
| ConfigurationTemplate.Template.constructor | src/org/github/bpark/gui/configuration/Template.java:55-57 | a new template has no content and keeps its config |
| ConfigurationTemplate.Template.SetContent | src/org/github/bpark/gui/configuration/Template.java:84-86 | the content becomes the argument |
| ConfigurationTemplate.Template.Save | src/org/github/bpark/gui/configuration/Template.java:89-91 | the content is handed to the config's save, with that save's effect on template and store; the content stays |
| ConfigurationTemplate.Template.Reset | src/org/github/bpark/gui/configuration/Template.java:94-96 | the content becomes the config's current template |
| ConfigurationTemplate.Template.Validate | src/org/github/bpark/gui/configuration/Template.java:103-112 | true if and only if a project is in focus, there is content, and the generator validates it; nothing changes |
| ConfigurationDialog.JavaDocConfigurable.constructor | src/org/github/bpark/gui/configuration/JavaDocConfigurable.java:69-72 | slot 0 holds a getter config and slot 1 a setter config, both loaded from the same store, with no content yet |
| ConfigurationDialog.JavaDocConfigurable.IsModified | src/org/github/bpark/gui/configuration/JavaDocConfigurable.java:131-133 | the page always reports a modification |
| ConfigurationDialog.JavaDocConfigurable.Select | src/org/github/bpark/gui/configuration/JavaDocConfigurable.java:168-171 | the selection becomes the index and the text area shows that slot's config template, not its edited content |
| ConfigurationDialog.JavaDocConfigurable.CreateComponent | src/org/github/bpark/gui/configuration/JavaDocConfigurable.java:103-124 | after building the page, slot 0 is selected and shown |
| ConfigurationDialog.JavaDocConfigurable.ListSelectionChanged | src/org/github/bpark/gui/configuration/JavaDocConfigurable.java:110-121 | on an adjusting change to slot i in range, the text area goes into slot 1 - i and then shows slot i's content. When the selection moves from one slot to the other, the edited text lands in the slot that was shown. Otherwise no content and no text changes |
| ConfigurationDialog.JavaDocConfigurable.Reset | src/org/github/bpark/gui/configuration/JavaDocConfigurable.java:156-161 | every slot's content becomes its config's template, then slot 0 is selected and shown |
| ConfigurationDialog.JavaDocConfigurable.Apply | src/org/github/bpark/gui/configuration/JavaDocConfigurable.java:140-151 | without a selection nothing changes. Otherwise the selected slot's content becomes the text area, the other content stays, and configs and store end as `SavedInOrder` says |
| ConfigurationDialog.JavaDocConfigurable.SaveInOrder | src/org/github/bpark/gui/configuration/JavaDocConfigurable.java:143-150 | the slots before the stopping point were accepted and saved, in order, into the store, which therefore accepts writes whenever any slot was saved; the slot it stops at was rejected (named by its config) or accepted but not persisted; later configs keep their templates |
| ConfigurationDialog.JavaDocConfigurable.ValidateAndSave | src/org/github/bpark/gui/configuration/JavaDocConfigurable.java:144-149 | a rejected slot changes nothing; an accepted one is saved into its config and, when the store is accessible, under its key |
| Actions.DocGenHandler.constructor | src/org/github/bpark/actions/DocGenHandler.java:59-67 | the default handler offers getters and setters and does not overwrite |
| Actions.DocGenHandler.WithMethodType | src/org/github/bpark/actions/DocGenHandler.java:69-72 | the handler offers the given category and does not overwrite |
| Actions.DocGenHandler.OverwriteToggled | src/org/github/bpark/actions/DocGenHandler.java:136-141 | the overwrite flag follows the checkbox |
| Actions.DocGenHandler.IsEnabled | src/org/github/bpark/actions/DocGenHandler.java:120-123 | the action is enabled if and only if the caret is inside a class that is not an interface |
| Actions.DocGenHandler.ShowDialog | src/org/github/bpark/actions/DocGenHandler.java:95-96 | the dialog's members wrap exactly the methods `retrieveMethods` returns for the handler's category, in order |
| Actions.DocGenHandler.RunDialog | src/org/github/bpark/actions/DocGenHandler.java:97-117 | a disposed project or a non-OK exit changes no method. On OK, the chosen methods end as `PassesDone` says |
| Actions.DocGenHandler.GeneratePasses | src/org/github/bpark/actions/DocGenHandler.java:106-114 | getters are generated before setters. Each kept getter, then each kept setter, is visited with its category's template. A failing pass names its method and has visited the pass's methods before it, a failing getter pass runs no setter pass, and every chosen method not yet visited is untouched |
| Actions.RunPass | src/org/github/bpark/actions/DocGenHandler.java:109-110 | one pass touches only methods of its category and visits the filtered methods in order with the config's loaded template; on an exception at index i, the filtered methods before i were visited, method i is one whose visit fails, and every other method is unchanged |
| Actions.SetterFilterIgnoresGetters | src/org/github/bpark/actions/DocGenHandler.java:109-112 | the getter pass cannot change which methods the setter filter keeps |
| Actions.GetterAndSetterListsAreDisjoint | src/org/github/bpark/actions/DocGenHandler.java:109-112 | no method is in both the getter list and the setter list |

## Left out

- Velocity template evaluation and the template language are not modelled.
  `render` is a parameter that gives a string or fails.
- `createDocCommentFromText` is not modelled either. `parsesAsDocComment` is a
  parameter.
- VelocityEngineFactory.java is not part of this model: it only configures the
  foreign library.
- `PropertyUtil` is not modelled. A method's shape, property name and property
  type are given constants. `PsiType` is reduced to the string the template
  receives.
- Host plumbing is not modelled:
  - `runWriteAction` runs synchronously, so its edit is part of the loop.
  - The `reformat` after each edit is left out. It rewrites the layout of the
    inserted comment and of the method's other text, so "the comment is the
    rendered text" and "the other children stay" hold only up to formatting.
  - `invokeLater` is left out: the deferred body is its own method, RunDialog,
    with the dialog's results as parameters.
  - The `MemberChooser` display, its preselection and its title are left out.
  - The focus lookup in `validate` is left out. The focused project is a
    parameter.
- Swing widgets are reduced to the selected index and the text-area string.
  The description text, display name, icon and help topic are left out.
- `executeWriteAction` is not modelled. It only asserts a project and a subject
  class, then calls `showDialog`, and Java assertions are off by default.
- `getContent`, `getTemplate`, `getConfigName`, `getDefaultTemplate` and
  `getAbstractDocConfig` are field reads in the model. Strings are never null
  in Dafny.
- ConfigurationTemplate.Template.Save: requires content, because the config's
  `save` takes a `@NotNull` template. It is reached only after `validate`,
  which is false without content.
- Template content set to null is modelled as absent content.
  - Validating absent content fails, because rendering null throws and
    `validateTemplate` catches it.
  - Showing absent content empties the text area.
- GenDocPsiUtil.ConvertMembersToPsiMethods: takes method members only, so the
  cast to `PsiMethod`, which the dialog's members always satisfy, cannot fail.
- `GetterDocConfig` is not shown, so its name, key and default template are
  the `getterSpec` parameter. No property of its constants is claimed.
- The `@NotNull` instrumentation of parameters and return values is not
  modelled. The model follows a build without it, in which nulls reach the
  callee instead of raising an assertion error:
  - `validate` hands a null content to `validateTemplate`, where Velocity throws
    and the template counts as invalid.
  - The selection listener hands a null `getContent()` to the text area's
    `setText`, which empties it.
- `disposeUIResources` does nothing, so it is left out.
