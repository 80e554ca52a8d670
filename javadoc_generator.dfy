/** Rendering templates and writing doc comments into methods (JavadocGenerator.java). */
module Generator {
  import opened Psi
  import Config

  /** The template engine and the doc-comment parser, which the model does not look
      into. `render` is None where Velocity throws; `parsesAsDocComment` is false
      where createDocCommentFromText throws. */
  datatype Engine = Engine(
    render: (string, map<string, string>) -> Option<string>,
    parsesAsDocComment: string -> bool)

  /** The names a template can use. */
  const ContextNames: set<string> := {"field", "field_type", "class_name", "full_class_name", "project_name"}

  function RenderContext(field: string, fieldType: string, className: string, fullClassName: string,
                         projectName: string): (context: map<string, string>)
    ensures context.Keys == ContextNames
    ensures context["field"] == field && context["field_type"] == fieldType
    ensures context["class_name"] == className && context["full_class_name"] == fullClassName
    ensures context["project_name"] == projectName
  {
    map["field" := field, "field_type" := fieldType, "class_name" := className,
        "full_class_name" := fullClassName, "project_name" := projectName]
  }

  /** A context that binds exactly the five names is the one RenderContext builds. */
  lemma RenderContextUnique(context: map<string, string>, field: string, fieldType: string, className: string,
                            fullClassName: string, projectName: string)
    requires context.Keys == ContextNames
    requires context["field"] == field && context["field_type"] == fieldType
    requires context["class_name"] == className && context["full_class_name"] == fullClassName
    requires context["project_name"] == projectName
    ensures context == RenderContext(field, fieldType, className, fullClassName, projectName)
  {
    var built := RenderContext(field, fieldType, className, fullClassName, projectName);
    forall name | name in context.Keys
      ensures context[name] == built[name]
    {
    }
  }

  /** The context `processTemplate` builds for a method. */
  function MethodContext(project: Project, psiClass: PsiClass, m: PsiMethod): map<string, string>
  {
    RenderContext(m.propertyName, m.propertyType, psiClass.name, psiClass.qualifiedName, project.name)
  }

  /** The fixed context `validateTemplate` renders against. */
  const ValidationContext: map<string, string> :=
    RenderContext("testName", "int", "MyClass", "com.test.MyClass", "test-project")

  /** `processTemplate`: the rendered comment text, or None where rendering throws. */
  function ProcessTemplate(engine: Engine, project: Project, psiClass: PsiClass, m: PsiMethod,
                           template: string): (commentText: Option<string>)
    ensures forall context: map<string, string> ::
      && context.Keys == ContextNames
      && context["field"] == m.propertyName && context["field_type"] == m.propertyType
      && context["class_name"] == psiClass.name && context["full_class_name"] == psiClass.qualifiedName
      && context["project_name"] == project.name
      ==> commentText == engine.render(template, context)
  {
    var built := MethodContext(project, psiClass, m);
    assert forall context: map<string, string> ::
      && context.Keys == ContextNames
      && context["field"] == m.propertyName && context["field_type"] == m.propertyType
      && context["class_name"] == psiClass.name && context["full_class_name"] == psiClass.qualifiedName
      && context["project_name"] == project.name
      ==> context == built
    by {
      forall context: map<string, string> |
        && context.Keys == ContextNames
        && context["field"] == m.propertyName && context["field_type"] == m.propertyType
        && context["class_name"] == psiClass.name && context["full_class_name"] == psiClass.qualifiedName
        && context["project_name"] == project.name
        ensures context == built
      {
        RenderContextUnique(context, m.propertyName, m.propertyType, psiClass.name, psiClass.qualifiedName,
                            project.name);
      }
    }
    engine.render(template, built)
  }

  /** `validateTemplate`: true exactly when rendering against the fixed context and
      creating a doc comment from the result both succeed. Any exception, including
      the one a missing project causes, gives false. */
  function ValidateTemplate(engine: Engine, project: Option<Project>, template: string): (valid: bool)
    ensures valid <==>
      && project.Some?
      && engine.render(template, ValidationContext).Some?
      && engine.parsesAsDocComment(engine.render(template, ValidationContext).value)
  {
    match engine.render(template, ValidationContext)
    case None => false
    case Some(commentText) => project.Some? && engine.parsesAsDocComment(commentText)
  }

  /** The comment `generate` would write into `m`, or None where rendering or
      parsing throws. */
  function CommentFor(engine: Engine, project: Project, psiClass: PsiClass, m: PsiMethod,
                      template: string): Option<string>
  {
    match ProcessTemplate(engine, project, psiClass, m, template)
    case None => None
    case Some(commentText) => if engine.parsesAsDocComment(commentText) then Some(commentText) else None
  }

  /** The method's first child is a doc comment. */
  predicate HasComment(children: seq<Child>)
  {
    |children| > 0 && children[0].DocComment?
  }

  /** `generate`'s test for one method: a project exists, the method has a first
      child, and it has no doc comment yet or overwriting is on. */
  predicate Processes(project: Option<Project>, overwrite: bool, children: seq<Child>)
  {
    project.Some? && |children| > 0 && (!HasComment(children) || overwrite)
  }

  /** The children after writing `text`: the existing comment is replaced, or
      the comment is added before the first child. */
  function WithComment(children: seq<Child>, text: string): seq<Child>
  {
    if HasComment(children) then [DocComment(text)] + children[1..] else [DocComment(text)] + children
  }

  /** What one iteration of `generate` makes of a method whose children are
      `children`: its new children, or None where an exception ends the pass. */
  function Visit(engine: Engine, project: Option<Project>, overwrite: bool, psiClass: PsiClass,
                 m: PsiMethod, template: string, children: seq<Child>): Option<seq<Child>>
  {
    if !Processes(project, overwrite, children) then Some(children)
    else match CommentFor(engine, project.value, psiClass, m, template)
      case None => None
      case Some(text) => Some(WithComment(children, text))
  }

  /** The number of doc comments among a method's children. */
  function CommentCount(children: seq<Child>): nat
  {
    if children == [] then 0
    else (if children[0].DocComment? then 1 else 0) + CommentCount(children[1..])
  }

  datatype GenerateOutcome =
    | Completed
    | Aborted(index: nat)  // the exception raised while processing methods[index]

  class JavadocGenerator {
    const project: Option<Project>
    const overwrite: bool
    const engine: Engine

    constructor (project: Option<Project>, overwrite: bool, engine: Engine)
      ensures this.project == project && this.overwrite == overwrite && this.engine == engine
    {
      this.project := project;
      this.overwrite := overwrite;
      this.engine := engine;
    }

    /** `generate`: visits the methods in list order. A processed method gets its
        comment replaced or a new comment inserted; an exception stops the pass and
        leaves the remaining methods untouched. */
    method Generate(psiClass: PsiClass, methods: seq<PsiMethod>, config: Config.DocConfig)
      returns (outcome: GenerateOutcome)
      modifies set m | m in methods
      ensures outcome.Completed? ==>
        forall m :: m in methods ==>
          Visit(engine, project, overwrite, psiClass, m, config.template, old(m.children)) == Some(m.children)
      ensures outcome.Aborted? ==>
        && outcome.index < |methods|
        && Visit(engine, project, overwrite, psiClass, methods[outcome.index], config.template,
                 old(methods[outcome.index].children)) == None
        && (forall m :: m in methods[..outcome.index] ==>
              Visit(engine, project, overwrite, psiClass, m, config.template, old(m.children)) == Some(m.children))
        && (forall m :: m in methods && m !in methods[..outcome.index] ==> m.children == old(m.children))
    {
      for i := 0 to |methods|
        invariant forall m :: m in methods[..i] ==>
          Visit(engine, project, overwrite, psiClass, m, config.template, old(m.children)) == Some(m.children)
        invariant forall m :: m in methods && m !in methods[..i] ==> m.children == old(m.children)
      {
        var psiMethod := methods[i];
        assert methods[..i + 1] == methods[..i] + [psiMethod];
        var children := psiMethod.children;
        var hasComment := HasComment(children);
        var enterIfHasComment := !hasComment || overwrite;
        if project.Some? && |children| > 0 && enterIfHasComment {
          var template := config.template;
          if psiMethod in methods[..i] {
            VisitIdempotent(engine, project, overwrite, psiClass, psiMethod, template, old(psiMethod.children));
          }
          var commentText := ProcessTemplate(engine, project.value, psiClass, psiMethod, template);
          if commentText.None? || !engine.parsesAsDocComment(commentText.value) {
            return Aborted(i);
          }
          if hasComment {
            psiMethod.children := [DocComment(commentText.value)] + children[1..];
          } else {
            psiMethod.children := [DocComment(commentText.value)] + children;
          }
        } else if psiMethod in methods[..i] {
          VisitIdempotent(engine, project, overwrite, psiClass, psiMethod, config.template, old(psiMethod.children));
        }
      }
      assert methods[..|methods|] == methods;
      outcome := Completed;
    }
  }

  // ---------------------------------------------------------------------------
  // Properties of one visit
  // ---------------------------------------------------------------------------

  /** A method whose first child is a doc comment is left alone when overwriting is off. */
  lemma KeepsCommentWithoutOverwrite(engine: Engine, project: Option<Project>, psiClass: PsiClass,
                                     m: PsiMethod, template: string, children: seq<Child>)
    requires HasComment(children)
    ensures Visit(engine, project, false, psiClass, m, template, children) == Some(children)
  {
  }

  /** Without a project, or without a first child, nothing is written. */
  lemma SkipsWithoutProjectOrChild(engine: Engine, project: Option<Project>, overwrite: bool, psiClass: PsiClass,
                                   m: PsiMethod, template: string, children: seq<Child>)
    requires project.None? || children == []
    ensures Visit(engine, project, overwrite, psiClass, m, template, children) == Some(children)
  {
  }

  /** With overwriting on, an existing comment is replaced by the rendered one and
      the other children stay as they were. */
  lemma ReplacesExistingComment(engine: Engine, project: Project, psiClass: PsiClass,
                                m: PsiMethod, template: string, children: seq<Child>, text: string)
    requires HasComment(children)
    requires CommentFor(engine, project, psiClass, m, template) == Some(text)
    ensures Visit(engine, Some(project), true, psiClass, m, template, children)
            == Some([DocComment(text)] + children[1..])
  {
  }

  /** A method with a first child but no comment gets exactly one new comment,
      inserted before that child, whatever the overwrite flag. */
  lemma InsertsOneComment(engine: Engine, project: Project, overwrite: bool, psiClass: PsiClass,
                          m: PsiMethod, template: string, children: seq<Child>, text: string)
    requires |children| > 0 && !HasComment(children)
    requires CommentFor(engine, project, psiClass, m, template) == Some(text)
    ensures Visit(engine, Some(project), overwrite, psiClass, m, template, children)
            == Some([DocComment(text)] + children)
    ensures CommentCount([DocComment(text)] + children) == CommentCount(children) + 1
  {
    assert ([DocComment(text)] + children)[1..] == children;
  }

  /** A visit fails only on a method it processes, and then only because the
      rendered text cannot be produced or parsed. */
  lemma FailsOnlyWhenProcessing(engine: Engine, project: Option<Project>, overwrite: bool, psiClass: PsiClass,
                                m: PsiMethod, template: string, children: seq<Child>)
    requires Visit(engine, project, overwrite, psiClass, m, template, children).None?
    ensures Processes(project, overwrite, children)
    ensures CommentFor(engine, project.value, psiClass, m, template).None?
  {
  }

  /** Visiting a method a second time changes nothing more: `generate` gives the
      same result when a method occurs twice in its list. */
  lemma VisitIdempotent(engine: Engine, project: Option<Project>, overwrite: bool, psiClass: PsiClass,
                        m: PsiMethod, template: string, children: seq<Child>)
    requires Visit(engine, project, overwrite, psiClass, m, template, children).Some?
    ensures var after := Visit(engine, project, overwrite, psiClass, m, template, children).value;
      Visit(engine, project, overwrite, psiClass, m, template, after) == Some(after)
  {
    var after := Visit(engine, project, overwrite, psiClass, m, template, children).value;
    if Processes(project, overwrite, children) {
      assert after[1..] == WithComment(children, CommentFor(engine, project.value, psiClass, m, template).value)[1..];
    }
  }

  /** `validateTemplate` is a trial run of `generate`'s rendering and parsing for a
      sample property `testName` of type int in class com.test.MyClass of project
      test-project: a template is valid exactly when a project is open and that
      sample method would get a comment. Which project is open does not matter. */
  lemma ValidationIsSampleGeneration(engine: Engine, project: Option<Project>, sampleClass: PsiClass,
                                     sampleMethod: PsiMethod, template: string)
    requires sampleMethod.propertyName == "testName" && sampleMethod.propertyType == "int"
    requires sampleClass.name == "MyClass" && sampleClass.qualifiedName == "com.test.MyClass"
    ensures ValidateTemplate(engine, project, template) <==>
      project.Some? && CommentFor(engine, Project("test-project"), sampleClass, sampleMethod, template).Some?
  {
    assert MethodContext(Project("test-project"), sampleClass, sampleMethod) == ValidationContext;
  }
}
