/** The part of IntelliJ's program structure interface (PSI) that the plugin reads
    and edits: classes, their methods, a method's leading children and its modifier
    list, the dialog's member wrapper, and the caret's view of a file. */
module Psi {

  datatype Option<T> = None | Some(value: T)

  /** What IntelliJ's PropertyUtil decides about a method's signature, by the bean
      naming of section 8.3 of the JavaBeans 1.01 specification. A simple getter takes
      no parameter and a simple setter exactly one, so no method is both. */
  datatype Shape = SimplePropertyGetter | SimplePropertySetter | NotAProperty

  /** An element of a method's modifier list. */
  datatype ModifierElement = Annotation(qualifiedName: string) | Keyword(word: string)

  /** A direct child of a method, in source order. When a method has a doc comment,
      that comment is its first child and the modifier list comes after it. */
  datatype Child =
    | DocComment(text: string)
    | ModifierList(elements: seq<ModifierElement>)
    | OtherChild(text: string)  // type, name, parameter list, body

  /** The children of a method's child that may be annotations: the elements of a
      modifier list. A doc comment's own children are doc tokens and tags. */
  function AnnotationCandidates(c: Child): seq<ModifierElement>
  {
    if c.ModifierList? then c.elements else []
  }

  class PsiMethod {
    const shape: Shape
    /** PropertyUtil.getPropertyName and getPropertyType, as the template sees them. */
    const propertyName: string
    const propertyType: string
    var children: seq<Child>

    constructor (shape: Shape, propertyName: string, propertyType: string, children: seq<Child>)
      ensures this.shape == shape && this.propertyName == propertyName
      ensures this.propertyType == propertyType && this.children == children
    {
      this.shape := shape;
      this.propertyName := propertyName;
      this.propertyType := propertyType;
      this.children := children;
    }
  }

  /** A child of a class: a method, or anything else (field, initializer, inner class, token). */
  datatype ClassChild = MethodElement(psiMethod: PsiMethod) | OtherElement(text: string)

  class PsiClass {
    const name: string
    const qualifiedName: string
    const isInterface: bool
    const children: seq<ClassChild>

    constructor (name: string, qualifiedName: string, isInterface: bool, children: seq<ClassChild>)
      ensures this.name == name && this.qualifiedName == qualifiedName
      ensures this.isInterface == isInterface && this.children == children
    {
      this.name := name;
      this.qualifiedName := qualifiedName;
      this.isInterface := isInterface;
      this.children := children;
    }
  }

  /** The selection dialog's wrapper around a method (PsiMethodMember). */
  class PsiMethodMember {
    const psiMethod: PsiMethod

    constructor (psiMethod: PsiMethod)
      ensures this.psiMethod == psiMethod
    {
      this.psiMethod := psiMethod;
    }
  }

  datatype Project = Project(name: string)

  /** The leaf element found at a caret offset, with the nearest class that
      encloses it (the leaf itself included), if any. */
  datatype Leaf = Leaf(enclosingClass: Option<PsiClass>)

  /** A source file as the caret sees it: findElementAt yields a leaf or nothing. */
  datatype PsiFile = PsiFile(elementAt: map<int, Leaf>)
}
