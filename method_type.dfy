/** The three method categories the plugin offers (MethodType.java). */
module MethodTypes {
  import opened Psi

  datatype MethodType = Setter | Getter | SetterAndGetter
  {
    /** `isType`: whether a method belongs to this category. It reads only the
        method's signature shape; the categories carry no state. */
    predicate IsType(m: PsiMethod): (accepted: bool)
      ensures accepted <==>
        || (this != Getter && m.shape == SimplePropertySetter)
        || (this != Setter && m.shape == SimplePropertyGetter)
      ensures m.shape == NotAProperty ==> !accepted
    {
      match this
      case Setter => m.shape.SimplePropertySetter?
      case Getter => m.shape.SimplePropertyGetter?
      case SetterAndGetter => m.shape.SimplePropertySetter? || m.shape.SimplePropertyGetter?
    }
  }

  /** The combined category is exactly the union of the other two. */
  lemma SetterAndGetterIsUnion(m: PsiMethod)
    ensures SetterAndGetter.IsType(m) <==> Setter.IsType(m) || Getter.IsType(m)
  {
  }

  /** No method is both a getter and a setter. */
  lemma GetterAndSetterAreDisjoint(m: PsiMethod)
    ensures !(Getter.IsType(m) && Setter.IsType(m))
  {
  }

  /** A category's verdict depends only on the method's shape. */
  lemma IsTypeDependsOnShapeOnly(t: MethodType, m: PsiMethod, n: PsiMethod)
    requires m.shape == n.shape
    ensures t.IsType(m) == t.IsType(n)
  {
  }
}
