/** Listing, filtering and converting methods (GenDocPsiUtil.java). */
module GenDocPsiUtil {
  import opened Psi
  import opened MethodTypes

  const OVERRIDE: string := "java.lang.Override"

  // ---------------------------------------------------------------------------
  // Specification functions
  // ---------------------------------------------------------------------------

  /** The flag `containsOverride` ends with after walking `elements`: every
      annotation overwrites it with "is this java.lang.Override", any other element
      leaves it alone, so only the last annotation counts. */
  function LastAnnotationIsOverride(elements: seq<ModifierElement>): bool
    decreases |elements|
  {
    if elements == [] then false
    else match elements[|elements| - 1]
      case Annotation(name) => name == OVERRIDE
      case Keyword(_) => LastAnnotationIsOverride(elements[..|elements| - 1])
  }

  /** A method is override-marked when it has a first child and the last
      annotation among that child's children is java.lang.Override. */
  predicate OverrideMarked(children: seq<Child>)
  {
    |children| > 0 && LastAnnotationIsOverride(AnnotationCandidates(children[0]))
  }

  /** The test `retrieveMethods` and `filter` apply to each method. */
  predicate Kept(m: PsiMethod, t: MethodType)
    reads m
  {
    t.IsType(m) && !OverrideMarked(m.children)
  }

  /** The methods of `ms` that pass `Kept`, in their order in `ms`. */
  function Filtered(ms: seq<PsiMethod>, t: MethodType): seq<PsiMethod>
    reads set m | m in ms
    decreases |ms|
  {
    if ms == [] then []
    else
      var last := ms[|ms| - 1];
      Filtered(ms[..|ms| - 1], t) + (if Kept(last, t) then [last] else [])
  }

  /** The methods among a class's children, in child order. */
  function MethodsIn(children: seq<ClassChild>): seq<PsiMethod>
    decreases |children|
  {
    if children == [] then []
    else
      var last := children[|children| - 1];
      MethodsIn(children[..|children| - 1]) + (if last.MethodElement? then [last.psiMethod] else [])
  }

  /** The methods the dialog members wrap, member by member. */
  function MethodsOf(members: seq<PsiMethodMember>): (ms: seq<PsiMethod>)
  {
    seq(|members|, i requires 0 <= i < |members| => members[i].psiMethod)
  }

  /** `a` is `b` with some elements left out and the rest kept in order. */
  predicate IsSubsequence<T(==)>(a: seq<T>, b: seq<T>)
    decreases |b|
  {
    if b == [] then a == []
    else
      IsSubsequence(a, b[..|b| - 1])
      || (a != [] && a[|a| - 1] == b[|b| - 1] && IsSubsequence(a[..|a| - 1], b[..|b| - 1]))
  }

  // ---------------------------------------------------------------------------
  // The operations, as the source writes them
  // ---------------------------------------------------------------------------

  /** `containsOverride`: walks the first child's children, overwriting the flag
      at every annotation. */
  method ContainsOverride(m: PsiMethod) returns (override: bool)
    ensures override == OverrideMarked(m.children)
  {
    override := false;
    if |m.children| > 0 {
      var elements := AnnotationCandidates(m.children[0]);
      for i := 0 to |elements|
        invariant override == LastAnnotationIsOverride(elements[..i])
      {
        assert elements[..i + 1][..i] == elements[..i];
        match elements[i]
        case Annotation(name) =>
          override := name == OVERRIDE;
        case Keyword(_) =>
      }
      assert elements[..|elements|] == elements;
    }
  }

  /** `extractPsiMethods`: the method children, in order. */
  method ExtractPsiMethods(children: seq<ClassChild>) returns (methods: seq<PsiMethod>)
    ensures methods == MethodsIn(children)
  {
    methods := [];
    for i := 0 to |children|
      invariant methods == MethodsIn(children[..i])
    {
      assert children[..i + 1][..i] == children[..i];
      if children[i].MethodElement? {
        methods := methods + [children[i].psiMethod];
      }
    }
    assert children[..|children|] == children;
  }

  /** Extending the filtered prefix of `ms` by one element. */
  lemma FilteredStep(ms: seq<PsiMethod>, i: int, t: MethodType)
    requires 0 <= i < |ms|
    ensures Filtered(ms[..i + 1], t) == Filtered(ms[..i], t) + (if Kept(ms[i], t) then [ms[i]] else [])
  {
    assert ms[..i + 1][..i] == ms[..i];
  }

  /** `filter`: keeps the methods of the category that are not override-marked. */
  method Filter(methodList: seq<PsiMethod>, methodType: MethodType) returns (filtered: seq<PsiMethod>)
    ensures filtered == Filtered(methodList, methodType)
  {
    filtered := [];
    for i := 0 to |methodList|
      invariant filtered == Filtered(methodList[..i], methodType)
    {
      FilteredStep(methodList, i, methodType);
      var m := methodList[i];
      if methodType.IsType(m) {
        var override := ContainsOverride(m);
        if !override {
          filtered := filtered + [m];
        }
      }
    }
    assert methodList[..|methodList|] == methodList;
  }

  /** `retrieveMethods`: the class's methods of the category, without the
      override-marked ones, in child order. */
  method RetrieveMethods(psiClass: PsiClass, methodType: MethodType) returns (filteredMethods: seq<PsiMethod>)
    ensures filteredMethods == Filtered(MethodsIn(psiClass.children), methodType)
  {
    filteredMethods := [];
    var methodList := ExtractPsiMethods(psiClass.children);
    for i := 0 to |methodList|
      invariant filteredMethods == Filtered(methodList[..i], methodType)
    {
      FilteredStep(methodList, i, methodType);
      var m := methodList[i];
      var isMethodType := methodType.IsType(m);
      if isMethodType {
        var override := ContainsOverride(m);
        if !override {
          filteredMethods := filteredMethods + [m];
        }
      }
    }
    assert methodList[..|methodList|] == methodList;
  }

  /** `convertPsiMethodsToMembers`: an array of the same length whose i-th entry
      wraps the i-th method. */
  method ConvertPsiMethodsToMembers(methodList: seq<PsiMethod>) returns (members: array<PsiMethodMember?>)
    ensures members.Length == |methodList|
    ensures forall i :: 0 <= i < members.Length ==> members[i] != null && members[i].psiMethod == methodList[i]
  {
    members := new PsiMethodMember?[|methodList|];
    for i := 0 to members.Length
      invariant forall j :: 0 <= j < i ==> members[j] != null && members[j].psiMethod == methodList[j]
    {
      members[i] := new PsiMethodMember(methodList[i]);
    }
  }

  /** `convertMembersToPsiMethods`: unwraps each member, keeping length and order. */
  method ConvertMembersToPsiMethods(classMemberList: seq<PsiMethodMember>) returns (methods: seq<PsiMethod>)
    ensures methods == MethodsOf(classMemberList)
  {
    methods := [];
    for i := 0 to |classMemberList|
      invariant methods == MethodsOf(classMemberList[..i])
    {
      methods := methods + [classMemberList[i].psiMethod];
    }
    assert classMemberList[..|classMemberList|] == classMemberList;
  }

  /** `getSubjectClass`: the class enclosing the caret, unless there is no file, no
      element at the caret, no enclosing class, or that class is an interface. */
  function GetSubjectClass(file: Option<PsiFile>, offset: int): (subject: Option<PsiClass>)
    ensures subject.Some? <==>
      && file.Some?
      && offset in file.value.elementAt
      && file.value.elementAt[offset].enclosingClass.Some?
      && !file.value.elementAt[offset].enclosingClass.value.isInterface
    ensures subject.Some? ==> subject == file.value.elementAt[offset].enclosingClass
  {
    if file.None? then None
    else if offset !in file.value.elementAt then None
    else
      var clazz := file.value.elementAt[offset].enclosingClass;
      if clazz.None? then None
      else if clazz.value.isInterface then None
      else clazz
  }

  // ---------------------------------------------------------------------------
  // Properties
  // ---------------------------------------------------------------------------

  /** Independent reading of the override quirk: the flag is set exactly when some
      element is the Override annotation and no annotation follows it. */
  lemma {:induction false} LastAnnotationDecides(elements: seq<ModifierElement>)
    ensures LastAnnotationIsOverride(elements) <==>
      exists k :: 0 <= k < |elements| && elements[k] == Annotation(OVERRIDE)
        && forall j :: k < j < |elements| ==> !elements[j].Annotation?
  {
    if LastAnnotationIsOverride(elements) {
      var k := OverrideWitness(elements);
    }
    if (exists k :: 0 <= k < |elements| && elements[k] == Annotation(OVERRIDE)
          && forall j :: k < j < |elements| ==> !elements[j].Annotation?) {
      var k :| 0 <= k < |elements| && elements[k] == Annotation(OVERRIDE)
        && forall j :: k < j < |elements| ==> !elements[j].Annotation?;
      UnfollowedOverrideDecides(elements, k);
    }
  }

  /** Where the flag ends up true, the Override annotation that set it. */
  lemma {:induction false} OverrideWitness(elements: seq<ModifierElement>) returns (k: nat)
    requires LastAnnotationIsOverride(elements)
    ensures k < |elements| && elements[k] == Annotation(OVERRIDE)
    ensures forall j :: k < j < |elements| ==> !elements[j].Annotation?
    decreases |elements|
  {
    var n := |elements| - 1;
    if elements[n].Annotation? {
      k := n;
    } else {
      k := OverrideWitness(elements[..n]);
      assert forall j :: k < j < n ==> elements[j] == elements[..n][j];
    }
  }

  /** An Override annotation with no annotation after it sets the flag. */
  lemma {:induction false} UnfollowedOverrideDecides(elements: seq<ModifierElement>, k: nat)
    requires k < |elements| && elements[k] == Annotation(OVERRIDE)
    requires forall j :: k < j < |elements| ==> !elements[j].Annotation?
    ensures LastAnnotationIsOverride(elements)
    decreases |elements|
  {
    var n := |elements| - 1;
    if k < n {
      var prefix := elements[..n];
      assert prefix[k] == elements[k];
      assert forall j :: k < j < |prefix| ==> prefix[j] == elements[j];
      UnfollowedOverrideDecides(prefix, k);
    }
  }

  /** The quirk on a concrete modifier list: `@Override @Deprecated` is not
      recognised, while `@Deprecated @Override` is. */
  lemma OnlyLastAnnotationCounts()
    ensures !LastAnnotationIsOverride([Annotation(OVERRIDE), Annotation("java.lang.Deprecated")])
    ensures LastAnnotationIsOverride([Annotation("java.lang.Deprecated"), Annotation(OVERRIDE)])
    ensures LastAnnotationIsOverride([Annotation(OVERRIDE), Keyword("public")])
  {
    var a: seq<ModifierElement> := [Annotation(OVERRIDE), Keyword("public")];
    assert a[..1] == [Annotation(OVERRIDE)];
  }

  /** A method without children, or whose first child is a doc comment, is never
      override-marked: the annotations sit in the modifier list, after the comment. */
  lemma DocumentedMethodIsNotOverrideMarked(children: seq<Child>)
    requires children == [] || children[0].DocComment?
    ensures !OverrideMarked(children)
  {
  }

  lemma {:induction false} FilteredMembership(ms: seq<PsiMethod>, t: MethodType, x: PsiMethod)
    ensures x in Filtered(ms, t) <==> x in ms && Kept(x, t)
    decreases |ms|
  {
    if ms != [] {
      var n := |ms| - 1;
      FilteredMembership(ms[..n], t, x);
      assert ms == ms[..n] + [ms[n]];
    }
  }

  /** Every method `filter` returns passes the test, and the result keeps the
      input's order: it is a subsequence of the input. */
  lemma {:induction false} FilteredIsSubsequence(ms: seq<PsiMethod>, t: MethodType)
    ensures IsSubsequence(Filtered(ms, t), ms)
    ensures forall k :: 0 <= k < |Filtered(ms, t)| ==> Kept(Filtered(ms, t)[k], t)
    decreases |ms|
  {
    if ms != [] {
      var n := |ms| - 1;
      var r := Filtered(ms, t);
      var p := Filtered(ms[..n], t);
      FilteredIsSubsequence(ms[..n], t);
      if Kept(ms[n], t) {
        assert r == p + [ms[n]];
        assert r[..|r| - 1] == p;
      } else {
        assert r == p;
      }
    }
  }

  lemma {:induction false} FilteredLength(ms: seq<PsiMethod>, t: MethodType)
    ensures |Filtered(ms, t)| <= |ms|
    ensures |Filtered(ms, t)| == |ms| <==> forall k :: 0 <= k < |ms| ==> Kept(ms[k], t)
    decreases |ms|
  {
    if ms != [] {
      var n := |ms| - 1;
      FilteredLength(ms[..n], t);
      if forall k :: 0 <= k < n ==> Kept(ms[k], t) {
        assert forall k :: 0 <= k < n ==> ms[..n][k] == ms[k];
      } else {
        var k :| 0 <= k < n && !Kept(ms[k], t);
        assert ms[..n][k] == ms[k];
      }
    }
  }

  /** Filtering distributes over concatenation. */
  lemma {:induction false} FilteredAppend(a: seq<PsiMethod>, b: seq<PsiMethod>, t: MethodType)
    ensures Filtered(a + b, t) == Filtered(a, t) + Filtered(b, t)
    decreases |b|
  {
    if b == [] {
      assert a + b == a;
    } else {
      var n := |b| - 1;
      FilteredAppend(a, b[..n], t);
      assert (a + b)[..|a + b| - 1] == a + b[..n];
    }
  }

  /** Filtering twice with the same category changes nothing. */
  lemma {:induction false} FilterIdempotent(ms: seq<PsiMethod>, t: MethodType)
    ensures Filtered(Filtered(ms, t), t) == Filtered(ms, t)
    decreases |ms|
  {
    if ms != [] {
      var n := |ms| - 1;
      var last := ms[n];
      FilterIdempotent(ms[..n], t);
      var tail := if Kept(last, t) then [last] else [];
      FilteredAppend(Filtered(ms[..n], t), tail, t);
      if Kept(last, t) {
        assert Filtered(tail, t) == Filtered([], t) + [last];
      }
    }
  }

  /** Whatever filtering by getters or by setters keeps, filtering by the
      combined category keeps too, in the same relative order. */
  lemma {:induction false} FilterWidening(ms: seq<PsiMethod>, t: MethodType)
    requires t != SetterAndGetter
    ensures IsSubsequence(Filtered(ms, t), Filtered(ms, SetterAndGetter))
    decreases |ms|
  {
    if ms != [] {
      var n := |ms| - 1;
      var last := ms[n];
      var a := Filtered(ms, t);
      var b := Filtered(ms, SetterAndGetter);
      FilterWidening(ms[..n], t);
      if Kept(last, t) {
        assert a[..|a| - 1] == Filtered(ms[..n], t);
        assert b[..|b| - 1] == Filtered(ms[..n], SetterAndGetter);
      } else if Kept(last, SetterAndGetter) {
        assert a == Filtered(ms[..n], t);
        assert b[..|b| - 1] == Filtered(ms[..n], SetterAndGetter);
      } else {
        assert a == Filtered(ms[..n], t);
        assert b == Filtered(ms[..n], SetterAndGetter);
      }
    }
  }

  /** Filtering the combined category's list by getters (or setters) gives the
      same list as filtering the original by getters (or setters). */
  lemma {:induction false} FilterNarrowing(ms: seq<PsiMethod>, t: MethodType)
    ensures Filtered(Filtered(ms, SetterAndGetter), t) == Filtered(ms, t)
    decreases |ms|
  {
    if ms != [] {
      var n := |ms| - 1;
      var last := ms[n];
      FilterNarrowing(ms[..n], t);
      var tail := if Kept(last, SetterAndGetter) then [last] else [];
      FilteredAppend(Filtered(ms[..n], SetterAndGetter), tail, t);
      if Kept(last, SetterAndGetter) {
        assert Filtered(tail, t) == Filtered([], t) + (if Kept(last, t) then [last] else []);
      }
    }
  }

  lemma {:induction false} MethodsInMembership(children: seq<ClassChild>, m: PsiMethod)
    ensures m in MethodsIn(children) <==> MethodElement(m) in children
    decreases |children|
  {
    if children != [] {
      var n := |children| - 1;
      MethodsInMembership(children[..n], m);
      assert children == children[..n] + [children[n]];
    }
  }

  /** `retrieveMethods` returns exactly the class's method children that are of
      the category and not override-marked. */
  lemma RetrievedMembership(psiClass: PsiClass, t: MethodType, m: PsiMethod)
    ensures m in Filtered(MethodsIn(psiClass.children), t) <==> MethodElement(m) in psiClass.children && Kept(m, t)
  {
    FilteredMembership(MethodsIn(psiClass.children), t, m);
    MethodsInMembership(psiClass.children, m);
  }

  /** Wrapping methods as members and unwrapping them gives the methods back. */
  lemma MembersRoundTrip(methodList: seq<PsiMethod>, members: seq<PsiMethodMember>)
    requires |members| == |methodList|
    requires forall i :: 0 <= i < |members| ==> members[i].psiMethod == methodList[i]
    ensures MethodsOf(members) == methodList
  {
  }
}
