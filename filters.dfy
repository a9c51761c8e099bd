/** The method-level and class-level eligibility filters: pure, total predicates. */
module Filters {
  import opened Wrappers
  import opened Seqs
  import opened Psi

  /**
   * EmptyMethodsFilter.test: keeps a method unless it has no body, an empty
   * body, or a body whose only statement is `return;` or returns a constant.
   */
  function EmptyMethodsFilter(p: Project, m: PsiMethod): (keep: bool)
    ensures p.bodyOf(m).None? ==> !keep
    ensures p.bodyOf(m) == Some([]) ==> !keep
    ensures p.bodyOf(m).Some? && |p.bodyOf(m).value| > 1 ==> keep
    ensures p.bodyOf(m).Some? && |p.bodyOf(m).value| == 1 && p.bodyOf(m).value[0].OtherStatement? ==> keep
    ensures p.bodyOf(m) == Some([ReturnStatement(None)]) ==> !keep
    ensures p.bodyOf(m).Some? && |p.bodyOf(m).value| == 1 && p.bodyOf(m).value[0].ReturnStatement? &&
            p.bodyOf(m).value[0].returnValue.Some? ==>
              (keep <==> !p.isConstExpression(p.bodyOf(m).value[0].returnValue.value))
  {
    match p.bodyOf(m)
    case None => false
    case Some(statements) =>
      if |statements| == 0 then false
      else if |statements| > 1 then true
      else match statements[0]
        case OtherStatement => true
        case ReturnStatement(returnExpression) =>
          returnExpression.Some? && !p.isConstExpression(returnExpression.value)
  }

  /** ConstructorsFilter.test: keeps every method that is not a constructor. */
  function ConstructorsFilter(p: Project, m: PsiMethod): bool
  {
    !p.isConstructor(m)
  }

  /** InterfacesFilter.test: keeps every class that is not an interface. */
  function InterfacesFilter(p: Project, c: PsiClass): (keep: bool)
    ensures p.isInterface(c) ==> !keep
    ensures !p.isInterface(c) ==> keep
  {
    !p.isInterface(c)
  }

  /** The verdict of InterfacesFilter depends on nothing but the interface flag. */
  lemma InterfacesFilterReadsOnlyTheFlag(p: Project, c: PsiClass, q: Project, d: PsiClass)
    requires p.isInterface(c) == q.isInterface(d)
    ensures InterfacesFilter(p, c) == InterfacesFilter(q, d)
  {
  }

  /**
   * Filtering a method list with EmptyMethodsFilter keeps the survivors in
   * their order (it distributes over concatenation), and a second pass removes
   * nothing.
   */
  lemma EmptyMethodsFilterStable(p: Project, ms: seq<PsiMethod>, ns: seq<PsiMethod>)
    ensures Filter(ms + ns, m => EmptyMethodsFilter(p, m)) ==
            Filter(ms, m => EmptyMethodsFilter(p, m)) + Filter(ns, m => EmptyMethodsFilter(p, m))
    ensures Filter(Filter(ms, m => EmptyMethodsFilter(p, m)), m => EmptyMethodsFilter(p, m)) ==
            Filter(ms, m => EmptyMethodsFilter(p, m))
  {
    FilterAppend(ms, ns, m => EmptyMethodsFilter(p, m));
    FilterIdempotent(ms, m => EmptyMethodsFilter(p, m));
  }

  /** The same for InterfacesFilter over a class list. */
  lemma InterfacesFilterStable(p: Project, cs: seq<PsiClass>, ds: seq<PsiClass>)
    ensures Filter(cs + ds, c => InterfacesFilter(p, c)) ==
            Filter(cs, c => InterfacesFilter(p, c)) + Filter(ds, c => InterfacesFilter(p, c))
    ensures Filter(Filter(cs, c => InterfacesFilter(p, c)), c => InterfacesFilter(p, c)) ==
            Filter(cs, c => InterfacesFilter(p, c))
  {
    FilterAppend(cs, ds, c => InterfacesFilter(p, c));
    FilterIdempotent(cs, c => InterfacesFilter(p, c));
  }

  /** `String.endsWith`, case-sensitive. */
  predicate EndsWith(s: string, suffix: string)
  {
    |suffix| <= |s| && s[|s| - |suffix|..] == suffix
  }

  const BUILDER_SUFFIX: string := "Builder"

  /** BuildersFilter.test: keeps a class that has no name or whose name does not end in "Builder". */
  function BuildersFilter(p: Project, c: PsiClass): (keep: bool)
    ensures p.nameOf(c).None? ==> keep
    ensures p.nameOf(c).Some? && |p.nameOf(c).value| < |BUILDER_SUFFIX| ==> keep
    ensures p.nameOf(c).Some? && !keep ==>
              exists prefix :: p.nameOf(c).value == prefix + BUILDER_SUFFIX
    ensures forall prefix :: p.nameOf(c) == Some(prefix + BUILDER_SUFFIX) ==> !keep
  {
    var name := p.nameOf(c);
    if name.Some? && EndsWith(name.value, BUILDER_SUFFIX) then
      var prefix := name.value[..|name.value| - |BUILDER_SUFFIX|];
      assert name.value == prefix + BUILDER_SUFFIX;
      false
    else
      true
  }

  /** The suffix test on concrete names: case-sensitive, a suffix and not a substring. */
  lemma BuildersFilterExamples(p: Project, c: PsiClass)
    ensures p.nameOf(c) == Some("Builder") ==> !BuildersFilter(p, c)
    ensures p.nameOf(c) == Some("FooBuilder") ==> !BuildersFilter(p, c)
    ensures p.nameOf(c) == Some("FooBUILDER") ==> BuildersFilter(p, c)
    ensures p.nameOf(c) == Some("Foobuilder") ==> BuildersFilter(p, c)
    ensures p.nameOf(c) == Some("BuilderFactory") ==> BuildersFilter(p, c)
    ensures p.nameOf(c) == Some("Builders") ==> BuildersFilter(p, c)
  {
    assert "" + BUILDER_SUFFIX == "Builder";
    assert "Foo" + BUILDER_SUFFIX == "FooBuilder";
  }
}
