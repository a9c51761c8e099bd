/**
 * The program-structure interface the generator reads. Classes, methods and
 * expressions are opaque identities (equal handles mean the same element);
 * everything the core asks of them is a given function of the project.
 */
module Psi {
  import opened Wrappers

  datatype PsiClass = PsiClass(handle: nat)

  datatype PsiMethod = PsiMethod(handle: nat)

  datatype PsiExpression = PsiExpression(handle: nat)

  /** The shape of one statement of a method body: a `return` with or without a value, or anything else. */
  datatype PsiStatement = ReturnStatement(returnValue: Option<PsiExpression>) | OtherStatement

  datatype Project = Project(
    methodsOf: PsiClass -> seq<PsiMethod>,            // PsiClass.getMethods(), in declaration order
    containingClass: PsiMethod -> PsiClass,           // PsiMethod.getContainingClass()
    bodyOf: PsiMethod -> Option<seq<PsiStatement>>,   // PsiMethod.getBody().getStatements(), None for no body
    isConstructor: PsiMethod -> bool,
    isConstExpression: PsiExpression -> bool,         // MethodUtils.isConstExpression
    isInterface: PsiClass -> bool,
    nameOf: PsiClass -> Option<string>,               // PsiClass.getName(), None for null
    qualifiedNameOf: PsiClass -> Option<string>,      // PsiClass.getQualifiedName(), None for null
    methodNameOf: PsiMethod -> string,                // PsiMethod.getName()
    textOf: PsiMethod -> string,                      // PsiMethod.getText()
    methodOffsetOf: PsiMethod -> int,                 // start offset of the method's node
    classOffsetOf: PsiClass -> int                    // start offset of the class's node
  )

  /** The methods a class lists are the methods whose containing class it is. */
  ghost predicate MembershipConsistent(p: Project) {
    forall c, m :: m in p.methodsOf(c) ==> p.containingClass(m) == c
  }
}
