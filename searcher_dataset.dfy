/**
 * The ContextPathDataset of the methods-searcher module: class IDs are
 * positions in the class list, method IDs are assigned over the filtered
 * members, and the points, the class map and the target map are built once.
 */
module SearcherDataset {
  import opened Seqs
  import opened Psi
  import opened Filters
  import opened LabeledGraph

  /**
   * The class-ID loop of the ContextPathDataset constructor: each class is put
   * under the counter's value, a repeated class overwriting.
   */
  method IndexClasses(classes: seq<PsiClass>) returns (idOfClass: map<PsiClass, int>)
    ensures IndexesLastOccurrence(idOfClass, classes)
  {
    idOfClass := map[];
    var classId := 0;
    while classId < |classes|
      invariant 0 <= classId <= |classes|
      invariant IndexesLastOccurrence(idOfClass, classes[..classId])
    {
      var clazz := classes[classId];
      assert forall c :: c in classes[..classId + 1] <==> c in classes[..classId] || c == clazz;
      idOfClass := idOfClass[clazz := classId];
      classId := classId + 1;
    }
    assert classes[..classId] == classes;
  }

  /**
   * The records loop of the ContextPathDataset constructor: for each record,
   * its points in order, and its target list put under its method (a later
   * record of the same method overwriting).
   */
  method BuildPointsAndTargets(records: seq<DatasetMethod>, idOfMethod: map<PsiMethod, int>)
    returns (points: seq<Point>, idOfTargetClasses: map<PsiMethod, seq<int>>)
    requires RecordsResolved(records, idOfMethod)
    ensures points == PointsOf(records, idOfMethod)
    ensures idOfTargetClasses == TargetsMap(records)
  {
    points := [];
    idOfTargetClasses := map[];
    var k := 0;
    while k < |records|
      invariant 0 <= k <= |records|
      invariant RecordsResolved(records[..k], idOfMethod)
      invariant points == PointsOf(records[..k], idOfMethod)
      invariant idOfTargetClasses == TargetsMap(records[..k])
    {
      var record := records[k];
      var methodId := idOfMethod[record.psiMethod];
      assert records[..k + 1][..k] == records[..k];
      assert records[..k + 1][k] == record;
      points := AppendRecordPoints(points, methodId, record);
      idOfTargetClasses := idOfTargetClasses[record.psiMethod := record.idsOfPossibleTargets];
      k := k + 1;
    }
    assert records[..k] == records;
  }

  class ContextPathDataset {
    /** The program structure the dataset was built over (what `PsiClass.getMethods()` answers). */
    const project: Project
    /** The Dataset the constructor was given. */
    ghost const dataset: Dataset

    const methods: seq<PsiMethod>
    const classes: seq<PsiClass>
    const points: seq<Point>
    const idOfMethod: map<PsiMethod, int>
    const idOfClass: map<PsiClass, int>
    const idOfTargetClasses: map<PsiMethod, seq<int>>

    ghost predicate Valid()
    {
      classes == dataset.classes &&
      DenseEnumeration(methods, idOfMethod, CandidateSet(project, classes)) &&
      IndexesLastOccurrence(idOfClass, classes) &&
      RecordsResolved(dataset.methods, idOfMethod) &&
      points == PointsOf(dataset.methods, idOfMethod) &&
      idOfTargetClasses == TargetsMap(dataset.methods)
    }

    /**
     * Builds the graph. Every record's method must be one of the collected
     * methods (a member of a listed class passing both filters): the source
     * unboxes a null ID otherwise.
     */
    constructor (project: Project, dataset: Dataset)
      requires forall k :: 0 <= k < |dataset.methods| ==> Eligible(project, dataset.classes, dataset.methods[k].psiMethod)
      ensures Valid()
      ensures this.project == project && this.dataset == dataset
      ensures classes == dataset.classes
      ensures |methods| == |CandidateSet(project, dataset.classes)|
    {
      this.project := project;
      this.dataset := dataset;
      var classList := dataset.classes;
      var allMethods := CandidateSet(project, classList);
      var methodList, ids := EnumerateMethods(allMethods);
      assert RecordsResolved(dataset.methods, ids) by {
        forall k | 0 <= k < |dataset.methods| ensures dataset.methods[k].psiMethod in ids {
          CandidateMembership(project, classList, dataset.methods[k].psiMethod);
        }
      }
      var classIds := IndexClasses(classList);
      var pointList, targets := BuildPointsAndTargets(dataset.methods, ids);
      classes := classList;
      methods := methodList;
      idOfMethod := ids;
      idOfClass := classIds;
      points := pointList;
      idOfTargetClasses := targets;
    }

    /** Specification of getIdsOfMethodsIn. */
    function IdsOfMethodsIn(c: PsiClass): seq<int>
    {
      IdsOfPresent(project.methodsOf(c), idOfMethod)
    }

    /**
     * getIdsOfMethodsIn: in declaration order, the IDs of the members of `c`
     * that were collected; each is a valid position holding a member of `c`;
     * for a listed class they are exactly the members passing both filters.
     */
    method GetIdsOfMethodsIn(c: PsiClass) returns (ids: seq<int>)
      requires Valid()
      ensures ids == IdsOfMethodsIn(c)
      ensures |ids| <= |project.methodsOf(c)|
      ensures forall k :: 0 <= k < |ids| ==> 0 <= ids[k] < |methods| && methods[ids[k]] in project.methodsOf(c)
      ensures Distinct(project.methodsOf(c)) ==> Distinct(ids)
      ensures c in classes ==>
                var kept := Filter(project.methodsOf(c), m => EmptyMethodsFilter(project, m) && ConstructorsFilter(project, m));
                |ids| == |kept| && forall k :: 0 <= k < |kept| ==> kept[k] in idOfMethod && ids[k] == idOfMethod[kept[k]]
    {
      ids := CollectIdsOfPresent(project.methodsOf(c), idOfMethod);
      IdsOfPresentValid(project.methodsOf(c), methods, idOfMethod, CandidateSet(project, classes));
      if c in classes {
        var members := project.methodsOf(c);
        var keep := m => EmptyMethodsFilter(project, m) && ConstructorsFilter(project, m);
        var i0 :| 0 <= i0 < |classes| && classes[i0] == c;
        forall i | 0 <= i < |members| ensures members[i] in idOfMethod <==> keep(members[i]) {
          CandidateMembership(project, classes, members[i]);
        }
        IdsOfPresentIsFilteredLookup(members, idOfMethod, keep);
      }
    }

    /**
     * getIdOfContainingClass: the ID of the method's containing class, which is
     * the containing class's last position in `classes`. A class missing from
     * the map makes the source unbox null, hence the precondition.
     */
    function GetIdOfContainingClass(m: PsiMethod): (id: int)
      requires Valid()
      requires project.containingClass(m) in idOfClass
      ensures 0 <= id < |classes| && classes[id] == project.containingClass(m)
      ensures forall j :: id < j < |classes| ==> classes[j] != project.containingClass(m)
      ensures Distinct(classes) ==> forall j :: 0 <= j < |classes| && classes[j] == project.containingClass(m) ==> j == id
    {
      idOfClass[project.containingClass(m)]
    }

    /**
     * getIdsOfTargetClasses: the target list of the method's last record, and
     * the empty list when the method has no record.
     */
    function GetIdsOfTargetClasses(m: PsiMethod): (targets: seq<int>)
      requires Valid()
      ensures targets == TargetsOf(dataset.methods, m)
    {
      TargetsMapLookup(dataset.methods, m);
      if m !in idOfTargetClasses then [] else idOfTargetClasses[m]
    }

    /** With consistent membership, every collected method's containing class has an ID. */
    lemma ContainingClassesIndexed()
      requires Valid()
      requires MembershipConsistent(project)
      ensures forall i :: 0 <= i < |methods| ==> project.containingClass(methods[i]) in idOfClass
    {
      forall i | 0 <= i < |methods| ensures project.containingClass(methods[i]) in idOfClass {
        CandidateMembership(project, classes, methods[i]);
        var j :| 0 <= j < |classes| && methods[i] in project.methodsOf(classes[j]);
        assert classes[j] in classes;
      }
    }

    /**
     * Properties of the built graph: one label-1 point per record, |points| is
     * the sum of 1 + #targets, every point's method ID indexes `methods`.
     */
    lemma PointsSummary()
      requires Valid()
      ensures |points| == TotalPoints(dataset.methods)
      ensures CountLabel(points, 1) == |dataset.methods|
      ensures CountLabel(points, 0) == TotalTargets(dataset.methods)
      ensures forall k :: 0 <= k < |points| ==> 0 <= points[k].methodId < |methods|
    {
      PointsCount(dataset.methods, idOfMethod);
      PointsMethodIds(dataset.methods, idOfMethod, |methods|);
    }
  }
}
