/**
 * The older ContextPathDataset (root `src` tree): it keeps the Dataset's class
 * list as it is, assigns method IDs over the filtered members and builds the
 * points; it has no class map and no target map.
 */
module LegacyDataset {
  import opened Seqs
  import opened Psi
  import opened LabeledGraph

  /** The records loop of the constructor: the points of every record, record after record. */
  method BuildPoints(records: seq<DatasetMethod>, idOfMethod: map<PsiMethod, int>) returns (points: seq<Point>)
    requires RecordsResolved(records, idOfMethod)
    ensures points == PointsOf(records, idOfMethod)
  {
    points := [];
    var k := 0;
    while k < |records|
      invariant 0 <= k <= |records|
      invariant RecordsResolved(records[..k], idOfMethod)
      invariant points == PointsOf(records[..k], idOfMethod)
    {
      var record := records[k];
      var methodId := idOfMethod[record.psiMethod];
      assert records[..k + 1][..k] == records[..k];
      assert records[..k + 1][k] == record;
      points := AppendRecordPoints(points, methodId, record);
      k := k + 1;
    }
    assert records[..k] == records;
  }

  class ContextPathDataset {
    const project: Project
    ghost const dataset: Dataset

    const methods: seq<PsiMethod>
    const classes: seq<PsiClass>
    const points: seq<Point>
    const idOfMethod: map<PsiMethod, int>

    ghost predicate Valid()
    {
      classes == dataset.classes &&
      DenseEnumeration(methods, idOfMethod, CandidateSet(project, classes)) &&
      RecordsResolved(dataset.methods, idOfMethod) &&
      points == PointsOf(dataset.methods, idOfMethod)
    }

    /**
     * Builds the graph; every record's method must have been collected, as
     * `idOfMethod.get` is unboxed.
     */
    constructor (project: Project, dataset: Dataset)
      requires forall k :: 0 <= k < |dataset.methods| ==> Eligible(project, dataset.classes, dataset.methods[k].psiMethod)
      ensures Valid()
      ensures this.project == project && this.dataset == dataset
      ensures classes == dataset.classes
      ensures |methods| == |CandidateSet(project, dataset.classes)|
    {
      this.project := project;
      this.dataset := dataset;
      var classList := dataset.classes;
      var allMethods := CandidateSet(project, classList);
      var methodList, ids := EnumerateMethods(allMethods);
      assert RecordsResolved(dataset.methods, ids) by {
        forall k | 0 <= k < |dataset.methods| ensures dataset.methods[k].psiMethod in ids {
          CandidateMembership(project, classList, dataset.methods[k].psiMethod);
        }
      }
      var pointList := BuildPoints(dataset.methods, ids);
      classes := classList;
      methods := methodList;
      idOfMethod := ids;
      points := pointList;
    }

    /**
     * getIdsOfMethodsIn: the members of `c` that have an ID, mapped to it, in
     * declaration order; never longer than the member list.
     */
    method GetIdsOfMethodsIn(c: PsiClass) returns (ids: seq<int>)
      requires Valid()
      ensures ids == IdsOfPresent(project.methodsOf(c), idOfMethod)
      ensures |ids| <= |project.methodsOf(c)|
      ensures forall k :: 0 <= k < |ids| ==> 0 <= ids[k] < |methods| && methods[ids[k]] in project.methodsOf(c)
      ensures var present := Filter(project.methodsOf(c), m => m in idOfMethod);
              |ids| == |present| && forall k :: 0 <= k < |present| ==> ids[k] == idOfMethod[present[k]]
    {
      ids := CollectIdsOfPresent(project.methodsOf(c), idOfMethod);
      IdsOfPresentValid(project.methodsOf(c), methods, idOfMethod, CandidateSet(project, classes));
      IdsOfPresentIsFilteredLookup(project.methodsOf(c), idOfMethod, m => m in idOfMethod);
    }

    /**
     * Every point's method ID indexes `methods`, and the points of the records
     * are one label-1 point each followed by their label-0 points.
     */
    lemma PointsSummary()
      requires Valid()
      ensures |points| == TotalPoints(dataset.methods)
      ensures CountLabel(points, 1) == |dataset.methods|
      ensures forall k :: 0 <= k < |points| ==> 0 <= points[k].methodId < |methods|
    {
      PointsCount(dataset.methods, idOfMethod);
      PointsMethodIds(dataset.methods, idOfMethod, |methods|);
    }
  }
}
