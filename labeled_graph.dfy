/**
 * What both ContextPathDataset classes share: the input Dataset, the labelled
 * Point, the specification of the method enumeration, of the points and of the
 * per-class method lists, and the counter loops that build them.
 */
module LabeledGraph {
  import opened Wrappers
  import opened Seqs
  import opened Psi
  import opened Filters

  /** ContextPathDataset.Point: one labelled (method, class) example. */
  datatype Point = Point(methodId: int, classId: int, labelValue: int)

  /** Dataset.Method: a method, the ID of its class and the IDs of the classes it could move to. */
  datatype DatasetMethod = DatasetMethod(psiMethod: PsiMethod, idOfContainingClass: int, idsOfPossibleTargets: seq<int>)

  /** Dataset: the classes (their order fixes the class IDs) and the method records, in iteration order. */
  datatype Dataset = Dataset(classes: seq<PsiClass>, methods: seq<DatasetMethod>)

  // ---------------------------------------------------------------- methods

  /** The members of `classes`, one class after another, passed through both method filters. */
  function CandidateMethods(p: Project, classes: seq<PsiClass>): seq<PsiMethod>
  {
    Filter(Filter(FlatMap(classes, p.methodsOf), m => EmptyMethodsFilter(p, m)), m => ConstructorsFilter(p, m))
  }

  /** `Collectors.toSet()` of the candidate stream: duplicates collapse. */
  function CandidateSet(p: Project, classes: seq<PsiClass>): set<PsiMethod>
  {
    set m | m in CandidateMethods(p, classes)
  }

  /** A member of one of the classes that passes EmptyMethodsFilter and ConstructorsFilter. */
  ghost predicate Eligible(p: Project, classes: seq<PsiClass>, m: PsiMethod)
  {
    (exists i :: 0 <= i < |classes| && m in p.methodsOf(classes[i])) &&
    EmptyMethodsFilter(p, m) && ConstructorsFilter(p, m)
  }

  /** A method is collected exactly when it is a member of some class and passes both filters. */
  lemma CandidateMembership(p: Project, classes: seq<PsiClass>, m: PsiMethod)
    ensures m in CandidateSet(p, classes) <==> Eligible(p, classes, m)
  {
    var members := FlatMap(classes, p.methodsOf);
    var nonEmpty := Filter(members, m => EmptyMethodsFilter(p, m));
    FlatMapMembership(classes, p.methodsOf, m);
    FilterMembership(members, m => EmptyMethodsFilter(p, m), m);
    FilterMembership(nonEmpty, m => ConstructorsFilter(p, m), m);
  }

  /**
   * `methods` lists `universe` without repetition, `idOfMethod` is defined on
   * exactly `universe`, and the ID of a method is its position in `methods`.
   */
  ghost predicate DenseEnumeration(methods: seq<PsiMethod>, idOfMethod: map<PsiMethod, int>, universe: set<PsiMethod>)
  {
    Distinct(methods) &&
    (forall m :: m in methods <==> m in universe) &&
    idOfMethod.Keys == universe &&
    (forall i :: 0 <= i < |methods| ==> methods[i] in idOfMethod && idOfMethod[methods[i]] == i) &&
    (forall m :: m in idOfMethod ==> 0 <= idOfMethod[m] < |methods| && methods[idOfMethod[m]] == m)
  }

  /**
   * The method-ID loop of both ContextPathDataset constructors: every element of
   * the hash set, in the set's own (unspecified) iteration order, is appended to
   * `methods` and mapped to the counter, which then steps.
   */
  method EnumerateMethods(allMethods: set<PsiMethod>) returns (methods: seq<PsiMethod>, idOfMethod: map<PsiMethod, int>)
    ensures DenseEnumeration(methods, idOfMethod, allMethods)
    ensures |methods| == |allMethods|
  {
    methods := [];
    idOfMethod := map[];
    var remaining := allMethods;
    var methodId := 0;
    while remaining != {}
      invariant methodId == |methods|
      invariant remaining <= allMethods
      invariant Distinct(methods)
      invariant forall m :: m in methods <==> m in allMethods && m !in remaining
      invariant idOfMethod.Keys == allMethods - remaining
      invariant forall i :: 0 <= i < |methods| ==> methods[i] in idOfMethod && idOfMethod[methods[i]] == i
      invariant forall m :: m in idOfMethod ==> 0 <= idOfMethod[m] < |methods| && methods[idOfMethod[m]] == m
      invariant |methods| + |remaining| == |allMethods|
      decreases remaining
    {
      var m :| m in remaining;
      methods := methods + [m];
      idOfMethod := idOfMethod[m := methodId];
      methodId := methodId + 1;
      remaining := remaining - {m};
    }
  }

  // ---------------------------------------------------------------- classes

  /**
   * `idOfClass` is defined on exactly the listed classes and maps each to the
   * position of its last occurrence (a repeated `put` overwrites).
   */
  ghost predicate IndexesLastOccurrence(idOfClass: map<PsiClass, int>, classes: seq<PsiClass>)
  {
    (forall c :: c in idOfClass <==> c in classes) &&
    (forall c :: c in idOfClass ==>
       0 <= idOfClass[c] < |classes| && classes[idOfClass[c]] == c &&
       forall j :: idOfClass[c] < j < |classes| ==> classes[j] != c)
  }

  /** With no class listed twice, the ID of the class at position `i` is `i`. */
  lemma LastOccurrenceOfDistinct(idOfClass: map<PsiClass, int>, classes: seq<PsiClass>, i: int)
    requires IndexesLastOccurrence(idOfClass, classes)
    requires Distinct(classes)
    requires 0 <= i < |classes|
    ensures classes[i] in idOfClass && idOfClass[classes[i]] == i
  {
    assert classes[i] in classes;
  }

  // ---------------------------------------------------------------- points

  /** Every record's method was given an ID (otherwise the source unboxes null). */
  ghost predicate RecordsResolved(records: seq<DatasetMethod>, idOfMethod: map<PsiMethod, int>)
  {
    forall k :: 0 <= k < |records| ==> records[k].psiMethod in idOfMethod
  }

  /** One label-0 point per target, in target order. */
  function NegativePoints(methodId: int, targets: seq<int>): seq<Point>
  {
    if |targets| == 0 then []
    else NegativePoints(methodId, targets[..|targets| - 1]) + [Point(methodId, targets[|targets| - 1], 0)]
  }

  /** The points one record contributes: label 1 for its own class, then the negatives. */
  function RecordPoints(methodId: int, r: DatasetMethod): seq<Point>
  {
    [Point(methodId, r.idOfContainingClass, 1)] + NegativePoints(methodId, r.idsOfPossibleTargets)
  }

  /** The points of the records, record after record. */
  function PointsOf(records: seq<DatasetMethod>, idOfMethod: map<PsiMethod, int>): seq<Point>
    requires RecordsResolved(records, idOfMethod)
  {
    if |records| == 0 then []
    else
      var last := records[|records| - 1];
      PointsOf(records[..|records| - 1], idOfMethod) + RecordPoints(idOfMethod[last.psiMethod], last)
  }

  lemma {:induction false} NegativePointsAt(methodId: int, targets: seq<int>)
    ensures |NegativePoints(methodId, targets)| == |targets|
    ensures forall j :: 0 <= j < |targets| ==> NegativePoints(methodId, targets)[j] == Point(methodId, targets[j], 0)
  {
    if |targets| > 0 {
      NegativePointsAt(methodId, targets[..|targets| - 1]);
    }
  }

  /** The points of one record: first `(id, containing, 1)`, then `(id, t, 0)` for the targets in order. */
  lemma RecordPointsAt(methodId: int, r: DatasetMethod)
    ensures |RecordPoints(methodId, r)| == 1 + |r.idsOfPossibleTargets|
    ensures RecordPoints(methodId, r)[0] == Point(methodId, r.idOfContainingClass, 1)
    ensures forall j :: 0 <= j < |r.idsOfPossibleTargets| ==>
              RecordPoints(methodId, r)[1 + j] == Point(methodId, r.idsOfPossibleTargets[j], 0)
  {
    NegativePointsAt(methodId, r.idsOfPossibleTargets);
  }

  /** The points of consecutive runs of records are consecutive: records are processed in order. */
  lemma {:induction false} PointsOfAppend(a: seq<DatasetMethod>, b: seq<DatasetMethod>, idOfMethod: map<PsiMethod, int>)
    requires RecordsResolved(a, idOfMethod) && RecordsResolved(b, idOfMethod)
    ensures RecordsResolved(a + b, idOfMethod)
    ensures PointsOf(a + b, idOfMethod) == PointsOf(a, idOfMethod) + PointsOf(b, idOfMethod)
  {
    assert RecordsResolved(a + b, idOfMethod) by {
      forall k | 0 <= k < |a + b| ensures (a + b)[k].psiMethod in idOfMethod {
        if k >= |a| { assert (a + b)[k] == b[k - |a|]; }
      }
    }
    if |b| == 0 {
      assert a + b == a;
    } else {
      var b' := b[..|b| - 1];
      var last := b[|b| - 1];
      assert RecordsResolved(b', idOfMethod) by {
        forall k | 0 <= k < |b'| ensures b'[k].psiMethod in idOfMethod { assert b'[k] == b[k]; }
      }
      assert (a + b)[..|a + b| - 1] == a + b';
      assert (a + b)[|a + b| - 1] == last;
      PointsOfAppend(a, b', idOfMethod);
      var rp := RecordPoints(idOfMethod[last.psiMethod], last);
      calc {
        PointsOf(a + b, idOfMethod);
        PointsOf(a + b', idOfMethod) + rp;
        PointsOf(a, idOfMethod) + PointsOf(b', idOfMethod) + rp;
        PointsOf(a, idOfMethod) + (PointsOf(b', idOfMethod) + rp);
        PointsOf(a, idOfMethod) + PointsOf(b, idOfMethod);
      }
    }
  }

  /** Sum over the records of 1 + the number of targets. */
  function TotalPoints(records: seq<DatasetMethod>): nat
  {
    if |records| == 0 then 0
    else TotalPoints(records[..|records| - 1]) + 1 + |records[|records| - 1].idsOfPossibleTargets|
  }

  /** Sum over the records of the number of targets. */
  function TotalTargets(records: seq<DatasetMethod>): nat
  {
    if |records| == 0 then 0
    else TotalTargets(records[..|records| - 1]) + |records[|records| - 1].idsOfPossibleTargets|
  }

  /** How many points carry the label. */
  function CountLabel(points: seq<Point>, labelValue: int): nat
  {
    if |points| == 0 then 0
    else CountLabel(points[..|points| - 1], labelValue) + (if points[|points| - 1].labelValue == labelValue then 1 else 0)
  }

  lemma {:induction false} CountLabelAppend(a: seq<Point>, b: seq<Point>, labelValue: int)
    ensures CountLabel(a + b, labelValue) == CountLabel(a, labelValue) + CountLabel(b, labelValue)
  {
    if |b| == 0 {
      assert a + b == a;
    } else {
      assert (a + b)[..|a + b| - 1] == a + b[..|b| - 1];
      CountLabelAppend(a, b[..|b| - 1], labelValue);
    }
  }

  lemma {:induction false} NegativePointsLabels(methodId: int, targets: seq<int>)
    ensures CountLabel(NegativePoints(methodId, targets), 1) == 0
    ensures CountLabel(NegativePoints(methodId, targets), 0) == |targets|
  {
    if |targets| > 0 {
      var prefix := NegativePoints(methodId, targets[..|targets| - 1]);
      NegativePointsLabels(methodId, targets[..|targets| - 1]);
      CountLabelAppend(prefix, [Point(methodId, targets[|targets| - 1], 0)], 1);
      CountLabelAppend(prefix, [Point(methodId, targets[|targets| - 1], 0)], 0);
    }
  }

  /**
   * |points| is the sum of 1 + #targets over the records, exactly one point per
   * record has label 1, and the label-0 points are as many as all targets.
   */
  lemma {:induction false} PointsCount(records: seq<DatasetMethod>, idOfMethod: map<PsiMethod, int>)
    requires RecordsResolved(records, idOfMethod)
    ensures |PointsOf(records, idOfMethod)| == TotalPoints(records)
    ensures CountLabel(PointsOf(records, idOfMethod), 1) == |records|
    ensures CountLabel(PointsOf(records, idOfMethod), 0) == TotalTargets(records)
  {
    if |records| > 0 {
      var last := records[|records| - 1];
      var id := idOfMethod[last.psiMethod];
      var prefix := PointsOf(records[..|records| - 1], idOfMethod);
      PointsCount(records[..|records| - 1], idOfMethod);
      NegativePointsAt(id, last.idsOfPossibleTargets);
      NegativePointsLabels(id, last.idsOfPossibleTargets);
      CountLabelAppend(prefix, RecordPoints(id, last), 1);
      CountLabelAppend(prefix, RecordPoints(id, last), 0);
      CountLabelAppend([Point(id, last.idOfContainingClass, 1)], NegativePoints(id, last.idsOfPossibleTargets), 1);
      CountLabelAppend([Point(id, last.idOfContainingClass, 1)], NegativePoints(id, last.idsOfPossibleTargets), 0);
    }
  }

  /** Every point names a method ID the map hands out, so an ID below `bound` when all IDs are. */
  lemma {:induction false} PointsMethodIds(records: seq<DatasetMethod>, idOfMethod: map<PsiMethod, int>, bound: int)
    requires RecordsResolved(records, idOfMethod)
    requires forall m :: m in idOfMethod ==> 0 <= idOfMethod[m] < bound
    ensures forall k :: 0 <= k < |PointsOf(records, idOfMethod)| ==> 0 <= PointsOf(records, idOfMethod)[k].methodId < bound
  {
    if |records| > 0 {
      var last := records[|records| - 1];
      var id := idOfMethod[last.psiMethod];
      PointsMethodIds(records[..|records| - 1], idOfMethod, bound);
      RecordPointsAt(id, last);
      var prefix := PointsOf(records[..|records| - 1], idOfMethod);
      var all := PointsOf(records, idOfMethod);
      assert all == prefix + RecordPoints(id, last);
      forall k | 0 <= k < |all| ensures 0 <= all[k].methodId < bound {
        if k < |prefix| {
          assert all[k] == prefix[k];
        } else {
          var j := k - |prefix|;
          assert all[k] == RecordPoints(id, last)[j];
          if j > 0 {
            assert all[k] == Point(id, last.idsOfPossibleTargets[j - 1], 0);
          }
        }
      }
    }
  }

  /**
   * Every point's label is 1 or 0, and its class ID is a record's containing
   * class or one of its targets, so below `bound` when all of those are.
   */
  lemma {:induction false} PointsClassIds(records: seq<DatasetMethod>, idOfMethod: map<PsiMethod, int>, bound: int)
    requires RecordsResolved(records, idOfMethod)
    requires forall k :: 0 <= k < |records| ==>
               0 <= records[k].idOfContainingClass < bound &&
               forall j :: 0 <= j < |records[k].idsOfPossibleTargets| ==> 0 <= records[k].idsOfPossibleTargets[j] < bound
    ensures forall k :: 0 <= k < |PointsOf(records, idOfMethod)| ==>
              0 <= PointsOf(records, idOfMethod)[k].classId < bound &&
              PointsOf(records, idOfMethod)[k].labelValue in {0, 1}
  {
    if |records| > 0 {
      var last := records[|records| - 1];
      var id := idOfMethod[last.psiMethod];
      PointsClassIds(records[..|records| - 1], idOfMethod, bound);
      RecordPointsAt(id, last);
      var prefix := PointsOf(records[..|records| - 1], idOfMethod);
      var all := PointsOf(records, idOfMethod);
      forall k | 0 <= k < |all| ensures 0 <= all[k].classId < bound && all[k].labelValue in {0, 1} {
        if k >= |prefix| {
          var j := k - |prefix|;
          assert all[k] == RecordPoints(id, last)[j];
          if j > 0 {
            assert all[k] == Point(id, last.idsOfPossibleTargets[j - 1], 0);
          }
        }
      }
    }
  }

  /** A record whose class has ID 2 and whose targets are [5, 7] gives exactly three points. */
  lemma SingleRecordPoints(m: PsiMethod, idOfMethod: map<PsiMethod, int>)
    requires m in idOfMethod
    ensures PointsOf([DatasetMethod(m, 2, [5, 7])], idOfMethod) ==
            [Point(idOfMethod[m], 2, 1), Point(idOfMethod[m], 5, 0), Point(idOfMethod[m], 7, 0)]
  {
    var r := DatasetMethod(m, 2, [5, 7]);
    var id := idOfMethod[m];
    assert [r][..0] == [];
    assert [5, 7][..1] == [5];
    assert [5][..0] == [];
    assert NegativePoints(id, [5]) == [Point(id, 5, 0)];
    assert NegativePoints(id, [5, 7]) == [Point(id, 5, 0), Point(id, 7, 0)];
    assert PointsOf([r], idOfMethod) == PointsOf([], idOfMethod) + RecordPoints(id, r);
  }

  /**
   * One pass of the records loop of both ContextPathDataset constructors: the label-1 point,
   * then one label-0 point per target in the loop over the targets.
   */
  method AppendRecordPoints(points: seq<Point>, methodId: int, record: DatasetMethod) returns (result: seq<Point>)
    ensures result == points + RecordPoints(methodId, record)
  {
    var head := points + [Point(methodId, record.idOfContainingClass, 1)];
    var targets := record.idsOfPossibleTargets;
    result := head;
    var j := 0;
    while j < |targets|
      invariant 0 <= j <= |targets|
      invariant result == head + NegativePoints(methodId, targets[..j])
    {
      assert targets[..j + 1][..j] == targets[..j];
      result := result + [Point(methodId, targets[j], 0)];
      j := j + 1;
    }
    assert targets[..j] == targets;
  }

  // ---------------------------------------------------------------- targets

  /** The map that `idOfTargetClasses.put` builds over the records: a later record overwrites. */
  function TargetsMap(records: seq<DatasetMethod>): map<PsiMethod, seq<int>>
  {
    if |records| == 0 then map[]
    else
      var last := records[|records| - 1];
      TargetsMap(records[..|records| - 1])[last.psiMethod := last.idsOfPossibleTargets]
  }

  /** Reference definition: the targets of the last record of `m`, or none if `m` has no record. */
  function TargetsOf(records: seq<DatasetMethod>, m: PsiMethod): seq<int>
  {
    if |records| == 0 then []
    else if records[|records| - 1].psiMethod == m then records[|records| - 1].idsOfPossibleTargets
    else TargetsOf(records[..|records| - 1], m)
  }

  /** Looking up the map, with the empty list for a missing key, is the reference definition. */
  lemma {:induction false} TargetsMapLookup(records: seq<DatasetMethod>, m: PsiMethod)
    ensures (m in TargetsMap(records)) == (exists k :: 0 <= k < |records| && records[k].psiMethod == m)
    ensures (if m in TargetsMap(records) then TargetsMap(records)[m] else []) == TargetsOf(records, m)
  {
    if |records| > 0 {
      var prefix := records[..|records| - 1];
      TargetsMapLookup(prefix, m);
      if exists k :: 0 <= k < |prefix| && prefix[k].psiMethod == m {
        var k :| 0 <= k < |prefix| && prefix[k].psiMethod == m;
        assert records[k].psiMethod == m;
      }
      if exists k :: 0 <= k < |records| && records[k].psiMethod == m {
        var k :| 0 <= k < |records| && records[k].psiMethod == m;
        if k < |prefix| { assert prefix[k].psiMethod == m; }
      }
    }
  }

  /** The last record wins: a record for `m` with no later record for `m` gives the targets. */
  lemma {:induction false} TargetsOfLastRecord(records: seq<DatasetMethod>, m: PsiMethod, k: int)
    requires 0 <= k < |records| && records[k].psiMethod == m
    requires forall j :: k < j < |records| ==> records[j].psiMethod != m
    ensures TargetsOf(records, m) == records[k].idsOfPossibleTargets
  {
    if k < |records| - 1 {
      TargetsOfLastRecord(records[..|records| - 1], m, k);
    }
  }

  /** A method without a record has no targets, and that is not an error. */
  lemma {:induction false} TargetsOfUnrecorded(records: seq<DatasetMethod>, m: PsiMethod)
    requires forall j :: 0 <= j < |records| ==> records[j].psiMethod != m
    ensures TargetsOf(records, m) == []
  {
    if |records| > 0 {
      TargetsOfUnrecorded(records[..|records| - 1], m);
    }
  }

  // ---------------------------------------------------------------- methods of a class

  /** The IDs of the members that have one, in member order (both getIdsOfMethodsIn). */
  function IdsOfPresent(members: seq<PsiMethod>, idOfMethod: map<PsiMethod, int>): (ids: seq<int>)
    ensures |ids| <= |members|
  {
    if |members| == 0 then []
    else if members[0] in idOfMethod then [idOfMethod[members[0]]] + IdsOfPresent(members[1..], idOfMethod)
    else IdsOfPresent(members[1..], idOfMethod)
  }

  lemma {:induction false} IdsOfPresentSnoc(members: seq<PsiMethod>, m: PsiMethod, idOfMethod: map<PsiMethod, int>)
    ensures IdsOfPresent(members + [m], idOfMethod) ==
            IdsOfPresent(members, idOfMethod) + (if m in idOfMethod then [idOfMethod[m]] else [])
  {
    if |members| == 0 {
      assert members + [m] == [m];
    } else {
      assert (members + [m])[1..] == members[1..] + [m];
      IdsOfPresentSnoc(members[1..], m, idOfMethod);
    }
  }

  /**
   * The IDs are those of the members accepted by `present`, mapped through the
   * map, in member order: an order-preserving filter followed by the lookup.
   */
  lemma {:induction false} IdsOfPresentIsFilteredLookup(members: seq<PsiMethod>, idOfMethod: map<PsiMethod, int>,
                                                         present: PsiMethod -> bool)
    requires forall i :: 0 <= i < |members| ==> (members[i] in idOfMethod <==> present(members[i]))
    ensures |IdsOfPresent(members, idOfMethod)| == |Filter(members, present)|
    ensures forall k :: 0 <= k < |Filter(members, present)| ==>
              Filter(members, present)[k] in idOfMethod &&
              IdsOfPresent(members, idOfMethod)[k] == idOfMethod[Filter(members, present)[k]]
  {
    if |members| > 0 {
      assert forall i :: 0 <= i < |members[1..]| ==> members[1..][i] == members[i + 1];
      IdsOfPresentIsFilteredLookup(members[1..], idOfMethod, present);
    }
  }

  /**
   * Under a dense enumeration every ID is a valid position whose method is a
   * member, and distinct members give distinct IDs.
   */
  lemma {:induction false} IdsOfPresentValid(members: seq<PsiMethod>, methods: seq<PsiMethod>,
                                              idOfMethod: map<PsiMethod, int>, universe: set<PsiMethod>)
    requires DenseEnumeration(methods, idOfMethod, universe)
    ensures forall k :: 0 <= k < |IdsOfPresent(members, idOfMethod)| ==>
              0 <= IdsOfPresent(members, idOfMethod)[k] < |methods| &&
              methods[IdsOfPresent(members, idOfMethod)[k]] in members
    ensures Distinct(members) ==> Distinct(IdsOfPresent(members, idOfMethod))
  {
    if |members| > 0 {
      IdsOfPresentValid(members[1..], methods, idOfMethod, universe);
      var ids := IdsOfPresent(members, idOfMethod);
      var rest := IdsOfPresent(members[1..], idOfMethod);
      forall k | 0 <= k < |ids| ensures 0 <= ids[k] < |methods| && methods[ids[k]] in members {
        if members[0] in idOfMethod && k > 0 {
          assert ids[k] == rest[k - 1];
          assert methods[rest[k - 1]] in members[1..];
        } else if members[0] !in idOfMethod {
          assert methods[rest[k]] in members[1..];
        }
      }
      if Distinct(members) && members[0] in idOfMethod {
        assert Distinct(members[1..]) by {
          forall i, j | 0 <= i < j < |members[1..]| ensures members[1..][i] != members[1..][j] {
            assert members[1..][i] == members[i + 1] && members[1..][j] == members[j + 1];
          }
        }
        forall k | 0 <= k < |rest| ensures rest[k] != idOfMethod[members[0]] {
          assert methods[rest[k]] in members[1..];
          assert methods[idOfMethod[members[0]]] == members[0];
          assert members[0] !in members[1..];
        }
      } else if Distinct(members) {
        assert Distinct(members[1..]) by {
          forall i, j | 0 <= i < j < |members[1..]| ensures members[1..][i] != members[1..][j] {
            assert members[1..][i] == members[i + 1] && members[1..][j] == members[j + 1];
          }
        }
      }
    }
  }

  /**
   * The loop of both getIdsOfMethodsIn: members without an ID are skipped
   * (`continue`), the others contribute their ID.
   */
  method CollectIdsOfPresent(members: seq<PsiMethod>, idOfMethod: map<PsiMethod, int>) returns (ids: seq<int>)
    ensures ids == IdsOfPresent(members, idOfMethod)
  {
    ids := [];
    var i := 0;
    while i < |members|
      invariant 0 <= i <= |members|
      invariant ids == IdsOfPresent(members[..i], idOfMethod)
    {
      var m := members[i];
      IdsOfPresentSnoc(members[..i], m, idOfMethod);
      assert members[..i + 1] == members[..i] + [m];
      if m !in idOfMethod {
        i := i + 1;
        continue;
      }
      ids := ids + [idOfMethod[m]];
      i := i + 1;
    }
    assert members[..i] == members;
  }

  /**
   * Example: a class Foo with a method returning a constant, a method of two
   * statements and a constructor leaves only the two-statement method.
   */
  lemma OnlyNonTrivialNonConstructorsSurvive(p: Project, foo: PsiClass, bar: PsiMethod, baz: PsiMethod, ctor: PsiMethod,
                                             one: PsiExpression, x: PsiExpression)
    requires p.methodsOf(foo) == [bar, baz, ctor]
    requires p.bodyOf(bar) == Some([ReturnStatement(Some(one))]) && p.isConstExpression(one)
    requires p.bodyOf(baz) == Some([OtherStatement, ReturnStatement(Some(x))])
    requires !p.isConstructor(bar) && !p.isConstructor(baz) && p.isConstructor(ctor)
    ensures CandidateMethods(p, [foo]) == [baz]
  {
    assert FlatMap([foo], p.methodsOf) == [bar, baz, ctor] by {
      assert [foo][1..] == [];
    }
    var members := [bar, baz, ctor];
    assert members[1..] == [baz, ctor] && members[1..][1..] == [ctor] && members[1..][1..][1..] == [];
    var keep := m => EmptyMethodsFilter(p, m);
    FilterAppend([bar, baz], [ctor], keep);
    FilterAppend([bar], [baz], keep);
    assert [bar] + [baz] == [bar, baz];
    assert [bar, baz] + [ctor] == members;
    var nonEmpty := Filter(members, keep);
    assert nonEmpty == [baz] + Filter([ctor], keep);
    var noCtor := m => ConstructorsFilter(p, m);
    FilterAppend([baz], Filter([ctor], keep), noCtor);
    if keep(ctor) {
      assert Filter([ctor], keep) == [ctor];
      assert Filter([ctor], noCtor) == [];
    }
  }
}
