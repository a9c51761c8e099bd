/**
 * ContextPathCsvSerializer: the methods, classes and points tables of a
 * ContextPathDataset, each as a sequence of records. A method whose rendered
 * context is empty stops the run with UnexpectedEmptyContext.
 */
module Serializer {
  import opened Wrappers
  import opened Seqs
  import opened Cells
  import opened Psi
  import opened LabeledGraph
  import SearcherDataset

  const MAX_PATH_LENGTH: int := 8

  const MAX_PATH_WIDTH: int := 2

  /** The extractor's parameters, built from `--max_path_length` and `--max_path_width`. */
  datatype CommandLineValues = CommandLineValues(maxPathLength: int, maxPathWidth: int)

  /** One feature record of the context-path extractor; only its name is inspected here. */
  datatype ProgramFeatures = ProgramFeatures(name: string, contexts: seq<string>)

  /** The collaborators the serializer calls and this model does not look into. */
  datatype Collaborators = Collaborators(
    extractSingleFile: (CommandLineValues, string) -> seq<ProgramFeatures>,  // ExtractFeaturesTask
    featuresToString: seq<ProgramFeatures> -> string,                         // ExtractFeaturesTask.featuresToString
    splitToSubtokens: string -> seq<string>,                                  // Common.splitToSubtokens
    internalSeparator: string,                                                // Common.internalSeparator
    fullyQualifiedName: PsiMethod -> string,                                  // MethodUtils.fullyQualifiedName
    methodFile: PsiMethod -> string,                                          // getPathToContainingFile
    classFile: PsiClass -> string                                             // getPathToContainingFile
  )

  /** A row of methods.csv: id, name, context, file, offset, containing_class_id, target_ids. */
  datatype MethodRecord = MethodRecord(id: int, name: string, context: string, file: string, offset: int,
                                       containingClassId: int, targetIds: string)

  /** A row of classes.csv: id, name, methods, file, offset. */
  datatype ClassRecord = ClassRecord(id: int, name: Option<string>, methods: string, file: string, offset: int)

  /** A row of points.csv: method_id, class_id, label (the file has no header). */
  datatype PointRecord = PointRecord(methodId: int, classId: int, labelValue: int)

  datatype UnexpectedEmptyContext = UnexpectedEmptyContext(message: string)

  /**
   * Either all three tables, or the exception together with the rows of
   * methods.csv already printed; classes.csv and points.csv are then never written.
   */
  datatype Output =
    | Written(methodRows: seq<MethodRecord>, classRows: seq<ClassRecord>, pointRows: seq<PointRecord>)
    | Aborted(error: UnexpectedEmptyContext, methodRows: seq<MethodRecord>)

  // ---------------------------------------------------------------- removeDanglingOneLineComments

  /** The characters Java's `.` does not match: the line terminators of java.util.regex. */
  predicate IsLineTerminator(c: char)
  {
    c == '\n' || c == '\r' || c == '\U{85}' || c == '\U{2028}' || c == '\U{2029}'
  }

  /** The pattern `//.*?\z` matches at position `i`: a `//` with no line terminator after it. */
  predicate DanglingCommentAt(code: string, i: nat)
  {
    i + 2 <= |code| && code[i] == '/' && code[i + 1] == '/' &&
    forall k :: i + 2 <= k < |code| ==> !IsLineTerminator(code[k])
  }

  /** The search of the regular-expression matcher: the leftmost match at or after `from`. */
  function FindDanglingComment(code: string, from: nat): (r: Option<nat>)
    requires from <= |code|
    ensures r.Some? ==> from <= r.value && DanglingCommentAt(code, r.value) &&
                        forall j :: from <= j < r.value ==> !DanglingCommentAt(code, j)
    ensures r.None? ==> forall j :: from <= j ==> !DanglingCommentAt(code, j)
    decreases |code| - from
  {
    if from == |code| then None
    else if DanglingCommentAt(code, from) then Some(from)
    else FindDanglingComment(code, from + 1)
  }

  /**
   * `code.replaceAll("//.*?\\z", "")`: cuts the input at the leftmost `//` that
   * has no line terminator after it; input without one is returned unchanged.
   */
  function RemoveDanglingOneLineComments(code: string): (r: string)
    ensures r <= code
    ensures (r == code) <==> forall j: nat :: !DanglingCommentAt(code, j)
    ensures |r| < |code| ==> DanglingCommentAt(code, |r|) && forall j: nat :: j < |r| ==> !DanglingCommentAt(code, j)
  {
    match FindDanglingComment(code, 0)
    case None => code
    case Some(i) => code[..i]
  }

  /** The comment is removed once and for all: the result has no dangling comment left. */
  lemma RemoveDanglingOneLineCommentsIdempotent(code: string)
    ensures RemoveDanglingOneLineComments(RemoveDanglingOneLineComments(code)) == RemoveDanglingOneLineComments(code)
  {
    var r := RemoveDanglingOneLineComments(code);
    if r != code {
      var i := |r|;
      forall j: nat ensures !DanglingCommentAt(r, j) {
        if DanglingCommentAt(r, j) {
          assert j + 2 <= i;
          forall k | j + 2 <= k < |code| ensures !IsLineTerminator(code[k]) {
            if k < i {
              assert code[k] == r[k];
            }
          }
          assert DanglingCommentAt(code, j);
          assert false;
        }
      }
    }
  }

  /** Input that ends with a line terminator has no dangling comment and is unchanged. */
  lemma TerminatedInputUnchanged(code: string)
    requires |code| > 0 && IsLineTerminator(code[|code| - 1])
    ensures RemoveDanglingOneLineComments(code) == code
  {
    forall j: nat ensures !DanglingCommentAt(code, j) {
      if j + 2 <= |code| - 1 {
        assert IsLineTerminator(code[|code| - 1]);
      }
    }
  }

  // ---------------------------------------------------------------- feature selection

  /** splitName: the subtokens of the method's name joined with the extractor's separator. */
  function SplitName(tools: Collaborators, p: Project, m: PsiMethod): string
  {
    Join(tools.splitToSubtokens(p.methodNameOf(m)), tools.internalSeparator)
  }

  /**
   * No subtokens give the empty split name; otherwise it starts with the first
   * subtoken, ends with the last, and has one separator between neighbours.
   */
  lemma SplitNameShape(tools: Collaborators, p: Project, m: PsiMethod)
    ensures var subtokens := tools.splitToSubtokens(p.methodNameOf(m));
            var name := SplitName(tools, p, m);
            (subtokens == [] ==> name == "") &&
            (|subtokens| >= 1 ==>
               subtokens[0] <= name &&
               |name| >= |subtokens[|subtokens| - 1]| &&
               name[|name| - |subtokens[|subtokens| - 1]|..] == subtokens[|subtokens| - 1] &&
               |name| == TotalLength(subtokens) + (|subtokens| - 1) * |tools.internalSeparator|)
  {
    JoinShape(tools.splitToSubtokens(p.methodNameOf(m)), tools.internalSeparator);
  }

  /**
   * `.filter(it -> it.getName().equals(name)).limit(1)`: the first feature with
   * that name, or nothing when none has it.
   */
  function FirstMatching(features: seq<ProgramFeatures>, name: string): (r: seq<ProgramFeatures>)
    ensures |r| <= 1
    ensures r == [] <==> forall i :: 0 <= i < |features| ==> features[i].name != name
    ensures r != [] ==> exists i :: 0 <= i < |features| && features[i] == r[0] && r[0].name == name &&
                                    forall j :: 0 <= j < i ==> features[j].name != name
    ensures forall i ::
              (0 <= i < |features| && features[i].name == name && forall j :: 0 <= j < i ==> features[j].name != name)
              ==> r == [features[i]]
  {
    var matches := (f: ProgramFeatures) => f.name == name;
    var matching := Filter(features, matches);
    FilterEmpty(features, matches);
    if matching == [] then []
    else
      FilterHead(features, matches);
      [matching[0]]
  }

  /** The rendered path context of a method, as serialize computes it before the emptiness test. */
  function PathContext(tools: Collaborators, p: Project, m: PsiMethod): string
  {
    var cmdValues := CommandLineValues(MAX_PATH_LENGTH, MAX_PATH_WIDTH);
    var features := tools.extractSingleFile(cmdValues, RemoveDanglingOneLineComments(p.textOf(m)));
    tools.featuresToString(FirstMatching(features, SplitName(tools, p, m)))
  }

  /**
   * The extractor runs with limits 8 and 2 on the method's text after
   * RemoveDanglingOneLineComments; the context is the rendering of the first
   * feature named by the split name, or of no feature when none is.
   */
  lemma PathContextSelectsFirstMatch(tools: Collaborators, p: Project, m: PsiMethod)
    ensures var features := tools.extractSingleFile(CommandLineValues(8, 2), RemoveDanglingOneLineComments(p.textOf(m)));
            var name := SplitName(tools, p, m);
            ((forall i :: 0 <= i < |features| ==> features[i].name != name) ==>
               PathContext(tools, p, m) == tools.featuresToString([])) &&
            (forall i ::
               (0 <= i < |features| && features[i].name == name && forall j :: 0 <= j < i ==> features[j].name != name)
               ==> PathContext(tools, p, m) == tools.featuresToString([features[i]]))
  {
  }

  /**
   * When the extractor yields no feature named after the method and renders the
   * empty selection as the empty string, the method's context is empty, so
   * serialization stops at that method.
   */
  lemma NoMatchingFeatureEmptyContext(tools: Collaborators, p: Project, m: PsiMethod)
    requires tools.featuresToString([]) == ""
    requires var features := tools.extractSingleFile(CommandLineValues(MAX_PATH_LENGTH, MAX_PATH_WIDTH),
                                                     RemoveDanglingOneLineComments(p.textOf(m)));
             forall i :: 0 <= i < |features| ==> features[i].name != SplitName(tools, p, m)
    ensures PathContext(tools, p, m) == ""
  {
  }

  // ---------------------------------------------------------------- rows

  /**
   * The methods.csv record serialize prints for method ID `i`: its ID, the
   * method's name, context, file and offset, the position of its containing
   * class, and its target list (from the method's last record) as a cell.
   */
  function MethodRow(tools: Collaborators, ds: SearcherDataset.ContextPathDataset, i: int): MethodRecord
    requires ds.Valid() && MembershipConsistent(ds.project)
    requires 0 <= i < |ds.methods|
  {
    ds.ContainingClassesIndexed();
    var m := ds.methods[i];
    MethodRecord(i, tools.fullyQualifiedName(m), PathContext(tools, ds.project, m), tools.methodFile(m),
                 ds.project.methodOffsetOf(m), ds.GetIdOfContainingClass(m), JoinIds(ds.GetIdsOfTargetClasses(m)))
  }

  /**
   * The classes.csv record serialize prints for class ID `i`: its ID, the
   * class's qualified name, file and offset, and a methods cell that reads back
   * as the class's method IDs.
   */
  function ClassRow(tools: Collaborators, ds: SearcherDataset.ContextPathDataset, i: int): (row: ClassRecord)
    requires 0 <= i < |ds.classes|
    ensures var c := ds.classes[i];
            row.id == i && row.name == ds.project.qualifiedNameOf(c) &&
            row.file == tools.classFile(c) && row.offset == ds.project.classOffsetOf(c) &&
            ParseIds(row.methods) == Some(ds.IdsOfMethodsIn(c))
  {
    var c := ds.classes[i];
    JoinIdsRoundTrip(ds.IdsOfMethodsIn(c));
    ClassRecord(i, ds.project.qualifiedNameOf(c), JoinIds(ds.IdsOfMethodsIn(c)), tools.classFile(c),
                ds.project.classOffsetOf(c))
  }

  /** The points.csv record of a point: its three fields, from which the point is read back. */
  function PointRow(pt: Point): (row: PointRecord)
    ensures Point(row.methodId, row.classId, row.labelValue) == pt
  {
    PointRecord(pt.methodId, pt.classId, pt.labelValue)
  }

  /**
   * The context computation of the methods loop of serialize: extraction with
   * limits 8 and 2 from the text cut at its leftmost `//` that has no line
   * terminator after it, selection of the first feature named by the split
   * name, and rendering.
   */
  method ExtractPathContext(tools: Collaborators, p: Project, m: PsiMethod) returns (pathContext: string)
    ensures pathContext == PathContext(tools, p, m)
  {
    var cmdValues := CommandLineValues(MAX_PATH_LENGTH, MAX_PATH_WIDTH);
    var code := RemoveDanglingOneLineComments(p.textOf(m));
    var methodsContexts := FirstMatching(tools.extractSingleFile(cmdValues, code), SplitName(tools, p, m));
    pathContext := tools.featuresToString(methodsContexts);
  }

  /** The record the methods loop of serialize prints for method ID `methodId`. */
  method MethodRecordOf(tools: Collaborators, dataset: SearcherDataset.ContextPathDataset, methodId: int,
                        pathContext: string) returns (row: MethodRecord)
    requires dataset.Valid() && MembershipConsistent(dataset.project)
    requires 0 <= methodId < |dataset.methods|
    requires pathContext == PathContext(tools, dataset.project, dataset.methods[methodId])
    ensures row == MethodRow(tools, dataset, methodId)
  {
    dataset.ContainingClassesIndexed();
    var m := dataset.methods[methodId];
    row := MethodRecord(
      methodId,
      tools.fullyQualifiedName(m),
      pathContext,
      tools.methodFile(m),
      dataset.project.methodOffsetOf(m),
      dataset.GetIdOfContainingClass(m),
      JoinIds(dataset.GetIdsOfTargetClasses(m)));
  }

  /**
   * The methods loop of serialize: one row per method in list
   * order, stopping at the first method whose context is empty.
   */
  method SerializeMethods(tools: Collaborators, dataset: SearcherDataset.ContextPathDataset)
    returns (methodRows: seq<MethodRecord>, aborted: bool)
    requires dataset.Valid()
    requires MembershipConsistent(dataset.project)
    ensures |methodRows| <= |dataset.methods|
    ensures forall i :: 0 <= i < |methodRows| ==>
              methodRows[i] == MethodRow(tools, dataset, i) &&
              PathContext(tools, dataset.project, dataset.methods[i]) != ""
    ensures aborted <==> |methodRows| < |dataset.methods|
    ensures aborted ==> PathContext(tools, dataset.project, dataset.methods[|methodRows|]) == ""
  {
    var methods := dataset.methods;
    methodRows := [];
    var methodId := 0;
    while methodId < |methods|
      invariant 0 <= methodId <= |methods|
      invariant |methodRows| == methodId
      invariant forall i :: 0 <= i < methodId ==>
                  methodRows[i] == MethodRow(tools, dataset, i) &&
                  PathContext(tools, dataset.project, methods[i]) != ""
    {
      var m := methods[methodId];
      var pathContext := ExtractPathContext(tools, dataset.project, m);
      if pathContext == "" {
        return methodRows, true;
      }
      var row := MethodRecordOf(tools, dataset, methodId, pathContext);
      methodRows := methodRows + [row];
      methodId := methodId + 1;
    }
    aborted := false;
  }

  /** The classes loop of serialize: one row per class, in list order. */
  method SerializeClasses(tools: Collaborators, dataset: SearcherDataset.ContextPathDataset)
    returns (classRows: seq<ClassRecord>)
    requires dataset.Valid()
    ensures |classRows| == |dataset.classes|
    ensures forall i :: 0 <= i < |dataset.classes| ==> classRows[i] == ClassRow(tools, dataset, i)
  {
    var classes := dataset.classes;
    classRows := [];
    var classId := 0;
    while classId < |classes|
      invariant 0 <= classId <= |classes|
      invariant |classRows| == classId
      invariant forall i :: 0 <= i < classId ==> classRows[i] == ClassRow(tools, dataset, i)
    {
      var clazz := classes[classId];
      var idsOfMethods := dataset.GetIdsOfMethodsIn(clazz);
      classRows := classRows + [ClassRecord(
        classId,
        dataset.project.qualifiedNameOf(clazz),
        JoinIds(idsOfMethods),
        tools.classFile(clazz),
        dataset.project.classOffsetOf(clazz))];
      classId := classId + 1;
    }
  }

  /** The points loop of serialize: one row per point, in list order. */
  method SerializePoints(points: seq<Point>) returns (pointRows: seq<PointRecord>)
    ensures |pointRows| == |points|
    ensures forall k :: 0 <= k < |points| ==> pointRows[k] == PointRow(points[k])
  {
    pointRows := [];
    var k := 0;
    while k < |points|
      invariant 0 <= k <= |points|
      invariant |pointRows| == k
      invariant forall j :: 0 <= j < k ==> pointRows[j] == PointRow(points[j])
    {
      var point := points[k];
      pointRows := pointRows + [PointRecord(point.methodId, point.classId, point.labelValue)];
      k := k + 1;
    }
  }

  /**
   * serialize: the methods table, then the classes and points tables; a method
   * whose context is empty stops the run with UnexpectedEmptyContext naming it.
   */
  method Serialize(tools: Collaborators, dataset: SearcherDataset.ContextPathDataset) returns (out: Output)
    requires dataset.Valid()
    requires MembershipConsistent(dataset.project)
    ensures |out.methodRows| <= |dataset.methods|
    ensures forall i :: 0 <= i < |out.methodRows| ==>
              out.methodRows[i] == MethodRow(tools, dataset, i) &&
              PathContext(tools, dataset.project, dataset.methods[i]) != ""
    ensures out.Aborted? <==> |out.methodRows| < |dataset.methods|
    ensures out.Aborted? ==>
              var m := dataset.methods[|out.methodRows|];
              PathContext(tools, dataset.project, m) == "" &&
              out.error == UnexpectedEmptyContext(tools.fullyQualifiedName(m))
    ensures out.Written? ==>
              |out.classRows| == |dataset.classes| &&
              (forall i :: 0 <= i < |dataset.classes| ==> out.classRows[i] == ClassRow(tools, dataset, i)) &&
              |out.pointRows| == |dataset.points| &&
              (forall k :: 0 <= k < |dataset.points| ==> out.pointRows[k] == PointRow(dataset.points[k]))
  {
    var methodRows, aborted := SerializeMethods(tools, dataset);
    if aborted {
      var m := dataset.methods[|methodRows|];
      return Aborted(UnexpectedEmptyContext(tools.fullyQualifiedName(m)), methodRows);
    }
    var classRows := SerializeClasses(tools, dataset);
    var pointRows := SerializePoints(dataset.points);
    out := Written(methodRows, classRows, pointRows);
  }

  // ---------------------------------------------------------------- what the rows mean

  /**
   * Row `i` of methods.csv has ID `i`, names method `i`, gives the ID of its
   * containing class, and its target_ids cell reads back as the method's target
   * list (the empty cell exactly for no targets).
   */
  lemma MethodRowMeaning(tools: Collaborators, ds: SearcherDataset.ContextPathDataset, i: int)
    requires ds.Valid() && MembershipConsistent(ds.project)
    requires 0 <= i < |ds.methods|
    ensures var row := MethodRow(tools, ds, i);
            var m := ds.methods[i];
            row.id == i && row.name == tools.fullyQualifiedName(m) &&
            0 <= row.containingClassId < |ds.classes| &&
            ds.classes[row.containingClassId] == ds.project.containingClass(m) &&
            ParseIds(row.targetIds) == Some(TargetsOf(ds.dataset.methods, m)) &&
            (row.targetIds == "" <==> TargetsOf(ds.dataset.methods, m) == [])
  {
    var m := ds.methods[i];
    JoinIdsRoundTrip(TargetsOf(ds.dataset.methods, m));
    JoinIdsEmpty(TargetsOf(ds.dataset.methods, m));
  }

  /**
   * Row `i` of classes.csv has ID `i`, and its methods cell reads back as IDs
   * of methods-table rows whose methods are members of class `i`.
   */
  lemma ClassRowMeaning(tools: Collaborators, ds: SearcherDataset.ContextPathDataset, i: int)
    requires ds.Valid()
    requires 0 <= i < |ds.classes|
    ensures var row := ClassRow(tools, ds, i);
            var c := ds.classes[i];
            row.id == i && row.name == ds.project.qualifiedNameOf(c) &&
            ParseIds(row.methods) == Some(ds.IdsOfMethodsIn(c)) &&
            forall k :: 0 <= k < |ds.IdsOfMethodsIn(c)| ==>
              0 <= ds.IdsOfMethodsIn(c)[k] < |ds.methods| &&
              ds.methods[ds.IdsOfMethodsIn(c)[k]] in ds.project.methodsOf(c)
  {
    var c := ds.classes[i];
    JoinIdsRoundTrip(ds.IdsOfMethodsIn(c));
    IdsOfPresentValid(ds.project.methodsOf(c), ds.methods, ds.idOfMethod, CandidateSet(ds.project, ds.classes));
  }

  /**
   * The tables join: every points row names a methods-table row, its label is
   * 0 or 1, and when the dataset's class IDs are positions in its class list,
   * it names a classes-table row as well.
   */
  lemma WrittenTablesJoin(ds: SearcherDataset.ContextPathDataset, out: Output)
    requires ds.Valid()
    requires out.Written?
    requires |out.methodRows| == |ds.methods| && |out.classRows| == |ds.classes|
    requires |out.pointRows| == |ds.points|
    requires forall k :: 0 <= k < |ds.points| ==> out.pointRows[k] == PointRow(ds.points[k])
    requires forall k :: 0 <= k < |ds.dataset.methods| ==>
               0 <= ds.dataset.methods[k].idOfContainingClass < |ds.classes| &&
               forall j :: 0 <= j < |ds.dataset.methods[k].idsOfPossibleTargets| ==>
                 0 <= ds.dataset.methods[k].idsOfPossibleTargets[j] < |ds.classes|
    ensures forall k :: 0 <= k < |out.pointRows| ==>
              0 <= out.pointRows[k].methodId < |out.methodRows| &&
              0 <= out.pointRows[k].classId < |out.classRows| &&
              out.pointRows[k].labelValue in {0, 1}
  {
    ds.PointsSummary();
    PointsClassIds(ds.dataset.methods, ds.idOfMethod, |ds.classes|);
  }
}
