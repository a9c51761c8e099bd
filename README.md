# MoveMethodGenerator dataset core in Dafny

MoveMethodGenerator builds a machine-learning dataset of "move method"
refactorings from a Java project. This project models the part that turns an
already collected `Dataset` into a labeled method/class graph and writes it out
as three tables:

- **ContextPathDataset**, in both copies of the repository:
  - It fixes class IDs as positions in the class list.
  - It collects every member method of those classes that passes
    `EmptyMethodsFilter` and `ConstructorsFilter`, removes duplicates through a
    set, and numbers the methods densely from 0.
  - It emits one label-1 `Point(methodId, classId, label)` per dataset record,
    followed by one label-0 point per candidate target class.
  - Both copies answer one lookup: the method IDs of a class.
  - The newer copy is in the methods-searcher module. It also keeps a
    class-to-ID map and a method-to-targets map. With them it answers two more
    lookups: the ID of a method's containing class and a method's target-class
    IDs. The older copy is in the root `src` tree. It has neither map and
    neither of these two lookups.
- **The eligibility filters.** `EmptyMethodsFilter` works over the shape of a
  method's body. `InterfacesFilter` works over the interface flag.
  `BuildersFilter` is a case-sensitive `"Builder"` suffix test on an optional
  class name.
- **ContextPathCsvSerializer.** It renders the graph as the rows of
  `methods.csv`, `classes.csv` and `points.csv`:
  - Row `i` of the first two tables carries ID `i`.
  - ID lists are written as decimal numbers joined by single spaces.
  - A method whose path context renders as the empty string stops the run with
    `UnexpectedEmptyContext`.
  - Before extraction, a method's text loses everything from the leftmost `//`
    that has no line terminator after it, that is, from the leftmost `//` on
    its last line, even when that `//` is inside a string literal. The
    extractor runs with limits 8 and 2 (`Serializer.PathContext`). The context
    keeps only the first extracted feature whose name is the method's split
    name (`Serializer.SplitName`: its subtokens joined with the extractor's
    separator).

How the model represents the system:

- **PSI entities.** Classes, methods and expressions are opaque handles
  (`Psi.PsiClass`, `Psi.PsiMethod`, `Psi.PsiExpression`). What IntelliJ would
  answer about them is a `Psi.Project` record of given functions: members,
  containing class, body, constructor flag, constant-expression flag, interface
  flag, names, text and offsets.
- **Set iteration order.** The source numbers the methods in `HashSet`
  iteration order. `LabeledGraph.EnumerateMethods` picks each next method with
  `:|`, so every contract holds for every duplicate-free enumeration.
- **Dataset objects.** Both dataset classes are Dafny classes whose fields are
  `const`. The Java fields are `final`, and `getClasses`, `getMethods` and
  `getPoints` hand out read-only views. In the methods-searcher copy every
  collection the object holds is filled once in its constructor. The older
  copy keeps the `Dataset`'s own class list instead of a copy; see
  "## Left out".
- **Constructor loops.** The counter loops of the constructors are methods with
  loop invariants (`EnumerateMethods`, `IndexClasses`, `BuildPointsAndTargets`,
  `BuildPoints`):
  - `EnumerateMethods` is proved against the predicate `DenseEnumeration` over
    the set `CandidateSet`.
  - `IndexClasses` is proved against the predicate `IndexesLastOccurrence`.
  - `BuildPointsAndTargets` and `BuildPoints` are proved against the functions
    `PointsOf` and `TargetsMap`.
- **Which class ID is used where.** Points take the containing-class ID from
  the dataset record. `getIdOfContainingClass` takes it from the class map. The
  model keeps these two apart and never claims they agree.
- **Serializer output.** The serializer's result is an `Output` value: either
  the three row sequences, or the error together with the method rows printed
  before it.
- **Collaborators.** The context-path extractor, `splitToSubtokens`,
  `fullyQualifiedName` and the file-path computation are fields of the
  `Serializer.Collaborators` record.


## Model

| member | source | states |
|---|---|---|
| Filters.EmptyMethodsFilter | methods-searcher/src/main/java/org/jetbrains/research/groups/ml_methods/move_method_gen/filters/methods/EmptyMethodsFilter.java:13-38 | A method with no body is rejected, and so is one with zero statements. More than one statement: kept. A single non-return statement: kept. A single `return;`: rejected. A single `return e;`: kept exactly when `e` is not a constant expression. |
| Filters.EmptyMethodsFilterStable | methods-searcher/src/main/java/org/jetbrains/research/groups/ml_methods/move_method_gen/filters/methods/EmptyMethodsFilter.java:13-38 | Filtering with EmptyMethodsFilter distributes over concatenation, so survivors keep their order. A second pass removes nothing. |
| Filters.InterfacesFilter | methods-searcher/src/main/java/org/jetbrains/research/groups/ml_methods/move_method_gen/filters/classes/InterfacesFilter.java:11-13 | Every interface is rejected and every non-interface is kept. |
| Filters.InterfacesFilterReadsOnlyTheFlag | methods-searcher/src/main/java/org/jetbrains/research/groups/ml_methods/move_method_gen/filters/classes/InterfacesFilter.java:11-13 | Two classes with the same interface flag get the same verdict, in any two projects. |
| Filters.InterfacesFilterStable | methods-searcher/src/main/java/org/jetbrains/research/groups/ml_methods/move_method_gen/filters/classes/InterfacesFilter.java:9-13 | Filtering with InterfacesFilter preserves order across concatenation and is idempotent. |
| Filters.BuildersFilter | src/main/java/org/jetbrains/research/groups/ml_methods/move_method_gen/filters/classes/BuildersFilter.java:10-13 | A class with no name is kept. A name shorter than `"Builder"` is kept. The class is rejected exactly when its name is some prefix followed by `"Builder"`, which both directions of the contract spell out. |
| Filters.BuildersFilterExamples | src/main/java/org/jetbrains/research/groups/ml_methods/move_method_gen/filters/classes/BuildersFilter.java:12 | `Builder` and `FooBuilder` are rejected. `FooBUILDER`, `Foobuilder`, `BuilderFactory` and `Builders` are kept: the test is case-sensitive and a suffix test. |
| LabeledGraph.CandidateMembership | methods-searcher/src/main/java/org/jetbrains/research/groups/ml_methods/move_method_gen/ContextPathDataset.java:28-33 | A method is in the collected set exactly when it is a member of some listed class and passes both method filters. |
| LabeledGraph.OnlyNonTrivialNonConstructorsSurvive | methods-searcher/src/main/java/org/jetbrains/research/groups/ml_methods/move_method_gen/ContextPathDataset.java:28-33 | Take a class with `bar() { return 1; }`, `baz() { doWork(); return x; }` and a constructor. Only `baz` survives the filter chain. |
| LabeledGraph.EnumerateMethods | methods-searcher/src/main/java/org/jetbrains/research/groups/ml_methods/move_method_gen/ContextPathDataset.java:35-44 | For any iteration order of the set, the method list has no duplicates and holds exactly the set's elements. Its length is the set's size. `idOfMethod[methods[i]] == i`, and every key of the map is one of the listed methods. |
| LabeledGraph.LastOccurrenceOfDistinct | methods-searcher/src/main/java/org/jetbrains/research/groups/ml_methods/move_method_gen/ContextPathDataset.java:46-52 | When the classes are distinct, `idOfClass[classes[i]] == i`. |
| SearcherDataset.IndexClasses | methods-searcher/src/main/java/org/jetbrains/research/groups/ml_methods/move_method_gen/ContextPathDataset.java:46-52 | The class map has exactly the listed classes as keys. Each class maps to a position holding it, and no later position holds the same class: a repeated class gets its last index. |
| LabeledGraph.AppendRecordPoints | methods-searcher/src/main/java/org/jetbrains/research/groups/ml_methods/move_method_gen/ContextPathDataset.java:60-64 | Appends a record's points: `(id, containing, 1)`, then `(id, t, 0)` for each target `t`, in order. |
| LabeledGraph.RecordPointsAt | methods-searcher/src/main/java/org/jetbrains/research/groups/ml_methods/move_method_gen/ContextPathDataset.java:60-64 | A record contributes `1 + #targets` points. The first is the label-1 point with the record's class ID. Point `j + 1` is the label-0 point for target `j`. |
| LabeledGraph.PointsOfAppend | methods-searcher/src/main/java/org/jetbrains/research/groups/ml_methods/move_method_gen/ContextPathDataset.java:56-64 | The points of two record lists are the points of the first followed by the points of the second: records contribute in record order. |
| LabeledGraph.PointsCount | methods-searcher/src/main/java/org/jetbrains/research/groups/ml_methods/move_method_gen/ContextPathDataset.java:54-64 | The number of points is the sum of `1 + #targets` over the records. The label-1 count equals the record count, and the label-0 count equals the total number of targets. |
| LabeledGraph.PointsMethodIds | methods-searcher/src/main/java/org/jetbrains/research/groups/ml_methods/move_method_gen/ContextPathDataset.java:58-63 | Every point's method ID is one of the IDs in the method map, so it is below any bound those IDs respect. |
| LabeledGraph.PointsClassIds | methods-searcher/src/main/java/org/jetbrains/research/groups/ml_methods/move_method_gen/ContextPathDataset.java:60-63 | If the records' class IDs are below a bound, so is every point's class ID. Every label is 0 or 1. |
| LabeledGraph.SingleRecordPoints | methods-searcher/src/main/java/org/jetbrains/research/groups/ml_methods/move_method_gen/ContextPathDataset.java:56-64 | A single record with containing class 2 and targets `[5, 7]` gives exactly `(id, 2, 1), (id, 5, 0), (id, 7, 0)`. |
| LabeledGraph.TargetsMapLookup | methods-searcher/src/main/java/org/jetbrains/research/groups/ml_methods/move_method_gen/ContextPathDataset.java:99-105 | The target map has a method as a key exactly when some record names it. The lookup, with `[]` for a missing key, is the target list of the method's last record. |
| LabeledGraph.TargetsOfLastRecord | methods-searcher/src/main/java/org/jetbrains/research/groups/ml_methods/move_method_gen/ContextPathDataset.java:56-66 | When the same method has several records, the last record's target list wins. |
| LabeledGraph.TargetsOfUnrecorded | methods-searcher/src/main/java/org/jetbrains/research/groups/ml_methods/move_method_gen/ContextPathDataset.java:99-102 | A method with no record has the empty target list. |
| LabeledGraph.CollectIdsOfPresent | methods-searcher/src/main/java/org/jetbrains/research/groups/ml_methods/move_method_gen/ContextPathDataset.java:83-92 | The loop that skips members without an ID computes `IdsOfPresent`. |
| LabeledGraph.IdsOfPresentIsFilteredLookup | methods-searcher/src/main/java/org/jetbrains/research/groups/ml_methods/move_method_gen/ContextPathDataset.java:82-93 | The IDs returned are the order-preserving filter of the members that have an ID, mapped through the method map. It has the same length. |
| LabeledGraph.IdsOfPresentValid | methods-searcher/src/main/java/org/jetbrains/research/groups/ml_methods/move_method_gen/ContextPathDataset.java:82-93 | Every returned ID is a position of `methods` holding one of the members. Distinct members give distinct IDs. |
| SearcherDataset.BuildPointsAndTargets | methods-searcher/src/main/java/org/jetbrains/research/groups/ml_methods/move_method_gen/ContextPathDataset.java:54-67 | The record loop builds exactly the specified point list and target map. |
| SearcherDataset.ContextPathDataset.constructor | methods-searcher/src/main/java/org/jetbrains/research/groups/ml_methods/move_method_gen/ContextPathDataset.java:25-68 | It requires every record's method to be a filtered member of a listed class; otherwise the source unboxes null. It establishes `Valid()`: the class list is the dataset's; the methods are a dense duplicate-free enumeration of the filtered members; the class map indexes last occurrences; the points and target map are the specified ones. The number of methods is the size of the filtered set. |
| SearcherDataset.ContextPathDataset.GetIdsOfMethodsIn | methods-searcher/src/main/java/org/jetbrains/research/groups/ml_methods/move_method_gen/ContextPathDataset.java:82-93 | In declaration order, the IDs of the members that have one. There are never more than the members. Each ID is a valid position holding a member of the class, and IDs are distinct when the members are. For a listed class, the IDs are exactly those of the members passing both filters, mapped in order. |
| SearcherDataset.ContextPathDataset.GetIdOfContainingClass | methods-searcher/src/main/java/org/jetbrains/research/groups/ml_methods/move_method_gen/ContextPathDataset.java:95-97 | A valid class ID. Its position holds the method's containing class, no later position does, and when the classes are distinct it is the only such position. It requires the containing class to be in the map; otherwise the source unboxes null. |
| SearcherDataset.ContextPathDataset.GetIdsOfTargetClasses | methods-searcher/src/main/java/org/jetbrains/research/groups/ml_methods/move_method_gen/ContextPathDataset.java:99-105 | The target list of the method's last record, or the empty list when there is none. It never fails. |
| SearcherDataset.ContextPathDataset.ContainingClassesIndexed | methods-searcher/src/main/java/org/jetbrains/research/groups/ml_methods/move_method_gen/ContextPathDataset.java:95-97 | If each member's containing class is the class it is a member of, every collected method's containing class has an ID. |
| SearcherDataset.ContextPathDataset.PointsSummary | methods-searcher/src/main/java/org/jetbrains/research/groups/ml_methods/move_method_gen/ContextPathDataset.java:54-64 | On the built object: the point count is the sum of `1 + #targets`; the label-1 count equals the record count; the label-0 count equals the total number of targets; every method ID indexes `methods`. |
| LegacyDataset.BuildPoints | src/main/java/org/jetbrains/research/groups/ml_methods/move_method_gen/ContextPathDataset.java:43-53 | The record loop builds exactly the specified point list. |
| LegacyDataset.ContextPathDataset.constructor | src/main/java/org/jetbrains/research/groups/ml_methods/move_method_gen/ContextPathDataset.java:22-54 | It requires every record's method to have been collected. The class list is exactly the dataset's. The methods are a dense duplicate-free enumeration of the filtered members, and the points are the specified list. |
| LegacyDataset.ContextPathDataset.GetIdsOfMethodsIn | src/main/java/org/jetbrains/research/groups/ml_methods/move_method_gen/ContextPathDataset.java:68-79 | The order-preserving filter of the class's members that have an ID, mapped through the map. It is never longer than the member list, and every ID is a valid position holding a member. |
| LegacyDataset.ContextPathDataset.PointsSummary | src/main/java/org/jetbrains/research/groups/ml_methods/move_method_gen/ContextPathDataset.java:43-53 | The point count is the sum of `1 + #targets`. The label-1 count equals the record count, and every point's method ID is below the number of methods. |
| Serializer.FindDanglingComment | methods-searcher/src/main/java/org/jetbrains/research/groups/ml_methods/move_method_gen/ContextPathCsvSerializer.java:137 | The matcher's search: the leftmost position at or after the start where `//` is followed by no line terminator up to the end, or none. |
| Serializer.RemoveDanglingOneLineComments | methods-searcher/src/main/java/org/jetbrains/research/groups/ml_methods/move_method_gen/ContextPathCsvSerializer.java:136-138 | The result is a prefix of the input. If it is shorter, it ends where the leftmost dangling `//` begins. It equals the input exactly when there is no dangling `//`. |
| Serializer.RemoveDanglingOneLineCommentsIdempotent | methods-searcher/src/main/java/org/jetbrains/research/groups/ml_methods/move_method_gen/ContextPathCsvSerializer.java:137 | Applying it twice gives the same as applying it once. |
| Serializer.TerminatedInputUnchanged | methods-searcher/src/main/java/org/jetbrains/research/groups/ml_methods/move_method_gen/ContextPathCsvSerializer.java:137 | Input ending with a line terminator is returned unchanged. |
| Serializer.SplitNameShape | methods-searcher/src/main/java/org/jetbrains/research/groups/ml_methods/move_method_gen/ContextPathCsvSerializer.java:140-144 | `splitName` is the empty string when the method's name has no subtokens. Otherwise it starts with the first subtoken and ends with the last. Its length is the subtokens' total length plus one separator between each pair of neighbours. |
| Cells.JoinShape | methods-searcher/src/main/java/org/jetbrains/research/groups/ml_methods/move_method_gen/ContextPathCsvSerializer.java:141-143 | `Collectors.joining(sep)` gives `""` for no parts. Otherwise the result starts with the first part and ends with the last, and its length is the parts' total length plus one separator per gap. |
| Serializer.FirstMatching | methods-searcher/src/main/java/org/jetbrains/research/groups/ml_methods/move_method_gen/ContextPathCsvSerializer.java:78-84 | At most one feature is kept. The result is empty exactly when no feature has the name. Otherwise it is exactly the first feature that has the name. |
| Serializer.PathContextSelectsFirstMatch | methods-searcher/src/main/java/org/jetbrains/research/groups/ml_methods/move_method_gen/ContextPathCsvSerializer.java:70-87 | `PathContext` runs the extractor with limits 8 and 2 on the method's text after `RemoveDanglingOneLineComments`. It keeps the first feature named by the split name and renders it with `featuresToString`. When no feature has that name, it renders the empty selection. |
| Serializer.ExtractPathContext | methods-searcher/src/main/java/org/jetbrains/research/groups/ml_methods/move_method_gen/ContextPathCsvSerializer.java:70-87 | The context the methods loop computes for a method is `PathContext` of that method. |
| Serializer.MethodRecordOf | methods-searcher/src/main/java/org/jetbrains/research/groups/ml_methods/move_method_gen/ContextPathCsvSerializer.java:92-100 | Given the method's context, the record the methods loop prints for method ID `methodId` is `MethodRow` of that ID. `MethodRowMeaning` states what its columns hold. |
| Serializer.ClassRow | methods-searcher/src/main/java/org/jetbrains/research/groups/ml_methods/move_method_gen/ContextPathCsvSerializer.java:112-118 | The classes.csv record of class ID `i` has ID `i` and the class's qualified name, file and offset. Its methods cell parses back to `getIdsOfMethodsIn` of the class. |
| Serializer.PointRow | methods-searcher/src/main/java/org/jetbrains/research/groups/ml_methods/move_method_gen/ContextPathCsvSerializer.java:127-131 | The three columns of a points row are the point's method ID, class ID and label, in that order, so they read back as the point. |
| Serializer.SerializeMethods | methods-searcher/src/main/java/org/jetbrains/research/groups/ml_methods/move_method_gen/ContextPathCsvSerializer.java:66-101 | Row `i` is the row of method `i` and has a non-empty context. The loop stops early exactly when it reaches a method whose context is empty, before that method's row. |
| Serializer.SerializeClasses | methods-searcher/src/main/java/org/jetbrains/research/groups/ml_methods/move_method_gen/ContextPathCsvSerializer.java:104-120 | One row per class, in order; row `i` is the row of class `i`. |
| Serializer.SerializePoints | methods-searcher/src/main/java/org/jetbrains/research/groups/ml_methods/move_method_gen/ContextPathCsvSerializer.java:122-133 | Exactly one three-column row per point, in order. |
| Serializer.Serialize | methods-searcher/src/main/java/org/jetbrains/research/groups/ml_methods/move_method_gen/ContextPathCsvSerializer.java:56-134 | If it aborts, the method rows written before the abort are kept, the next method's context is empty, and the error names that method. The classes and points tables are then not produced. Otherwise all three tables are complete and in order. |
| Serializer.NoMatchingFeatureEmptyContext | methods-searcher/src/main/java/org/jetbrains/research/groups/ml_methods/move_method_gen/ContextPathCsvSerializer.java:78-90 | When no extracted feature carries the method's split name and the renderer turns an empty selection into `""`, the context is empty, which is the abort condition. |
| Serializer.MethodRowMeaning | methods-searcher/src/main/java/org/jetbrains/research/groups/ml_methods/move_method_gen/ContextPathCsvSerializer.java:92-100 | `MethodRow`, the methods.csv record of method ID `i`: it has ID `i` and the name of method `i`. Its containing-class ID indexes that method's containing class. Its `target_ids` cell parses back to the method's target list, and it is `""` exactly when there are no targets. |
| Serializer.ClassRowMeaning | methods-searcher/src/main/java/org/jetbrains/research/groups/ml_methods/move_method_gen/ContextPathCsvSerializer.java:108-118 | Row `i` has ID `i` and class `i`'s qualified name. Its `methods` cell parses back to `getIdsOfMethodsIn`, each of which is a methods-table position holding a member of the class. |
| Serializer.WrittenTablesJoin | methods-searcher/src/main/java/org/jetbrains/research/groups/ml_methods/move_method_gen/ContextPathCsvSerializer.java:122-133 | In complete output, every points row's method ID indexes a methods row, and its label is 0 or 1. Its class ID indexes a classes row whenever the record class IDs are positions in the class list. |
| Cells.IntToDecimal | methods-searcher/src/main/java/org/jetbrains/research/groups/ml_methods/move_method_gen/ContextPathCsvSerializer.java:99 | `Integer.toString` renders a non-empty string without spaces, starting with `-` exactly for negative numbers. |
| Cells.JoinIdsEmpty | methods-searcher/src/main/java/org/jetbrains/research/groups/ml_methods/move_method_gen/ContextPathCsvSerializer.java:99 | A space-joined ID cell is empty exactly when the ID list is empty. |
| Cells.JoinIdsRoundTrip | methods-searcher/src/main/java/org/jetbrains/research/groups/ml_methods/move_method_gen/ContextPathCsvSerializer.java:115 | Splitting a space-joined ID cell on single spaces and parsing each part gives back the ID list. |

## Left out

- File output is not modelled: `mkdirs`, opening with `CREATE_NEW`, `BufferedWriter` and `CSVPrinter`. An existing `methods.csv` makes the source fail before any table is written, and the model does not capture this. The output is the abstract row sequences.
- CSV rendering is not modelled: RFC 4180 quoting by Apache Commons CSV, and the header rows. The header names come from `CsvSerializer.Headers`, which is not part of this model.
- The context-path extractor is given functions: `ExtractFeaturesTask.extractSingleFile`, `featuresToString` and `Common.splitToSubtokens`. Their `CmdLineException` and `ParseException` failures are not modelled. `CommandLineValues` is only the pair of limits 8 and 2.
- `MethodUtils.fullyQualifiedName`, `MethodUtils.isConstExpression`, `getPathToContainingFile`, node start offsets and `PsiClass.getMethods()` are given functions of `Psi.Project` or `Serializer.Collaborators`. Their IDE semantics (path normalisation, PSI trees) are outside the model.
- `ConstructorsFilter` is modelled only as "not a constructor", because its source is not part of this model.
- `PreprocessingUtils.java` is not part of this model: it is IntelliJ module and source-root plumbing with no logic of its own.
- Smart-pointer `getElement()` is taken as the identity. The records and class list hold the PSI handles themselves.
- The ordering of `Dataset.getMethods()` and `Dataset.getClasses()` is taken as given sequences, since `Dataset` is built elsewhere.
- `getClasses`, `getMethods` and `getPoints` have no members of their own: the fields are `const`, which also models the read-only views. `Point`'s getters are the destructors of the `LabeledGraph.Point` datatype.
- SearcherDataset.ContextPathDataset.GetIdsOfTargetClasses: the source returns the stored target list itself, not a read-only view, so a caller could change the list held by the dataset. The model returns an immutable sequence and does not capture that aliasing.
- Java `int` overflow of the ID counters is not modelled: integers are unbounded, and overflow would need more than 2^31 methods or classes.
- LegacyDataset.ContextPathDataset.constructor: the source stores the list returned by `dataset.getClasses()` itself, so the object shares its class list with the `Dataset`, and `getClasses` is a read-only view of a list the `Dataset` can still change. The model stores an equal immutable sequence and does not capture that sharing.
- SearcherDataset.ContextPathDataset.constructor: the failing path that unboxes a null method ID is a precondition rather than a modelled error, so the model says nothing about datasets whose records name uncollected methods. The same holds for LegacyDataset.ContextPathDataset.constructor.
- Serializer.Serialize: requires that each member's containing class is the class listing it, as PSI guarantees. So the null unboxing in `getIdOfContainingClass` for a method whose class is unlisted is not modelled.
- The singleton `getInstance` and the private constructor of the serializer are not modelled: they hold no logic.
