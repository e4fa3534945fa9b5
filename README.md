# MutabilityDetector: report formatting and the constructor-only query, in Dafny

MutabilityDetector inspects compiled Java classes and decides whether their instances are
immutable. This project models two of its components, as their JUnit tests pin them down,
and proves properties of the model.

- **`SessionResultsFormatter.format`** renders a session's analysis results as text.
  - Each result gets the header line `<dotted name> is <VERDICT>` followed by a line break.
  - With the `verbose` option, the header is followed by one line per reason, in insertion order.
    A reason line is a tab, the message, a space, the printed code location and a line break.
  - A class location prints as `[Class: a.b.C]` and a field location as `[Field: f, Class: a.b.C]`.
    Class names given in slashed (bytecode) form are shown in dotted form.
- **`PrivateMethodInvocationInformation.isOnlyCalledFromConstructor`** answers whether a
  method of a class is invoked only along call chains that start in a constructor.
  - A method qualifies when it is private and has at least one call site.
  - Each caller must be a constructor (`<init>`), or a method that qualifies by the same rule.
  - A visited set holds the callers on the current chain. Meeting one of them again proves
    nothing, so that branch is false.
  - An unreferenced method and a non-private method do not qualify.

Files:

- `Locations.dfy`: dotted and slashed class names, class, field and code locations, and
  pretty printing.
- `Results.dfy`: the verdict, the reason codes, reason details and `AnalysisResult`.
- `SessionResultsFormatter.dfy`: the formatter.
  - `Format` is a loop that appends to a buffer. It delegates to `AppendResult` and to
    `AppendReasons`, the inner loop over a result's reasons.
  - These methods are proved equal to the function `Rendered`.
  - Lemmas about `Rendered` cover containment, order, line structure and the two test scenarios.
  - In the verbose scenario the test writes its expectation as three literals joined by `+`.
    The model writes each reason line as message part + location part + `\n`. The joined
    string is the same.
- `PrivateMethodInvocation.dfy`: the call graph and the query.
  - `BuildCallGraph` walks the class's methods. `VisitMethodBody` walks one body's invocation
    instructions. Both are proved equal to the functions `CallGraphOf`, `AccessTable`,
    `CallSites` and `Invokes`.
  - The query is the predicate `OnlyFromConstructors`. It terminates because the set of
    unvisited declared methods shrinks with every recursive call.
  - It is proved equivalent to a definition in terms of call paths, `OnlyReachedThroughConstructors`.
  - The two tested cases are proved on a hand encoding of the benchmark class's bytecode.

The repository's implementation of these two components is not part of this model; only
their tests are. The model follows those tests. Where a test leaves a rule open (transitive
helpers, unreferenced methods, cycles), the model follows the constructor-only rule that the
project documents for its information-retrieval layer.

## Model

| member | source | states |
|---|---|---|
| Locations.DottedOf | src/test/java/org/mutabilitydetector/checkers/util/PrivateMethodInvocationInformationTest.java:29 | `dotted(name)` keeps the length and leaves no `/` in the name |
| Locations.SlashedOf | trunk/MutabilityDetector/trunk/MutabilityDetector/src/test/java/org/mutabilitydetector/cli/SessionResultsFormatterTest.java:62 | `slashed(name)` keeps the length and leaves no `.` in the name |
| Locations.FromSlashed | trunk/MutabilityDetector/trunk/MutabilityDetector/src/test/java/org/mutabilitydetector/cli/SessionResultsFormatterTest.java:62 | `fromSlashed` gives a class location whose name holds no `/` |
| Locations.FromInternalName | trunk/MutabilityDetector/trunk/MutabilityDetector/src/test/java/org/mutabilitydetector/cli/SessionResultsFormatterTest.java:66 | `fromInternalName` gives a class location whose name holds no `/` |
| Locations.DottedFormChangesOnlySlashes | trunk/MutabilityDetector/trunk/MutabilityDetector/src/test/java/org/mutabilitydetector/cli/SessionResultsFormatterTest.java:62 | the dotted form turns every `/` into `.`, changes no other character and keeps the length |
| Locations.DottedOfDottedName | src/test/java/org/mutabilitydetector/checkers/util/PrivateMethodInvocationInformationTest.java:49-52 | a name already dotted (`getName()`) is left unchanged by `dotted`, so `dotted` is idempotent |
| Locations.DottedSlashedRoundTrip | trunk/MutabilityDetector/trunk/MutabilityDetector/src/test/java/org/mutabilitydetector/cli/SessionResultsFormatterTest.java:62 | dotted → slashed → dotted gives back the name, and `fromSlashed(slashed(d))` locates class `d` |
| Locations.SlashedDottedRoundTrip | trunk/MutabilityDetector/trunk/MutabilityDetector/src/test/java/org/mutabilitydetector/cli/SessionResultsFormatterTest.java:62-66 | slashed → dotted → slashed gives back a name that holds no `.` |
| Locations.SameLocationFromEitherNotation | trunk/MutabilityDetector/trunk/MutabilityDetector/src/test/java/org/mutabilitydetector/cli/SessionResultsFormatterTest.java:62-66 | `fromSlashed(slashed(n))` and `fromInternalName(n)` are the same class location |
| Locations.PrettyPrintSingleLine | trunk/MutabilityDetector/trunk/MutabilityDetector/src/test/java/org/mutabilitydetector/cli/SessionResultsFormatterTest.java:82-83 | a printed location holds a line break only if one of its names does |
| Locations.PrettyPrintInjective | trunk/MutabilityDetector/trunk/MutabilityDetector/src/test/java/org/mutabilitydetector/cli/SessionResultsFormatterTest.java:82-83 | when field names hold no comma, the printed text determines the location: kind, field and class |
| Locations.FieldNameEndsAtComma | trunk/MutabilityDetector/trunk/MutabilityDetector/src/test/java/org/mutabilitydetector/cli/SessionResultsFormatterTest.java:83 | in `[Field: f, Class: c]` the field name is exactly the text up to the first comma |
| Locations.TestClassNamesDotted | trunk/MutabilityDetector/trunk/MutabilityDetector/src/test/java/org/mutabilitydetector/cli/SessionResultsFormatterTest.java:62-66 | `path/to/MyClass` and `path/to/OtherClass` become `path.to.MyClass` and `path.to.OtherClass` |
| Locations.PrettyPrintedTestClassLocation | trunk/MutabilityDetector/trunk/MutabilityDetector/src/test/java/org/mutabilitydetector/cli/SessionResultsFormatterTest.java:82 | `fromSlashed(slashed("path/to/MyClass"))` prints as `[Class: path.to.MyClass]` |
| Locations.PrettyPrintedTestFieldLocation | trunk/MutabilityDetector/trunk/MutabilityDetector/src/test/java/org/mutabilitydetector/cli/SessionResultsFormatterTest.java:83 | the field location `myField` of `fromInternalName("path/to/OtherClass")` prints as `[Field: myField, Class: path.to.OtherClass]` |
| SessionResultsFormatter.Format | trunk/MutabilityDetector/trunk/MutabilityDetector/src/test/java/org/mutabilitydetector/cli/SessionResultsFormatterTest.java:51 | the buffer built by the loop over the results is exactly `Rendered(options, results)`: every result's block, in order |
| SessionResultsFormatter.AppendResult | trunk/MutabilityDetector/trunk/MutabilityDetector/src/test/java/org/mutabilitydetector/cli/SessionResultsFormatterTest.java:53-56 | appending a result adds its header line and, only when verbose, its reason lines, after what was there |
| SessionResultsFormatter.AppendReasons | trunk/MutabilityDetector/trunk/MutabilityDetector/src/test/java/org/mutabilitydetector/cli/SessionResultsFormatterTest.java:82-83 | the inner loop adds one reason line per reason, in insertion order, after what was there |
| SessionResultsFormatter.HeaderLineText | trunk/MutabilityDetector/trunk/MutabilityDetector/src/test/java/org/mutabilitydetector/cli/SessionResultsFormatterTest.java:53-56 | a header line is exactly name, ` is `, the verdict's constant name and `\n` |
| SessionResultsFormatter.ReasonLineText | trunk/MutabilityDetector/trunk/MutabilityDetector/src/test/java/org/mutabilitydetector/cli/SessionResultsFormatterTest.java:82-83 | a reason line is exactly a tab, the message, a space, the printed location and `\n` |
| SessionResultsFormatter.ReasonLinesAppend | trunk/MutabilityDetector/trunk/MutabilityDetector/src/test/java/org/mutabilitydetector/cli/SessionResultsFormatterTest.java:61-67 | the reason lines of `a + b` are those of `a` followed by those of `b` |
| SessionResultsFormatter.RenderedAppend | trunk/MutabilityDetector/trunk/MutabilityDetector/src/test/java/org/mutabilitydetector/cli/SessionResultsFormatterTest.java:38-46 | the report of `a + b` is the report of `a` followed by the report of `b` |
| SessionResultsFormatter.EveryResultReported | trunk/MutabilityDetector/trunk/MutabilityDetector/src/test/java/org/mutabilitydetector/cli/SessionResultsFormatterTest.java:34-56 | in mode ALL no result is dropped: each result's block and header line stand in the report at that result's offset |
| SessionResultsFormatter.ReasonsFollowHeader | trunk/MutabilityDetector/trunk/MutabilityDetector/src/test/java/org/mutabilitydetector/cli/SessionResultsFormatterTest.java:72-83 | in verbose mode a result's header line is immediately followed by all its reason lines |
| SessionResultsFormatter.ResultsInOrder | trunk/MutabilityDetector/trunk/MutabilityDetector/src/test/java/org/mutabilitydetector/cli/SessionResultsFormatterTest.java:38-46 | for `i < j`, result `i`'s block ends before result `j`'s block starts |
| SessionResultsFormatter.ReasonLineAt | trunk/MutabilityDetector/trunk/MutabilityDetector/src/test/java/org/mutabilitydetector/cli/SessionResultsFormatterTest.java:82-83 | each reason's line stands at its own offset among the reason lines |
| SessionResultsFormatter.ReasonsInOrder | trunk/MutabilityDetector/trunk/MutabilityDetector/src/test/java/org/mutabilitydetector/cli/SessionResultsFormatterTest.java:82-83 | for `i < j`, reason `i`'s line ends before reason `j`'s line starts |
| SessionResultsFormatter.VerdictNamesDistinct | trunk/MutabilityDetector/trunk/MutabilityDetector/src/test/java/org/mutabilitydetector/cli/SessionResultsFormatterTest.java:38-56 | the verdict text is one of `IMMUTABLE`, `EFFECTIVELY_IMMUTABLE`, `NOT_IMMUTABLE`, and two verdicts print alike only if they are equal |
| SessionResultsFormatter.VerdictNameSingleLine | trunk/MutabilityDetector/trunk/MutabilityDetector/src/test/java/org/mutabilitydetector/cli/SessionResultsFormatterTest.java:54-56 | no verdict text holds a line break |
| SessionResultsFormatter.HeaderIsOneLine | trunk/MutabilityDetector/trunk/MutabilityDetector/src/test/java/org/mutabilitydetector/cli/SessionResultsFormatterTest.java:53-56 | a header line of a single-line name holds exactly one line break |
| SessionResultsFormatter.ReasonIsOneLine | trunk/MutabilityDetector/trunk/MutabilityDetector/src/test/java/org/mutabilitydetector/cli/SessionResultsFormatterTest.java:82-83 | a reason line of a single-line message and location holds exactly one line break |
| SessionResultsFormatter.ReasonLinesCount | trunk/MutabilityDetector/trunk/MutabilityDetector/src/test/java/org/mutabilitydetector/cli/SessionResultsFormatterTest.java:82-83 | the reason lines of `n` single-line reasons hold exactly `n` line breaks |
| SessionResultsFormatter.OneLinePerResultAndReason | trunk/MutabilityDetector/trunk/MutabilityDetector/src/test/java/org/mutabilitydetector/cli/SessionResultsFormatterTest.java:53-56 | the report has one line per result, plus one per reason in verbose mode |
| SessionResultsFormatter.RenderedThree | trunk/MutabilityDetector/trunk/MutabilityDetector/src/test/java/org/mutabilitydetector/cli/SessionResultsFormatterTest.java:38-46 | the report of three results is their three blocks in order |
| SessionResultsFormatter.TestHeaderLines | trunk/MutabilityDetector/trunk/MutabilityDetector/src/test/java/org/mutabilitydetector/cli/SessionResultsFormatterTest.java:53-56 | the header lines of the tests' results are `a.b.c is IMMUTABLE\n`, `d.e.f is EFFECTIVELY_IMMUTABLE\n`, `g.h.i is NOT_IMMUTABLE\n` and `a.b.c is NOT_IMMUTABLE\n` |
| SessionResultsFormatter.VerboseSingleResult | trunk/MutabilityDetector/trunk/MutabilityDetector/src/test/java/org/mutabilitydetector/cli/SessionResultsFormatterTest.java:72-75 | in verbose mode a lone result with two reasons is rendered as its header and then the two reason lines |
| SessionResultsFormatter.PrintsReadableMessage | trunk/MutabilityDetector/trunk/MutabilityDetector/src/test/java/org/mutabilitydetector/cli/SessionResultsFormatterTest.java:31-57 | with three results, one per verdict, the report contains each of the three header lines, and it is exactly those lines in order |
| SessionResultsFormatter.VerboseOutputIncludesDetailedReasonAndPrettyPrintedCodeLocation | trunk/MutabilityDetector/trunk/MutabilityDetector/src/test/java/org/mutabilitydetector/cli/SessionResultsFormatterTest.java:59-84 | verbose: the report contains the header, then the class-located reason line, then the field-located reason line, with dotted class names |
| PrivateMethodInvocation.VisitMethodBody | src/test/java/org/mutabilitydetector/checkers/util/PrivateMethodInvocationInformationTest.java:43 | the walk over a body's invocation instructions records exactly `CallSites`: the calls whose owner is the class itself |
| PrivateMethodInvocation.BuildCallGraph | src/test/java/org/mutabilitydetector/checkers/util/PrivateMethodInvocationInformationTest.java:43 | the walk over the class's methods builds exactly `CallGraphOf(cls)`: the access table and the intra-class call relation |
| PrivateMethodInvocation.CallSitesMembership | src/test/java/org/mutabilitydetector/checkers/util/PrivateMethodInvocationInformationTest.java:43 | `(a, b)` is a call site of a body iff `a` is its method and the body holds an invocation of `b` on the class itself |
| PrivateMethodInvocation.InvokesMembership | src/test/java/org/mutabilitydetector/checkers/util/PrivateMethodInvocationInformationTest.java:43 | `(a, b)` is in the call relation iff some declared method `a` has an invocation of `b` on the class itself |
| PrivateMethodInvocation.AccessTableLookup | src/test/java/org/mutabilitydetector/checkers/util/PrivateMethodInvocationInformationTest.java:56-63 | a key has an access entry iff it is declared, and that entry is the access level of one of its declarations |
| PrivateMethodInvocation.IsOnlyCalledFromConstructor | src/test/java/org/mutabilitydetector/checkers/util/PrivateMethodInvocationInformationTest.java:40-52 | fail-fast: aborts with `ClassNotFound` iff the dotted class is not on the classpath; otherwise the answer is the predicate on the class's call graph, for that `name:descriptor` |
| PrivateMethodInvocation.ChainStaysConstructorOnly | src/test/java/org/mutabilitydetector/checkers/util/PrivateMethodInvocationInformationTest.java:47-54 | walking a constructor-free call chain backwards, each method passes the check with the chain's later methods visited |
| PrivateMethodInvocation.Soundness | src/test/java/org/mutabilitydetector/checkers/util/PrivateMethodInvocationInformationTest.java:47-54 | a true answer means every constructor-free call chain into the method repeats no method and starts at a called private method |
| PrivateMethodInvocation.ExtendChain | src/test/java/org/mutabilitydetector/checkers/util/PrivateMethodInvocationInformationTest.java:47-54 | a non-constructor caller of a chain's first method extends the constructor-free chain at its front |
| PrivateMethodInvocation.FirstNotRepeated | src/test/java/org/mutabilitydetector/checkers/util/PrivateMethodInvocationInformationTest.java:47-54 | under the path property, a chain's first method is private, called, and not met again later in the chain |
| PrivateMethodInvocation.CompletenessFrom | src/test/java/org/mutabilitydetector/checkers/util/PrivateMethodInvocationInformationTest.java:47-54 | the path property implies the check succeeds from any point of a constructor-free chain, with the chain's later methods visited |
| PrivateMethodInvocation.Completeness | src/test/java/org/mutabilitydetector/checkers/util/PrivateMethodInvocationInformationTest.java:47-54 | the path property implies a true answer |
| PrivateMethodInvocation.OnlyCalledFromConstructorIff | src/test/java/org/mutabilitydetector/checkers/util/PrivateMethodInvocationInformationTest.java:47-63 | the search with a visited set decides exactly the path property `OnlyReachedThroughConstructors` |
| PrivateMethodInvocation.EntryPathsPassConstructor | src/test/java/org/mutabilitydetector/checkers/util/PrivateMethodInvocationInformationTest.java:47-54 | when the answer is true, every call chain into the method that starts outside the private call structure (a non-private or never-called method) passes through a constructor |
| PrivateMethodInvocation.CycleWithoutConstructorRejected | src/test/java/org/mutabilitydetector/checkers/util/PrivateMethodInvocationInformationTest.java:47-54 | recursion alone proves nothing: a constructor-free call chain into the method that repeats a method makes the answer false |
| PrivateMethodInvocation.SelfCallingHelperRejected | src/test/java/org/mutabilitydetector/checkers/util/PrivateMethodInvocationInformationTest.java:47-54 | a non-constructor that invokes itself is never constructor-only, whatever the visited set: its own call site revisits it |
| PrivateMethodInvocation.UnreferencedMethodIsNotConstructorOnly | src/test/java/org/mutabilitydetector/checkers/util/PrivateMethodInvocationInformationTest.java:47-63 | a method that no body of its class invokes is not constructor-only |
| PrivateMethodInvocation.NonPrivateMethodIsNotConstructorOnly | src/test/java/org/mutabilitydetector/checkers/util/PrivateMethodInvocationInformationTest.java:56-63 | a method with no private declaration is not constructor-only, whoever calls it |
| PrivateMethodInvocation.CalledOnlyFromConstructorsQualifies | src/test/java/org/mutabilitydetector/checkers/util/PrivateMethodInvocationInformationTest.java:47-54 | a declared private method that is invoked, and only from constructor bodies, is constructor-only |
| PrivateMethodInvocation.CalledOnlyFromConstructorOnlyHelperQualifies | src/test/java/org/mutabilitydetector/checkers/util/PrivateMethodInvocationInformationTest.java:47-54 | transitivity: a private method called only by a private helper that constructors alone call is constructor-only |
| PrivateMethodInvocation.BenchmarkFound | src/test/java/org/mutabilitydetector/checkers/util/PrivateMethodInvocationInformationTest.java:49-52 | `dotted(...)` of the name `getName()` reports finds the benchmark class on the classpath |
| PrivateMethodInvocation.BenchmarkCallGraph | src/test/java/org/mutabilitydetector/checkers/util/PrivateMethodInvocationInformationTest.java:33 | the benchmark's call graph: three methods with their access levels, and the constructor's call to `setFields` as the only intra-class call |
| PrivateMethodInvocation.SetFieldsIsConstructorOnly | src/test/java/org/mutabilitydetector/checkers/util/PrivateMethodInvocationInformationTest.java:47-54 | `setFields:()V` of the benchmark is constructor-only |
| PrivateMethodInvocation.GetField1IsNotConstructorOnly | src/test/java/org/mutabilitydetector/checkers/util/PrivateMethodInvocationInformationTest.java:56-63 | `getField1:()I` of the benchmark is not constructor-only |
| PrivateMethodInvocation.ReturnsTrueForPrivateMethodCalledOnlyFromConstructor | src/test/java/org/mutabilitydetector/checkers/util/PrivateMethodInvocationInformationTest.java:47-54 | the query for `setFields:()V` on the benchmark, looked up by its dotted name, returns true |
| PrivateMethodInvocation.ReturnsFalseForPublicMethod | src/test/java/org/mutabilitydetector/checkers/util/PrivateMethodInvocationInformationTest.java:56-63 | the query for `getField1:()I` on the benchmark returns false |

## Left out

- The Mockito mocks and the hamcrest matchers. The options and the results are plain inputs, and `containsString` is the predicate `ContainsString`.
- Report modes other than `ALL`, and the class-list option (`isUsingClassList`, `ClassListReaderFactory`). The tests set `ALL` and no class list, and never read a file.
- The order of results: the model renders them in the order the session gives them. Any sorting the formatter might do is not shown by the tests.
- Java's platform line separator: the tests expect `\n`, and the model writes `\n`.
- `StringBuilder` in place: `Format` and its helpers model the buffer as a string value that each step extends.
- Classpath and class-file loading, `CheckerRunner.createWithCurrentClasspath`, `InformationRetrievalRunner` and `TestUtil.testAnalysisSession()`. A class is given as a `ClassStructure` value, and the classpath as a map from dotted names to classes.
- The bytecode of `ImmutableUsingPrivateFieldSettingMethod`. It is encoded by hand (`SetterBenchmark`): a public constructor that calls `Object.<init>` and then `setFields`, the private `setFields`, and the public getter `getField1`. Field writes are not modelled, because the query does not look at them.
- Exception mechanics of the fail-fast policy: a missing class is a `Failure` result, not an exception.
- Invocations of methods of other classes, including `super` constructors. They are outside the intra-class call graph, so they never make a method a caller.
- The session's result cache, the other checkers and verdict derivation. No test here exercises them.
- IsConstructor: a method is a constructor when its name is `<init>`. Static initialisers (`<clinit>`) are not constructors.
- OnlyFromConstructors: a caller met a second time on the current chain makes the answer false. This is the conservative reading of "a revisited method is not yet proven". It can reject helpers that call each other even though a constructor enters them. A private helper that calls itself is rejected too, even when only a constructor enters it: with `<init>` calling `fill` and `fill` calling `fill`, the answer for `fill` is false (`SelfCallingHelperRejected`).
