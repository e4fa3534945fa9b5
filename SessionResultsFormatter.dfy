/** The plain-text report of a completed analysis session (`SessionResultsFormatter`):
    one header line `<name> is <VERDICT>` per result and, in verbose mode, one
    tab-indented line per reason right after its header. */
module SessionResultsFormatter {
  import opened Locations
  import opened Results

  /** Which results the report shows; `ALL` shows every result. */
  datatype ReportMode = All

  /** The options the formatter reads (`BatchAnalysisOptions.reportMode()` and `verbose()`). */
  datatype BatchAnalysisOptions = BatchAnalysisOptions(reportMode: ReportMode, verbose: bool)

  /** The verdict as it appears in the report: the Java constant's name. */
  function VerdictName(v: IsImmutable): (name: string)
  {
    match v
    case Immutable => "IMMUTABLE"
    case EffectivelyImmutable => "EFFECTIVELY_IMMUTABLE"
    case NotImmutable => "NOT_IMMUTABLE"
  }

  /** The pieces of a formatted line, one after the other. */
  function Concat(parts: seq<string>): (s: string)
  {
    if parts == [] then "" else parts[0] + Concat(parts[1..])
  }

  /** `<name> is <VERDICT>` and a line break. */
  function HeaderLine(r: AnalysisResult): (line: string)
  {
    Concat([r.dottedClassName, " is ", VerdictName(r.isImmutable), "\n"])
  }

  /** A tab, the reason's message, a space, its printed location and a line break. */
  function ReasonLine(d: MutableReasonDetail): (line: string)
  {
    Concat(["\t", d.message, " ", PrettyPrint(d.codeLocation), "\n"])
  }

  /** The reason lines of a result, in insertion order. */
  function ReasonLines(ds: seq<MutableReasonDetail>): (lines: string)
  {
    if ds == [] then "" else ReasonLine(ds[0]) + ReasonLines(ds[1..])
  }

  /** What one result contributes to the report. */
  function ResultBlock(options: BatchAnalysisOptions, r: AnalysisResult): (block: string)
  {
    HeaderLine(r) + (if options.verbose then ReasonLines(r.reasons) else "")
  }

  /** The whole report: the results' blocks in the order the session gives them. */
  function Rendered(options: BatchAnalysisOptions, rs: seq<AnalysisResult>): (output: string)
  {
    if rs == [] then "" else ResultBlock(options, rs[0]) + Rendered(options, rs[1..])
  }

  /** `SessionResultsFormatter.format`: appends each result, in order, to an initially empty buffer. */
  method Format(options: BatchAnalysisOptions, results: seq<AnalysisResult>) returns (output: string)
    ensures output == Rendered(options, results)
  {
    output := "";
    for i := 0 to |results|
      invariant output == Rendered(options, results[..i])
    {
      RenderedPrefixStep(options, results, i);
      output := AppendResult(options, output, results[i]);
    }
    assert results[..|results|] == results;
  }

  /** Appends a result's header line and, when verbose, its reason lines. */
  method AppendResult(options: BatchAnalysisOptions, output: string, result: AnalysisResult) returns (extended: string)
    ensures extended == output + ResultBlock(options, result)
  {
    extended := output + HeaderLine(result);
    if options.verbose {
      extended := AppendReasons(extended, result.reasons);
    }
  }

  /** Appends one tab-indented line per reason, in insertion order. */
  method AppendReasons(output: string, reasons: seq<MutableReasonDetail>) returns (extended: string)
    ensures extended == output + ReasonLines(reasons)
  {
    extended := output;
    for j := 0 to |reasons|
      invariant extended == output + ReasonLines(reasons[..j])
    {
      ReasonLinesPrefixStep(reasons, j);
      extended := extended + ReasonLine(reasons[j]);
    }
    assert reasons[..|reasons|] == reasons;
  }

  // ----- containment, as the report's readers look for it -----

  /** `t` occurs in `s` starting at index `i`. */
  predicate ContainsAt(s: string, t: string, i: int)
  {
    0 <= i && i + |t| <= |s| && s[i..i + |t|] == t
  }

  /** `t` occurs somewhere in `s` (hamcrest's `containsString`). */
  ghost predicate ContainsString(s: string, t: string)
  {
    exists i :: ContainsAt(s, t, i)
  }

  /** Where the block of result `k` starts in the report. */
  function ResultOffset(options: BatchAnalysisOptions, rs: seq<AnalysisResult>, k: nat): (offset: nat)
    requires k <= |rs|
  {
    |Rendered(options, rs[..k])|
  }

  /** Where the line of reason `k` starts among a result's reason lines. */
  function ReasonOffset(ds: seq<MutableReasonDetail>, k: nat): (offset: nat)
    requires k <= |ds|
  {
    |ReasonLines(ds[..k])|
  }

  // ----- lemmas -----

  lemma {:induction false} ConcatAppend(ps: seq<string>, qs: seq<string>)
    ensures Concat(ps + qs) == Concat(ps) + Concat(qs)
  {
    if ps == [] {
      assert ps + qs == qs;
    } else {
      assert (ps + qs)[1..] == ps[1..] + qs;
      ConcatAppend(ps[1..], qs);
    }
  }

  lemma {:induction false} ConcatWithoutNewline(ps: seq<string>)
    requires forall i :: 0 <= i < |ps| ==> '\n' !in ps[i]
    ensures '\n' !in Concat(ps)
  {
    if ps != [] {
      ConcatWithoutNewline(ps[1..]);
    }
  }

  lemma ConcatFour(a: string, b: string, c: string, d: string)
    ensures Concat([a, b, c, d]) == a + b + c + d
  {
    var ps := [a, b, c, d];
    assert ps[1..] == [b, c, d] && ps[1..][1..] == [c, d] && ps[1..][1..][1..] == [d] && ps[1..][1..][1..][1..] == [];
    assert Concat([d]) == d;
    assert Concat([c, d]) == c + d;
    assert Concat([b, c, d]) == b + (c + d);
  }

  lemma ConcatFive(a: string, b: string, c: string, d: string, e: string)
    ensures Concat([a, b, c, d, e]) == a + b + c + d + e
  {
    assert [a, b, c, d, e][1..] == [b, c, d, e];
    ConcatFour(b, c, d, e);
  }

  /** The header line spelled out: `<name> is <VERDICT>` followed by a line break. */
  lemma HeaderLineText(r: AnalysisResult)
    ensures HeaderLine(r) == r.dottedClassName + " is " + VerdictName(r.isImmutable) + "\n"
  {
    ConcatFour(r.dottedClassName, " is ", VerdictName(r.isImmutable), "\n");
  }

  /** The reason line spelled out: a tab, the message, a space, the printed location, a line break. */
  lemma ReasonLineText(d: MutableReasonDetail)
    ensures ReasonLine(d) == "\t" + d.message + " " + PrettyPrint(d.codeLocation) + "\n"
  {
    ConcatFive("\t", d.message, " ", PrettyPrint(d.codeLocation), "\n");
  }

  lemma ContainsMiddle(a: string, b: string, c: string)
    ensures ContainsAt(a + b + c, b, |a|)
  {
    assert (a + b + c)[|a|..|a| + |b|] == b;
  }

  lemma {:induction false} ReasonLinesAppend(a: seq<MutableReasonDetail>, b: seq<MutableReasonDetail>)
    ensures ReasonLines(a + b) == ReasonLines(a) + ReasonLines(b)
  {
    if a == [] {
      assert a + b == b;
    } else {
      assert (a + b)[1..] == a[1..] + b;
      ReasonLinesAppend(a[1..], b);
    }
  }

  lemma {:induction false} RenderedAppend(options: BatchAnalysisOptions, a: seq<AnalysisResult>, b: seq<AnalysisResult>)
    ensures Rendered(options, a + b) == Rendered(options, a) + Rendered(options, b)
  {
    if a == [] {
      assert a + b == b;
    } else {
      assert (a + b)[1..] == a[1..] + b;
      RenderedAppend(options, a[1..], b);
    }
  }

  lemma RenderedPrefixStep(options: BatchAnalysisOptions, rs: seq<AnalysisResult>, i: nat)
    requires i < |rs|
    ensures Rendered(options, rs[..i + 1]) == Rendered(options, rs[..i]) + ResultBlock(options, rs[i])
  {
    assert rs[..i + 1] == rs[..i] + [rs[i]];
    RenderedAppend(options, rs[..i], [rs[i]]);
    assert [rs[i]][1..] == [];
  }

  lemma ReasonLinesPrefixStep(ds: seq<MutableReasonDetail>, j: nat)
    requires j < |ds|
    ensures ReasonLines(ds[..j + 1]) == ReasonLines(ds[..j]) + ReasonLine(ds[j])
  {
    assert ds[..j + 1] == ds[..j] + [ds[j]];
    ReasonLinesAppend(ds[..j], [ds[j]]);
    assert [ds[j]][1..] == [];
  }

  /** The report is the report of the results before `k`, then result `k`'s block, then the rest. */
  lemma RenderedAround(options: BatchAnalysisOptions, rs: seq<AnalysisResult>, k: nat)
    requires k < |rs|
    ensures Rendered(options, rs) == Rendered(options, rs[..k]) + ResultBlock(options, rs[k]) + Rendered(options, rs[k + 1..])
  {
    var tail := rs[k..];
    assert rs == rs[..k] + tail;
    RenderedAppend(options, rs[..k], tail);
    assert tail[0] == rs[k] && tail[1..] == rs[k + 1..];
  }

  lemma ReasonLinesAround(ds: seq<MutableReasonDetail>, k: nat)
    requires k < |ds|
    ensures ReasonLines(ds) == ReasonLines(ds[..k]) + ReasonLine(ds[k]) + ReasonLines(ds[k + 1..])
  {
    var tail := ds[k..];
    assert ds == ds[..k] + tail;
    ReasonLinesAppend(ds[..k], tail);
    assert tail[0] == ds[k] && tail[1..] == ds[k + 1..];
  }

  lemma ContainsPrefix(s: string, t: string, u: string, i: int)
    requires ContainsAt(s, t + u, i)
    ensures ContainsAt(s, t, i)
  {
    assert s[i..i + |t|] == (t + u)[..|t|];
  }

  /** No result is filtered out: every result's block, and so its header line (see
      `HeaderLineText`), is in the report at the place of that result. */
  lemma EveryResultReported(options: BatchAnalysisOptions, rs: seq<AnalysisResult>, k: nat)
    requires k < |rs|
    ensures ContainsAt(Rendered(options, rs), ResultBlock(options, rs[k]), ResultOffset(options, rs, k))
    ensures ContainsAt(Rendered(options, rs), HeaderLine(rs[k]), ResultOffset(options, rs, k))
    ensures ContainsString(Rendered(options, rs), HeaderLine(rs[k]))
  {
    var block := ResultBlock(options, rs[k]);
    RenderedAround(options, rs, k);
    ContainsMiddle(Rendered(options, rs[..k]), block, Rendered(options, rs[k + 1..]));
    var rest := if options.verbose then ReasonLines(rs[k].reasons) else "";
    assert block == HeaderLine(rs[k]) + rest;
    ContainsPrefix(Rendered(options, rs), HeaderLine(rs[k]), rest, ResultOffset(options, rs, k));
  }

  /** In verbose mode a result's reason lines follow its header line immediately. */
  lemma ReasonsFollowHeader(options: BatchAnalysisOptions, rs: seq<AnalysisResult>, k: nat)
    requires options.verbose && k < |rs|
    ensures ContainsAt(Rendered(options, rs), HeaderLine(rs[k]) + ReasonLines(rs[k].reasons), ResultOffset(options, rs, k))
  {
    EveryResultReported(options, rs, k);
  }

  /** Results appear in the order given: result `i`'s block ends before result `j`'s begins. */
  lemma ResultsInOrder(options: BatchAnalysisOptions, rs: seq<AnalysisResult>, i: nat, j: nat)
    requires i < j < |rs|
    ensures ResultOffset(options, rs, i) + |ResultBlock(options, rs[i])| <= ResultOffset(options, rs, j)
  {
    var prefix := rs[..j];
    assert prefix[..i] == rs[..i] && prefix[i] == rs[i];
    RenderedAround(options, prefix, i);
  }

  /** Each reason's line (see `ReasonLineText`) stands at its place among the reason lines. */
  lemma ReasonLineAt(ds: seq<MutableReasonDetail>, k: nat)
    requires k < |ds|
    ensures ContainsAt(ReasonLines(ds), ReasonLine(ds[k]), ReasonOffset(ds, k))
  {
    ReasonLinesAround(ds, k);
    ContainsMiddle(ReasonLines(ds[..k]), ReasonLine(ds[k]), ReasonLines(ds[k + 1..]));
  }

  /** Reasons are printed in insertion order: reason `i`'s line ends before reason `j`'s begins. */
  lemma ReasonsInOrder(ds: seq<MutableReasonDetail>, i: nat, j: nat)
    requires i < j < |ds|
    ensures ReasonOffset(ds, i) + |ReasonLine(ds[i])| <= ReasonOffset(ds, j)
  {
    var prefix := ds[..j];
    assert prefix[..i] == ds[..i] && prefix[i] == ds[i];
    ReasonLinesAround(prefix, i);
  }

  /** The verdict text is one of the three constant names, and different verdicts print differently. */
  lemma VerdictNamesDistinct(v: IsImmutable, w: IsImmutable)
    ensures VerdictName(v) in {"IMMUTABLE", "EFFECTIVELY_IMMUTABLE", "NOT_IMMUTABLE"}
    ensures VerdictName(v) == VerdictName(w) <==> v == w
  {
    match v {
      case Immutable => assert VerdictName(v)[0] == 'I';
      case EffectivelyImmutable => assert VerdictName(v)[0] == 'E';
      case NotImmutable => assert VerdictName(v)[0] == 'N';
    }
    match w {
      case Immutable => assert VerdictName(w)[0] == 'I';
      case EffectivelyImmutable => assert VerdictName(w)[0] == 'E';
      case NotImmutable => assert VerdictName(w)[0] == 'N';
    }
  }

  // ----- line structure -----

  function NewlineCount(s: string): (n: nat)
  {
    if s == [] then 0 else (if s[0] == '\n' then 1 else 0) + NewlineCount(s[1..])
  }

  lemma {:induction false} NewlineCountAppend(a: string, b: string)
    ensures NewlineCount(a + b) == NewlineCount(a) + NewlineCount(b)
  {
    if a == [] {
      assert a + b == b;
    } else {
      assert (a + b)[1..] == a[1..] + b;
      NewlineCountAppend(a[1..], b);
    }
  }

  lemma {:induction false} NoNewlineNoCount(s: string)
    requires '\n' !in s
    ensures NewlineCount(s) == 0
  {
    if s != [] {
      assert '\n' !in s[1..];
      NoNewlineNoCount(s[1..]);
    }
  }

  /** No line break in the reason's message or in the names its location mentions. */
  predicate SingleLineReason(d: MutableReasonDetail)
  {
    && '\n' !in d.message
    && (d.codeLocation.ClassCode? ==> '\n' !in d.codeLocation.classLocation.typeName)
    && (d.codeLocation.FieldCode? ==>
          '\n' !in d.codeLocation.fieldLocation.fieldName && '\n' !in d.codeLocation.fieldLocation.ownerOfField.typeName)
  }

  predicate SingleLineResult(r: AnalysisResult)
  {
    '\n' !in r.dottedClassName && forall d :: d in r.reasons ==> SingleLineReason(d)
  }

  function ReasonCount(rs: seq<AnalysisResult>): (n: nat)
  {
    if rs == [] then 0 else |rs[0].reasons| + ReasonCount(rs[1..])
  }

  lemma VerdictNameSingleLine(v: IsImmutable)
    ensures '\n' !in VerdictName(v)
  {
  }

  lemma HeaderIsOneLine(r: AnalysisResult)
    requires '\n' !in r.dottedClassName
    ensures NewlineCount(HeaderLine(r)) == 1
  {
    var text := [r.dottedClassName, " is ", VerdictName(r.isImmutable)];
    VerdictNameSingleLine(r.isImmutable);
    ConcatWithoutNewline(text);
    NoNewlineNoCount(Concat(text));
    assert Concat(["\n"]) == "\n" by { assert ["\n"][1..] == []; }
    ConcatAppend(text, ["\n"]);
    assert text + ["\n"] == [r.dottedClassName, " is ", VerdictName(r.isImmutable), "\n"];
    NewlineCountAppend(Concat(text), "\n");
  }

  lemma ReasonIsOneLine(d: MutableReasonDetail)
    requires SingleLineReason(d)
    ensures NewlineCount(ReasonLine(d)) == 1
  {
    var text := ["\t", d.message, " ", PrettyPrint(d.codeLocation)];
    PrettyPrintSingleLine(d.codeLocation);
    ConcatWithoutNewline(text);
    NoNewlineNoCount(Concat(text));
    assert Concat(["\n"]) == "\n" by { assert ["\n"][1..] == []; }
    ConcatAppend(text, ["\n"]);
    assert text + ["\n"] == ["\t", d.message, " ", PrettyPrint(d.codeLocation), "\n"];
    NewlineCountAppend(Concat(text), "\n");
  }

  lemma {:induction false} ReasonLinesCount(ds: seq<MutableReasonDetail>)
    requires forall d :: d in ds ==> SingleLineReason(d)
    ensures NewlineCount(ReasonLines(ds)) == |ds|
  {
    if ds != [] {
      ReasonIsOneLine(ds[0]);
      ReasonLinesCount(ds[1..]);
      NewlineCountAppend(ReasonLine(ds[0]), ReasonLines(ds[1..]));
    }
  }

  /** With single-line names and messages, the report has exactly one line per result,
      plus, in verbose mode, one line per reason. */
  lemma {:induction false} OneLinePerResultAndReason(options: BatchAnalysisOptions, rs: seq<AnalysisResult>)
    requires forall k :: 0 <= k < |rs| ==> SingleLineResult(rs[k])
    ensures NewlineCount(Rendered(options, rs)) == |rs| + (if options.verbose then ReasonCount(rs) else 0)
  {
    if rs != [] {
      var r := rs[0];
      assert SingleLineResult(r);
      HeaderIsOneLine(r);
      if options.verbose {
        ReasonLinesCount(r.reasons);
        NewlineCountAppend(HeaderLine(r), ReasonLines(r.reasons));
      } else {
        assert ResultBlock(options, r) == HeaderLine(r);
      }
      OneLinePerResultAndReason(options, rs[1..]);
      NewlineCountAppend(ResultBlock(options, r), Rendered(options, rs[1..]));
    }
  }

  // ----- the two scenarios of the formatter's tests -----

  lemma RenderedSingle(options: BatchAnalysisOptions, r: AnalysisResult)
    ensures Rendered(options, [r]) == ResultBlock(options, r)
  {
    assert [r][1..] == [];
  }

  lemma RenderedThree(options: BatchAnalysisOptions, r0: AnalysisResult, r1: AnalysisResult, r2: AnalysisResult)
    ensures Rendered(options, [r0, r1, r2]) == ResultBlock(options, r0) + ResultBlock(options, r1) + ResultBlock(options, r2)
  {
    assert [r0, r1, r2] == [r0] + ([r1] + [r2]);
    RenderedAppend(options, [r0], [r1] + [r2]);
    RenderedAppend(options, [r1], [r2]);
    RenderedSingle(options, r0);
    RenderedSingle(options, r1);
    RenderedSingle(options, r2);
  }

  lemma ShortHeadersText()
    ensures "a.b.c" + " is " + "IMMUTABLE" + "\n" == "a.b.c is IMMUTABLE\n"
    ensures "g.h.i" + " is " + "NOT_IMMUTABLE" + "\n" == "g.h.i is NOT_IMMUTABLE\n"
    ensures "a.b.c" + " is " + "NOT_IMMUTABLE" + "\n" == "a.b.c is NOT_IMMUTABLE\n"
  {
  }

  lemma LongHeaderText()
    ensures "d.e.f" + " is " + "EFFECTIVELY_IMMUTABLE" + "\n" == "d.e.f is EFFECTIVELY_IMMUTABLE\n"
  {
    assert "d.e.f" + " is " == "d.e.f is ";
    assert "d.e.f is " + "EFFECTIVELY_IMMUTABLE" == "d.e.f is EFFECTIVELY_IMMUTABLE";
  }

  /** The header lines of the two tests. */
  lemma TestHeaderLines(unused1: seq<MutableReasonDetail>, unused2: seq<MutableReasonDetail>, unused3: seq<MutableReasonDetail>)
    ensures HeaderLine(AnalysisResult("a.b.c", Immutable, unused1)) == "a.b.c is IMMUTABLE\n"
    ensures HeaderLine(AnalysisResult("d.e.f", EffectivelyImmutable, unused2)) == "d.e.f is EFFECTIVELY_IMMUTABLE\n"
    ensures HeaderLine(AnalysisResult("g.h.i", NotImmutable, unused3)) == "g.h.i is NOT_IMMUTABLE\n"
    ensures HeaderLine(AnalysisResult("a.b.c", NotImmutable, unused1)) == "a.b.c is NOT_IMMUTABLE\n"
  {
    HeaderLineText(AnalysisResult("a.b.c", Immutable, unused1));
    HeaderLineText(AnalysisResult("d.e.f", EffectivelyImmutable, unused2));
    HeaderLineText(AnalysisResult("g.h.i", NotImmutable, unused3));
    HeaderLineText(AnalysisResult("a.b.c", NotImmutable, unused1));
    ShortHeadersText();
    LongHeaderText();
  }

  /** A reason line spelled out from its message and its printed location. */
  lemma ReasonLineOf(d: MutableReasonDetail, message: string, printed: string)
    requires d.message == message && PrettyPrint(d.codeLocation) == printed
    ensures ReasonLine(d) == "\t" + message + " " + printed + "\n"
  {
    ReasonLineText(d);
  }

  lemma FirstTabMessageSpace()
    ensures "\t" + "1st checker reason message" + " " == "\t1st checker reason message "
  {
  }

  lemma SecondTabMessageSpace()
    ensures "\t" + "2nd checker reason message" + " " == "\t2nd checker reason message "
  {
  }

  /** In verbose mode a lone result with two reasons is reported as its header and then the two lines. */
  lemma VerboseSingleResult(options: BatchAnalysisOptions, r: AnalysisResult, d0: MutableReasonDetail, d1: MutableReasonDetail)
    requires options.verbose && r.reasons == [d0, d1]
    ensures Rendered(options, [r]) == HeaderLine(r) + ReasonLine(d0) + ReasonLine(d1)
  {
    RenderedSingle(options, r);
    assert [d0, d1][1..] == [d1] && [d1][1..] == [];
    assert ReasonLines([d1]) == ReasonLine(d1) + "" == ReasonLine(d1);
    assert ReasonLines([d0, d1]) == ReasonLine(d0) + ReasonLine(d1);
  }

  lemma ContainsItself(s: string)
    ensures ContainsString(s, s)
  {
    assert ContainsAt(s, s, 0);
  }

  lemma SplitTwice(t: string, a: string, b: string, c: string, d: string, e: string, f: string)
    ensures t + (a + b + c) + (d + e + f) == t + a + b + c + d + e + f
  {
  }

  /** Three results, one of each verdict, in report mode ALL and not verbose: each header is
      present; the reasons (unused by the test) may be anything. */
  method PrintsReadableMessage(unused1: seq<MutableReasonDetail>, unused2: seq<MutableReasonDetail>, unused3: seq<MutableReasonDetail>)
    returns (output: string)
    ensures ContainsString(output, "a.b.c is IMMUTABLE\n")
    ensures ContainsString(output, "d.e.f is EFFECTIVELY_IMMUTABLE\n")
    ensures ContainsString(output, "g.h.i is NOT_IMMUTABLE\n")
    ensures output == "a.b.c is IMMUTABLE\n" + "d.e.f is EFFECTIVELY_IMMUTABLE\n" + "g.h.i is NOT_IMMUTABLE\n"
  {
    var options := BatchAnalysisOptions(All, false);
    var r0 := AnalysisResult("a.b.c", Immutable, unused1);
    var r1 := AnalysisResult("d.e.f", EffectivelyImmutable, unused2);
    var r2 := AnalysisResult("g.h.i", NotImmutable, unused3);
    output := Format(options, [r0, r1, r2]);
    RenderedThree(options, r0, r1, r2);
    assert ResultBlock(options, r0) == HeaderLine(r0) + "" == HeaderLine(r0);
    assert ResultBlock(options, r1) == HeaderLine(r1) + "" == HeaderLine(r1);
    assert ResultBlock(options, r2) == HeaderLine(r2) + "" == HeaderLine(r2);
    TestHeaderLines(unused1, unused2, unused3);
    ThreeHeadersContained("a.b.c is IMMUTABLE\n", "d.e.f is EFFECTIVELY_IMMUTABLE\n", "g.h.i is NOT_IMMUTABLE\n");
  }

  lemma ThreeHeadersContained(h0: string, h1: string, h2: string)
    ensures ContainsString(h0 + h1 + h2, h0)
    ensures ContainsString(h0 + h1 + h2, h1)
    ensures ContainsString(h0 + h1 + h2, h2)
  {
    ContainsMiddle([], h0, h1 + h2);
    assert [] + h0 + (h1 + h2) == h0 + h1 + h2;
    ContainsMiddle(h0, h1, h2);
    ContainsMiddle(h0 + h1, h2, []);
    assert h0 + h1 + h2 + [] == h0 + h1 + h2;
  }

  /** One NOT_IMMUTABLE result with a class-located and a field-located reason, verbose:
      the header is followed by both reason lines, in order, with dotted class names. */
  method VerboseOutputIncludesDetailedReasonAndPrettyPrintedCodeLocation() returns (output: string)
    ensures ContainsString(output, "a.b.c is NOT_IMMUTABLE\n"
                                   + "\t1st checker reason message " + "[Class: path.to.MyClass]" + "\n"
                                   + "\t2nd checker reason message " + "[Field: myField, Class: path.to.OtherClass]" + "\n")
  {
    var d0 := MutableReasonDetail("1st checker reason message",
                                  ClassCode(FromSlashed(SlashedOf("path/to/MyClass"))), NotDeclaredFinal);
    var d1 := MutableReasonDetail("2nd checker reason message",
                                  FieldCode(FieldLocation("myField", FromInternalName("path/to/OtherClass"))),
                                  MutableTypeToField);
    var r := AnalysisResult("a.b.c", NotImmutable, [d0, d1]);
    var options := BatchAnalysisOptions(All, true);
    output := Format(options, [r]);
    VerboseSingleResult(options, r, d0, d1);
    TestHeaderLines([d0, d1], [], []);
    PrettyPrintedTestClassLocation();
    PrettyPrintedTestFieldLocation();
    ReasonLineOf(d0, "1st checker reason message", "[Class: path.to.MyClass]");
    ReasonLineOf(d1, "2nd checker reason message", "[Field: myField, Class: path.to.OtherClass]");
    FirstTabMessageSpace();
    SecondTabMessageSpace();
    SplitTwice("a.b.c is NOT_IMMUTABLE\n",
               "\t1st checker reason message ", "[Class: path.to.MyClass]", "\n",
               "\t2nd checker reason message ", "[Field: myField, Class: path.to.OtherClass]", "\n");
    ContainsItself(output);
  }
}
