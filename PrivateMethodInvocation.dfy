/** The constructor-only query of the information-retrieval layer
    (`PrivateMethodInvocationInformation.isOnlyCalledFromConstructor`): is a private
    method of a class invoked only along call chains that start in a constructor?

    A class is given by its structure: its slashed (internal) name and its methods,
    each with a `name:descriptor` key, an access level and the invocation instructions
    of its body in order. The intra-class call graph is gathered from those bodies
    step by step, and the query is a predicate over that finite graph. */
module PrivateMethodInvocation {
  import opened Locations

  datatype Result<T, E> = Success(value: T) | Failure(error: E)

  /** The access level a method is declared with. */
  datatype Access = Public | Protected | PackagePrivate | Private

  /** One invocation instruction: the internal name of the class that owns the called
      method, and the called method's `name:descriptor`. */
  datatype Invocation = Invocation(owner: string, target: string)

  /** A declared method: its `name:descriptor`, its access level and the invocations of its body, in order. */
  datatype MethodDecl = MethodDecl(key: string, access: Access, body: seq<Invocation>)

  /** What is read from one class file: its internal (slashed) name and its methods. */
  datatype ClassStructure = ClassStructure(internalName: string, methods: seq<MethodDecl>)

  /** The intra-class call graph: every declared method's access level, and the pairs
      `(caller, callee)` such that the body of `caller` invokes `callee` on the class itself. */
  datatype CallGraph = CallGraph(access: map<string, Access>, invokes: set<(string, string)>)

  /** A method identified by its owning class, in dotted form, and its `name:descriptor` (`MethodIdentifier`). */
  datatype MethodIdentifier = MethodIdentifier(className: Dotted, methodDescriptor: string)

  /** Why a fail-fast query aborts instead of answering. */
  datatype AnalysisFailure = ClassNotFound(className: Dotted)

  /** Constructors are the methods named `<init>`, whatever their descriptor. */
  predicate IsConstructor(key: string)
  {
    "<init>:" <= key
  }

  // ----- gathering the call graph -----

  /** The access level of every declared method; a later declaration of the same key wins. */
  function AccessTable(ms: seq<MethodDecl>): (table: map<string, Access>)
  {
    if ms == [] then map[] else AccessTable(ms[..|ms| - 1])[ms[|ms| - 1].key := ms[|ms| - 1].access]
  }

  /** The call sites of one method body that target the class `owner` itself. */
  function CallSites(owner: string, caller: string, body: seq<Invocation>): (edges: set<(string, string)>)
  {
    if body == [] then {}
    else
      var inv := body[|body| - 1];
      CallSites(owner, caller, body[..|body| - 1]) + (if inv.owner == owner then {(caller, inv.target)} else {})
  }

  /** The call sites of all the methods of a class that target the class `owner` itself. */
  function Invokes(owner: string, ms: seq<MethodDecl>): (edges: set<(string, string)>)
  {
    if ms == [] then {}
    else Invokes(owner, ms[..|ms| - 1]) + CallSites(owner, ms[|ms| - 1].key, ms[|ms| - 1].body)
  }

  /** The call graph of a class. */
  function CallGraphOf(cls: ClassStructure): (g: CallGraph)
  {
    CallGraph(AccessTable(cls.methods), Invokes(cls.internalName, cls.methods))
  }

  /** The method visitor: walks one body's invocation instructions in order and records
      those that call a method of the class being analysed. */
  method VisitMethodBody(owner: string, caller: string, body: seq<Invocation>) returns (sites: set<(string, string)>)
    ensures sites == CallSites(owner, caller, body)
  {
    sites := {};
    var j := 0;
    while j < |body|
      invariant 0 <= j <= |body|
      invariant sites == CallSites(owner, caller, body[..j])
    {
      assert body[..j + 1][..j] == body[..j];
      var inv := body[j];
      if inv.owner == owner {
        sites := sites + {(caller, inv.target)};
      }
      j := j + 1;
    }
    assert body[..|body|] == body;
  }

  /** The class visitor: walks the methods in declaration order, recording each one's
      access level and the call sites of its body. */
  method BuildCallGraph(cls: ClassStructure) returns (g: CallGraph)
    ensures g == CallGraphOf(cls)
  {
    var access: map<string, Access> := map[];
    var invokes: set<(string, string)> := {};
    var i := 0;
    while i < |cls.methods|
      invariant 0 <= i <= |cls.methods|
      invariant access == AccessTable(cls.methods[..i])
      invariant invokes == Invokes(cls.internalName, cls.methods[..i])
    {
      assert cls.methods[..i + 1][..i] == cls.methods[..i];
      var m := cls.methods[i];
      access := access[m.key := m.access];
      var sites := VisitMethodBody(cls.internalName, m.key, m.body);
      invokes := invokes + sites;
      i := i + 1;
    }
    assert cls.methods[..|cls.methods|] == cls.methods;
    g := CallGraph(access, invokes);
  }

  /** A call site is recorded exactly when some body holds an invocation of that target on the class itself. */
  lemma {:induction false} CallSitesMembership(owner: string, caller: string, body: seq<Invocation>, a: string, b: string)
    ensures (a, b) in CallSites(owner, caller, body)
            <==> a == caller && exists j :: 0 <= j < |body| && body[j] == Invocation(owner, b)
  {
    if body != [] {
      var front := body[..|body| - 1];
      CallSitesMembership(owner, caller, front, a, b);
      if a == caller && (exists j :: 0 <= j < |body| && body[j] == Invocation(owner, b)) {
        var j :| 0 <= j < |body| && body[j] == Invocation(owner, b);
        if j < |body| - 1 {
          assert front[j] == body[j];
        }
      }
      if a == caller && (exists j :: 0 <= j < |front| && front[j] == Invocation(owner, b)) {
        var j :| 0 <= j < |front| && front[j] == Invocation(owner, b);
        assert body[j] == front[j];
      }
    }
  }

  /** The call relation holds exactly the pairs `(caller, callee)` where the body of a declared
      method `caller` holds an invocation of `callee` on the class itself. */
  lemma {:induction false} InvokesMembership(owner: string, ms: seq<MethodDecl>, a: string, b: string)
    ensures (a, b) in Invokes(owner, ms)
            <==> exists i, j :: 0 <= i < |ms| && 0 <= j < |ms[i].body| && ms[i].key == a && ms[i].body[j] == Invocation(owner, b)
  {
    if ms != [] {
      var front, last := ms[..|ms| - 1], ms[|ms| - 1];
      InvokesMembership(owner, front, a, b);
      CallSitesMembership(owner, last.key, last.body, a, b);
      if exists i, j :: 0 <= i < |ms| && 0 <= j < |ms[i].body| && ms[i].key == a && ms[i].body[j] == Invocation(owner, b) {
        var i, j :| 0 <= i < |ms| && 0 <= j < |ms[i].body| && ms[i].key == a && ms[i].body[j] == Invocation(owner, b);
        if i < |ms| - 1 {
          assert front[i] == ms[i];
        }
      }
      if exists i, j :: 0 <= i < |front| && 0 <= j < |front[i].body| && front[i].key == a && front[i].body[j] == Invocation(owner, b) {
        var i, j :| 0 <= i < |front| && 0 <= j < |front[i].body| && front[i].key == a && front[i].body[j] == Invocation(owner, b);
        assert ms[i] == front[i];
      }
    }
  }

  /** Every declared method has an entry, and the entry of a key is the access level of one of its declarations. */
  lemma {:induction false} AccessTableLookup(ms: seq<MethodDecl>, m: string)
    ensures m in AccessTable(ms) <==> exists i :: 0 <= i < |ms| && ms[i].key == m
    ensures m in AccessTable(ms) ==> exists i :: 0 <= i < |ms| && ms[i].key == m && ms[i].access == AccessTable(ms)[m]
  {
    if ms != [] {
      var front := ms[..|ms| - 1];
      AccessTableLookup(front, m);
      if m in AccessTable(front) && m != ms[|ms| - 1].key {
        var i :| 0 <= i < |front| && front[i].key == m && front[i].access == AccessTable(front)[m];
        assert ms[i] == front[i];
      }
      if exists i :: 0 <= i < |ms| && ms[i].key == m {
        var i :| 0 <= i < |ms| && ms[i].key == m;
        if i < |ms| - 1 {
          assert front[i] == ms[i];
        }
      }
    }
  }

  // ----- the query -----

  /** The methods whose bodies invoke `m`. */
  function Callers(g: CallGraph, m: string): (callers: set<string>)
  {
    set p | p in g.invokes && p.1 == m :: p.0
  }

  /** `m` is constructor-only when it is a declared private method that has call sites, and
      each of its callers is a constructor or, recursively, a constructor-only method. `visited`
      holds the methods on the current chain of callers: meeting one of them again settles
      nothing, so that branch, and with it the answer, is false. */
  predicate OnlyFromConstructors(g: CallGraph, m: string, visited: set<string>)
    decreases g.access.Keys - visited
  {
    && m in g.access
    && m !in visited
    && g.access[m] == Private
    && Callers(g, m) != {}
    && forall c :: c in Callers(g, m) ==> IsConstructor(c) || OnlyFromConstructors(g, c, visited + {m})
  }

  /** `isOnlyCalledFromConstructor` on a call graph: the search starts with nothing visited. */
  predicate OnlyCalledFromConstructor(g: CallGraph, m: string)
  {
    OnlyFromConstructors(g, m, {})
  }

  /** `isOnlyCalledFromConstructor(forMethod(className, descriptor))` with a fail-fast runner: a class
      that cannot be found aborts the query; otherwise its call graph is gathered and the answer is
      the predicate on that graph. */
  method IsOnlyCalledFromConstructor(classpath: map<Dotted, ClassStructure>, id: MethodIdentifier)
    returns (r: Result<bool, AnalysisFailure>)
    ensures r.Failure? <==> id.className !in classpath
    ensures r.Failure? ==> r.error == ClassNotFound(id.className)
    ensures r.Success? ==> r.value == OnlyCalledFromConstructor(CallGraphOf(classpath[id.className]), id.methodDescriptor)
  {
    if id.className !in classpath {
      return Failure(ClassNotFound(id.className));
    }
    var g := BuildCallGraph(classpath[id.className]);
    return Success(OnlyCalledFromConstructor(g, id.methodDescriptor));
  }

  // ----- a reference definition in terms of call paths -----

  /** `p` is a chain of calls: each method in it invokes the next. */
  ghost predicate IsCallPath(g: CallGraph, p: seq<string>)
  {
    |p| >= 1 && forall k :: 0 <= k < |p| - 1 ==> (p[k], p[k + 1]) in g.invokes
  }

  predicate ConstructorFree(p: seq<string>)
  {
    forall k :: 0 <= k < |p| ==> !IsConstructor(p[k])
  }

  predicate Distinct(p: seq<string>)
  {
    forall i, j :: 0 <= i < j < |p| ==> p[i] != p[j]
  }

  function Elems(p: seq<string>): (e: set<string>)
  {
    set x | x in p
  }

  /** A method that can only be entered from inside the class: declared private and called somewhere. */
  predicate PrivateWithCallers(g: CallGraph, x: string)
  {
    x in g.access && g.access[x] == Private && Callers(g, x) != {}
  }

  /** Every call chain that ends in `m` without passing a constructor goes back only through
      private methods that are themselves called, and never repeats a method. Hence a chain that
      starts anywhere else — at a public or package method, or at a method nobody calls — must
      pass a constructor before it reaches `m`. */
  ghost predicate OnlyReachedThroughConstructors(g: CallGraph, m: string)
  {
    forall p :: IsCallPath(g, p) && p[|p| - 1] == m && ConstructorFree(p[..|p| - 1])
      ==> Distinct(p) && PrivateWithCallers(g, p[0])
  }

  lemma ElemsCons(p: seq<string>, k: int)
    requires 0 <= k < |p|
    ensures Elems(p[k..]) == {p[k]} + Elems(p[k + 1..])
  {
    assert p[k..] == [p[k]] + p[k + 1..];
  }

  /** Walking a constructor-free call chain backwards from `m`, each method met is
      constructor-only with respect to the methods after it. */
  lemma {:induction false} ChainStaysConstructorOnly(g: CallGraph, p: seq<string>, k: int)
    requires IsCallPath(g, p) && ConstructorFree(p[..|p| - 1])
    requires 0 <= k < |p|
    requires OnlyFromConstructors(g, p[k], Elems(p[k + 1..]))
    ensures PrivateWithCallers(g, p[0])
    ensures forall i :: 0 <= i <= k ==> p[i] !in Elems(p[i + 1..])
    decreases k
  {
    if k > 0 {
      assert (p[k - 1], p[k]) in g.invokes;
      assert p[k - 1] in Callers(g, p[k]);
      assert p[..|p| - 1][k - 1] == p[k - 1];
      assert OnlyFromConstructors(g, p[k - 1], Elems(p[k + 1..]) + {p[k]});
      ElemsCons(p, k);
      assert Elems(p[k..]) == Elems(p[k + 1..]) + {p[k]};
      ChainStaysConstructorOnly(g, p, k - 1);
    }
  }

  /** Soundness of the search: a true answer means every constructor-free call chain into
      `m` is simple and comes only through called private methods. */
  lemma Soundness(g: CallGraph, m: string)
    requires OnlyCalledFromConstructor(g, m)
    ensures OnlyReachedThroughConstructors(g, m)
  {
    forall p | IsCallPath(g, p) && p[|p| - 1] == m && ConstructorFree(p[..|p| - 1])
      ensures Distinct(p) && PrivateWithCallers(g, p[0])
    {
      assert Elems(p[|p|..]) == {};
      ChainStaysConstructorOnly(g, p, |p| - 1);
      forall i, j | 0 <= i < j < |p| ensures p[i] != p[j] {
        assert p[j] == p[i + 1..][j - i - 1];
      }
    }
  }

  /** A caller of the first method of a call chain extends the chain at its front. */
  lemma ExtendChain(g: CallGraph, m: string, q: seq<string>, c: string)
    requires IsCallPath(g, q) && q[|q| - 1] == m && ConstructorFree(q[..|q| - 1])
    requires c in Callers(g, q[0]) && !IsConstructor(c)
    ensures IsCallPath(g, [c] + q) && ([c] + q)[|q|] == m && ConstructorFree(([c] + q)[..|q|])
    ensures ([c] + q)[0] == c && ([c] + q)[1..] == q
  {
    var q' := [c] + q;
    assert (c, q[0]) in g.invokes;
    forall k | 0 <= k < |q'| - 1 ensures (q'[k], q'[k + 1]) in g.invokes {
      if k > 0 {
        assert q'[k] == q[k - 1] && q'[k + 1] == q[k];
      }
    }
    assert q'[..|q|] == [c] + q[..|q| - 1];
  }

  /** The first method of a constructor-free call chain into `m` is not met again later in it. */
  lemma FirstNotRepeated(g: CallGraph, m: string, q: seq<string>)
    requires OnlyReachedThroughConstructors(g, m)
    requires IsCallPath(g, q) && q[|q| - 1] == m && ConstructorFree(q[..|q| - 1])
    ensures q[0] !in Elems(q[1..]) && PrivateWithCallers(g, q[0])
    ensures Elems(q) == Elems(q[1..]) + {q[0]}
  {
    assert Distinct(q);
    forall j | 0 <= j < |q[1..]| ensures q[1..][j] != q[0] {
      assert q[1..][j] == q[j + 1];
    }
    ElemsCons(q, 0);
    assert q[0..] == q;
  }

  /** Completeness of the search, from any point of a constructor-free call chain into `m`:
      what the paths promise, the search with the chain's later methods visited confirms. */
  lemma {:induction false} CompletenessFrom(g: CallGraph, m: string, q: seq<string>)
    requires OnlyReachedThroughConstructors(g, m)
    requires IsCallPath(g, q) && q[|q| - 1] == m && ConstructorFree(q[..|q| - 1])
    ensures OnlyFromConstructors(g, q[0], Elems(q[1..]))
    decreases g.access.Keys - Elems(q[1..])
  {
    var x, visited := q[0], Elems(q[1..]);
    FirstNotRepeated(g, m, q);
    forall c | c in Callers(g, x) && !IsConstructor(c)
      ensures OnlyFromConstructors(g, c, visited + {x})
    {
      ExtendChain(g, m, q, c);
      assert g.access.Keys - (visited + {x}) < g.access.Keys - visited;
      CompletenessFrom(g, m, [c] + q);
    }
  }

  lemma Completeness(g: CallGraph, m: string)
    requires OnlyReachedThroughConstructors(g, m)
    ensures OnlyCalledFromConstructor(g, m)
  {
    assert IsCallPath(g, [m]) && [m][..0] == [];
    assert [m][1..] == [] && Elems([]) == {};
    CompletenessFrom(g, m, [m]);
  }

  /** The search with a visited set decides exactly the path property. */
  lemma OnlyCalledFromConstructorIff(g: CallGraph, m: string)
    ensures OnlyCalledFromConstructor(g, m) <==> OnlyReachedThroughConstructors(g, m)
  {
    if OnlyCalledFromConstructor(g, m) {
      Soundness(g, m);
    }
    if OnlyReachedThroughConstructors(g, m) {
      Completeness(g, m);
    }
  }

  /** A call chain into a constructor-only method that starts at a method callable from outside
      the class (not private, or never called within it) passes through a constructor. */
  lemma EntryPathsPassConstructor(g: CallGraph, m: string, p: seq<string>)
    requires OnlyCalledFromConstructor(g, m)
    requires IsCallPath(g, p) && p[|p| - 1] == m
    requires !PrivateWithCallers(g, p[0])
    ensures exists k :: 0 <= k < |p| - 1 && IsConstructor(p[k])
  {
    Soundness(g, m);
    assert !ConstructorFree(p[..|p| - 1]);
    var k :| 0 <= k < |p| - 1 && IsConstructor(p[..|p| - 1][k]);
    assert p[..|p| - 1][k] == p[k];
  }

  /** Recursion among helpers proves nothing: a constructor-free call chain into `m` that repeats
      a method makes the answer false. */
  lemma CycleWithoutConstructorRejected(g: CallGraph, m: string, p: seq<string>)
    requires IsCallPath(g, p) && p[|p| - 1] == m && ConstructorFree(p[..|p| - 1])
    requires !Distinct(p)
    ensures !OnlyCalledFromConstructor(g, m)
  {
    OnlyCalledFromConstructorIff(g, m);
  }

  /** A private helper that calls itself is rejected, whoever else calls it: its own call site
      meets it a second time on the chain. */
  lemma SelfCallingHelperRejected(g: CallGraph, m: string, visited: set<string>)
    requires (m, m) in g.invokes && !IsConstructor(m)
    ensures !OnlyFromConstructors(g, m, visited)
  {
    assert m in Callers(g, m);
    assert !OnlyFromConstructors(g, m, visited + {m});
  }

  /** A method that no body of its class invokes is not constructor-only. */
  lemma UnreferencedMethodIsNotConstructorOnly(cls: ClassStructure, m: string)
    requires forall i, j :: 0 <= i < |cls.methods| && 0 <= j < |cls.methods[i].body|
               ==> cls.methods[i].body[j] != Invocation(cls.internalName, m)
    ensures !OnlyCalledFromConstructor(CallGraphOf(cls), m)
  {
    var g := CallGraphOf(cls);
    forall c ensures (c, m) !in g.invokes {
      InvokesMembership(cls.internalName, cls.methods, c, m);
    }
    assert Callers(g, m) == {};
  }

  /** A method not declared private is not constructor-only, whoever calls it. */
  lemma NonPrivateMethodIsNotConstructorOnly(cls: ClassStructure, m: string)
    requires forall i :: 0 <= i < |cls.methods| && cls.methods[i].key == m ==> cls.methods[i].access != Private
    ensures !OnlyCalledFromConstructor(CallGraphOf(cls), m)
  {
    AccessTableLookup(cls.methods, m);
  }

  /** A declared private method invoked only from constructor bodies is constructor-only. */
  lemma CalledOnlyFromConstructorsQualifies(cls: ClassStructure, m: string)
    requires exists i :: 0 <= i < |cls.methods| && cls.methods[i].key == m
    requires forall i :: 0 <= i < |cls.methods| && cls.methods[i].key == m ==> cls.methods[i].access == Private
    requires exists i, j :: 0 <= i < |cls.methods| && 0 <= j < |cls.methods[i].body|
               && cls.methods[i].body[j] == Invocation(cls.internalName, m)
    requires forall i, j :: (0 <= i < |cls.methods| && 0 <= j < |cls.methods[i].body|
               && cls.methods[i].body[j] == Invocation(cls.internalName, m)) ==> IsConstructor(cls.methods[i].key)
    ensures OnlyCalledFromConstructor(CallGraphOf(cls), m)
  {
    var g := CallGraphOf(cls);
    AccessTableLookup(cls.methods, m);
    var i, j :| 0 <= i < |cls.methods| && 0 <= j < |cls.methods[i].body|
               && cls.methods[i].body[j] == Invocation(cls.internalName, m);
    InvokesMembership(cls.internalName, cls.methods, cls.methods[i].key, m);
    assert cls.methods[i].key in Callers(g, m);
    forall c | c in Callers(g, m) ensures IsConstructor(c) {
      InvokesMembership(cls.internalName, cls.methods, c, m);
    }
  }

  /** Transitivity: a private method called only by a constructor-only private helper qualifies. */
  lemma CalledOnlyFromConstructorOnlyHelperQualifies(g: CallGraph, m: string, h: string)
    requires PrivateWithCallers(g, m) && Callers(g, m) == {h} && h != m && !IsConstructor(h)
    requires PrivateWithCallers(g, h) && forall c :: c in Callers(g, h) ==> IsConstructor(c)
    ensures OnlyCalledFromConstructor(g, m)
  {
    assert OnlyFromConstructors(g, h, {m});
  }

  // ----- the tested class -----

  /** `ImmutableUsingPrivateFieldSettingMethod`, as its class file shows it: the constructor
      calls `Object.<init>` and then the private `setFields`; `getField1` is a public getter. */
  function SetterBenchmark(): ClassStructure
  {
    var self := "org/mutabilitydetector/benchmarks/settermethod/ImmutableUsingPrivateFieldSettingMethod";
    ClassStructure(self, [
      MethodDecl("<init>:()V", Public, [Invocation("java/lang/Object", "<init>:()V"), Invocation(self, "setFields:()V")]),
      MethodDecl("setFields:()V", Private, []),
      MethodDecl("getField1:()I", Public, [])
    ])
  }

  /** The current classpath of the tests: the benchmark class, under its dotted name. */
  function TestClasspath(): map<Dotted, ClassStructure>
  {
    map[DottedOf(SetterBenchmark().internalName) := SetterBenchmark()]
  }

  /** `ImmutableUsingPrivateFieldSettingMethod.class.getName()`: the dotted form of the internal name. */
  function BenchmarkClassName(): string
  {
    FromInternalName(SetterBenchmark().internalName).typeName
  }

  /** `dotted(className)` of the name `getName()` reports finds the benchmark on the classpath. */
  lemma BenchmarkFound()
    ensures DottedOf(BenchmarkClassName()) in TestClasspath()
    ensures TestClasspath()[DottedOf(BenchmarkClassName())] == SetterBenchmark()
  {
    DottedOfDottedName(ToDotted(SetterBenchmark().internalName));
  }

  lemma BenchmarkCallGraph()
    ensures CallGraphOf(SetterBenchmark()).access
            == map["<init>:()V" := Public, "setFields:()V" := Private, "getField1:()I" := Public]
    ensures CallGraphOf(SetterBenchmark()).invokes == {("<init>:()V", "setFields:()V")}
  {
    var cls := SetterBenchmark();
    var ms := cls.methods;
    assert ms[..3] == ms;
    assert ms[..3][..2] == ms[..2] && ms[..2][..1] == ms[..1] && ms[..1][..0] == [];
    assert AccessTable(ms[..1]) == map["<init>:()V" := Public];
    assert AccessTable(ms[..2]) == map["<init>:()V" := Public, "setFields:()V" := Private];
    var initBody := ms[0].body;
    assert "java/lang/Object" != cls.internalName;
    assert initBody[..1] == [Invocation("java/lang/Object", "<init>:()V")] && initBody[..1][..0] == [];
    assert CallSites(cls.internalName, "<init>:()V", initBody[..1]) == {};
    assert CallSites(cls.internalName, "<init>:()V", initBody) == {("<init>:()V", "setFields:()V")};
    assert Invokes(cls.internalName, ms[..1]) == {("<init>:()V", "setFields:()V")};
    assert Invokes(cls.internalName, ms[..2]) == {("<init>:()V", "setFields:()V")};
  }

  /** `setFields:()V` is called only from the constructor: true. */
  lemma SetFieldsIsConstructorOnly()
    ensures OnlyCalledFromConstructor(CallGraphOf(SetterBenchmark()), "setFields:()V")
  {
    var g := CallGraphOf(SetterBenchmark());
    BenchmarkCallGraph();
    assert Callers(g, "setFields:()V") == {"<init>:()V"};
    assert IsConstructor("<init>:()V");
  }

  /** `getField1:()I` is public: false. */
  lemma GetField1IsNotConstructorOnly()
    ensures !OnlyCalledFromConstructor(CallGraphOf(SetterBenchmark()), "getField1:()I")
  {
    BenchmarkCallGraph();
  }

  method ReturnsTrueForPrivateMethodCalledOnlyFromConstructor() returns (result: bool)
    ensures result
  {
    var className := BenchmarkClassName();
    var r := IsOnlyCalledFromConstructor(TestClasspath(), MethodIdentifier(DottedOf(className), "setFields:()V"));
    BenchmarkFound();
    SetFieldsIsConstructorOnly();
    result := r.value;
  }

  method ReturnsFalseForPublicMethod() returns (result: bool)
    ensures !result
  {
    var className := BenchmarkClassName();
    var r := IsOnlyCalledFromConstructor(TestClasspath(), MethodIdentifier(DottedOf(className), "getField1:()I"));
    BenchmarkFound();
    GetField1IsNotConstructorOnly();
    result := r.value;
  }
}
