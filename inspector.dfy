/** What the harness learns about a type through reflection, replaced by plain
    descriptors, and the classification predicates `RunTests` builds from them. */
module Inspector {
  import opened Base
  import opened Linq

  /** A public method as `Type.GetMethods` reports it: its name, whether it
      carries `[TestMethod]`, how many parameters it takes, and how a call to it
      on a fresh instance ends. */
  datatype MethodDesc = MethodDesc(name: string, marked: bool, paramCount: nat, body: Completion)

  /** A type from `Assembly.GetTypes`: its namespace-qualified name
      (`Type.FullName`, which identifies the type, so `GetTypes` never lists two
      equal descriptors), the parameter counts of its public
      constructors (`GetConstructors`), how its parameterless constructor ends
      when `Activator.CreateInstance` runs it, and its public methods in
      `GetMethods` order. */
  datatype ClassDesc = ClassDesc(
    name: string,
    ctorParamCounts: seq<nat>,
    ctorBody: Completion,
    methods: seq<MethodDesc>)

  /** `TypeMethodPair`: one test method together with the type that owns it. */
  datatype TypeMethodPair = TypeMethodPair(testType: ClassDesc, testMethod: MethodDesc)

  // The lambdas of `RunTests`, one predicate each.

  predicate HasTestAttr(m: MethodDesc) { m.marked }

  predicate IsParameterless(m: MethodDesc) { m.paramCount == 0 }

  predicate IsTestMethod(m: MethodDesc) { HasTestAttr(m) && IsParameterless(m) }

  predicate HasTestMethods(t: ClassDesc) { exists i :: 0 <= i < |t.methods| && IsTestMethod(t.methods[i]) }

  predicate HasParamlessConstr(t: ClassDesc) { exists i :: 0 <= i < |t.ctorParamCounts| && t.ctorParamCounts[i] == 0 }

  predicate IsTestClass(t: ClassDesc) { HasTestMethods(t) && HasParamlessConstr(t) }

  /** The test methods of `t`, in `GetMethods` order (`GetMethods().Where(isTestMethod)`). */
  function TestMethodsOf(t: ClassDesc): (r: seq<MethodDesc>)
    ensures forall i :: 0 <= i < |r| ==> r[i] in t.methods && r[i].marked && r[i].paramCount == 0
    ensures forall i :: 0 <= i < |t.methods| && t.methods[i].marked && t.methods[i].paramCount == 0 ==>
                          t.methods[i] in r
  {
    WhereMeans(t.methods, IsTestMethod);
    Where(t.methods, IsTestMethod)
  }

  /** A type is a test class exactly when it has a public parameterless
      constructor and some method that is both marked and parameterless; a
      marked method with parameters does not make it one. */
  lemma IsTestClassMeans(t: ClassDesc)
    ensures IsTestClass(t) <==> 0 in t.ctorParamCounts && TestMethodsOf(t) != []
  {
    var r := TestMethodsOf(t);
    if HasTestMethods(t) {
      var i :| 0 <= i < |t.methods| && IsTestMethod(t.methods[i]);
      assert t.methods[i] in r;
    }
    if r != [] {
      assert r[0] in t.methods;
      var i :| 0 <= i < |t.methods| && t.methods[i] == r[0];
      assert IsTestMethod(t.methods[i]);
    }
    if 0 in t.ctorParamCounts {
      var i :| 0 <= i < |t.ctorParamCounts| && t.ctorParamCounts[i] == 0;
    }
  }

  /** The test classes of a catalog in `GetTypes` order
      (`GetTypes().Where(isTestClass)`). */
  function TestClassesOf(types: seq<ClassDesc>): (r: seq<ClassDesc>)
    ensures forall i :: 0 <= i < |r| ==> r[i] in types && IsTestClass(r[i])
    ensures forall i :: 0 <= i < |types| && IsTestClass(types[i]) ==> types[i] in r
  {
    WhereMeans(types, IsTestClass);
    Where(types, IsTestClass)
  }
}
