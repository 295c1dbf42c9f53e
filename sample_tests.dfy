/** The types declared next to the runner, as the inspector would describe
    them, and what `RunTests` prints for them. */
module SampleTests {
  import opened Base
  import opened Linq
  import opened Assertions
  import opened Inspector
  import opened TestRunner

  /** `TestClass`: two marked tests whose bodies call `AreEqual`, and an
      unmarked method. Its only constructor is the implicit parameterless one. */
  function SampleTestClass(): ClassDesc
  {
    ClassDesc("CSharpSample.TestClass", [0], Returns, [
      MethodDesc("Simple_passing_test", true, 0, AreEqual(1, 1, IntToString)),
      MethodDesc("Simple_failing_test", true, 0, AreEqual(1, 2, IntToString)),
      MethodDesc("SomeDummyMethod", false, 0, Returns)])
  }

  /** `TestMethodAttribute`: a parameterless constructor and no method of its own. */
  function AttributeType(): ClassDesc
  {
    ClassDesc("CSharpSample.TestMethodAttribute", [0], Returns, [])
  }

  /** `Assertions`: a static class, so no public constructor. */
  function AssertionsType(): ClassDesc
  {
    ClassDesc("CSharpSample.Assertions", [], Returns, [MethodDesc("AreEqual", false, 2, Returns)])
  }

  /** `TypeMethodPair`: its one constructor takes two parameters. */
  function PairType(): ClassDesc
  {
    ClassDesc("CSharpSample.TypeMethodPair", [2], Returns, [])
  }

  /** `TestRunner`: a parameterless constructor, no marked method. */
  function RunnerType(): ClassDesc
  {
    ClassDesc("CSharpSample.TestRunner", [0], Returns, [MethodDesc("RunTests", false, 1, Returns)])
  }

  /** `StaticExtensions`: a static class, so no public constructor. */
  function ExtensionsType(): ClassDesc
  {
    ClassDesc("CSharpSample.StaticExtensions", [], Returns, [MethodDesc("FindMatching", false, 2, Returns)])
  }

  /** The six types declared beside the runner, in declaration order. */
  function Catalog(): seq<ClassDesc>
  {
    [AttributeType(), AssertionsType(), PairType(), SampleTestClass(), RunnerType(), ExtensionsType()]
  }

  lemma SampleCatalogClassification()
    ensures IsTestClass(SampleTestClass())
    ensures !IsTestClass(AttributeType())
    ensures !IsTestClass(AssertionsType())
    ensures !IsTestClass(PairType())
    ensures !IsTestClass(RunnerType())
    ensures !IsTestClass(ExtensionsType())
  {
    var t := SampleTestClass();
    assert IsTestMethod(t.methods[0]);
    assert t.ctorParamCounts[0] == 0;
  }

  /** Discovery keeps `TestClass` only. */
  lemma SampleCatalogDiscovery(types: seq<ClassDesc>)
    requires types == Catalog()
    ensures TestClassesOf(types) == [types[3]]
  {
    SampleCatalogClassification();
    var p := IsTestClass;
    assert Where(types[5..], p) == [] + Where(types[6..], p);
    assert Where(types[4..], p) == [] + Where(types[5..], p);
    assert Where(types[3..], p) == [types[3]] + Where(types[4..], p);
    assert Where(types[2..], p) == [] + Where(types[3..], p);
    assert Where(types[1..], p) == [] + Where(types[2..], p);
    assert Where(types, p) == [] + Where(types[1..], p);
  }

  /** Of `TestClass`, the two marked tests are run, in declaration order;
      `SomeDummyMethod` is not a test. */
  lemma SampleTestMethods(t: ClassDesc)
    requires t == SampleTestClass()
    ensures TestMethodsOf(t) == t.methods[..2]
  {
    var ms := t.methods;
    assert IsTestMethod(ms[0]) && IsTestMethod(ms[1]) && !IsTestMethod(ms[2]);
    assert Where(ms[2..], IsTestMethod) == [] + Where(ms[3..], IsTestMethod);
    assert Where(ms[1..], IsTestMethod) == [ms[1]] + Where(ms[2..], IsTestMethod);
    assert Where(ms, IsTestMethod) == [ms[0]] + Where(ms[1..], IsTestMethod);
  }

  /** The passing test prints PASSED and the failing one FAILED. */
  lemma SampleTestLines(t: ClassDesc)
    requires t == SampleTestClass()
    ensures ExecuteTest(t, t.methods[0]) == Printed("Simple_passing_test : PASSED")
    ensures ExecuteTest(t, t.methods[1]) == Printed("Simple_failing_test : FAILED")
  {
    AreEqualOnSampleValues();
    ExecuteTestReports(t, t.methods[0]);
    ExecuteTestReports(t, t.methods[1]);
  }

  lemma SampleClassRun(t: ClassDesc)
    requires t == SampleTestClass()
    ensures ExecuteAll(ClassPairs(t)) == RunOutput(["Simple_passing_test : PASSED", "Simple_failing_test : FAILED"], None)
  {
    SampleTestMethods(t);
    SampleTestLines(t);
    var pairs := ClassPairs(t);
    assert pairs == [TypeMethodPair(t, t.methods[0]), TypeMethodPair(t, t.methods[1])];
    var (pass, fail) := ("Simple_passing_test : PASSED", "Simple_failing_test : FAILED");
    assert ExecuteAll(pairs[2..]) == RunOutput([], None);
    assert ExecuteAll(pairs[1..]) == RunOutput([fail] + [], None);
    assert ExecuteAll(pairs) == RunOutput([pass] + [fail], None);
  }

  /** Each pass prints "Simple_passing_test : PASSED" then
      "Simple_failing_test : FAILED". */
  lemma SampleCatalogPass(types: seq<ClassDesc>)
    requires types == Catalog()
    ensures LinqPass(types) == RunOutput(["Simple_passing_test : PASSED", "Simple_failing_test : FAILED"], None)
  {
    SampleCatalogDiscovery(types);
    var t := types[3];
    SampleClassRun(t);
    assert RunClasses([t]) == Then(ExecuteAll(ClassPairs(t)), RunClasses([]));
  }

  /** `RunTests` prints the lines of one pass twice. */
  lemma SampleCatalogOutput(types: seq<ClassDesc>)
    requires types == Catalog()
    ensures Then(LinqPass(types), LinqPass(types)).lines
         == ["Simple_passing_test : PASSED", "Simple_failing_test : FAILED",
             "Simple_passing_test : PASSED", "Simple_failing_test : FAILED"]
  {
    SampleCatalogPass(types);
    var pass := LinqPass(types);
    assert Then(pass, pass).lines == pass.lines + pass.lines;
  }

  /** A class whose only marked method takes a parameter: the helper
      `IsTestClass` accepts it and the `isTestClass` lambda does not, yet it
      contributes no test to either pass. */
  function ParameterizedOnly(): ClassDesc
  {
    ClassDesc("CSharpSample.ParameterizedOnly", [0], Returns, [MethodDesc("Needs_an_argument", true, 1, Returns)])
  }

  lemma HelperAdmitsClassWithoutTests()
    ensures AcceptedByHelper(ParameterizedOnly())
    ensures !IsTestClass(ParameterizedOnly())
    ensures Plan(Where([ParameterizedOnly()], AcceptedByHelper)) == []
  {
    var t := ParameterizedOnly();
    assert t.methods[0].marked;
    assert t.ctorParamCounts[0] == 0;
    assert TestMethodsOf(t) == [];
    assert Where([t], AcceptedByHelper) == [t];
  }

  /** A class whose constructor throws: the exception escapes the first pass,
      so nothing is printed and the loop pass never runs. */
  function ThrowingCtor(): ClassDesc
  {
    ClassDesc("CSharpSample.ThrowingCtor", [0], Throws("boom"), [MethodDesc("Never_reported", true, 0, Returns)])
  }

  lemma ConstructorFailureEscapes(types: seq<ClassDesc>)
    requires types == [ThrowingCtor()]
    ensures Then(LinqPass(types), LinqPass(types)) == RunOutput([], Some("boom"))
  {
    var t := ThrowingCtor();
    assert IsTestClass(t) by {
      assert IsTestMethod(t.methods[0]);
      assert t.ctorParamCounts[0] == 0;
    }
    assert types[1..] == [];
    assert Where(types, IsTestClass) == [t] + Where(types[1..], IsTestClass);
    assert TestClassesOf(types) == [t];
    var pairs := ClassPairs(t);
    assert t.methods[1..] == [];
    assert pairs == [TypeMethodPair(t, t.methods[0])];
    assert ExecuteAll(pairs) == RunOutput([], Some("boom"));
    assert LinqPass(types) == Then(ExecuteAll(pairs), RunClasses([]));
  }
}
