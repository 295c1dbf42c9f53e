# Test runner and cache-aside decorator, modelled in Dafny

This project models two pieces of a small C# demo repository.

**The reflection-based test runner** (`CSharpDemo/TestRunner.cs`). `TestRunner.RunTests`
scans the types of an assembly. A *test method* is a public method marked `[TestMethod]` that
takes no parameters. A *test class* has a public parameterless constructor and at least one test
method. Each test runs on a fresh instance and prints `"<name> : PASSED"` or `"<name> : FAILED"`.
`RunTests` performs this discovery and execution twice: once as a LINQ pipeline, once as
`foreach` loops built around the private helper `IsTestClass` (modelled as
`TestRunner.HelperIsTestClass`). Reflection is replaced by descriptors
(`Inspector.ClassDesc`, `Inspector.MethodDesc`). The console becomes the `lines` of a
`TestRunner.RunOutput`. An exception escaping the run becomes its `escaped` field.

**The cache-aside decorator** (`DesignPatterns/Program.cs`). `UserCache` wraps a *static*
dictionary from id to user. `CachedUserDb.Get` consults it, falls back to an inner user store on
a miss, and stores the fetched user. `Script.Run` performs the same step inline. The static field
is one `StaticDictionary` object that every `UserCache` refers to. The inner store is a function
from id to `User`. Ghost logs (`innerCalls`, `dbCalls`) record which ids were fetched from it.

Files: `base.dfy` (Option, `Completion` = returns or throws), `linq.dfy` (`Where`),
`assertions.dfy` (`AreEqual`), `inspector.dfy` (descriptors and the classification lambdas),
`test_runner.dfy` (both passes, `ExecuteTest`, `FindMatching`), `sample_tests.dfy` (the six types
declared in `TestRunner.cs`, in declaration order, run through the harness), `design_patterns.dfy` (the cache).

Behaviour of the code worth knowing:
- A throwing test-class constructor is not recorded as a failure. `Activator.CreateInstance` sits
  outside the `try`, so the exception escapes `ExecuteTest` and ends `RunTests`.
- Both passes run, so every test is executed and reported twice.
- A failing test prints only `FAILED`. The exception's message is not shown.

## Model

| member | source | states |
|---|---|---|
| `Linq.Where` | CSharpDemo/TestRunner.cs:80 | definition of the LINQ filter (no contract of its own): keeps, in order, the elements that satisfy the predicate; `Linq.WhereMeans` and `Linq.WhereAppend` state its properties |
| `Linq.WhereMeans` | CSharpDemo/TestRunner.cs:78-90 | the LINQ filter `Where` keeps exactly the elements that satisfy the predicate, and never more than the input |
| `Linq.WhereAppend` | CSharpDemo/TestRunner.cs:78-90 | filtering distributes over concatenation, so no element is reordered |
| `Assertions.AreEqual` | CSharpDemo/TestRunner.cs:16-20 | returns iff the values are equal; otherwise throws with message `value`, `" != "`, `expected` |
| `Assertions.AreEqualOnSampleValues` | CSharpDemo/TestRunner.cs:39-49 | `AreEqual(1, 1)` returns and `AreEqual(1, 2)` throws `"1 != 2"` |
| `Assertions.NatToStringRoundTrip` | CSharpDemo/TestRunner.cs:19 | the decimal rendering of a non-negative number reads back as the same number |
| `Assertions.IntToStringRoundTrip` | CSharpDemo/TestRunner.cs:19 | the rendering of any `int`, negative ones included, reads back as the same number, so distinct values never give the same message |
| `Inspector.IsTestMethod` | CSharpDemo/TestRunner.cs:70-72 | definition of the `isTestMethod` lambda (no contract of its own): marked with `[TestMethod]` and taking no parameters |
| `Inspector.HasParamlessConstr` | CSharpDemo/TestRunner.cs:75 | definition of the `hasParamlessConstr` lambda (no contract of its own): some public constructor takes no parameters |
| `Inspector.IsTestClass` | CSharpDemo/TestRunner.cs:74-76 | definition of the `isTestClass` lambda (no contract of its own); `Inspector.IsTestClassMeans` states what it means |
| `Inspector.TestMethodsOf` | CSharpDemo/TestRunner.cs:70-72 | the test methods are exactly the marked methods with zero parameters; marked methods with parameters are excluded |
| `Inspector.TestClassesOf` | CSharpDemo/TestRunner.cs:74-80 | the test classes are exactly the catalog types satisfying `isTestClass` |
| `Inspector.IsTestClassMeans` | CSharpDemo/TestRunner.cs:74-76 | a type is a test class iff it has a parameterless constructor and a non-empty list of test methods |
| `TestRunner.ExecuteTest` | CSharpDemo/TestRunner.cs:123-136 | definition of `ExecuteTest` (no contract of its own): a throwing constructor escapes, otherwise one PASSED or FAILED line; `TestRunner.ExecuteTestReports` states its contract |
| `TestRunner.ExecuteTestReports` | CSharpDemo/TestRunner.cs:123-136 | prints `name : PASSED` iff the body returns and `name : FAILED` iff it throws; a body exception never escapes, a constructor exception always does |
| `TestRunner.ExecuteAll` | CSharpDemo/TestRunner.cs:115-116 | definition of running a list of tests in order, shared by `ForEach` and `foreach` (no contract of its own); `TestRunner.ExecuteAllOutcome` and `TestRunner.ExecuteAllAppend` state its properties |
| `TestRunner.ExecuteAllOutcome` | CSharpDemo/TestRunner.cs:115-116 | tests run in order; each test before the first throwing constructor prints its line; that constructor's exception ends the run; a failing body never stops later tests |
| `TestRunner.ExecuteAllAppend` | CSharpDemo/TestRunner.cs:115-116 | running `a + b` is running `a` and then, unless something escaped, `b` |
| `TestRunner.RunClasses` | CSharpDemo/TestRunner.cs:81-90 | definition of the `Select`/`ForEach` part of the LINQ pass (no contract of its own): each class runs its test methods, stopping at an escaping exception; `TestRunner.RunClassesExecutesPlan` states what it runs |
| `TestRunner.LinqPass` | CSharpDemo/TestRunner.cs:78-90 | definition of the whole LINQ pass (no contract of its own): discovery followed by `RunClasses`; `TestRunner.LoopPass` and `TestRunner.RunTestsPrintsEveryTestTwice` state its output |
| `TestRunner.RunClassesExecutesPlan` | CSharpDemo/TestRunner.cs:78-90 | the class-by-class LINQ pass runs exactly the flattened (type, method) plan, in order |
| `TestRunner.PlanMembership` | CSharpDemo/TestRunner.cs:70-90 | a pair is run iff its type is in the catalog and has a parameterless constructor, and its method is marked and parameterless |
| `TestRunner.PlanFollowsCatalogOrder` | CSharpDemo/TestRunner.cs:78-90 | tests of earlier catalog types run before tests of later ones; nothing is re-sorted |
| `TestRunner.DiscoveredTestsRunOnce` | CSharpDemo/TestRunner.cs:78-90 | with distinct types and distinct methods, no (type, method) pair is run twice in one pass |
| `TestRunner.HelperIsTestClass` | CSharpDemo/TestRunner.cs:138-157 | true iff some constructor is parameterless and some method is marked, whatever its parameter count |
| `TestRunner.HelperFilterGivesSamePlan` | CSharpDemo/TestRunner.cs:93-113 | the helper's looser class filter yields the same pair list as `isTestClass`, because the extra classes it admits have no test methods |
| `TestRunner.CollectTestClasses` | CSharpDemo/TestRunner.cs:93-99 | the loop collects, in catalog order, exactly the types the helper accepts |
| `TestRunner.CollectMethodsOf` | CSharpDemo/TestRunner.cs:104-112 | the inner loop collects, in method order, a pair for exactly the marked parameterless methods of one class |
| `TestRunner.CollectTestMethods` | CSharpDemo/TestRunner.cs:101-113 | the nested loops collect exactly the plan of the collected classes, in class then method order |
| `TestRunner.ExecutePairs` | CSharpDemo/TestRunner.cs:115-116 | the loop prints what executing the pairs in order prints and stops at an escaping exception |
| `TestRunner.LoopPass` | CSharpDemo/TestRunner.cs:93-116 | the loop pass produces element for element the same output as the LINQ pass |
| `TestRunner.RunTests` | CSharpDemo/TestRunner.cs:59-119 | the output is the LINQ pass followed by the same output again, unless the first pass let an exception escape |
| `TestRunner.RunTestsPrintsEveryTestTwice` | CSharpDemo/TestRunner.cs:78-116 | with no throwing constructor, one line per discovered test (PASSED iff its body returns) in discovery order, then the same lines again |
| `TestRunner.FindMatching` | CSharpDemo/TestRunner.cs:163-171 | returns the first element satisfying the condition, or the default value when none does |
| `SampleTests.SampleCatalogClassification` | CSharpDemo/TestRunner.cs:9-173 | of the six types declared in the file (`TestMethodAttribute`, `Assertions`, `TypeMethodPair`, `TestClass`, `TestRunner`, `StaticExtensions`), only `TestClass` is a test class |
| `SampleTests.SampleCatalogDiscovery` | CSharpDemo/TestRunner.cs:78-80 | of the six types in declaration order, discovery keeps `TestClass` only |
| `SampleTests.SampleTestMethods` | CSharpDemo/TestRunner.cs:39-53 | of `TestClass`, exactly `Simple_passing_test` and `Simple_failing_test` are test methods, in that order |
| `SampleTests.SampleTestLines` | CSharpDemo/TestRunner.cs:39-49 | the passing test prints PASSED, the failing one FAILED |
| `SampleTests.SampleClassRun` | CSharpDemo/TestRunner.cs:84-87 | running the tests of `TestClass` prints the PASSED line and then the FAILED line, and nothing escapes |
| `SampleTests.SampleCatalogPass` | CSharpDemo/TestRunner.cs:78-90 | one pass prints `Simple_passing_test : PASSED` then `Simple_failing_test : FAILED` |
| `SampleTests.SampleCatalogOutput` | CSharpDemo/TestRunner.cs:59-119 | `RunTests` prints those two lines twice |
| `SampleTests.HelperAdmitsClassWithoutTests` | CSharpDemo/TestRunner.cs:138-157 | a class whose only marked method takes a parameter passes the helper, fails `isTestClass`, and contributes no test |
| `SampleTests.ConstructorFailureEscapes` | CSharpDemo/TestRunner.cs:123-129 | a throwing constructor escapes the first pass before any line is printed, and the second pass never runs |
| `DesignPatterns.SimpleUserDbGet` | DesignPatterns/Program.cs:196-200 | the user returned has the requested id |
| `DesignPatterns.StaticDictionary.constructor` | DesignPatterns/Program.cs:95 | the static dictionary starts empty and every entry is filed under its user's id |
| `DesignPatterns.UserCache.constructor` | DesignPatterns/Program.cs:93-95 | every new `UserCache` refers to the one shared dictionary |
| `DesignPatterns.UserCache.TryGetUser` | DesignPatterns/Program.cs:97-100 | found iff the id is a key, and then the stored user; otherwise `null` |
| `DesignPatterns.UserCache.AddUser` | DesignPatterns/Program.cs:102-105 | the user is stored under its own id, overwriting; all other keys are unchanged |
| `DesignPatterns.CachedUserDb.constructor` | DesignPatterns/Program.cs:166-170 | the decorator holds the given cache and inner store, with no fetch yet |
| `DesignPatterns.CachedUserDb.Get` | DesignPatterns/Program.cs:176-185 | ignores `id`: on a hit at key 10 returns the cached user, fetches nothing and leaves the cache unchanged; on a miss fetches 10 exactly once and stores the result under its own id |
| `DesignPatterns.WithCaching` | DesignPatterns/Program.cs:158-161 | a new decorator over a new `UserCache` that still shares the static dictionary |
| `DesignPatterns.Script.Run` | DesignPatterns/Program.cs:113-126 | the same cache-aside step as `Get`, written inline |
| `DesignPatterns.SecondGetHits` | DesignPatterns/Program.cs:35-44 | with `SimpleUserDb` inside, two `Get` calls return the same user `User(10)` whatever ids are passed, and the inner store is called at most once |
| `DesignPatterns.CacheSharedAcrossDecorators` | DesignPatterns/Program.cs:156-161 | a decorator made later by `WithCaching` hits on what an earlier one stored, and its own store is never called |
| `DesignPatterns.MismatchedIdAlwaysMisses` | DesignPatterns/Program.cs:176-185 | if the store answers 10 with a user under another id, key 10 stays uncached and each `Get` fetches again |

## Left out

- Reflection (`GetTypes`, `GetMethods`, `GetConstructors`, `IsDefined`, `Activator.CreateInstance`, `MethodInfo.Invoke`) is replaced by descriptors. Each descriptor gives a method's marker, its parameter count and how its call ends, and a type's constructor parameter counts and how its parameterless constructor ends.
- The wrapping of an exception in `TargetInvocationException` by reflection is not modelled. An escaping constructor exception carries the constructor's own message.
- The sample catalog fixes the order of `GetTypes` and `GetMethods` to declaration order, which .NET does not promise. It also omits the unmarked methods every type inherits from `object`; they are never test methods, so they change no result.
- Test bodies are fixed outcomes. Instance state, and so per-test isolation through fresh instances, is not modelled: no body can observe another body's effects.
- `Console.WriteLine` becomes the returned lines. `Console.ReadKey` at the end of `RunTests` is left out.
- `Assertions.AreEqual`: C# `Equals` overrides are modelled by Dafny equality. A `null` first argument, which would throw `NullReferenceException`, is not modelled.
- `TestRunner.FindMatching`: Dafny has no `default(T)`, so the caller supplies that value. A condition that throws is not modelled.
- `CSharpDemo/Program.cs` (delegate wrappers and `Main`) and `CSharpDemo/Model/Person.cs` are not part of this model: they hold no logic beyond reflection calls and printing.
- From `DesignPatterns/Program.cs`: `GetNumbers`, `IteratorExample` and the enumerator part of `DecoratorSample` (console output, a random GUID), `Measure.TimingFor` (stopwatch), the sleep in `SimpleUserDb`, `SqlUserDb` (only throws `NotImplementedException`), `MyCollection` (returns `null`), and the timing and printing in `Script.Run` and `ScriptWithPatterns.Run`.
- `User` is a value. Reference identity of `User` objects and `AddUser(null)` are not modelled.
- The inner store of `CachedUserDb` is a total function. A store that throws is not modelled.
