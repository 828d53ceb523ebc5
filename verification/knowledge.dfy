/** The documentation knowledge base: an immutable value built once and only read
    by the handlers. JavaScript objects whose keys are looked up by name
    (`coreClasses`, `packages`) are association lists in key order, so that the
    order `Object.keys` reports is kept. */
module Knowledge {
  import opened Wrappers

  datatype Method = Method(name: string, description: string, example: string)

  /** A documented class; either optional field may be missing. */
  datatype ClassEntry = ClassEntry(description: string, methods: Option<seq<Method>>, usage: Option<string>)

  datatype Package = Package(name: string, description: string, install: string, usage: Option<string>)

  datatype Pattern = Pattern(name: string, code: string)

  datatype QuickStart = QuickStart(title: string, content: string)

  datatype KnowledgeBase = KnowledgeBase(
    quickStart: QuickStart,
    coreClasses: seq<(string, ClassEntry)>,
    packages: seq<(string, seq<Package>)>,
    commonPatterns: seq<Pattern>,
    bestPractices: seq<string>)

  /** `Object.keys(entries)`: the keys in insertion order. */
  function Keys<V>(entries: seq<(string, V)>): seq<string>
  {
    seq(|entries|, i requires 0 <= i < |entries| => entries[i].0)
  }

  /** The well-formedness condition that each key is declared once. A JavaScript
      object literal may repeat a key (the last value wins) while `Lookup` returns
      the first; the shipped dataset's keys are unique (`DatasetKeysUnique`). */
  ghost predicate UniqueKeys<V>(entries: seq<(string, V)>)
  {
    forall i, j :: 0 <= i < j < |entries| ==> entries[i].0 != entries[j].0
  }

  /** `object[key]` restricted to the object's own keys: the value stored under
      `key`, or nothing when the key is not one of them. */
  function Lookup<V>(entries: seq<(string, V)>, key: string): (r: Option<V>)
    ensures r.Some? <==> key in Keys(entries)
    ensures r.Some? ==> (key, r.value) in entries
    decreases |entries|
  {
    if |entries| == 0 then None
    else
      assert Keys(entries) == [entries[0].0] + Keys(entries[1..]);
      if entries[0].0 == key then Some(entries[0].1)
      else Lookup(entries[1..], key)
  }

  /** With unique keys, lookup finds exactly the stored pairs. */
  lemma {:induction false} LookupFindsStoredPair<V>(entries: seq<(string, V)>, key: string, v: V)
    requires UniqueKeys(entries)
    ensures Lookup(entries, key) == Some(v) <==> (key, v) in entries
    decreases |entries|
  {
    if |entries| > 0 && entries[0].0 != key {
      LookupFindsStoredPair(entries[1..], key, v);
      assert (key, v) in entries ==> (key, v) in entries[1..] by {
        if (key, v) in entries {
          var i :| 0 <= i < |entries| && entries[i] == (key, v);
          assert i != 0;
          assert entries[1..][i - 1] == (key, v);
        }
      }
    } else if |entries| > 0 {
      if (key, v) in entries {
        var i :| 0 <= i < |entries| && entries[i] == (key, v);
        assert i == 0;
      }
    }
  }

  // The dataset the server ships with. Texts longer than a short line are
  // written as concatenations of short literals, which the verifier reads
  // character by character more readily.

  const QuickStartGuide: QuickStart := QuickStart("Quick Start Guide",
    "AutoFixture is a library for .NET "
    + "designed to minimize the 'Arrange' "
    + "phase of unit tests.\n"
    + "\n"
    + "Basic Usage:\n"
    + "1. Install via NuGet: "
    + "Install-Package AutoFixture\n"
    + "2. Create a Fixture instance\n"
    + "3. Use Create<T>() to generate test "
    + "data\n"
    + "\n"
    + "Example:\n"
    + "var fixture = new Fixture();\n"
    + "var anonymousText = "
    + "fixture.Create<string>();\n"
    + "var anonymousNumber = "
    + "fixture.Create<int>();\n"
    + "var myClass = "
    + "fixture.Create<MyClass>();")

  const FixtureClass: ClassEntry := ClassEntry(
    "The main class for creating "
    + "anonymous test data",
    Some([
      Method("Create<T>()",
        "Creates an anonymous variable of "
        + "type T",
        "var result = fixture.Create<int>(); "
        + "// Returns a random int"),
      Method("CreateMany<T>()",
        "Creates multiple anonymous "
        + "variables of type T",
        "var results = "
        + "fixture.CreateMany<string>(5); // "
        + "Returns 5 strings"),
      Method("Build<T>()",
        "Returns a builder for customizing "
        + "object creation",
        "var customer = "
        + "fixture.Build<Customer>().With(x => "
        + "x.Name, 'John').Create();"),
      Method("Freeze<T>()",
        "Creates and caches an instance for "
        + "consistent reuse",
        "var frozen = "
        + "fixture.Freeze<Customer>(); // Same "
        + "instance returned"),
      Method("Inject<T>(value)",
        "Injects a specific value to be used "
        + "for type T",
        "fixture.Inject<int>(42); // All "
        + "Create<int>() calls return 42"),
      Method("Customize(customization)",
        "Applies a customization to the "
        + "fixture",
        "fixture.Customize(new "
        + "AutoMoqCustomization());")
    ]),
    None)

  const IFixtureInterface: ClassEntry := ClassEntry(
    "Interface implemented by Fixture "
    + "for dependency injection",
    None,
    Some("Use IFixture in constructor "
      + "parameters for better testability"))

  const CorePackages: seq<Package> := [
    Package("AutoFixture",
      "Core library for generating "
      + "anonymous test data",
      "Install-Package AutoFixture",
      None),
    Package("AutoFixture.SeedExtensions",
      "Extensions for seeding data "
      + "generation",
      "Install-Package "
      + "AutoFixture.SeedExtensions",
      None),
    Package("AutoFixture.Idioms",
      "Assertions for testing code idioms",
      "Install-Package AutoFixture.Idioms",
      None)
  ]

  const MockingPackages: seq<Package> := [
    Package("AutoFixture.AutoMoq",
      "Integration with Moq mocking library",
      "Install-Package AutoFixture.AutoMoq",
      Some("fixture.Customize(new "
        + "AutoMoqCustomization());")),
    Package("AutoFixture.AutoNSubstitute",
      "Integration with NSubstitute "
      + "mocking library",
      "Install-Package "
      + "AutoFixture.AutoNSubstitute",
      Some("fixture.Customize(new "
        + "AutoNSubstituteCustomization());")),
    Package("AutoFixture.AutoFakeItEasy",
      "Integration with FakeItEasy mocking "
      + "library",
      "Install-Package "
      + "AutoFixture.AutoFakeItEasy",
      Some("fixture.Customize(new "
        + "AutoFakeItEasyCustomization());"))
  ]

  const TestingPackages: seq<Package> := [
    Package("AutoFixture.Xunit2",
      "Integration with xUnit.net v2",
      "Install-Package AutoFixture.Xunit2",
      Some("[Theory, AutoData] public void "
        + "Test(int value) { }")),
    Package("AutoFixture.NUnit3",
      "Integration with NUnit v3",
      "Install-Package AutoFixture.NUnit3",
      Some("[Test, AutoData] public void "
        + "Test(int value) { }"))
  ]

  const CommonPatterns: seq<Pattern> := [
    Pattern("Basic Object Creation",
      "var fixture = new Fixture();\n"
      + "var customer = "
      + "fixture.Create<Customer>();"),
    Pattern("Customizing Properties",
      "var customer = "
      + "fixture.Build<Customer>()\n"
      + "    .With(x => x.Name, \"John Doe\")\n"
      + "    .Without(x => x.Address)\n"
      + "    .Create();"),
    Pattern("Creating Lists",
      "var customers = "
      + "fixture.CreateMany<Customer>(10).ToL"
      + "ist();"),
    Pattern("Using AutoMoq",
      "var fixture = new Fixture()\n"
      + "    .Customize(new "
      + "AutoMoqCustomization());\n"
      + "var service = "
      + "fixture.Create<MyService>(); // "
      + "Dependencies auto-mocked"),
    Pattern("Using with xUnit",
      "[Theory, AutoData]\n"
      + "public void Test_WithAutoData(int "
      + "number, string text, Customer "
      + "customer)\n"
      + "{\n"
      + "    // Parameters are automatically "
      + "generated by AutoFixture\n"
      + "}"),
    Pattern("Freezing Instances",
      "var fixture = new Fixture();\n"
      + "var customer = "
      + "fixture.Freeze<Customer>();\n"
      + "var order = "
      + "fixture.Create<Order>(); // "
      + "Order.Customer is same instance"),
    Pattern("Injecting Specific Values",
      "fixture.Inject<ILogger>(new "
      + "ConsoleLogger());\n"
      + "var service = "
      + "fixture.Create<MyService>(); // "
      + "Uses ConsoleLogger")
  ]

  const BestPractices: seq<string> := [
    "Use AutoFixture to reduce test "
      + "maintenance by avoiding hard-coded "
      + "test data",
    "Freeze dependencies when you need "
      + "to verify interactions on the same "
      + "instance",
    "Use Build<T>() for fine-grained "
      + "control over object creation",
    "Combine AutoFixture with mocking "
      + "libraries for comprehensive test "
      + "setup",
    "Use [AutoData] attributes to "
      + "simplify test method signatures",
    "Create custom ICustomization "
      + "implementations for domain-specific "
      + "test data"
  ]

  const AutoFixtureDocs: KnowledgeBase := KnowledgeBase(
    QuickStartGuide,
    [("Fixture", FixtureClass), ("IFixture", IFixtureInterface)],
    [("core", CorePackages), ("mocking", MockingPackages), ("testing", TestingPackages)],
    CommonPatterns,
    BestPractices)

  /** The shipped dataset declares each class and each package category once. */
  lemma DatasetKeysUnique()
    ensures UniqueKeys(AutoFixtureDocs.coreClasses)
    ensures UniqueKeys(AutoFixtureDocs.packages)
    ensures Keys(AutoFixtureDocs.coreClasses) == ["Fixture", "IFixture"]
    ensures Keys(AutoFixtureDocs.packages) == ["core", "mocking", "testing"]
  {
  }
}
