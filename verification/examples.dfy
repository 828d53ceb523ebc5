/** The shipped dataset put through the tools: concrete calls and what their
    answers contain, derived from the general contracts. They mirror the
    expectations of src/__tests__/server.test.ts (which checks substrings of the
    answers) on the dataset of src/index.ts. */
module Examples {
  import opened Wrappers
  import opened Text
  import opened Seqs
  import opened Markdown
  import opened Knowledge
  import opened Protocol
  import opened Matchers
  import opened Formatters
  import opened Remote

  /** The class keys of the dataset, as the prompts list them. */
  lemma AvailableClassesExample()
    ensures AvailableClasses(AutoFixtureDocs) == "Fixture, IFixture"
  {
    DatasetKeysUnique();
    var ks: seq<string> := ["Fixture", "IFixture"];
    assert ks[1..] == ["IFixture"];
    assert Join(["IFixture"], ", ") == "IFixture";
    assert Join(ks, ", ") == "Fixture" + ", " + "IFixture";
  }

  /** A non-empty name that is not a key is answered with the not-found text. */
  lemma UnknownClassText(kb: KnowledgeBase, name: string)
    requires name != "" && name !in Keys(kb.coreClasses)
    ensures GetClassInfo(kb, Str(name)).text == ClassNotFound(kb, name)
  {
  }

  /** A class the dataset does not document is answered with the list of those
      it does. */
  lemma InvalidClassExample()
    ensures GetClassInfo(AutoFixtureDocs, Str("InvalidClass")).text
            == "Class \"" + "InvalidClass" + "\" not found. Available classes: " + "Fixture, IFixture"
  {
    DatasetKeysUnique();
    assert "InvalidClass" !in ["Fixture", "IFixture"];
    UnknownClassText(AutoFixtureDocs, "InvalidClass");
    AvailableClassesExample();
  }

  lemma LookupIFixture()
    ensures Lookup(AutoFixtureDocs.coreClasses, "IFixture") == Some(IFixtureInterface)
  {
    var cs := AutoFixtureDocs.coreClasses;
    assert cs[0].0 != "IFixture";
    assert cs[1..] == [("IFixture", IFixtureInterface)];
  }

  /** A documented class without methods but with a usage note: its page is the
      title, the description, and the usage section. */
  lemma UsageOnlyPage(kb: KnowledgeBase, name: string, c: ClassEntry)
    requires name != "" && Lookup(kb.coreClasses, name) == Some(c)
    requires c.methods.None? && c.usage.Some?
    ensures GetClassInfo(kb, Str(name)).text
            == Unlines(["# " + name, "", c.description, "", "## Usage", c.usage.value, ""])
  {
    var head := ["# " + name, "", c.description, ""];
    var usage := ["## Usage", c.usage.value, ""];
    assert GetClassInfo(kb, Str(name)).text == Unlines(head) + Unlines(usage);
    UnlinesAppend(head, usage);
    assert head + usage == ["# " + name, "", c.description, "", "## Usage", c.usage.value, ""];
  }

  /** The `IFixture` page: its title and description, no methods section, and
      its usage note. */
  lemma InterfaceClassExample()
    ensures GetClassInfo(AutoFixtureDocs, Str("IFixture")).text
            == Unlines(["# IFixture", "", IFixtureInterface.description, "",
                        "## Usage", IFixtureInterface.usage.value, ""])
  {
    LookupIFixture();
    UsageOnlyPage(AutoFixtureDocs, "IFixture", IFixtureInterface);
    assert "# " + "IFixture" == "# IFixture";
  }

  /** A search whose query the first two methods mention opens with their
      blocks. */
  lemma SearchFirstTwo(kb: KnowledgeBase, query: string)
    requires FixtureMethods(kb).Some? && |FixtureMethods(kb).value| >= 2 && query != ""
    requires MethodQuery(query)(FixtureMethods(kb).value[0]) && MethodQuery(query)(FixtureMethods(kb).value[1])
    ensures var ms := FixtureMethods(kb).value;
            StartsWith(SearchMethods(kb, Str(query)).value.text,
                       SearchHeader(query) + MethodBlock(ms[0]) + MethodBlock(ms[1]))
  {
    var ms := FixtureMethods(kb).value;
    var rest := Filter(ms[2..], MethodQuery(query));
    var found := MatchingMethods(ms, query);
    FilterKeepsFirstTwo(ms, MethodQuery(query));
    var head, b0, b1, tail := SearchHeader(query), MethodBlock(ms[0]), MethodBlock(ms[1]), MethodBlocks(rest);
    assert MethodBlocks(found) == b0 + (b1 + tail) by {
      MethodBlocksCons(ms[0], [ms[1]] + rest);
      MethodBlocksCons(ms[1], rest);
    }
    SearchText(kb, query);
    calc {
      SearchMethods(kb, Str(query)).value.text;
      head + (b0 + (b1 + tail));
      == { AppendAssoc(b0, b1, tail); }
      head + ((b0 + b1) + tail);
      == { AppendAssoc(head, b0 + b1, tail); AppendAssoc(head, b0, b1); }
      (head + b0 + b1) + tail;
    }
    StartsWithAppend(head + b0 + b1, tail);
  }

  lemma FilterKeepsFirstTwo<T>(xs: seq<T>, p: T -> bool)
    requires |xs| >= 2 && p(xs[0]) && p(xs[1])
    ensures Filter(xs, p) == [xs[0]] + ([xs[1]] + Filter(xs[2..], p))
  {
    assert xs == [xs[0]] + ([xs[1]] + xs[2..]);
    FilterCons(xs[0], [xs[1]] + xs[2..], p);
    FilterCons(xs[1], xs[2..], p);
  }

  /** A search with matches is the header followed by the matches' blocks. */
  lemma SearchText(kb: KnowledgeBase, query: string)
    requires FixtureMethods(kb).Some? && query != ""
    requires |MatchingMethods(FixtureMethods(kb).value, query)| > 0
    ensures SearchMethods(kb, Str(query)).value.text
            == SearchHeader(query) + MethodBlocks(MatchingMethods(FixtureMethods(kb).value, query))
  {
  }

  lemma MethodBlocksCons(m: Method, ms: seq<Method>)
    ensures MethodBlocks([m] + ms) == MethodBlock(m) + MethodBlocks(ms)
  {
    assert ([m] + ms)[1..] == ms;
  }

  /** A method whose name starts with "Create" matches the query "Create". */
  lemma CreateMatches(m: Method, rest: string)
    requires m.name == "Create" + rest
    ensures MethodQuery("Create")(m)
  {
    assert Lower("Create") == "create";
    LowerAppend("Create", rest);
    assert StartsWith(Lower(m.name), "create");
  }

  lemma FixtureMethodNames()
    ensures FixtureMethods(AutoFixtureDocs) == FixtureClass.methods
    ensures |FixtureClass.methods.value| == 6
    ensures FixtureClass.methods.value[0].name == "Create" + "<T>()"
    ensures FixtureClass.methods.value[1].name == "Create" + "Many<T>()"
  {
  }

  /** `Create` matches `Create<T>()` and `CreateMany<T>()`, the first two methods
      of `Fixture`, so the result page opens with their blocks. */
  lemma SearchCreateExample()
    ensures var ms := FixtureClass.methods.value;
            StartsWith(SearchMethods(AutoFixtureDocs, Str("Create")).value.text,
                       SearchHeader("Create") + MethodBlock(ms[0]) + MethodBlock(ms[1]))
  {
    FixtureMethodNames();
    var ms := FixtureClass.methods.value;
    CreateMatches(ms[0], "<T>()");
    CreateMatches(ms[1], "Many<T>()");
    SearchFirstTwo(AutoFixtureDocs, "Create");
  }

  /** With two patterns or more, the index opens with the title and the first
      pattern's bullet on a line of its own. */
  lemma PatternIndexStart(kb: KnowledgeBase)
    requires |kb.commonPatterns| >= 2
    ensures StartsWith(GetUsagePattern(kb, Missing).value.text,
                       "# Common Usage Patterns\n\n" + "Available patterns:\n" + "- " + kb.commonPatterns[0].name + "\n")
  {
    var bullets := Bullets(kb.commonPatterns);
    assert Unlines(["# Common Usage Patterns", "", "Available patterns:"])
           == "# Common Usage Patterns\n\n" + "Available patterns:\n";
    assert Join(bullets, "\n") == bullets[0] + "\n" + Join(bullets[1..], "\n");
  }

  /** With no pattern, the index opens with the title and the first pattern's
      bullet. */
  lemma PatternIndexExample()
    ensures StartsWith(GetUsagePattern(AutoFixtureDocs, Missing).value.text,
                       "# Common Usage Patterns\n\n" + "Available patterns:\n" + "- " + "Basic Object Creation" + "\n")
  {
    FirstPattern();
    PatternIndexStart(AutoFixtureDocs);
  }

  lemma FirstPattern()
    ensures |AutoFixtureDocs.commonPatterns| == 7
    ensures AutoFixtureDocs.commonPatterns[0].name == "Basic Object Creation"
  {
  }

  /** The numbered list opens with "1. " and the first practice. */
  lemma PracticesStart(kb: KnowledgeBase)
    requires |kb.bestPractices| > 0
    ensures StartsWith(GetBestPractices(kb).text,
                       "# AutoFixture Best Practices\n\n1. " + kb.bestPractices[0] + "\n")
  {
    var items := kb.bestPractices;
    assert PracticeLines(items)[0] == PracticeLine(items, 0) == "1. " + items[0];
    assert PracticesTitle == "# AutoFixture Best Practices\n\n";
  }

  /** The numbered list of best practices starts at 1. */
  lemma BestPracticesExample()
    ensures StartsWith(GetBestPractices(AutoFixtureDocs).text,
                       "# AutoFixture Best Practices\n\n1. " + BestPractices[0] + "\n")
  {
    PracticesStart(AutoFixtureDocs);
  }

  lemma CheatsheetResolves()
    ensures ResolveDocFile("cheatsheet") == Cheatsheet
  {
    assert !Includes("cheatsheet", "readme") by {
      IncludesIsSubstring("cheatsheet", "readme");
      assert 'r' in "readme" && 'r' !in "cheatsheet";
      NotSubstringMissingChar("readme", "cheatsheet", 'r');
    }
    assert Includes("cheatsheet", "cheat") by {
      assert "cheatsheet"[..5] == "cheat";
    }
  }

  lemma CheatsheetUrl()
    ensures DocUrl(Str("cheatsheet")) == BaseUrl + "CHEATSHEET.md"
  {
    assert Lower("cheatsheet") == "cheatsheet" by {
      LowerOfNoUpper("cheatsheet");
    }
    CheatsheetResolves();
  }

  /** "cheatsheet" fetches the cheat sheet and is shown under its own name. */
  lemma CheatsheetExample(get: string -> FetchOutcome)
    requires get(BaseUrl + "CHEATSHEET.md").Fetched?
    ensures var r := FetchGitHubDocs(Str("cheatsheet"), get);
            !r.isError
            && r.text == "# GitHub Documentation: " + "cheatsheet" + "\n\n" + get(BaseUrl + "CHEATSHEET.md").body
  {
    CheatsheetUrl();
  }
}
