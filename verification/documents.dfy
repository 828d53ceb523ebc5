/** The documents the handlers render, read back line by line with `Lines`: which
    headings a page holds and in what order, which optional blocks appear, and
    what the numbered and bulleted lists say.

    The facts hold for knowledge bases whose fields are single lines of prose
    (`Plain`), as every name, description and install command of the shipped
    dataset is: a field that itself began with `#` or held a line break would
    add headings or lines of its own. */
module Documents {
  import opened Wrappers
  import opened Seqs
  import opened Text
  import opened Markdown
  import opened Numerals
  import opened Knowledge
  import opened Protocol
  import opened Matchers
  import opened Formatters
  import opened Remote

  // ---- reading headings off a list of lines ----

  /** A line opened by a heading mark is kept at its own level only. */
  lemma KeepHeading(h: string, k: nat, rest: seq<string>, level: nat)
    requires StartsWith(h, HeadingMark(k))
    ensures Filter([h] + rest, HeadingOf(level)) == (if k == level then [h] else []) + Filter(rest, HeadingOf(level))
  {
    HeadingByPrefix(h, k, level);
    FilterCons(h, rest, HeadingOf(level));
  }

  /** A line that does not begin with `#` is dropped at every level. */
  lemma DropBody(s: string, rest: seq<string>, level: nat)
    requires NoHeading(s) && level > 0
    ensures Filter([s] + rest, HeadingOf(level)) == Filter(rest, HeadingOf(level))
  {
    NoHeadingIsNotHeading(s, level);
    FilterCons(s, rest, HeadingOf(level));
  }

  /** A page that opens with a title and a blank line: the title is its only
      level-1 heading, and the rest of the outline comes from the body. */
  lemma TitledOutline(title: string, body: seq<string>, level: nat)
    requires StartsWith(title, HeadingMark(1)) && level > 0
    ensures Filter([title, ""] + body, HeadingOf(level))
            == (if level == 1 then [title] else []) + Filter(body, HeadingOf(level))
  {
    assert [title, ""] + body == [title] + ([""] + body);
    KeepHeading(title, 1, [""] + body, level);
    DropBody("", body, level);
  }

  // ---- method blocks ----

  /** A method whose name is one line and whose description and example are
      single lines of prose. */
  predicate PlainMethod(m: Method)
  {
    SingleLine(m.name) && Plain(m.description) && Plain(m.example)
  }

  predicate PlainMethods(ms: seq<Method>)
  {
    forall m :: m in ms ==> PlainMethod(m)
  }

  /** The lines of the method blocks, in list order. */
  function MethodsLines(ms: seq<Method>): seq<string>
    decreases |ms|
  {
    if |ms| == 0 then [] else MethodLines(ms[0]) + MethodsLines(ms[1..])
  }

  /** The `###` heading of each method, in list order. */
  function MethodHeadings(ms: seq<Method>): seq<string>
  {
    seq(|ms|, i requires 0 <= i < |ms| => "### " + ms[i].name)
  }

  /** The method blocks are the terminated method lines. */
  lemma {:induction false} MethodBlocksAsLines(ms: seq<Method>)
    ensures MethodBlocks(ms) == Unlines(MethodsLines(ms))
    decreases |ms|
  {
    if |ms| > 0 {
      MethodBlocksAsLines(ms[1..]);
      UnlinesAppend(MethodLines(ms[0]), MethodsLines(ms[1..]));
    }
  }

  lemma {:induction false} MethodsLinesSingle(ms: seq<Method>)
    requires PlainMethods(ms)
    ensures AllSingle(MethodsLines(ms))
    decreases |ms|
  {
    if |ms| > 0 {
      assert PlainMethod(ms[0]);
      MethodsLinesSingle(ms[1..]);
      AllSingleAppend(MethodLines(ms[0]), MethodsLines(ms[1..]));
    }
  }

  /** One method block holds one heading: the method's name at level 3. */
  lemma MethodLinesOutline(m: Method, level: nat)
    requires PlainMethod(m) && level > 0
    ensures Filter(MethodLines(m), HeadingOf(level)) == if level == 3 then ["### " + m.name] else []
  {
    var h := "### " + m.name;
    var rest := MethodLines(m)[1..];
    assert MethodLines(m) == [h] + rest;
    HeadingMarks();
    StartsWithAppend("### ", m.name);
    KeepHeading(h, 3, rest, level);
    NoHeadingsInOutline(rest, level);
  }

  /** The headings of the method blocks are the methods' names, in order. */
  lemma {:induction false} MethodsOutline(ms: seq<Method>, level: nat)
    requires PlainMethods(ms) && level > 0
    ensures Filter(MethodsLines(ms), HeadingOf(level)) == if level == 3 then MethodHeadings(ms) else []
    decreases |ms|
  {
    if |ms| > 0 {
      assert PlainMethod(ms[0]);
      MethodLinesOutline(ms[0], level);
      MethodsOutline(ms[1..], level);
      FilterAppend(MethodLines(ms[0]), MethodsLines(ms[1..]), HeadingOf(level));
      assert MethodHeadings(ms) == ["### " + ms[0].name] + MethodHeadings(ms[1..]);
    }
  }

  // ---- get_quick_start ----

  /** The quick-start page reads back as the title line, a blank line and the
      lines of the guide, which follows unchanged. */
  lemma QuickStartPage(kb: KnowledgeBase)
    requires SingleLine(kb.quickStart.title)
    ensures Lines(GetQuickStart(kb).text) == ["# " + kb.quickStart.title, ""] + Lines(kb.quickStart.content)
  {
    var title := "# " + kb.quickStart.title;
    assert SingleLine(title) by {
      assert title == "# " + kb.quickStart.title;
    }
    HeadedLines(title, kb.quickStart.content);
  }

  // ---- search_methods ----

  function SearchTitle(query: string): string
  {
    "# Search Results for \"" + query + "\""
  }

  lemma SearchTitleIsHeading(query: string)
    ensures StartsWith(SearchTitle(query), HeadingMark(1))
  {
    HeadingMarks();
    assert "# Search Results for \"" == "# " + "Search Results for \"";
    assert SearchTitle(query) == "# " + ("Search Results for \"" + query + "\"");
    StartsWithAppend("# ", "Search Results for \"" + query + "\"");
  }

  /** The lines of a search result page. */
  function SearchLines(query: string, found: seq<Method>): seq<string>
  {
    [SearchTitle(query), "", "## Fixture", ""] + MethodsLines(found)
  }

  lemma SearchTextLines(query: string, found: seq<Method>)
    requires SingleLine(query) && PlainMethods(found)
    ensures Lines(SearchHeader(query) + MethodBlocks(found)) == SearchLines(query, found)
  {
    var head := [SearchTitle(query), "", "## Fixture", ""];
    MethodBlocksAsLines(found);
    UnlinesAppend(head, MethodsLines(found));
    MethodsLinesSingle(found);
    AllSingleAppend(head, MethodsLines(found));
    LinesUnlines(head + MethodsLines(found));
  }

  lemma SearchLinesOutline(query: string, found: seq<Method>, level: nat)
    requires PlainMethods(found) && level > 0
    ensures Filter(SearchLines(query, found), HeadingOf(level))
            == if level == 1 then [SearchTitle(query)]
               else if level == 2 then ["## Fixture"]
               else if level == 3 then MethodHeadings(found)
               else []
  {
    var ml := MethodsLines(found);
    SearchTitleIsHeading(query);
    HeadingMarks();
    assert SearchLines(query, found) == [SearchTitle(query)] + ([""] + (["## Fixture"] + ([""] + ml)));
    KeepHeading(SearchTitle(query), 1, [""] + (["## Fixture"] + ([""] + ml)), level);
    DropBody("", ["## Fixture"] + ([""] + ml), level);
    KeepHeading("## Fixture", 2, [""] + ml, level);
    DropBody("", ml, level);
    MethodsOutline(found, level);
  }

  /** The result page of a successful search, read back line by line: the
      title, the `## Fixture` heading, then each matching method's heading,
      description and C# example, in the order the class lists them. Its only
      level-2 heading is the class, and its level-3 headings are the matches'
      names in order. */
  lemma SearchPage(kb: KnowledgeBase, query: string, level: nat)
    requires FixtureMethods(kb).Some? && PlainMethods(FixtureMethods(kb).value)
    requires SingleLine(query) && |query| > 0 && level > 0
    requires |MatchingMethods(FixtureMethods(kb).value, query)| > 0
    ensures var text := SearchMethods(kb, Str(query)).value.text;
            var found := MatchingMethods(FixtureMethods(kb).value, query);
            && Lines(text) == SearchLines(query, found)
            && Outline(text, level) == (if level == 1 then [SearchTitle(query)]
                                        else if level == 2 then ["## Fixture"]
                                        else if level == 3 then MethodHeadings(found)
                                        else [])
  {
    var found := MatchingMethods(FixtureMethods(kb).value, query);
    assert PlainMethods(found);
    assert SearchMethods(kb, Str(query)).value.text == SearchHeader(query) + MethodBlocks(found);
    SearchTextLines(query, found);
    SearchLinesOutline(query, found, level);
  }

  // ---- get_class_info ----

  /** A class whose name is one line and whose description, methods and usage
      are prose lines. */
  predicate PlainClass(name: string, c: ClassEntry)
  {
    && SingleLine(name)
    && Plain(c.description)
    && (c.methods.Some? ==> PlainMethods(c.methods.value))
    && (c.usage.Some? ==> Plain(c.usage.value))
  }

  function MethodsPart(c: ClassEntry): seq<string>
  {
    match c.methods
    case None => []
    case Some(ms) => ["## Methods", ""] + MethodsLines(ms)
  }

  function UsagePart(c: ClassEntry): seq<string>
  {
    match c.usage
    case None => []
    case Some(u) => ["## Usage", u, ""]
  }

  /** The lines of a class page. */
  function ClassLines(name: string, c: ClassEntry): seq<string>
  {
    ["# " + name, "", c.description, ""] + MethodsPart(c) + UsagePart(c)
  }

  /** The section headings a class page should have: one per optional field
      the entry has, methods first. */
  function Sections(c: ClassEntry): seq<string>
  {
    (if c.methods.Some? then ["## Methods"] else []) + (if c.usage.Some? then ["## Usage"] else [])
  }

  lemma ClassTextLines(name: string, c: ClassEntry)
    requires PlainClass(name, c)
    ensures Lines(ClassPage(name, c)) == ClassLines(name, c)
  {
    var head := ["# " + name, "", c.description, ""];
    assert AllSingle(head);
    assert MethodsSection(c) == Unlines(MethodsPart(c)) && AllSingle(MethodsPart(c)) by {
      if c.methods.Some? {
        var ms := c.methods.value;
        MethodBlocksAsLines(ms);
        UnlinesAppend(["## Methods", ""], MethodsLines(ms));
        MethodsLinesSingle(ms);
        AllSingleAppend(["## Methods", ""], MethodsLines(ms));
      }
    }
    assert UsageSection(c) == Unlines(UsagePart(c)) && AllSingle(UsagePart(c));
    UnlinesAppend(head, MethodsPart(c));
    UnlinesAppend(head + MethodsPart(c), UsagePart(c));
    AllSingleAppend(head, MethodsPart(c));
    AllSingleAppend(head + MethodsPart(c), UsagePart(c));
    LinesUnlines(ClassLines(name, c));
  }

  lemma MethodsPartOutline(c: ClassEntry, level: nat)
    requires c.methods.Some? ==> PlainMethods(c.methods.value)
    requires level > 0
    ensures Filter(MethodsPart(c), HeadingOf(level))
            == if c.methods.None? then []
               else if level == 2 then ["## Methods"]
               else if level == 3 then MethodHeadings(c.methods.value)
               else []
  {
    if c.methods.Some? {
      var ml := MethodsLines(c.methods.value);
      HeadingMarks();
      assert MethodsPart(c) == ["## Methods"] + ([""] + ml);
      KeepHeading("## Methods", 2, [""] + ml, level);
      DropBody("", ml, level);
      MethodsOutline(c.methods.value, level);
    }
  }

  lemma UsagePartOutline(c: ClassEntry, level: nat)
    requires c.usage.Some? ==> Plain(c.usage.value)
    requires level > 0
    ensures Filter(UsagePart(c), HeadingOf(level))
            == if c.usage.Some? && level == 2 then ["## Usage"] else []
  {
    if c.usage.Some? {
      var u := c.usage.value;
      HeadingMarks();
      assert UsagePart(c) == ["## Usage"] + ([u] + [""]);
      KeepHeading("## Usage", 2, [u] + [""], level);
      DropBody(u, [""], level);
      NoHeadingsInOutline([""], level);
    }
  }

  lemma ClassLinesOutline(name: string, c: ClassEntry, level: nat)
    requires PlainClass(name, c) && level > 0
    ensures Filter(ClassLines(name, c), HeadingOf(level))
            == if level == 1 then ["# " + name]
               else if level == 2 then Sections(c)
               else if level == 3 && c.methods.Some? then MethodHeadings(c.methods.value)
               else []
  {
    var p := HeadingOf(level);
    var head := ["# " + name, "", c.description, ""];
    assert Filter(head, p) == if level == 1 then ["# " + name] else [] by {
      HeadingMarks();
      StartsWithAppend("# ", name);
      assert head == ["# " + name] + ([""] + ([c.description] + [""]));
      KeepHeading("# " + name, 1, [""] + ([c.description] + [""]), level);
      NoHeadingsInOutline([""] + ([c.description] + [""]), level);
    }
    assert Filter(ClassLines(name, c), p)
           == Filter(head, p) + Filter(MethodsPart(c), p) + Filter(UsagePart(c), p) by {
      FilterAppend(head, MethodsPart(c), p);
      FilterAppend(head + MethodsPart(c), UsagePart(c), p);
    }
    MethodsPartOutline(c, level);
    UsagePartOutline(c, level);
    if level == 1 {
      assert Filter(MethodsPart(c), p) == [] && Filter(UsagePart(c), p) == [];
    } else if level == 2 {
      assert Filter(head, p) == [];
    } else {
      assert Filter(head, p) == [] && Filter(UsagePart(c), p) == [];
    }
  }

  /** The page of a documented class, read back line by line: its one title is
      the class name, its `##` headings are exactly the sections for the fields
      the entry has, and its `###` headings are its methods' names, in order. */
  lemma ClassInfoPage(kb: KnowledgeBase, name: string, level: nat)
    requires Lookup(kb.coreClasses, name).Some? && |name| > 0 && level > 0
    requires PlainClass(name, Lookup(kb.coreClasses, name).value)
    ensures var c := Lookup(kb.coreClasses, name).value;
            var text := GetClassInfo(kb, Str(name)).text;
            && Lines(text) == ClassLines(name, c)
            && Outline(text, level) == (if level == 1 then ["# " + name]
                                        else if level == 2 then Sections(c)
                                        else if level == 3 && c.methods.Some? then MethodHeadings(c.methods.value)
                                        else [])
  {
    var c := Lookup(kb.coreClasses, name).value;
    assert GetClassInfo(kb, Str(name)).text == ClassPage(name, c);
    ClassTextLines(name, c);
    ClassLinesOutline(name, c, level);
  }

  /** The section list names "## Methods" iff there are methods, and "## Usage"
      iff there is a usage note. */
  lemma SectionsMembership(c: ClassEntry)
    ensures "## Methods" in Sections(c) <==> c.methods.Some?
    ensures "## Usage" in Sections(c) <==> c.usage.Some?
  {
    assert "## Methods"[3] != "## Usage"[3];
    var m: seq<string> := if c.methods.Some? then ["## Methods"] else [];
    var u: seq<string> := if c.usage.Some? then ["## Usage"] else [];
    assert Sections(c) == m + u;
  }

  /** A class page has a "## Methods" heading iff the entry lists methods, and a
      "## Usage" heading iff it has a usage note. */
  lemma ClassInfoSections(kb: KnowledgeBase, name: string)
    requires Lookup(kb.coreClasses, name).Some? && |name| > 0
    requires PlainClass(name, Lookup(kb.coreClasses, name).value)
    ensures var c := Lookup(kb.coreClasses, name).value;
            var headings := Outline(GetClassInfo(kb, Str(name)).text, 2);
            && ("## Methods" in headings <==> c.methods.Some?)
            && ("## Usage" in headings <==> c.usage.Some?)
  {
    ClassInfoPage(kb, name, 2);
    SectionsMembership(Lookup(kb.coreClasses, name).value);
  }

  // ---- get_packages ----

  /** A package whose name is one line and whose description, install command
      and usage are prose lines. */
  predicate PlainPackage(p: Package)
  {
    && SingleLine(p.name)
    && Plain(p.description)
    && Plain(p.install)
    && (p.usage.Some? ==> Plain(p.usage.value))
  }

  /** Every category key is one line and every package in it is plain. */
  predicate PlainCatalogue(kb: KnowledgeBase)
  {
    forall e :: e in kb.packages ==> SingleLine(e.0) && (forall p :: p in e.1 ==> PlainPackage(p))
  }

  /** The lines of the package blocks, in list order. */
  function PackagesLines(ps: seq<Package>): seq<string>
    decreases |ps|
  {
    if |ps| == 0 then [] else PackageLines(ps[0]) + PackagesLines(ps[1..])
  }

  /** The lines of one category's section. */
  function CategoryLines(kb: KnowledgeBase, c: string): seq<string>
  {
    match Lookup(kb.packages, c)
    case None => []
    case Some(ps) => ["## " + CategoryTitle(c), ""] + PackagesLines(ps)
  }

  function SectionsLines(kb: KnowledgeBase, categories: seq<string>): seq<string>
    decreases |categories|
  {
    if |categories| == 0 then []
    else CategoryLines(kb, categories[0]) + SectionsLines(kb, categories[1..])
  }

  /** The test "the knowledge base has packages under this category". */
  function HasCategory(kb: KnowledgeBase): string -> bool
  {
    c => c in Keys(kb.packages)
  }

  /** The `##` heading of each category, in order. */
  function CategoryHeadings(categories: seq<string>): seq<string>
  {
    seq(|categories|, i requires 0 <= i < |categories| => "## " + CategoryTitle(categories[i]))
  }

  lemma {:induction false} PackageBlocksAsLines(ps: seq<Package>)
    ensures PackageBlocks(ps) == Unlines(PackagesLines(ps))
    decreases |ps|
  {
    if |ps| > 0 {
      PackageBlocksAsLines(ps[1..]);
      UnlinesAppend(PackageLines(ps[0]), PackagesLines(ps[1..]));
    }
  }

  lemma {:induction false} SectionsAsLines(kb: KnowledgeBase, categories: seq<string>)
    ensures CategorySections(kb, categories) == Unlines(SectionsLines(kb, categories))
    decreases |categories|
  {
    if |categories| > 0 {
      var c := categories[0];
      SectionsAsLines(kb, categories[1..]);
      UnlinesAppend(CategoryLines(kb, c), SectionsLines(kb, categories[1..]));
      if Lookup(kb.packages, c).Some? {
        var ps := Lookup(kb.packages, c).value;
        PackageBlocksAsLines(ps);
        UnlinesAppend(["## " + CategoryTitle(c), ""], PackagesLines(ps));
      }
    }
  }

  lemma PackageLinesSingle(p: Package)
    requires PlainPackage(p)
    ensures AllSingle(PackageLines(p))
  {
  }

  lemma {:induction false} PackagesLinesSingle(ps: seq<Package>)
    requires forall p :: p in ps ==> PlainPackage(p)
    ensures AllSingle(PackagesLines(ps))
    decreases |ps|
  {
    if |ps| > 0 {
      PackageLinesSingle(ps[0]);
      PackagesLinesSingle(ps[1..]);
      AllSingleAppend(PackageLines(ps[0]), PackagesLines(ps[1..]));
    }
  }

  /** Capitalising does not introduce a line break. */
  lemma CategoryTitleSingle(c: string)
    requires SingleLine(c)
    ensures SingleLine(CategoryTitle(c))
  {
    if |c| > 0 {
      assert Capitalize(c) == [UpperChar(c[0])] + c[1..];
      assert UpperChar(c[0]) != '\n';
    }
  }

  lemma {:induction false} SectionsLinesSingle(kb: KnowledgeBase, categories: seq<string>)
    requires PlainCatalogue(kb)
    ensures AllSingle(SectionsLines(kb, categories))
    decreases |categories|
  {
    if |categories| > 0 {
      var c := categories[0];
      SectionsLinesSingle(kb, categories[1..]);
      if Lookup(kb.packages, c).Some? {
        var ps := Lookup(kb.packages, c).value;
        assert (c, ps) in kb.packages;
        CategoryTitleSingle(c);
        PackagesLinesSingle(ps);
        AllSingleAppend(["## " + CategoryTitle(c), ""], PackagesLines(ps));
      }
      AllSingleAppend(CategoryLines(kb, c), SectionsLines(kb, categories[1..]));
    }
  }

  /** A package block holds no level-2 heading. */
  lemma PackageLinesNoSection(p: Package)
    requires PlainPackage(p)
    ensures Filter(PackageLines(p), HeadingOf(2)) == []
  {
    var h := "### " + p.name;
    var rest := PackageLines(p)[1..];
    assert PackageLines(p) == [h] + rest;
    HeadingMarks();
    StartsWithAppend("### ", p.name);
    KeepHeading(h, 3, rest, 2);
    NoHeadingsInOutline(rest, 2);
  }

  lemma {:induction false} PackagesLinesNoSection(ps: seq<Package>)
    requires forall p :: p in ps ==> PlainPackage(p)
    ensures Filter(PackagesLines(ps), HeadingOf(2)) == []
    decreases |ps|
  {
    if |ps| > 0 {
      PackageLinesNoSection(ps[0]);
      PackagesLinesNoSection(ps[1..]);
      FilterAppend(PackageLines(ps[0]), PackagesLines(ps[1..]), HeadingOf(2));
    }
  }

  /** A category's section holds one level-2 heading, its title, if the
      category exists, and nothing otherwise. */
  lemma CategoryOutline(kb: KnowledgeBase, c: string)
    requires PlainCatalogue(kb)
    ensures Filter(CategoryLines(kb, c), HeadingOf(2))
            == if HasCategory(kb)(c) then ["## " + CategoryTitle(c)] else []
  {
    if Lookup(kb.packages, c).Some? {
      var ps := Lookup(kb.packages, c).value;
      var h := "## " + CategoryTitle(c);
      var pl := PackagesLines(ps);
      assert CategoryLines(kb, c) == [h] + ([""] + pl);
      assert Filter([h] + ([""] + pl), HeadingOf(2)) == [h] + Filter([""] + pl, HeadingOf(2)) by {
        HeadingMarks();
        StartsWithAppend("## ", CategoryTitle(c));
        KeepHeading(h, 2, [""] + pl, 2);
      }
      assert Filter([""] + pl, HeadingOf(2)) == [] by {
        DropBody("", pl, 2);
        assert (c, ps) in kb.packages;
        PackagesLinesNoSection(ps);
      }
    }
  }

  lemma CategoryHeadingsCons(c: string, cs: seq<string>)
    ensures CategoryHeadings([c] + cs) == ["## " + CategoryTitle(c)] + CategoryHeadings(cs)
  {
  }

  /** The section headings of the rendered categories are the title-cased
      names of the requested categories the knowledge base has, in the
      requested order. */
  lemma {:induction false} SectionsOutline(kb: KnowledgeBase, categories: seq<string>)
    requires PlainCatalogue(kb)
    ensures Filter(SectionsLines(kb, categories), HeadingOf(2))
            == CategoryHeadings(Filter(categories, HasCategory(kb)))
    decreases |categories|
  {
    if |categories| > 0 {
      var c := categories[0];
      var rest := categories[1..];
      SectionsOutline(kb, rest);
      FilterAppend(CategoryLines(kb, c), SectionsLines(kb, rest), HeadingOf(2));
      CategoryOutline(kb, c);
      assert categories == [c] + rest;
      FilterCons(c, rest, HasCategory(kb));
      CategoryHeadingsCons(c, Filter(rest, HasCategory(kb)));
    }
  }

  /** The package page read back line by line: the title, then the sections. */
  lemma PackagesPageLines(kb: KnowledgeBase, categories: seq<string>)
    requires PlainCatalogue(kb)
    ensures Lines(PackagesPage(kb, categories)) == ["# AutoFixture Packages", ""] + SectionsLines(kb, categories)
  {
    var t: seq<string> := ["# AutoFixture Packages", ""];
    var sl := SectionsLines(kb, categories);
    assert PackagesPage(kb, categories) == Unlines(t) + Unlines(sl) by {
      SectionsAsLines(kb, categories);
    }
    assert AllSingle(t);
    SectionsLinesSingle(kb, categories);
    LinesOfPair(t, sl);
  }

  /** The categories a `get_packages` call asks for: all three when the
      argument is missing or empty, otherwise the one named. */
  function Requested(category: Arg): seq<string>
    requires !category.NonString?
  {
    if !Truthy(category) then AllCategories else ResolveCategories(category.s)
  }

  /** The `##` headings of a package page are the title-cased names of the
      requested categories that exist, in the requested order. */
  lemma PackagesOutline(kb: KnowledgeBase, category: Arg)
    requires PlainCatalogue(kb) && !category.NonString?
    ensures Outline(GetPackages(kb, category).value.text, 2)
            == CategoryHeadings(Filter(Requested(category), HasCategory(kb)))
  {
    var cats := Requested(category);
    var text := GetPackages(kb, category).value.text;
    assert text == PackagesPage(kb, cats);
    assert Lines(text) == ["# AutoFixture Packages", ""] + SectionsLines(kb, cats) by {
      PackagesPageLines(kb, cats);
    }
    assert StartsWith("# AutoFixture Packages", HeadingMark(1)) by {
      HeadingMarks();
      StartsWithAppend("# ", "AutoFixture Packages");
    }
    TitledOutline("# AutoFixture Packages", SectionsLines(kb, cats), 2);
    SectionsOutline(kb, cats);
  }

  /** "all", or no category at all, renders the three categories in the order
      core, mocking, testing. */
  lemma AllPackagesOrder(kb: KnowledgeBase, category: Arg)
    requires PlainCatalogue(kb)
    requires category == Missing || category == Str("") || category == Str("all")
    requires "core" in Keys(kb.packages) && "mocking" in Keys(kb.packages) && "testing" in Keys(kb.packages)
    ensures Outline(GetPackages(kb, category).value.text, 2)
            == ["## Core Packages", "## Mocking Packages", "## Testing Packages"]
  {
    PackagesOutline(kb, category);
    assert Requested(category) == AllCategories;
    FilterAll(AllCategories, HasCategory(kb));
    CategoryTitles();
  }

  lemma CategoryTitles()
    ensures CategoryHeadings(AllCategories) == ["## Core Packages", "## Mocking Packages", "## Testing Packages"]
  {
    CoreTitle();
    MockingTitle();
    TestingTitle();
    assert CategoryHeadings(AllCategories)
        == ["## " + CategoryTitle("core"), "## " + CategoryTitle("mocking"), "## " + CategoryTitle("testing")];
  }

  lemma CoreTitle()
    ensures "## " + CategoryTitle("core") == "## Core Packages"
  {
    assert "core" == ['c'] + "ore";
    TitleOf('c', "ore", 'C', "## Core Packages");
  }

  lemma MockingTitle()
    ensures "## " + CategoryTitle("mocking") == "## Mocking Packages"
  {
    assert "mocking" == ['m'] + "ocking";
    TitleOf('m', "ocking", 'M', "## Mocking Packages");
  }

  lemma TestingTitle()
    ensures "## " + CategoryTitle("testing") == "## Testing Packages"
  {
    assert "testing" == ['t'] + "esting";
    TitleOf('t', "esting", 'T', "## Testing Packages");
  }

  /** A category heading is the category key with its first letter
      upper-cased, followed by " Packages"; the rest of the key is kept as is. */
  lemma CategoryTitleCase(c: string)
    requires |c| > 0
    ensures |CategoryTitle(c)| == |c| + |" Packages"|
    ensures CategoryTitle(c)[0] == UpperChar(c[0])
    ensures IsLowerAscii(c[0]) ==> CategoryTitle(c)[0] as int == c[0] as int - 32
    ensures CategoryTitle(c)[1..|c|] == c[1..]
    ensures EndsWith(CategoryTitle(c), " Packages")
  {
    var t := CategoryTitle(c);
    assert t == [UpperChar(c[0])] + c[1..] + " Packages";
    assert t[|c|..] == " Packages";
  }

  /** The heading of a category whose name starts with a lower-case letter. */
  lemma TitleOf(first: char, rest: string, upper: char, heading: string)
    requires 'a' <= first <= 'z' && upper as int == first as int - 32
    requires heading == "## " + [upper] + rest + " Packages"
    ensures "## " + CategoryTitle([first] + rest) == heading
  {
    assert Capitalize([first] + rest) == [upper] + rest;
  }

  /** A category the knowledge base does not have renders nothing but the
      page title. */
  lemma UnknownCategoryPage(kb: KnowledgeBase, category: string)
    requires category != "" && category != "all" && category !in Keys(kb.packages)
    ensures GetPackages(kb, Str(category)) == Ok(TextResponse("# AutoFixture Packages\n\n"))
  {
    assert Lookup(kb.packages, category).None?;
    assert CategorySections(kb, [category]) == CategorySection(kb, category) + CategorySections(kb, []);
    assert Unlines([""]) == "\n" by {
      assert Unlines([""]) == "" + "\n" + Unlines([]);
    }
    assert PackagesTitle == "# AutoFixture Packages" + "\n" + Unlines([""]);
    assert PackagesTitle == "# AutoFixture Packages\n\n";
    assert ResolveCategories(category) == [category];
    assert PackagesPage(kb, [category]) == PackagesTitle;
  }

  lemma PlainIsNotUsageLabel(s: string)
    requires Plain(s)
    ensures s != "**Usage:**"
  {
    assert "**Usage:**"[0] == '*';
  }

  /** A package block has a usage example iff the package has a usage note, and
      the example is that note inside a C# fence. */
  lemma PackageUsage(p: Package)
    requires PlainPackage(p)
    ensures "**Usage:**" in Lines(PackageBlock(p)) <==> p.usage.Some?
    ensures p.usage.Some? ==>
      |Lines(PackageBlock(p))| == 13 &&
      Lines(PackageBlock(p))[8..] == ["**Usage:**", "```csharp", p.usage.value, "```", ""]
  {
    PackageLinesSingle(p);
    LinesUnlines(PackageLines(p));
    var ls := PackageLines(p);
    if p.usage.None? {
      assert "**Usage:**" != "### " + p.name by {
        assert ("### " + p.name)[0] == '#';
      }
      PlainIsNotUsageLabel(p.description);
      PlainIsNotUsageLabel(p.install);
      assert "**Usage:**" != "**Installation:**" by {
        assert |"**Usage:**"| != |"**Installation:**"|;
      }
      assert "**Usage:**" != "```";
      assert "**Usage:**" != "";
      assert ls == ["### " + p.name, p.description, "", "**Installation:**", "```", p.install, "```", ""];
    } else {
      assert ls[8] == "**Usage:**";
    }
  }

  // ---- get_best_practices ----

  /** The number a numbered-list line opens with. */
  function ItemNumber(line: string): nat
  {
    ReadDecimal(LeadingDigits(line))
  }

  /** What a numbered-list line says after its number and the ". " that
      follows it. */
  function ItemText(line: string): string
  {
    var n := |LeadingDigits(line)|;
    if n + 2 <= |line| then line[n + 2..] else ""
  }

  /** A rendered practice line reads back as its number and its practice. */
  lemma PracticeLineReads(items: seq<string>, i: nat)
    requires i < |items|
    ensures ItemNumber(PracticeLine(items, i)) == i + 1
    ensures ItemText(PracticeLine(items, i)) == items[i]
  {
    var d := Decimal(i + 1);
    assert PracticeLine(items, i) == d + (". " + items[i]);
    LeadingDigitsOf(d, ". " + items[i]);
    ReadDecimalOfDecimal(i + 1);
  }

  lemma PracticeLinesSingle(items: seq<string>)
    requires forall i :: 0 <= i < |items| ==> SingleLine(items[i])
    ensures AllSingle(PracticeLines(items))
  {
    var body := PracticeLines(items);
    forall i | 0 <= i < |body|
      ensures SingleLine(body[i])
    {
      assert body[i] == Decimal(i + 1) + ". " + items[i];
      assert '\n' !in Decimal(i + 1) by {
        assert !IsDigit('\n');
      }
    }
  }

  lemma PracticesPageLines(kb: KnowledgeBase)
    requires forall i :: 0 <= i < |kb.bestPractices| ==> SingleLine(kb.bestPractices[i])
    ensures Lines(GetBestPractices(kb).text) == ["# AutoFixture Best Practices", ""] + PracticeLines(kb.bestPractices)
  {
    var title := ["# AutoFixture Best Practices", ""];
    var body := PracticeLines(kb.bestPractices);
    PracticeLinesSingle(kb.bestPractices);
    UnlinesAppend(title, body);
    AllSingleAppend(title, body);
    LinesUnlines(title + body);
  }

  /** The best-practice page read back line by line: the title and a blank
      line, then one line per practice, in order, numbered from 1. */
  lemma BestPracticesList(kb: KnowledgeBase)
    requires forall i :: 0 <= i < |kb.bestPractices| ==> SingleLine(kb.bestPractices[i])
    ensures var ls := Lines(GetBestPractices(kb).text);
            var items := kb.bestPractices;
            && |ls| == |items| + 2
            && ls[..2] == ["# AutoFixture Best Practices", ""]
            && forall i :: 0 <= i < |items| ==> ItemNumber(ls[i + 2]) == i + 1 && ItemText(ls[i + 2]) == items[i]
  {
    var items := kb.bestPractices;
    var title := ["# AutoFixture Best Practices", ""];
    var body := PracticeLines(items);
    PracticesPageLines(kb);
    var ls := Lines(GetBestPractices(kb).text);
    assert ls == title + body;
    assert ls[..2] == title;
    forall i | 0 <= i < |items|
      ensures ItemNumber(ls[i + 2]) == i + 1 && ItemText(ls[i + 2]) == items[i]
    {
      assert ls[i + 2] == body[i] == PracticeLine(items, i);
      PracticeLineReads(items, i);
    }
  }

  // ---- get_usage_pattern ----

  lemma PatternIndexLines(kb: KnowledgeBase)
    requires forall p :: p in kb.commonPatterns ==> SingleLine(p.name)
    ensures Lines(PatternIndex(kb)) == ["# Common Usage Patterns", "", "Available patterns:"] + Bullets(kb.commonPatterns)
  {
    var ps := kb.commonPatterns;
    var bullets := Bullets(ps);
    forall i | 0 <= i < |bullets|
      ensures SingleLine(bullets[i]) && |bullets[i]| > 0
    {
      assert ps[i] in ps;
    }
    LinesOfJoin(bullets);
    LinesOfUnlines(["# Common Usage Patterns", "", "Available patterns:"], Join(bullets, "\n"));
  }

  /** The pattern list read back line by line: the title, a blank line and
      "Available patterns:", then "- " and each pattern's name, one per line,
      in dataset order. */
  lemma PatternIndexList(kb: KnowledgeBase)
    requires forall p :: p in kb.commonPatterns ==> SingleLine(p.name)
    ensures var ls := Lines(GetUsagePattern(kb, Missing).value.text);
            var ps := kb.commonPatterns;
            && |ls| == |ps| + 3
            && ls[..3] == ["# Common Usage Patterns", "", "Available patterns:"]
            && forall i :: 0 <= i < |ps| ==> ls[i + 3] == "- " + ps[i].name
  {
    PatternIndexLines(kb);
  }

  /** A pattern whose name is one line and whose code does not end in a line
      break and has no line beginning with `#`. The code may span lines. */
  predicate PlainPattern(p: Pattern)
  {
    && SingleLine(p.name)
    && |p.code| > 0 && p.code[|p.code| - 1] != '\n'
    && forall i :: 0 <= i < |Lines(p.code)| ==> NoHeading(Lines(p.code)[i])
  }

  /** The lines of one pattern's block: heading, blank line, the fenced code. */
  function PatternLines(p: Pattern): seq<string>
  {
    ["## " + p.name, "", "```csharp"] + Lines(p.code) + ["```", ""]
  }

  function PatternsLines(ps: seq<Pattern>): seq<string>
    decreases |ps|
  {
    if |ps| == 0 then [] else PatternLines(ps[0]) + PatternsLines(ps[1..])
  }

  /** The `##` heading of each pattern, in order. */
  function PatternHeadings(ps: seq<Pattern>): seq<string>
  {
    seq(|ps|, i requires 0 <= i < |ps| => "## " + ps[i].name)
  }

  lemma PatternBlockLines(p: Pattern, rest: string)
    requires PlainPattern(p)
    ensures Lines(PatternBlock(p) + rest) == PatternLines(p) + Lines(rest)
  {
    var a := ["## " + p.name, "", "```csharp"];
    var b := ["```", ""];
    var c, x := p.code, Unlines(b) + rest;
    assert PatternBlock(p) + rest == Unlines(a) + (c + "\n" + x) by {
      assert ["## " + p.name, "", "```csharp", c, "```", ""] == a + ([c] + b);
      UnlinesAppend(a, [c] + b);
      assert ([c] + b)[1..] == b;
      assert Unlines([c] + b) == c + "\n" + Unlines(b);
    }
    assert Lines(Unlines(a) + (c + "\n" + x)) == a + Lines(c + "\n" + x) by {
      assert AllSingle(a);
      LinesOfUnlines(a, c + "\n" + x);
    }
    assert Lines(c + "\n" + x) == Lines(c) + Lines(x) by {
      LinesOfText(c, x);
    }
    assert Lines(x) == b + Lines(rest) by {
      assert AllSingle(b);
      LinesOfUnlines(b, rest);
    }
    assert a + (Lines(c) + (b + Lines(rest))) == PatternLines(p) + Lines(rest);
  }

  lemma {:induction false} PatternBlocksLines(ps: seq<Pattern>)
    requires forall p :: p in ps ==> PlainPattern(p)
    ensures Lines(PatternBlocks(ps)) == PatternsLines(ps)
    decreases |ps|
  {
    if |ps| > 0 {
      PatternBlocksLines(ps[1..]);
      PatternBlockLines(ps[0], PatternBlocks(ps[1..]));
    }
  }

  lemma PatternLinesOutline(p: Pattern, level: nat)
    requires PlainPattern(p) && level > 0
    ensures Filter(PatternLines(p), HeadingOf(level)) == if level == 2 then ["## " + p.name] else []
  {
    var h := "## " + p.name;
    var rest := ["", "```csharp"] + Lines(p.code) + ["```", ""];
    assert PatternLines(p) == [h] + rest;
    assert forall i :: 0 <= i < |rest| ==> NoHeading(rest[i]) by {
      forall i | 0 <= i < |rest|
        ensures NoHeading(rest[i])
      {
        if 2 <= i < 2 + |Lines(p.code)| {
          assert rest[i] == Lines(p.code)[i - 2];
        }
      }
    }
    HeadingMarks();
    StartsWithAppend("## ", p.name);
    KeepHeading(h, 2, rest, level);
    NoHeadingsInOutline(rest, level);
  }

  lemma {:induction false} PatternsOutline(ps: seq<Pattern>, level: nat)
    requires forall p :: p in ps ==> PlainPattern(p)
    requires level > 0
    ensures Filter(PatternsLines(ps), HeadingOf(level)) == if level == 2 then PatternHeadings(ps) else []
    decreases |ps|
  {
    if |ps| > 0 {
      PatternLinesOutline(ps[0], level);
      PatternsOutline(ps[1..], level);
      FilterAppend(PatternLines(ps[0]), PatternsLines(ps[1..]), HeadingOf(level));
      assert PatternHeadings(ps) == ["## " + ps[0].name] + PatternHeadings(ps[1..]);
    }
  }

  function PatternTitle(pattern: string): string
  {
    "# Usage Patterns for \"" + pattern + "\""
  }

  lemma PatternTitleIsHeading(pattern: string)
    ensures StartsWith(PatternTitle(pattern), HeadingMark(1))
  {
    HeadingMarks();
    assert "# Usage Patterns for \"" == "# " + "Usage Patterns for \"";
    assert PatternTitle(pattern) == "# " + ("Usage Patterns for \"" + pattern + "\"");
    StartsWithAppend("# ", "Usage Patterns for \"" + pattern + "\"");
  }

  lemma PatternTextLines(pattern: string, found: seq<Pattern>)
    requires SingleLine(pattern)
    requires forall p :: p in found ==> PlainPattern(p)
    ensures Lines(PatternHeader(pattern) + PatternBlocks(found)) == [PatternTitle(pattern), ""] + PatternsLines(found)
  {
    assert AllSingle([PatternTitle(pattern), ""]);
    LinesOfUnlines([PatternTitle(pattern), ""], PatternBlocks(found));
    PatternBlocksLines(found);
  }

  /** The result page of a pattern query, read back line by line: the title, a
      blank line, then each matching pattern's `##` heading and fenced code, in
      dataset order. Its only title is the query's, and its `##` headings are
      the matches' names, in order. */
  lemma PatternResults(kb: KnowledgeBase, pattern: string, level: nat)
    requires forall p :: p in kb.commonPatterns ==> PlainPattern(p)
    requires SingleLine(pattern) && |pattern| > 0 && level > 0
    requires |MatchingPatterns(kb.commonPatterns, pattern)| > 0
    ensures var text := GetUsagePattern(kb, Str(pattern)).value.text;
            var found := MatchingPatterns(kb.commonPatterns, pattern);
            && Lines(text) == [PatternTitle(pattern), ""] + PatternsLines(found)
            && Outline(text, level) == (if level == 1 then [PatternTitle(pattern)]
                                        else if level == 2 then PatternHeadings(found)
                                        else [])
  {
    var found := MatchingPatterns(kb.commonPatterns, pattern);
    var text := GetUsagePattern(kb, Str(pattern)).value.text;
    assert text == PatternHeader(pattern) + PatternBlocks(found);
    assert forall p :: p in found ==> PlainPattern(p);
    assert Lines(text) == [PatternTitle(pattern), ""] + PatternsLines(found) by {
      PatternTextLines(pattern, found);
    }
    assert Filter(PatternsLines(found), HeadingOf(level)) == if level == 2 then PatternHeadings(found) else [] by {
      PatternsOutline(found, level);
    }
    PatternTitleIsHeading(pattern);
    TitledOutline(PatternTitle(pattern), PatternsLines(found), level);
  }

  // ---- fetch_github_docs ----

  /** A fetched document reads back as its heading line, a blank line and the
      lines of the body, which follows unchanged. */
  lemma FetchedPageLines(topic: Arg, get: string -> FetchOutcome)
    requires !topic.NonString? && get(DocUrl(topic)).Fetched?
    requires SingleLine(TopicTitle(topic))
    ensures Lines(FetchGitHubDocs(topic, get).text)
            == ["# GitHub Documentation: " + TopicTitle(topic), ""] + Lines(get(DocUrl(topic)).body)
  {
    var heading := "# GitHub Documentation: " + TopicTitle(topic);
    var body := get(DocUrl(topic)).body;
    assert SingleLine(heading) by {
      assert SingleLine("# GitHub Documentation: ");
    }
    var text := FetchGitHubDocs(topic, get).text;
    assert text == heading + "\n\n" + body by {
      FetchedText(topic, get);
    }
    assert Lines(heading + "\n\n" + body) == [heading, ""] + Lines(body) by {
      HeadedLines(heading, body);
    }
  }
}
