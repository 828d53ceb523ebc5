/** The handlers of the six knowledge-base tools. Each reads the knowledge base
    and one argument and renders a Markdown text; a handler that can throw
    returns a `Result` whose `Err` carries the thrown message.

    Where a template literal produces whole lines, the text is written as the
    list of those lines, each ended by "\n" (`Unlines`): `### ${name}\n` is
    `Unlines(["### " + name])`, and `${description}\n\n` is
    `Unlines([description, ""])`. */
module Formatters {
  import opened Wrappers
  import opened Text
  import opened Seqs
  import opened Markdown
  import opened Numerals
  import opened Knowledge
  import opened Protocol
  import opened Matchers

  // ---- get_quick_start ----

  /** The quick-start guide under its title. */
  function GetQuickStart(kb: KnowledgeBase): (r: Response)
    ensures !r.isError
    ensures StartsWith(r.text, "# " + kb.quickStart.title + "\n\n")
    ensures EndsWith(r.text, kb.quickStart.content)
    ensures |r.text| == |"# " + kb.quickStart.title + "\n\n"| + |kb.quickStart.content|
  {
    TextResponse("# " + kb.quickStart.title + "\n\n" + kb.quickStart.content)
  }

  // ---- search_methods ----

  // The longer fixed phrases are written as concatenations of shorter literals:
  // the verifier reads the characters of a short literal more readily.
  const SearchPrompt: string := "Please provide a search query " + "for method names."

  function NoMethodsFound(query: string): string
  {
    "No methods found matching \"" + query + "\". Try searching for: Create, Build, Freeze, Inject, or Customize."
  }

  /** One method: heading, description and a C# example block. */
  function MethodLines(m: Method): seq<string>
  {
    ["### " + m.name, m.description, "", "**Example:**", "```csharp", m.example, "```", ""]
  }

  function MethodBlock(m: Method): string
  {
    Unlines(MethodLines(m))
  }

  /** The blocks of the methods, in list order. */
  function MethodBlocks(ms: seq<Method>): string
    decreases |ms|
  {
    if |ms| == 0 then "" else MethodBlock(ms[0]) + MethodBlocks(ms[1..])
  }

  function SearchHeader(query: string): string
  {
    Unlines(["# Search Results for \"" + query + "\"", "", "## Fixture", ""])
  }

  /** The methods of the `Fixture` class, the only list the search looks at. */
  function FixtureMethods(kb: KnowledgeBase): Option<seq<Method>>
  {
    match Lookup(kb.coreClasses, "Fixture")
    case None => None
    case Some(c) => c.methods
  }

  /** `searchMethods(query)`. */
  function SearchMethods(kb: KnowledgeBase, query: Arg): (r: Result<Response, string>)
    ensures !Truthy(query) ==> r == Ok(TextResponse(SearchPrompt))
    ensures r.Err? <==> Truthy(query) && (query.NonString? || FixtureMethods(kb).None?)
    ensures r.Ok? ==> !r.value.isError
    ensures Truthy(query) && query.Str? && FixtureMethods(kb).Some? ==>
      var found := MatchingMethods(FixtureMethods(kb).value, query.s);
      if |found| == 0 then r.value.text == NoMethodsFound(query.s)
      else StartsWith(r.value.text, SearchHeader(query.s))
  {
    if !Truthy(query) then Ok(TextResponse(SearchPrompt))
    else if query.NonString? then Err(NotAFunction("query.toLowerCase"))
    else
      match Lookup(kb.coreClasses, "Fixture")
      case None => Err(CannotReadProperty("methods"))
      case Some(fixture) =>
        match fixture.methods
        case None => Err(CannotReadProperty("filter"))
        case Some(methods) =>
          var found := MatchingMethods(methods, query.s);
          if |found| == 0 then Ok(TextResponse(NoMethodsFound(query.s)))
          else Ok(TextResponse(SearchHeader(query.s) + MethodBlocks(found)))
  }

  // ---- get_class_info ----

  /** `Object.keys(coreClasses).join(", ")`. */
  function AvailableClasses(kb: KnowledgeBase): string
  {
    Join(Keys(kb.coreClasses), ", ")
  }

  function ClassPrompt(kb: KnowledgeBase): string
  {
    "Please specify a class name. " + "Available classes: " + AvailableClasses(kb)
  }

  function ClassNotFound(kb: KnowledgeBase, name: string): string
  {
    "Class \"" + name + "\" not found. Available classes: " + AvailableClasses(kb)
  }

  function MethodsSection(c: ClassEntry): string
  {
    match c.methods
    case None => ""
    case Some(ms) => Unlines(["## Methods", ""]) + MethodBlocks(ms)
  }

  function UsageSection(c: ClassEntry): string
  {
    match c.usage
    case None => ""
    case Some(u) => Unlines(["## Usage", u, ""])
  }

  /** The page of a documented class. */
  function ClassPage(name: string, c: ClassEntry): string
  {
    Unlines(["# " + name, "", c.description, ""]) + MethodsSection(c) + UsageSection(c)
  }

  /** `getClassInfo(className)`; it never throws. */
  function GetClassInfo(kb: KnowledgeBase, className: Arg): (r: Response)
    ensures !r.isError
    ensures !Truthy(className) ==> r.text == ClassPrompt(kb)
    ensures Truthy(className) && Shown(className) !in Keys(kb.coreClasses) ==>
      r.text == ClassNotFound(kb, Shown(className))
    ensures Truthy(className) && Shown(className) in Keys(kb.coreClasses) ==>
      StartsWith(r.text, Unlines(["# " + Shown(className), "", Lookup(kb.coreClasses, Shown(className)).value.description, ""]))
  {
    if !Truthy(className) then TextResponse(ClassPrompt(kb))
    else
      var name := Shown(className);
      match Lookup(kb.coreClasses, name)
      case None => TextResponse(ClassNotFound(kb, name))
      case Some(c) => TextResponse(ClassPage(name, c))
  }

  // ---- get_packages ----

  const PackagesTitle: string := Unlines(["# AutoFixture Packages", ""])

  const AllCategories: seq<string> := ["core", "mocking", "testing"]

  /** The categories to render for a requested category. */
  function ResolveCategories(category: string): (cs: seq<string>)
    ensures category == "all" ==> cs == AllCategories
    ensures category != "all" ==> cs == [category]
  {
    if category == "all" then AllCategories else [category]
  }

  /** One package: heading, description, install command and, when the package
      has one, a usage example. */
  function PackageLines(p: Package): seq<string>
  {
    ["### " + p.name, p.description, "", "**Installation:**", "```", p.install, "```", ""]
      + (match p.usage
         case None => []
         case Some(u) => ["**Usage:**", "```csharp", u, "```", ""])
  }

  function PackageBlock(p: Package): string
  {
    Unlines(PackageLines(p))
  }

  function PackageBlocks(ps: seq<Package>): string
    decreases |ps|
  {
    if |ps| == 0 then "" else PackageBlock(ps[0]) + PackageBlocks(ps[1..])
  }

  /** `c.charAt(0).toUpperCase() + c.slice(1) + " Packages"`. */
  function CategoryTitle(c: string): string
  {
    Capitalize(c) + " Packages"
  }

  /** One category's section; a category without an entry contributes nothing. */
  function CategorySection(kb: KnowledgeBase, c: string): string
  {
    match Lookup(kb.packages, c)
    case None => ""
    case Some(ps) => Unlines(["## " + CategoryTitle(c), ""]) + PackageBlocks(ps)
  }

  function CategorySections(kb: KnowledgeBase, categories: seq<string>): string
    decreases |categories|
  {
    if |categories| == 0 then ""
    else CategorySection(kb, categories[0]) + CategorySections(kb, categories[1..])
  }

  function PackagesPage(kb: KnowledgeBase, categories: seq<string>): string
  {
    PackagesTitle + CategorySections(kb, categories)
  }

  /** `getPackages(category)`: a missing or empty category means "all". A
      non-string category is never equal to "all"; if it names a category the
      heading's `c.charAt` throws. */
  function GetPackages(kb: KnowledgeBase, category: Arg): (r: Result<Response, string>)
    ensures r.Err? <==> category.NonString? && Truthy(category) && category.shown in Keys(kb.packages)
    ensures r.Ok? ==> !r.value.isError && StartsWith(r.value.text, PackagesTitle)
    ensures !Truthy(category) ==> r == Ok(TextResponse(PackagesPage(kb, AllCategories)))
  {
    if !Truthy(category) then Ok(TextResponse(PackagesPage(kb, ResolveCategories("all"))))
    else if category.Str? then Ok(TextResponse(PackagesPage(kb, ResolveCategories(category.s))))
    else if Lookup(kb.packages, category.shown).Some? then Err(NotAFunction("c.charAt"))
    else Ok(TextResponse(PackagesTitle))
  }

  // ---- get_usage_pattern ----

  /** The bullet of each pattern name, in order. */
  function Bullets(ps: seq<Pattern>): seq<string>
  {
    seq(|ps|, i requires 0 <= i < |ps| => "- " + ps[i].name)
  }

  /** The bullet list of every pattern name. */
  function PatternIndex(kb: KnowledgeBase): string
  {
    Unlines(["# Common Usage Patterns", "", "Available patterns:"]) + Join(Bullets(kb.commonPatterns), "\n")
  }

  function NoPatternsFound(pattern: string): string
  {
    "No patterns found matching \"" + pattern + "\"."
  }

  function PatternBlock(p: Pattern): string
  {
    Unlines(["## " + p.name, "", "```csharp", p.code, "```", ""])
  }

  function PatternBlocks(ps: seq<Pattern>): string
    decreases |ps|
  {
    if |ps| == 0 then "" else PatternBlock(ps[0]) + PatternBlocks(ps[1..])
  }

  function PatternHeader(pattern: string): string
  {
    Unlines(["# Usage Patterns for \"" + pattern + "\"", ""])
  }

  /** `getUsagePattern(pattern)`. */
  function GetUsagePattern(kb: KnowledgeBase, pattern: Arg): (r: Result<Response, string>)
    ensures !Truthy(pattern) ==> r == Ok(TextResponse(PatternIndex(kb)))
    ensures r.Err? <==> pattern.NonString? && Truthy(pattern)
    ensures r.Ok? ==> !r.value.isError
    ensures Truthy(pattern) && pattern.Str? ==>
      var found := MatchingPatterns(kb.commonPatterns, pattern.s);
      if |found| == 0 then r.value.text == NoPatternsFound(pattern.s)
      else StartsWith(r.value.text, PatternHeader(pattern.s))
  {
    if !Truthy(pattern) then Ok(TextResponse(PatternIndex(kb)))
    else if pattern.NonString? then Err(NotAFunction("pattern.toLowerCase"))
    else
      var found := MatchingPatterns(kb.commonPatterns, pattern.s);
      if |found| == 0 then Ok(TextResponse(NoPatternsFound(pattern.s)))
      else Ok(TextResponse(PatternHeader(pattern.s) + PatternBlocks(found)))
  }

  // ---- get_best_practices ----

  const PracticesTitle: string := Unlines(["# AutoFixture Best Practices", ""])

  /** Line `i` of the list: the 1-based number, a dot, and the practice. */
  function PracticeLine(items: seq<string>, i: nat): string
    requires i < |items|
  {
    Decimal(i + 1) + ". " + items[i]
  }

  function PracticeLines(items: seq<string>): seq<string>
  {
    seq(|items|, i requires 0 <= i < |items| => PracticeLine(items, i))
  }

  /** `getBestPractices()`. */
  function GetBestPractices(kb: KnowledgeBase): (r: Response)
    ensures !r.isError
    ensures StartsWith(r.text, PracticesTitle)
  {
    TextResponse(PracticesTitle + Unlines(PracticeLines(kb.bestPractices)))
  }

  // ---- facts about the fixed phrases ----

  /** The first characters of the fixed phrases that open a response. */
  lemma PhraseInitials(kb: KnowledgeBase)
    ensures SearchPrompt[0] == 'P'
    ensures ClassPrompt(kb)[0] == 'P'
    ensures PatternIndex(kb)[0] == '#'
  {
  }
}
