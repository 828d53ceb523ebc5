/** The tools/call handler: it routes a tool name to its handler and converts
    anything a handler throws into an error response. */
module Router {
  import opened Wrappers
  import opened Text
  import opened Protocol
  import opened Knowledge
  import opened Formatters
  import opened Remote
  import opened Catalog
  import Matchers

  datatype Tool =
    | QuickStartTool
    | SearchMethodsTool
    | ClassInfoTool
    | PackagesTool
    | UsagePatternTool
    | BestPracticesTool
    | GitHubDocsTool

  /** The tools in the order the catalog lists them. */
  const ToolOrder: seq<Tool> := [QuickStartTool, SearchMethodsTool, ClassInfoTool, PackagesTool,
                                 UsagePatternTool, BestPracticesTool, GitHubDocsTool]

  /** `switch (name)`: exact, case-sensitive comparison with each case label.
      Every label is written in lower case, so only a lower-case name routes. */
  function Route(name: string): (r: Option<Tool>)
    ensures r.Some? ==> |name| > 0 && NoUpper(name)
  {
    LabelsLowerCase();
    if name == "get_quick_start" then Some(QuickStartTool)
    else if name == "search_methods" then Some(SearchMethodsTool)
    else if name == "get_class_info" then Some(ClassInfoTool)
    else if name == "get_packages" then Some(PackagesTool)
    else if name == "get_usage_pattern" then Some(UsagePatternTool)
    else if name == "get_best_practices" then Some(BestPracticesTool)
    else if name == "fetch_github_docs" then Some(GitHubDocsTool)
    else None
  }

  function UnknownTool(name: string): string
  {
    "Unknown tool: " + name
  }

  /** The body of the `try` block: the routed handler's outcome, or the
      unknown-tool text for a name no case matches. */
  function Handle(kb: KnowledgeBase, name: string, args: Args, get: string -> FetchOutcome): Result<Response, string>
  {
    match Route(name)
    case None => Ok(TextResponse(UnknownTool(name)))
    case Some(QuickStartTool) => Ok(GetQuickStart(kb))
    case Some(SearchMethodsTool) => SearchMethods(kb, ArgOf(args, "query"))
    case Some(ClassInfoTool) => Ok(GetClassInfo(kb, ArgOf(args, "className")))
    case Some(PackagesTool) => GetPackages(kb, ArgOf(args, "category"))
    case Some(UsagePatternTool) => GetUsagePattern(kb, ArgOf(args, "pattern"))
    case Some(BestPracticesTool) => Ok(GetBestPractices(kb))
    case Some(GitHubDocsTool) => Ok(FetchGitHubDocs(ArgOf(args, "topic"), get))
  }

  /** Helper: the case labels of the `switch` hold no upper-case letter. */
  lemma LabelsLowerCase()
    ensures NoUpper("get_quick_start") && NoUpper("search_methods") && NoUpper("get_class_info")
    ensures NoUpper("get_packages") && NoUpper("get_usage_pattern")
    ensures NoUpper("get_best_practices") && NoUpper("fetch_github_docs")
  {
  }

  /** The tools/call request handler with its `catch`: a thrown error becomes
      "Error: <message>" with the error flag set. A name no case matches is
      answered with the unknown-tool text and no flag; otherwise the flag comes
      only from the `catch` or from a failed fetch. */
  function CallTool(kb: KnowledgeBase, name: string, args: Args, get: string -> FetchOutcome): (r: Response)
    ensures Route(name).None? ==> r == Response("Unknown tool: " + name, false)
    ensures r.isError ==>
      || StartsWith(r.text, "Error: ")
      || (Route(name) == Some(GitHubDocsTool) && StartsWith(r.text, FetchFailurePrefix))
  {
    match Handle(kb, name, args, get)
    case Ok(response) => response
    case Err(message) => Response("Error: " + message, true)
  }

  /** The routing table and the catalog agree: a name is routed iff the catalog
      lists it, and the i-th listed name routes to the i-th tool. */
  lemma RouteMatchesCatalog(name: string)
    ensures Route(name).Some? <==> name in ToolNames()
    ensures forall i :: 0 <= i < |Tools| ==> Route(Tools[i].name) == Some(ToolOrder[i])
  {
    CatalogShape();
  }

  /** Routing is case-sensitive: a name that differs from a tool name only in
      case is unknown. */
  lemma RouteIsCaseSensitive(name: string, t: string)
    requires t in ToolNames() && Lower(name) == t && name != t
    ensures Route(name).None?
  {
    if Route(name).Some? {
      LowerOfNoUpper(name);
      assert false;
    }
  }

  /** A name outside the catalog gets the unknown-tool text, without the error
      flag, whatever the arguments. */
  lemma UnknownNameResponse(kb: KnowledgeBase, name: string, args: Args, get: string -> FetchOutcome)
    requires name !in ToolNames()
    ensures CallTool(kb, name, args, get) == Response("Unknown tool: " + name, false)
  {
    RouteMatchesCatalog(name);
  }

  /** The unknown-tool text appears exactly for names outside the catalog: no
      handler's response starts with it. */
  lemma UnknownTextOnlyForUnknownNames(kb: KnowledgeBase, name: string, args: Args, get: string -> FetchOutcome)
    ensures StartsWith(CallTool(kb, name, args, get).text, "Unknown tool: ") <==> name !in ToolNames()
  {
    RouteMatchesCatalog(name);
    var r := CallTool(kb, name, args, get);
    if name in ToolNames() {
      assert |r.text| > 0 && r.text[0] != 'U' by {
        FirstCharacter(kb, name, args, get);
      }
      assert "Unknown tool: "[0] == 'U';
    } else {
      UnknownNameResponse(kb, name, args, get);
      StartsWithAppend("Unknown tool: ", name);
    }
  }

  /** The letters a routed call's text can begin with: `#` for a document and
      the initials of the fixed phrases. */
  predicate OpensKnown(text: string)
  {
    |text| > 0 && text[0] in {'#', 'P', 'N', 'C', 'F', 'E'}
  }

  /** Helper: every routed call answers with text that begins with one of the
      letters its fixed phrases begin with. */
  lemma FirstCharacter(kb: KnowledgeBase, name: string, args: Args, get: string -> FetchOutcome)
    requires Route(name).Some?
    ensures OpensKnown(CallTool(kb, name, args, get).text)
  {
    match Handle(kb, name, args, get)
    case Err(message) =>
    case Ok(response) =>
      match Route(name).value
      case QuickStartTool =>
      case SearchMethodsTool => SearchOpens(kb, ArgOf(args, "query"));
      case ClassInfoTool => ClassOpens(kb, ArgOf(args, "className"));
      case PackagesTool => PackagesOpens(kb, ArgOf(args, "category"));
      case UsagePatternTool => PatternOpens(kb, ArgOf(args, "pattern"));
      case BestPracticesTool => assert PracticesTitle[0] == '#';
      case GitHubDocsTool =>
  }

  lemma SearchOpens(kb: KnowledgeBase, q: Arg)
    ensures SearchMethods(kb, q).Ok? ==> OpensKnown(SearchMethods(kb, q).value.text)
  {
    PhraseInitials(kb);
    if Truthy(q) && q.Str? && FixtureMethods(kb).Some? {
      var found := Matchers.MatchingMethods(FixtureMethods(kb).value, q.s);
      if |found| > 0 {
        assert SearchMethods(kb, q).value.text[0] == SearchHeader(q.s)[0];
      }
    }
  }

  lemma ClassOpens(kb: KnowledgeBase, c: Arg)
    ensures OpensKnown(GetClassInfo(kb, c).text)
  {
    PhraseInitials(kb);
  }

  lemma PackagesOpens(kb: KnowledgeBase, c: Arg)
    ensures GetPackages(kb, c).Ok? ==> OpensKnown(GetPackages(kb, c).value.text)
  {
    assert PackagesTitle[0] == '#';
  }

  lemma PatternOpens(kb: KnowledgeBase, p: Arg)
    ensures GetUsagePattern(kb, p).Ok? ==> OpensKnown(GetUsagePattern(kb, p).value.text)
  {
    PhraseInitials(kb);
    if Truthy(p) && p.Str? {
      var found := Matchers.MatchingPatterns(kb.commonPatterns, p.s);
      if |found| > 0 {
        assert GetUsagePattern(kb, p).value.text[0] == PatternHeader(p.s)[0];
      }
    }
  }

  /** With string (or missing) arguments, a knowledge base whose `Fixture` class
      lists methods, and a fetch that succeeds, no call sets the error flag. */
  lemma NoErrorWithoutFailure(kb: KnowledgeBase, name: string, args: Args, get: string -> FetchOutcome)
    requires FixtureMethods(kb).Some?
    requires forall k :: k in args ==> !args[k].NonString?
    requires forall url :: get(url).Fetched?
    ensures !CallTool(kb, name, args, get).isError
  {
    match Route(name)
    case None =>
    case Some(t) =>
      match t
      case QuickStartTool =>
      case SearchMethodsTool => assert !ArgOf(args, "query").NonString?;
      case ClassInfoTool =>
      case PackagesTool => assert !ArgOf(args, "category").NonString?;
      case UsagePatternTool => assert !ArgOf(args, "pattern").NonString?;
      case BestPracticesTool =>
      case GitHubDocsTool =>
        var topic := ArgOf(args, "topic");
        assert !topic.NonString? && get(DocUrl(topic)).Fetched?;
  }

  /** A thrown error is reported with its message and the error flag. */
  lemma ThrownErrorIsReported(kb: KnowledgeBase, name: string, args: Args, get: string -> FetchOutcome)
    requires Handle(kb, name, args, get).Err?
    ensures CallTool(kb, name, args, get) == Response("Error: " + Handle(kb, name, args, get).error, true)
  {
  }
}
