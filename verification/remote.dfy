/** The `fetch_github_docs` tool: it resolves a topic to one of three documents
    of the AutoFixture repository and shapes the outcome of one HTTP GET. The
    request itself happens outside the model; its outcome for a URL is the
    function `get`. */
module Remote {
  import opened Text
  import opened Protocol

  datatype DocFile = Readme | Cheatsheet | Faq

  function FileName(f: DocFile): string
  {
    match f
    case Readme => "README.md"
    case Cheatsheet => "CHEATSHEET.md"
    case Faq => "FAQ.md"
  }

  const BaseUrl: string := "https://raw.githubusercontent.com/AutoFixture/AutoFixture/master/"

  const FetchFailurePrefix: string := "Failed to fetch GitHub documentation: "

  /** What the GET of one URL yields: the body of a successful response, or the
      message of the error it raised (transport error, timeout, error status). */
  datatype FetchOutcome = Fetched(body: string) | FetchFailed(message: string)

  /** `topic?.toLowerCase() || "readme"` for a topic that is a string or missing. */
  function TopicKey(topic: Arg): string
    requires !topic.NonString?
  {
    match topic
    case Missing => "readme"
    case Str(s) => if Lower(s) == "" then "readme" else Lower(s)
  }

  /** The document a lower-cased topic selects: the first keyword it contains,
      in the order readme, cheat, faq; the README otherwise. */
  function ResolveDocFile(topicKey: string): (f: DocFile)
    ensures Includes(topicKey, "readme") ==> f == Readme
    ensures f == Cheatsheet ==> Includes(topicKey, "cheat")
    ensures f == Faq ==> Includes(topicKey, "faq") && !Includes(topicKey, "cheat")
  {
    if Includes(topicKey, "readme") then Readme
    else if Includes(topicKey, "cheat") then Cheatsheet
    else if Includes(topicKey, "faq") then Faq
    else Readme
  }

  function DocUrl(topic: Arg): string
    requires !topic.NonString?
  {
    BaseUrl + FileName(ResolveDocFile(TopicKey(topic)))
  }

  /** `topic || "README"`: the name the success heading shows. */
  function TopicTitle(topic: Arg): string
    requires !topic.NonString?
  {
    match topic
    case Missing => "README"
    case Str(s) => if s == "" then "README" else s
  }

  /** `fetchGitHubDocs(topic)`. It catches every error itself, so it always
      returns a response. A non-string topic fails before any request, since
      `toLowerCase` is not a method of it. */
  function FetchGitHubDocs(topic: Arg, get: string -> FetchOutcome): (r: Response)
    ensures topic.NonString? ==> r == Response(FetchFailurePrefix + NotAFunction("topic.toLowerCase"), true)
    ensures !topic.NonString? ==> (r.isError <==> get(DocUrl(topic)).FetchFailed?)
    ensures !topic.NonString? && get(DocUrl(topic)).FetchFailed? ==>
      r.text == FetchFailurePrefix + get(DocUrl(topic)).message
    ensures !topic.NonString? && get(DocUrl(topic)).Fetched? ==>
      StartsWith(r.text, "# GitHub Documentation: " + TopicTitle(topic) + "\n\n")
      && EndsWith(r.text, get(DocUrl(topic)).body)
      && |r.text| == |"# GitHub Documentation: " + TopicTitle(topic) + "\n\n"| + |get(DocUrl(topic)).body|
  {
    if topic.NonString? then Response(FetchFailurePrefix + NotAFunction("topic.toLowerCase"), true)
    else
      match get(DocUrl(topic))
      case Fetched(body) => TextResponse("# GitHub Documentation: " + TopicTitle(topic) + "\n\n" + body)
      case FetchFailed(message) => Response(FetchFailurePrefix + message, true)
  }

  /** Helper: the text of a successful fetch, as one concatenation. */
  lemma FetchedText(topic: Arg, get: string -> FetchOutcome)
    requires !topic.NonString? && get(DocUrl(topic)).Fetched?
    ensures FetchGitHubDocs(topic, get).text
            == "# GitHub Documentation: " + TopicTitle(topic) + "\n\n" + get(DocUrl(topic)).body
  {
  }

  /** The URL requested is always the repository base followed by one of the
      three document names. */
  lemma DocUrlIsOneOfThree(topic: Arg)
    requires !topic.NonString?
    ensures DocUrl(topic) in {BaseUrl + "README.md", BaseUrl + "CHEATSHEET.md", BaseUrl + "FAQ.md"}
  {
  }

  /** Precedence of the keywords, stated with plain substring occurrence:
      "readme" beats "cheat", which beats "faq", and no keyword means README. */
  lemma ResolvePrecedence(topicKey: string)
    ensures ResolveDocFile(topicKey) == Readme <==>
      IsSubstring("readme", topicKey)
      || (!IsSubstring("cheat", topicKey) && !IsSubstring("faq", topicKey))
    ensures ResolveDocFile(topicKey) == Cheatsheet <==>
      !IsSubstring("readme", topicKey) && IsSubstring("cheat", topicKey)
    ensures ResolveDocFile(topicKey) == Faq <==>
      !IsSubstring("readme", topicKey) && !IsSubstring("cheat", topicKey) && IsSubstring("faq", topicKey)
  {
    IncludesIsSubstring(topicKey, "readme");
    IncludesIsSubstring(topicKey, "cheat");
    IncludesIsSubstring(topicKey, "faq");
  }

  /** An absent or empty topic fetches the README and is titled "README". */
  lemma EmptyTopicIsReadme(topic: Arg)
    requires topic == Missing || topic == Str("")
    ensures DocUrl(topic) == BaseUrl + "README.md"
    ensures TopicTitle(topic) == "README"
  {
    assert Includes("readme", "readme") by {
      assert StartsWith("readme", "readme");
    }
  }

  /** A non-empty topic names the document it fetched in the success heading,
      as the caller spelled it. */
  lemma HeadingShowsTopic(s: string, get: string -> FetchOutcome)
    requires s != "" && get(DocUrl(Str(s))).Fetched?
    ensures StartsWith(FetchGitHubDocs(Str(s), get).text, "# GitHub Documentation: " + s + "\n\n")
  {
  }

  /** The topic is matched ignoring case: topics equal up to case fetch the
      same document. */
  lemma TopicIgnoresCase(s1: string, s2: string)
    requires Lower(s1) == Lower(s2)
    ensures DocUrl(Str(s1)) == DocUrl(Str(s2))
  {
  }
}
