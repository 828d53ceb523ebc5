# AutoFixture documentation server: a Dafny model of its query and formatting core

The AutoFixture MCP server answers seven tool calls with Markdown text. Six of them
read a fixed documentation dataset: the quick-start guide, method search, class
pages, NuGet package lists, usage patterns and best practices. The seventh,
`fetch_github_docs`, picks one of three documents of the AutoFixture repository
and shapes the outcome of an HTTP GET. This project models that core as pure
Dafny functions and proves what the answers contain.

- The dataset is a value of type `Knowledge.KnowledgeBase`. Every handler takes it
  as a parameter, and `Knowledge.AutoFixtureDocs` is the shipped dataset.
- JavaScript objects indexed by name (`coreClasses`, `packages`) are association
  lists in key order. `Knowledge.Lookup` finds the first entry with the key.
- A tool argument is `Protocol.Arg`. It is missing (absent or `null`), a string,
  or some other JSON value. For another value the model records its truthiness
  and its `String(...)` form.
  - The source calls `toLowerCase` or `charAt` on the argument. A truthy value of
    another type has no such method, so the call throws.
  - The dispatcher's `catch` turns the throw into `Error: ...` with the error flag.
  - `fetch_github_docs` is the exception. `topic?.toLowerCase()` throws for every
    non-string topic, falsy ones such as `0` and `false` included. Its own
    `catch` reports the throw as `Failed to fetch GitHub documentation: ...`,
    with the error flag.
  - A handler that can throw returns a `Result` whose `Err` carries the message.
- `Router.CallTool` is the tools/call handler: the `switch` on the tool name,
  the unknown-tool fallback, and the `catch`.
- The HTTP GET is the function parameter `get: string -> FetchOutcome`. It maps a
  URL to a body or to an error message.
- Output texts are built exactly as the template literals build them.
  - `Markdown.Lines` splits a text back into lines.
  - `Markdown.Outline` keeps the headings of one level.
  - The document lemmas read every page back through these two functions. So
    the properties are stated as which lines and headings a page has, and in
    what order.

A name outside the catalog is answered with `Unknown tool: <name>`, and that
answer carries no error flag.

## Model

| member | source | states |
|---|---|---|
| Knowledge.Lookup | src/index.ts:437 | A class or category is found iff its key is one of the object's own keys, and what is found is stored under that key |
| Knowledge.LookupFindsStoredPair | src/index.ts:483 | With keys declared once, looking up a key yields a value iff that key-value pair is in the object |
| Knowledge.DatasetKeysUnique | src/index.ts:13-174 | The dataset's class keys are `Fixture`, `IFixture` and its package keys are `core`, `mocking`, `testing`, in that order, each declared once |
| Text.Lower | src/index.ts:376 | Lower-casing keeps the length and maps each upper-case ASCII letter to its lower-case partner. Every other character is kept |
| Text.LowerIdempotent | src/index.ts:376 | Lower-casing an already lower-cased text changes nothing |
| Text.LowerAppend | src/index.ts:382-383 | Lower-casing distributes over concatenation |
| Text.Capitalize | src/index.ts:486 | `charAt(0).toUpperCase() + slice(1)` keeps the length, leaves no lower-case first letter and keeps the rest of the text |
| Text.IncludesIsSubstring | src/index.ts:382-383 | `includes` is true iff the needle occurs at some offset of the text |
| Seqs.Filter | src/index.ts:380-384 | `Array.filter` keeps only elements that pass the test, never adds elements and never grows the list |
| Seqs.FilterMembership | src/index.ts:380-384 | An element is kept iff it is in the list and passes the test |
| Seqs.FilterIsSubsequence | src/index.ts:522-526 | The kept elements are a subsequence of the list: the original order is kept |
| Seqs.FilterAppend | src/index.ts:522-526 | Filtering a concatenation filters each part |
| Markdown.LinesUnlines | src/index.ts:404-411 | Splitting a text made of "\n"-terminated single lines gives back exactly those lines |
| Markdown.LinesOfText | src/index.ts:542 | A multi-line code block that does not end in a line break, followed by "\n", splits into its own lines and then the lines that follow |
| Markdown.LinesOfJoin | src/index.ts:515 | Splitting lines joined by "\n" gives them back, provided none is empty |
| Markdown.HeadingLevel | src/index.ts:404-408 | A line opened by `k` `#` marks and a space is a heading of level `k` and of no other level |
| Numerals.ReadDecimalOfDecimal | src/index.ts:558 | Reading back the decimal digits `${i + 1}` prints gives the number |
| Numerals.DecimalInjective | src/index.ts:558 | Different item numbers print differently |
| Matchers.MatchingMethodsExactly | src/index.ts:376-384 | A method is found iff it is in the list and the lower-cased query occurs in its lower-cased name or description |
| Matchers.MatchingMethodsInOrder | src/index.ts:380-384 | Found methods are a subsequence of the `Fixture` method list |
| Matchers.MatchingMethodsIgnoresCase | src/index.ts:376 | Queries equal up to case find the same methods |
| Matchers.MatchingPatternsExactly | src/index.ts:521-526 | A pattern is found iff it is in the list and the lower-cased query occurs in its lower-cased name or code |
| Matchers.MatchingPatternsInOrder | src/index.ts:522-526 | Found patterns keep dataset order |
| Matchers.MatchingPatternsIgnoresCase | src/index.ts:521 | Pattern queries equal up to case find the same patterns |
| Formatters.GetQuickStart | src/index.ts:351-361 | The guide is its title as a level-1 heading and a blank line, followed directly by the content, with nothing else, and without the error flag |
| Documents.QuickStartPage | src/index.ts:351-361 | For a one-line title, the guide reads back as the title line, a blank line and then the lines of the content |
| Formatters.SearchMethods | src/index.ts:363-422 | An empty or absent query gets exactly the prompt. It throws iff the query is another truthy value or `Fixture` has no methods. No match gets the "No methods found" text naming the query. Otherwise the page opens with the title and `## Fixture` |
| Formatters.GetClassInfo | src/index.ts:424-474 | It never throws. An empty name gets the prompt listing the class keys. An unknown name gets the not-found text. A known name's page opens with `# name`, a blank line, the description and a blank line |
| Formatters.GetPackages | src/index.ts:476-506 | It throws iff the category is a truthy non-string naming a category. Every other answer opens with the page title. An empty or absent category renders all three categories |
| Formatters.GetUsagePattern | src/index.ts:508-553 | An empty or absent pattern gets the index. It throws iff the pattern is another truthy value. No match gets the "No patterns found" text. Otherwise the page opens with the query's title |
| Formatters.GetBestPractices | src/index.ts:555-569 | The page opens with its title and never sets the error flag |
| Documents.SearchPage | src/index.ts:393-412 | A successful search reads back as the title, `## Fixture`, then each match's heading, description and C# example, in list order. Its outline holds one title, one `##` heading (`## Fixture`) and the matches' names as `###` headings, in order |
| Documents.ClassInfoPage | src/index.ts:451-464 | A class page reads back as the title, the description, the methods section and the usage section. Its one title is the class name, its `##` headings are the sections for the fields the entry has, and its `###` headings are its methods' names, in order |
| Documents.ClassInfoSections | src/index.ts:453-464 | A class page has a `## Methods` heading iff the entry has methods, and a `## Usage` heading iff it has a usage note |
| Documents.PackagesOutline | src/index.ts:477-486 | The `##` headings of a package page are the requested categories the dataset has, title-cased, in the requested order |
| Documents.AllPackagesOrder | src/index.ts:477-480 | "all", an empty category or none renders Core, Mocking and Testing Packages, in that order |
| Documents.CategoryTitleCase | src/index.ts:486 | A category heading is the key with its first letter upper-cased and the rest kept, followed by " Packages" |
| Documents.UnknownCategoryPage | src/index.ts:477-484 | A category with no entry renders exactly `# AutoFixture Packages` and a blank line |
| Documents.PackageUsage | src/index.ts:488-494 | A package block has a usage example iff the package has a usage note, and the example is the note inside a C# fence after the install block |
| Documents.BestPracticesList | src/index.ts:555-559 | The page reads back as the title, a blank line and one line per practice, in order. Line `i` carries the number `i + 1` and the `i`-th practice |
| Documents.PatternIndexList | src/index.ts:509-516 | The index reads back as its three header lines, then `- ` and each pattern name, one per line, in dataset order |
| Documents.PatternResults | src/index.ts:539-543 | A pattern result reads back as the title, a blank line, then each match's `##` heading and fenced code, in dataset order. Its only title is the query's, and its `##` headings are the matches' names |
| Remote.FetchGitHubDocs | src/index.ts:571-614 | Any non-string topic fails before any request, since `topic?.toLowerCase()` throws for it (`0` and `false` included). Otherwise the error flag is set iff the GET fails, and a failure is reported with its message. A success is exactly the heading followed by the body |
| Documents.FetchedPageLines | src/index.ts:593-600 | For a one-line title, a fetched document reads back as the `# GitHub Documentation:` heading line, a blank line and then the lines of the body |
| Remote.DocUrlIsOneOfThree | src/index.ts:574-584 | The requested URL is the repository base followed by README.md, CHEATSHEET.md or FAQ.md |
| Remote.ResolveDocFile | src/index.ts:576-584 | A topic containing "readme" selects the README. The cheat sheet is selected only for a topic containing "cheat", and the FAQ only for one containing "faq" but not "cheat" |
| Remote.ResolvePrecedence | src/index.ts:576-584 | "readme" wins over "cheat", which wins over "faq". A topic containing none of them selects the README |
| Remote.EmptyTopicIsReadme | src/index.ts:573-597 | An absent or empty topic fetches README.md and is titled "README" |
| Remote.HeadingShowsTopic | src/index.ts:597 | A non-empty topic appears in the success heading as the caller spelled it |
| Remote.TopicIgnoresCase | src/index.ts:573 | Topics equal up to case fetch the same document |
| Catalog.ToolArguments | src/index.ts:211-296 | Each tool's declared arguments, all strings: `query` and `className` are required, `category` is limited to core, mocking, testing and all, `pattern` and `topic` are optional, and the other two tools take none |
| Catalog.CatalogShape | src/index.ts:209-298 | The catalog lists seven distinct names in the fixed order. Each input schema is an object whose required arguments are declared properties |
| Router.Route | src/index.ts:305-326 | Only a non-empty name without upper-case letters is routed, since every case label is lower case |
| Router.RouteMatchesCatalog | src/index.ts:305-326 | A name is routed iff the catalog lists it, and the i-th listed name routes to the i-th tool |
| Router.RouteIsCaseSensitive | src/index.ts:305-326 | Every spelling of a tool name that differs from it but lower-cases to it is not routed |
| Router.CallTool | src/index.ts:301-348 | A name no case matches is answered with `Unknown tool: <name>` and no error flag. The flag is set only on `Error: ...` from the catch, or on the fetch failure text when the name routes to `fetch_github_docs` |
| Router.UnknownNameResponse | src/index.ts:327-335 | A name outside the catalog gets `Unknown tool: <name>` without the error flag, whatever the arguments |
| Router.UnknownTextOnlyForUnknownNames | src/index.ts:305-335 | A response starts with `Unknown tool: ` iff the name is outside the catalog |
| Router.NoErrorWithoutFailure | src/index.ts:301-348 | With string or missing arguments, a `Fixture` class with methods and a fetch that succeeds, no call sets the error flag |
| Router.ThrownErrorIsReported | src/index.ts:337-347 | A thrown error is answered with `Error: ` and its message, with the error flag |
| Examples.AvailableClassesExample | src/index.ts:426-431 | The shipped dataset lists its classes as "Fixture, IFixture" |
| Examples.InvalidClassExample | src/index.ts:437-448 | `InvalidClass` is answered with the not-found text naming it and listing "Fixture, IFixture" |
| Examples.InterfaceClassExample | src/index.ts:451-464 | The `IFixture` page is its title, description and usage section, with no methods section |
| Examples.SearchCreateExample | src/index.ts:376-412 | Searching "Create" on the dataset opens with the blocks of `Create<T>()` and `CreateMany<T>()` |
| Examples.PatternIndexExample | src/index.ts:509-516 | The dataset's pattern index opens with its header and `- Basic Object Creation` |
| Examples.BestPracticesExample | src/index.ts:555-559 | The dataset's best-practice list starts with item `1. ` and its first practice |
| Examples.CheatsheetExample | src/index.ts:573-597 | The topic "cheatsheet" fetches CHEATSHEET.md and is titled "cheatsheet" |

## Left out

- Server construction, the stdio transport, `run`, the `onerror` logging and the SIGINT handler (src/index.ts:179-205, 616-624): I/O and lifecycle owned by the MCP library.
- The `axios.get` call with its 10-second timeout and User-Agent header (src/index.ts:586-591): a network effect. Its outcome is the `get` parameter, and `response.data` is taken to be the body text.
- The `cheerio` import (src/index.ts:10): it is never used.
- Text.Lower: lower-cases ASCII letters only, because JavaScript's Unicode case mapping is library behaviour outside the source. Text.Capitalize and Text.UpperChar likewise handle ASCII letters only.
- Knowledge.Lookup: looks up own keys only. A name such as "constructor" reaches `Object.prototype` in JavaScript, which is not modelled.
- `Object.keys` puts integer-like keys first. This is not modelled, and no key of the dataset is integer-like.
- Protocol.NotAFunction and Protocol.CannotReadProperty: the wording of a thrown TypeError comes from the JavaScript engine, so these messages are approximations.
- Documents.QuickStartPage: assumes the title is one line. A title with a line break would add lines of its own.
- Documents.FetchedPageLines: assumes the shown topic is one line. A topic with a line break would add lines of its own.
- Documents.SearchPage: assumes the matched methods' fields are single lines of prose that do not begin with `#`, `*` or a backquote, and that the query is one line. The source renders any text. Other fields would add lines or headings of their own.
- Documents.ClassInfoPage: makes the same single-line-prose assumption about the class name, description, methods and usage note.
- Documents.ClassInfoSections: makes the same single-line-prose assumption as Documents.ClassInfoPage.
- Documents.PackagesOutline: assumes package fields and category keys are single lines of prose.
- Documents.AllPackagesOrder: makes the same assumption as Documents.PackagesOutline, and also assumes all three category keys are present.
- Documents.PackageUsage: assumes the package's fields are single lines of prose.
- Documents.BestPracticesList: assumes each practice is a single line.
- Documents.PatternIndexList: assumes each pattern name is a single line.
- Documents.PatternResults: assumes pattern names are single lines. It also assumes each code sample is non-empty, has no line that begins with `#`, and does not end in a line break.
- The shipped dataset is not proved to meet these assumptions. Its texts are long literals, and checking them character by character is beyond what the proofs here afford.
- The copy of the server inlined in src/__tests__/server.test.ts: it is a separate, smaller dataset. The Examples lemmas state the same kind of expectation about the dataset of src/index.ts instead.
