/** The tool catalog the server advertises to clients: seven descriptors in a
    fixed order, each with a JSON-Schema-like description of its arguments. */
module Catalog {
  import opened Wrappers

  /** One declared argument: its name, JSON type, description and, when given,
      the values it may take. */
  datatype PropertySchema = PropertySchema(name: string, typ: string, description: string, allowed: Option<seq<string>>)

  /** An `inputSchema`: its type, its declared properties in order and, when
      given, the names of the required ones. */
  datatype InputSchema = InputSchema(typ: string, properties: seq<PropertySchema>, required: Option<seq<string>>)

  datatype ToolDescriptor = ToolDescriptor(name: string, description: string, inputSchema: InputSchema)

  function NoArguments(): InputSchema
  {
    InputSchema("object", [], None)
  }

  function StringArgument(name: string, description: string): PropertySchema
  {
    PropertySchema(name, "string", description, None)
  }

  /** The answer to a tools/list request. */
  const Tools: seq<ToolDescriptor> := [
    ToolDescriptor("get_quick_start",
      "Get AutoFixture quick start guide and basic usage examples",
      NoArguments()),
    ToolDescriptor("search_methods",
      "Search for AutoFixture methods and their usage",
      InputSchema("object",
        [StringArgument("query", "Search query for method names (e.g., 'Create', 'Build', 'Freeze')")],
        Some(["query"]))),
    ToolDescriptor("get_class_info",
      "Get detailed information about a specific AutoFixture class",
      InputSchema("object",
        [StringArgument("className", "Name of the class (e.g., 'Fixture', 'IFixture')")],
        Some(["className"]))),
    ToolDescriptor("get_packages",
      "Get list of AutoFixture NuGet packages and their purposes",
      InputSchema("object",
        [PropertySchema("category", "string",
          "Package category: 'core', 'mocking', 'testing', or 'all'",
          Some(["core", "mocking", "testing", "all"]))],
        None)),
    ToolDescriptor("get_usage_pattern",
      "Get common usage patterns and code examples",
      InputSchema("object",
        [StringArgument("pattern", "Pattern name or keyword (e.g., 'customizing', 'lists', 'automaq', 'xunit')")],
        None)),
    ToolDescriptor("get_best_practices",
      "Get AutoFixture best practices and recommendations",
      NoArguments()),
    ToolDescriptor("fetch_github_docs",
      "Fetch latest documentation from AutoFixture GitHub repository",
      InputSchema("object",
        [StringArgument("topic", "Documentation topic to fetch (e.g., 'README', 'cheatsheet', 'faq')")],
        None))
  ]

  function ToolNames(): (names: seq<string>)
    ensures |names| == |Tools|
    ensures forall i :: 0 <= i < |Tools| ==> names[i] == Tools[i].name
  {
    seq(|Tools|, i requires 0 <= i < |Tools| => Tools[i].name)
  }

  function PropertyNames(s: InputSchema): seq<string>
  {
    seq(|s.properties|, i requires 0 <= i < |s.properties| => s.properties[i].name)
  }

  /** A schema is well formed when it describes an object and every required
      name is a declared property. */
  predicate WellFormedSchema(s: InputSchema)
  {
    && s.typ == "object"
    && (s.required.Some? ==> forall k :: 0 <= k < |s.required.value| ==> s.required.value[k] in PropertyNames(s))
  }

  /** The catalog lists seven distinct tools in the fixed order, each with an
      object schema whose required arguments are declared. */
  lemma CatalogShape()
    ensures ToolNames() == ["get_quick_start", "search_methods", "get_class_info", "get_packages",
                            "get_usage_pattern", "get_best_practices", "fetch_github_docs"]
    ensures forall i, j :: 0 <= i < j < |Tools| ==> Tools[i].name != Tools[j].name
    ensures forall i :: 0 <= i < |Tools| ==> WellFormedSchema(Tools[i].inputSchema)
  {
    var names := ToolNames();
    assert names == ["get_quick_start", "search_methods", "get_class_info", "get_packages",
                     "get_usage_pattern", "get_best_practices", "fetch_github_docs"];
    assert PropertyNames(Tools[1].inputSchema) == ["query"];
    assert PropertyNames(Tools[2].inputSchema) == ["className"];
  }

  /** The arguments each tool declares: `query` and `className` are required,
      `category` is restricted to the three categories and "all", `pattern`
      and `topic` are optional, and the two remaining tools take none. */
  lemma ToolArguments()
    ensures |Tools| == 7
    ensures PropertyNames(Tools[0].inputSchema) == [] && Tools[0].inputSchema.required.None?
    ensures PropertyNames(Tools[1].inputSchema) == ["query"] && Tools[1].inputSchema.required == Some(["query"])
    ensures PropertyNames(Tools[2].inputSchema) == ["className"] && Tools[2].inputSchema.required == Some(["className"])
    ensures PropertyNames(Tools[3].inputSchema) == ["category"] && Tools[3].inputSchema.required.None?
    ensures Tools[3].inputSchema.properties[0].allowed == Some(["core", "mocking", "testing", "all"])
    ensures PropertyNames(Tools[4].inputSchema) == ["pattern"] && Tools[4].inputSchema.required.None?
    ensures PropertyNames(Tools[5].inputSchema) == [] && Tools[5].inputSchema.required.None?
    ensures PropertyNames(Tools[6].inputSchema) == ["topic"] && Tools[6].inputSchema.required.None?
    ensures forall i :: 0 <= i < |Tools| ==> forall k :: 0 <= k < |Tools[i].inputSchema.properties| ==>
      Tools[i].inputSchema.properties[k].typ == "string"
  {
    assert PropertyNames(Tools[1].inputSchema) == ["query"];
    assert PropertyNames(Tools[2].inputSchema) == ["className"];
    assert PropertyNames(Tools[3].inputSchema) == ["category"];
    assert PropertyNames(Tools[4].inputSchema) == ["pattern"];
    assert PropertyNames(Tools[6].inputSchema) == ["topic"];
  }
}
