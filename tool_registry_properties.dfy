/**
 * Properties of the tool registry: argument binding round-trips, dispatch
 * delegates a search unchanged, and the registration, citation and reset
 * behaviour of a registry holding the search tool.
 */
module ToolRegistryProperties {
  import opened Wrappers
  import opened Conversation
  import opened CourseSearch
  import opened ToolRegistry

  /** The arguments for a request bind back to exactly that request. */
  lemma BindArgsRoundTrip(req: SearchRequest)
    ensures BindArgs(ArgsOf(req)) == Success(req)
  {
    var args := ArgsOf(req);
    assert args.Keys <= PARAMETERS;
    assert "query" in args && args["query"] == Str(req.query);
    assert "course_name" in args <==> req.courseName.Some?;
    assert req.courseName.Some? ==> args["course_name"] == Str(req.courseName.value);
    assert "lesson_number" in args <==> req.lessonNumber.Some?;
    assert req.lessonNumber.Some? ==> args["lesson_number"] == Int(req.lessonNumber.value);
    assert OptionalText(args, "course_name") == Success(req.courseName);
    assert OptionalNumber(args, "lesson_number") == Success(req.lessonNumber);
  }

  /** Only the query is required: the query alone asks for an unfiltered search. */
  lemma QueryAlone(query: string)
    ensures BindArgs(map["query" := Str(query)]) == Success(SearchRequest(query, None, None))
  {
    BindArgsRoundTrip(SearchRequest(query, None, None));
    assert ArgsOf(SearchRequest(query, None, None)) == map["query" := Str(query)];
  }

  /**
   * Dispatch delegates unchanged: invoking a registered tool with the arguments
   * for a request returns exactly what the search tool returns for it; an
   * unregistered name yields the not-found text rather than an exception.
   */
  lemma DispatchDelegates(stores: map<string, Store>, name: string, req: SearchRequest)
    ensures name in stores ==>
      Dispatch(stores, name, ArgsOf(req)) == Returned(ExecuteText(stores[name].search(req), req.courseName, req.lessonNumber))
    ensures name !in stores ==> Dispatch(stores, name, ArgsOf(req)) == Returned(NotFound(name))
  {
    BindArgsRoundTrip(req);
  }

  /** Arguments that do not bind surface as an exception, never as a search. */
  lemma DispatchRaisesOnBadArgs(stores: map<string, Store>, name: string, args: ToolArgs)
    requires name in stores && "query" !in args
    ensures Dispatch(stores, name, args).Raised?
  {
  }

  /** Registering the search tool makes its descriptor the one offered, under its own name. */
  method RegisterSearchTool(store: Store) returns (defs: seq<ToolDefinition>, registered: Result<string, string>)
    ensures registered == Success(TOOL_NAME)
    ensures |defs| == 1 && defs[0] == SearchToolDefinition()
  {
    var tool := new CourseSearchTool(store);
    var manager := new ToolManager();
    registered := manager.RegisterTool(tool);
    assert manager.order == [TOOL_NAME];
    defs := manager.GetToolDefinitions();
  }

  /** A tool whose descriptor has no name is refused, and the registry stays empty. */
  method RegisterNameless(store: Store, description: string) returns (registered: Result<string, string>, count: nat)
    ensures registered == Failure(MISSING_NAME)
    ensures count == 0
  {
    var tool := new CourseSearchTool.WithDefinition(store, ToolDefinition(None, description, [], []));
    var manager := new ToolManager();
    registered := manager.RegisterTool(tool);
    count := |manager.GetToolDefinitions()|;
  }

  /** A second registration under the same name replaces the first and keeps one descriptor. */
  method RegisterTwice(first: Store, second: Store) returns (count: nat, current: Store)
    ensures count == 1 && current == second
  {
    var a := new CourseSearchTool(first);
    var b := new CourseSearchTool(second);
    var manager := new ToolManager();
    var _ := manager.RegisterTool(a);
    var _ := manager.RegisterTool(b);
    count := |manager.GetToolDefinitions()|;
    current := manager.tools[TOOL_NAME].store;
  }

  /** An empty registry answers any invocation with the not-found text. */
  method InvokeUnregistered(name: string, args: ToolArgs) returns (out: ToolOutcome)
    ensures out == Returned("Tool '" + name + "' not found")
  {
    var manager := new ToolManager();
    out := manager.ExecuteTool(name, args);
  }

  /** A new registry holding one new search tool over `store`. */
  method RegistryWithSearchTool(store: Store) returns (manager: ToolManager, tool: CourseSearchTool)
    ensures fresh(manager) && fresh(tool)
    ensures manager.Valid() && manager.order == [TOOL_NAME] && manager.tools == map[TOOL_NAME := tool]
    ensures tool.store == store && tool.lastSources == []
  {
    tool := new CourseSearchTool(store);
    manager := new ToolManager();
    var _ := manager.RegisterTool(tool);
  }

  /**
   * Searching through the registry records the search's citations, which the
   * registry then reports; after a reset it reports none.
   */
  method SourcesThenReset(store: Store, query: string) returns (before: seq<Citation>, after: seq<Citation>)
    ensures before == SourcesAfter(store.search(SearchRequest(query, None, None)), store.catalog, [])
    ensures after == []
  {
    var manager, tool := RegistryWithSearchTool(store);
    QueryAlone(query);
    var _ := manager.ExecuteTool(TOOL_NAME, map["query" := Str(query)]);
    before := manager.GetLastSources();
    assert before == tool.lastSources by {
      assert manager.FirstSources([TOOL_NAME][1..]) == [];
    }
    manager.ResetSources();
    after := manager.GetLastSources();
  }

  /** Two identical searches leave one citation per hit, not twice as many. */
  method RepeatedSearch(store: Store, query: string) returns (first: seq<Citation>, second: seq<Citation>)
    ensures first == second
    ensures Formats(store.search(SearchRequest(query, None, None))) ==>
      |second| == |Citations(store.search(SearchRequest(query, None, None)).documents,
                             store.search(SearchRequest(query, None, None)).metadata, store.catalog)|
  {
    var tool := new CourseSearchTool(store);
    var _ := tool.Execute(query, None, None);
    first := tool.lastSources;
    var _ := tool.Execute(query, None, None);
    second := tool.lastSources;
  }
}
