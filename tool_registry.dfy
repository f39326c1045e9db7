/**
 * The tool registry: it keeps the registered tools by descriptor name (in
 * registration order), offers their descriptors to the provider, dispatches
 * an invocation by name with keyword arguments, and reads and clears the
 * tools' citations.
 *
 * The one tool kind of this system is the course search tool, so the registry
 * holds `CourseSearchTool` objects.
 */
module ToolRegistry {
  import opened Wrappers
  import opened Conversation
  import opened CourseSearch

  const MISSING_NAME: string := "Tool must have a 'name'"
  const UNEXPECTED_ARGUMENT: string := "execute() got an unexpected keyword argument"
  const MISSING_QUERY: string := "execute() missing 1 required positional argument: 'query'"
  const WRONG_TYPE: string := "execute() got an argument of the wrong type"

  /** The keyword parameters of the search tool's `execute`. */
  const PARAMETERS: set<string> := {"query", "course_name", "lesson_number"}

  /** The text returned for an invocation of a name nobody registered. */
  function NotFound(name: string): string {
    "Tool '" + name + "' not found"
  }

  /** The name a descriptor is registered under; a missing or empty name is refused. */
  function RegistrationName(d: ToolDefinition): (r: Result<string, string>)
    ensures r.Success? <==> d.name.Some? && d.name.value != ""
    ensures r.Success? ==> r.value == d.name.value
    ensures r.Failure? ==> r.error == MISSING_NAME
  {
    if d.name.Some? && d.name.value != "" then Success(d.name.value) else Failure(MISSING_NAME)
  }

  function OptionalText(args: ToolArgs, key: string): Result<Option<string>, string> {
    if key !in args then Success(None)
    else match args[key]
      case Str(s) => Success(Some(s))
      case Null => Success(None)
      case Int(_) => Failure(WRONG_TYPE)
  }

  function OptionalNumber(args: ToolArgs, key: string): Result<Option<int>, string> {
    if key !in args then Success(None)
    else match args[key]
      case Int(i) => Success(Some(i))
      case Null => Success(None)
      case Str(_) => Failure(WRONG_TYPE)
  }

  /**
   * Binding an invocation's keyword arguments to `execute(query, course_name=None,
   * lesson_number=None)`: an unknown keyword or a missing query is refused, and
   * an absent or null filter becomes no filter.
   */
  function BindArgs(args: ToolArgs): (r: Result<SearchRequest, string>)
    ensures "query" !in args ==> r.Failure?
    ensures !(args.Keys <= PARAMETERS) ==> r == Failure(UNEXPECTED_ARGUMENT)
    ensures r.Success? ==> "query" in args && args["query"] == Str(r.value.query)
    ensures r.Success? ==>
      (r.value.courseName.Some? <==> "course_name" in args && args["course_name"].Str?)
    ensures r.Success? && r.value.courseName.Some? ==> args["course_name"] == Str(r.value.courseName.value)
    ensures r.Success? ==>
      (r.value.lessonNumber.Some? <==> "lesson_number" in args && args["lesson_number"].Int?)
    ensures r.Success? && r.value.lessonNumber.Some? ==> args["lesson_number"] == Int(r.value.lessonNumber.value)
  {
    if !(args.Keys <= PARAMETERS) then Failure(UNEXPECTED_ARGUMENT)
    else if "query" !in args then Failure(MISSING_QUERY)
    else if !args["query"].Str? then Failure(WRONG_TYPE)
    else match (OptionalText(args, "course_name"), OptionalNumber(args, "lesson_number"))
      case (Success(course), Success(lesson)) => Success(SearchRequest(args["query"].s, course, lesson))
      case _ => Failure(WRONG_TYPE)
  }

  /** The keyword arguments that ask for a request: the query, plus each filter that is set. */
  function ArgsOf(req: SearchRequest): ToolArgs {
    map["query" := Str(req.query)]
    + (if req.courseName.Some? then map["course_name" := Str(req.courseName.value)] else map[])
    + (if req.lessonNumber.Some? then map["lesson_number" := Int(req.lessonNumber.value)] else map[])
  }

  /**
   * What invoking `name` with `args` returns, given the registered tools'
   * stores: the not-found text for an unknown name, the binding error as an
   * exception, otherwise the search tool's text.
   */
  function Dispatch(stores: map<string, Store>, name: string, args: ToolArgs): ToolOutcome {
    if name !in stores then Returned(NotFound(name))
    else match BindArgs(args)
      case Failure(message) => Raised(message)
      case Success(req) => Returned(ExecuteText(stores[name].search(req), req.courseName, req.lessonNumber))
  }

  class ToolManager {
    var tools: map<string, CourseSearchTool>
    /** The registered names in first-registration order (the order Python's dict keeps). */
    var order: seq<string>

    ghost predicate Valid()
      reads this
    {
      && (forall n :: n in tools <==> n in order)
      && (forall i, j :: 0 <= i < j < |order| ==> order[i] != order[j])
      && (forall n :: n in tools ==> tools[n].definition.name == Some(n))
    }

    constructor ()
      ensures Valid() && tools == map[] && order == []
    {
      tools := map[];
      order := [];
    }

    /** The stores of the registered tools, by name. */
    function Snapshot(): (stores: map<string, Store>)
      reads this
      ensures stores.Keys == tools.Keys
      ensures forall n :: n in tools ==> stores[n] == tools[n].store
    {
      map n | n in tools :: tools[n].store
    }

    /** Stores a tool under its descriptor's name; a later registration of the same name wins. */
    method RegisterTool(tool: CourseSearchTool) returns (r: Result<string, string>)
      requires Valid()
      modifies this
      ensures Valid()
      ensures r == RegistrationName(tool.definition)
      ensures r.Failure? ==> tools == old(tools) && order == old(order)
      ensures r.Success? ==> tools == old(tools)[r.value := tool]
      ensures r.Success? ==> order == if r.value in old(tools) then old(order) else old(order) + [r.value]
    {
      r := RegistrationName(tool.definition);
      if r.Failure? {
        return;
      }
      var name := r.value;
      if name !in tools {
        order := order + [name];
      }
      tools := tools[name := tool];
    }

    /** The registered descriptors, one per name, in registration order. */
    function GetToolDefinitions(): (defs: seq<ToolDefinition>)
      reads this
      requires Valid()
      ensures |defs| == |order|
      ensures forall i :: 0 <= i < |order| ==> defs[i] == tools[order[i]].definition
      ensures forall i :: 0 <= i < |defs| ==> defs[i].name == Some(order[i])
      ensures forall i, j :: 0 <= i < j < |defs| ==> defs[i].name != defs[j].name
    {
      DefinitionsOf(order)
    }

    function DefinitionsOf(names: seq<string>): (defs: seq<ToolDefinition>)
      reads this
      requires forall n <- names :: n in tools
      ensures |defs| == |names|
      ensures forall i :: 0 <= i < |names| ==> defs[i] == tools[names[i]].definition
      decreases |names|
    {
      if names == [] then [] else [tools[names[0]].definition] + DefinitionsOf(names[1..])
    }

    /** Runs the named tool with keyword arguments; only that tool's citations change. */
    method ExecuteTool(name: string, args: ToolArgs) returns (out: ToolOutcome)
      requires Valid()
      modifies if name in tools then {tools[name]} else {}
      ensures out == Dispatch(Snapshot(), name, args)
      ensures name in tools && BindArgs(args).Failure? ==> tools[name].lastSources == old(tools[name].lastSources)
      ensures name in tools && BindArgs(args).Success? ==>
        tools[name].lastSources ==
        SourcesAfter(tools[name].store.search(BindArgs(args).value), tools[name].store.catalog, old(tools[name].lastSources))
    {
      if name !in tools {
        return Returned(NotFound(name));
      }
      var bound := BindArgs(args);
      match bound {
        case Failure(message) =>
          out := Raised(message);
        case Success(req) =>
          var text := tools[name].Execute(req.query, req.courseName, req.lessonNumber);
          out := Returned(text);
      }
    }

    /** The citations of the first registered tool that holds any, else none. */
    function GetLastSources(): (sources: seq<Citation>)
      reads this, tools.Values
      requires Valid()
      ensures sources == [] <==> forall n :: n in tools ==> tools[n].lastSources == []
      ensures sources != [] ==>
        exists i :: 0 <= i < |order| && sources == tools[order[i]].lastSources
                    && forall j :: 0 <= j < i ==> tools[order[j]].lastSources == []
    {
      FirstSources(order)
    }

    function FirstSources(names: seq<string>): (sources: seq<Citation>)
      reads this, tools.Values
      requires forall n <- names :: n in tools
      ensures sources == [] <==> forall i :: 0 <= i < |names| ==> tools[names[i]].lastSources == []
      ensures sources != [] ==>
        exists i :: 0 <= i < |names| && sources == tools[names[i]].lastSources
                    && forall j :: 0 <= j < i ==> tools[names[j]].lastSources == []
      decreases |names|
    {
      if names == [] then []
      else if tools[names[0]].lastSources != [] then tools[names[0]].lastSources
      else FirstSources(names[1..])
    }

    /** Clears the citations of every registered tool. */
    method ResetSources()
      requires Valid()
      modifies tools.Values
      ensures forall n :: n in tools ==> tools[n].lastSources == []
      ensures GetLastSources() == []
    {
      for i := 0 to |order|
        invariant forall j :: 0 <= j < i ==> tools[order[j]].lastSources == []
      {
        tools[order[i]].lastSources := [];
      }
    }
  }
}
