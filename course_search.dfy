/**
 * The course search tool: it forwards a query and its optional course and
 * lesson filters to the vector store, turns what comes back into text for the
 * language model, and remembers citations for the hits it formatted.
 *
 * The vector store is an input: a total search function from the request to
 * its results, and the course catalog's lesson-link tables as a map from
 * course title to the parsed table (or to `Unparseable` when the stored table
 * cannot be read).
 */
module CourseSearch {
  import opened Wrappers
  import opened Strings
  import opened Conversation

  const TOOL_NAME: string := "search_course_content"
  const NO_CONTENT: string := "No relevant content found"
  const BLOCK_SEPARATOR: string := "\n\n"

  /** What the store knows of one hit. */
  datatype Metadata = Metadata(courseTitle: string, lessonNumber: Option<int>, chunkIndex: Option<int>)

  /** Ranked hits (documents and metadata side by side), or an error from the store. */
  datatype SearchResults = SearchResults(documents: seq<string>, metadata: seq<Metadata>, error: Option<string>)

  /** The arguments the tool hands to the store's search. */
  datatype SearchRequest = SearchRequest(query: string, courseName: Option<string>, lessonNumber: Option<int>)

  /** A course's lesson-link table as stored in the catalog. */
  datatype LessonTable = Lessons(links: map<int, string>) | Unparseable

  datatype Store = Store(search: SearchRequest -> SearchResults, catalog: map<string, LessonTable>)

  /** A user-facing attribution: a title and, when it resolves, the lesson's link. */
  datatype Citation = Citation(title: string, url: Option<string>)

  /** The tool's descriptor: its name, and `query` as the only required parameter. */
  function SearchToolDefinition(): (d: ToolDefinition)
    ensures d.name == Some(TOOL_NAME)
    ensures d.required == ["query"]
    ensures "query" in d.properties && "course_name" in d.properties && "lesson_number" in d.properties
  {
    ToolDefinition(Some(TOOL_NAME), "Search course materials with optional course and lesson filters",
                   ["query", "course_name", "lesson_number"], ["query"])
  }

  // ---------------------------------------------------------------------------
  // Formatting

  /** The label of a hit: the course title, followed by the lesson when it is known. */
  function SourceTitle(meta: Metadata): string {
    meta.courseTitle + (if meta.lessonNumber.Some? then " - Lesson " + IntToString(meta.lessonNumber.value) else "")
  }

  function Header(meta: Metadata): string {
    "[" + SourceTitle(meta) + "]"
  }

  /** One hit for the model: its bracketed header, a newline, then the document. */
  function FormatBlock(document: string, meta: Metadata): string {
    Header(meta) + "\n" + document
  }

  /** The formatted hits, pairing documents with metadata in ranking order. */
  function FormattedBlocks(documents: seq<string>, metadata: seq<Metadata>): (blocks: seq<string>)
    ensures |blocks| == if |documents| < |metadata| then |documents| else |metadata|
    ensures forall k :: 0 <= k < |blocks| ==> blocks[k] == FormatBlock(documents[k], metadata[k])
    decreases |documents|
  {
    if documents == [] || metadata == [] then []
    else [FormatBlock(documents[0], metadata[0])] + FormattedBlocks(documents[1..], metadata[1..])
  }

  /** All formatted hits, separated by a blank line. */
  function FormatResults(results: SearchResults): string {
    Join(FormattedBlocks(results.documents, results.metadata), BLOCK_SEPARATOR)
  }

  // ---------------------------------------------------------------------------
  // Citations

  /**
   * The link of a course's lesson; none when no lesson is given, the course is
   * not in the catalog, its table cannot be read, or the lesson is not in it.
   */
  function LessonUrl(catalog: map<string, LessonTable>, courseTitle: string, lesson: Option<int>): (url: Option<string>)
    ensures url.Some? <==>
      && lesson.Some?
      && courseTitle in catalog
      && catalog[courseTitle].Lessons?
      && lesson.value in catalog[courseTitle].links
    ensures url.Some? ==> url.value == catalog[courseTitle].links[lesson.value]
  {
    if lesson.None? || courseTitle !in catalog then None
    else match catalog[courseTitle]
      case Unparseable => None
      case Lessons(links) => if lesson.value in links then Some(links[lesson.value]) else None
  }

  /** One citation per hit, in ranking order. */
  function Citations(documents: seq<string>, metadata: seq<Metadata>, catalog: map<string, LessonTable>): (cs: seq<Citation>)
    ensures |cs| == if |documents| < |metadata| then |documents| else |metadata|
    ensures forall k :: 0 <= k < |cs| ==>
      cs[k] == Citation(SourceTitle(metadata[k]), LessonUrl(catalog, metadata[k].courseTitle, metadata[k].lessonNumber))
    decreases |documents|
  {
    if documents == [] || metadata == [] then []
    else
      var meta := metadata[0];
      [Citation(SourceTitle(meta), LessonUrl(catalog, meta.courseTitle, meta.lessonNumber))]
      + Citations(documents[1..], metadata[1..], catalog)
  }

  // ---------------------------------------------------------------------------
  // Executing a search

  /** The message for an empty result, naming the filters that were applied. */
  function NoResultsMessage(courseName: Option<string>, lessonNumber: Option<int>): string {
    NO_CONTENT
    + (if courseName.Some? then " in course '" + courseName.value + "'" else "")
    + (if lessonNumber.Some? then " in lesson " + IntToString(lessonNumber.value) else "")
    + "."
  }

  /** Whether a result is formatted (and so replaces the citations): no error and at least one hit. */
  predicate Formats(results: SearchResults) {
    results.error.None? && |results.documents| > 0
  }

  /** The text a search returns: the store's error, the no-results message, or the formatted hits. */
  function ExecuteText(results: SearchResults, courseName: Option<string>, lessonNumber: Option<int>): string {
    if results.error.Some? then results.error.value
    else if |results.documents| == 0 then NoResultsMessage(courseName, lessonNumber)
    else FormatResults(results)
  }

  /** The citations after a search: rebuilt from a formatted result, otherwise kept. */
  function SourcesAfter(results: SearchResults, catalog: map<string, LessonTable>, previous: seq<Citation>): seq<Citation> {
    if Formats(results) then Citations(results.documents, results.metadata, catalog) else previous
  }

  class CourseSearchTool {
    const store: Store
    const definition: ToolDefinition
    var lastSources: seq<Citation>

    constructor (store: Store)
      ensures this.store == store && definition == SearchToolDefinition() && lastSources == []
    {
      this.store := store;
      definition := SearchToolDefinition();
      lastSources := [];
    }

    /** A tool over `store` that advertises another descriptor, possibly one without a name. */
    constructor WithDefinition(store: Store, definition: ToolDefinition)
      ensures this.store == store && this.definition == definition && lastSources == []
    {
      this.store := store;
      this.definition := definition;
      lastSources := [];
    }

    method Execute(query: string, courseName: Option<string>, lessonNumber: Option<int>) returns (text: string)
      modifies this
      ensures text == ExecuteText(store.search(SearchRequest(query, courseName, lessonNumber)), courseName, lessonNumber)
      ensures lastSources ==
        SourcesAfter(store.search(SearchRequest(query, courseName, lessonNumber)), store.catalog, old(lastSources))
    {
      var results := store.search(SearchRequest(query, courseName, lessonNumber));
      if results.error.Some? {
        return results.error.value;
      }
      if |results.documents| == 0 {
        return NoResultsMessage(courseName, lessonNumber);
      }
      text := FormatAndTrack(results);
    }

    /** Formats every hit and replaces the citations with one per hit. */
    method FormatAndTrack(results: SearchResults) returns (text: string)
      modifies this
      ensures text == FormatResults(results)
      ensures lastSources == Citations(results.documents, results.metadata, store.catalog)
    {
      var documents, metadata := results.documents, results.metadata;
      var n := if |documents| < |metadata| then |documents| else |metadata|;
      var formatted: seq<string> := [];
      var sources: seq<Citation> := [];
      for i := 0 to n
        invariant |formatted| == i && |sources| == i
        invariant forall k :: 0 <= k < i ==> formatted[k] == FormatBlock(documents[k], metadata[k])
        invariant forall k :: 0 <= k < i ==>
          sources[k] == Citation(SourceTitle(metadata[k]), LessonUrl(store.catalog, metadata[k].courseTitle, metadata[k].lessonNumber))
      {
        var meta := metadata[i];
        var title := SourceTitle(meta);
        formatted := formatted + ["[" + title + "]" + "\n" + documents[i]];
        sources := sources + [Citation(title, LessonUrl(store.catalog, meta.courseTitle, meta.lessonNumber))];
      }
      lastSources := sources;
      assert formatted == FormattedBlocks(documents, metadata);
      text := Join(formatted, BLOCK_SEPARATOR);
    }
  }
}
