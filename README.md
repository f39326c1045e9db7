# Course-materials assistant: tool orchestration and course search

This project models, in Dafny, the core of a retrieval-augmented course
assistant. It proves properties of that model. The model has two parts.

**The generator's bounded tool loop** (`AIGenerator`, backend/ai_generator.py):

- A user query goes to a text-generation provider, together with a system
  instruction. The instruction is the fixed prompt, plus the previous
  conversation when a non-empty one is given.
- When tool descriptors and a tool registry are both supplied, the generator
  runs up to `max_tool_rounds` rounds (3 by default). Each round is one
  provider call that offers the tools with tool choice "auto".
- If a reply stops for `tool_use`, every tool invocation in it is run in
  order through the registry. An exception becomes the text
  `Tool execution failed: <message>`. The results go back to the provider as
  one user message.
- A reply that does not ask for tools ends the loop with its concatenated
  text, or a fixed apology when it has none.
- When the budget is used up, one forced final call is made without tools.
  It carries the instruction to answer from what was gathered.
- Without tools or without a registry, the generator makes a single plain
  call.
- A legacy single-round path runs the tools of one reply and then makes one
  call without tools.

The provider is a script: `responses[k]` is the reply to the k-th call, and
every request issued is recorded. A script that runs out stands for a
transport fault, which is fatal for the request. `content[0].text` on an
empty reply, or on one starting with a non-text block, is a fatal fault too.

**The course search tool and the tool registry** (`CourseSearchTool` and
`ToolManager`). The tool forwards a query and optional course and lesson
filters to the vector store. It returns one of three texts:

- the store's error, verbatim;
- "No relevant content found", followed by clauses that name the filters
  applied;
- the hits, formatted as `[<course> - Lesson <n>]` (or `[<course>]` when
  there is no lesson), a newline, and the document, with a blank line
  between hits.

Only a formatted result replaces the tool's citations, with one citation per
hit. A citation's link comes from the course catalog's lesson table. A
missing lesson number, an unknown course, an unreadable table or an absent
lesson all give no link.

The registry:

- stores tools by descriptor name, and refuses a missing name;
- lets the last registration of a name win;
- lists descriptors in registration order;
- dispatches an invocation by name with keyword arguments, and answers an
  unknown name with `Tool '<name>' not found`;
- reports and clears citations.

The file search_tools.py is not part of this model. The behaviour of these
two classes is reconstructed from the assertions of
backend/tests/test_search_tools.py. Where those assertions leave a choice
open, the choice made is listed under "Left out".

Files:

- `wrappers.dfy`: Option and Result.
- `strings.dfy`: decimal rendering, with its round trip; `join`, with its
  layout; substring search.
- `conversation.dfy`: blocks, messages, requests and replies.
- `ai_generator.dfy`: the loop's specification functions, and the methods
  proved against them.
- `ai_generator_properties.dfy`: the call budget, the forced final call, the
  transcript and pairing properties, and whole-request lemmas.
- `course_search.dfy` and `course_search_properties.dfy`: the search tool.
- `tool_registry.dfy` and `tool_registry_properties.dfy`: the registry.
- `end_to_end.dfy`: the generator driven by the registry's dispatch.

## Model

| member | source | states |
|---|---|---|
| AIGenerator.DefaultGenerator | backend/ai_generator.py:37-40 | a generator built without a round budget keeps its model and prompt and allows three tool rounds |
| AIGenerator.SystemContent | backend/ai_generator.py:66-71 | the system text starts with the prompt; it is the prompt alone exactly when the history is absent or empty, otherwise the prompt, the "Previous conversation" header, then the history |
| AIGenerator.FinalText | backend/ai_generator.py:136-145 | the answer is never empty: it is the concatenated text when that is non-empty, else the apology |
| AIGenerator.FirstText | backend/ai_generator.py:88 | `content[0].text` succeeds exactly when the reply is non-empty and starts with a text block, and then yields that block's text |
| AIGenerator.ToolUses | backend/ai_generator.py:169-170 | the invocations of a reply are tool-use blocks only, and never more than the reply's blocks |
| AIGenerator.RunTool | backend/ai_generator.py:171-192 | a result carries its invocation's id; its content is the tool's text, or "Tool execution failed: " followed by the exception's message |
| AIGenerator.ToolResults | backend/ai_generator.py:157-195 | exactly one result per invocation, the k-th answering the k-th invocation |
| AIGenerator.GenerateResponse | backend/ai_generator.py:49-88 | the calls issued, the conversation and the outcome are those of the request's specification (tool loop with tools and a registry, else one plain call) |
| AIGenerator.HandleSequentialToolCalling | backend/ai_generator.py:90-155 | the while loop issues the calls and builds the conversation the bounded-round specification prescribes, and returns its outcome |
| AIGenerator.ExecuteToolCalls | backend/ai_generator.py:157-195 | the loop over the reply's blocks yields one result per invocation in order |
| AIGenerator.ExtractText | backend/ai_generator.py:138-143 | the loop concatenates the text blocks in order |
| AIGenerator.HandleToolExecution | backend/ai_generator.py:197-232 | the legacy path's calls, conversation and outcome are those of its single-round specification |
| AIGeneratorProperties.TextOfEmpty | backend/ai_generator.py:138-145 | the concatenated text is empty if and only if every text block is empty |
| AIGeneratorProperties.ApologyWhenNoText | backend/ai_generator.py:145 | a reply without non-empty text yields the apology |
| AIGeneratorProperties.ToolUsesAppend | backend/ai_generator.py:169-170 | selecting invocations distributes over concatenation, so emitted order is kept |
| AIGeneratorProperties.ToolUsesSingle | backend/ai_generator.py:170 | a single block is selected exactly when it is a tool-use block |
| AIGeneratorProperties.ToolResultsAnswer | backend/ai_generator.py:169-193 | results answer invocations one for one, in order, by id |
| AIGeneratorProperties.ToolCallCount | backend/ai_generator.py:109-115 | the number of tool-offering calls never exceeds the number of calls |
| AIGeneratorProperties.ToolCallCountAll | backend/ai_generator.py:109-115 | when every call offers tools, they are all counted |
| AIGeneratorProperties.RoundsCallsGrow | backend/ai_generator.py:104-155 | the loop only appends calls: the calls issued before stay a strict prefix of the calls it ends with |
| AIGeneratorProperties.RoundsKeepMessages | backend/ai_generator.py:104-131 | the starting conversation stays a prefix of the final conversation and of the first call's messages |
| AIGeneratorProperties.RoundsCallFixed | backend/ai_generator.py:109-115 | every call the loop issues carries the generator's model, temperature 0, 800 max tokens and the same system text |
| AIGeneratorProperties.RoundsCallTools | backend/ai_generator.py:109-115 | every call the loop issues except the last offers the tools |
| AIGeneratorProperties.RoundsLastCall | backend/ai_generator.py:147-155 | a last call with tools lies within the budget; a last call without tools is the forced final call, on the conversation plus the final instruction, after the whole budget |
| AIGeneratorProperties.RoundsCallBudget | backend/ai_generator.py:104-107 | at most one tool-offering call per remaining round, and at most one call without tools |
| AIGeneratorProperties.RoundsAllToolUse | backend/ai_generator.py:104-155 | when every reply within the budget asks for tools, the loop uses the whole budget, then makes the forced final call, whose reply's first text is the outcome |
| AIGeneratorProperties.RoundsStopOnAnswer | backend/ai_generator.py:125-145 | a reply not stopping for tool use ends the loop at once, with its text as the answer |
| AIGeneratorProperties.ExchangesArePaired | backend/ai_generator.py:120-130 | a conversation built from replies and their results pairs each invocation with a result, by id |
| AIGeneratorProperties.RoundsTranscript | backend/ai_generator.py:104-131 | the conversation only grows: the starting messages stay a prefix, and what is added is each consumed reply as an assistant message followed by one user message holding its results, in order |
| AIGeneratorProperties.RespondWithoutTools | backend/ai_generator.py:77-88 | without tools or a registry: one call without tools, on the query alone |
| AIGeneratorProperties.RespondWithTools | backend/ai_generator.py:66-78 | with tools and a registry: the call budget holds, the first call starts with the query and carries the system text, and every invocation is answered by id |
| AIGeneratorProperties.RespondFirstAnswer | backend/ai_generator.py:117-145 | a first reply that does not ask for tools gives exactly one call, offering the tools, and its text is the answer |
| AIGeneratorProperties.RespondAllToolUse | backend/ai_generator.py:104-155 | when the first max_tool_rounds replies all ask for tools, there are max_tool_rounds tool-offering calls, then one forced final call without tools on the conversation plus the final instruction, and its reply's first text is the answer |
| AIGeneratorProperties.SingleRoundShape | backend/ai_generator.py:210-232 | the legacy path makes one call without tools; the caller's messages stay a prefix; the reply follows, then its results only if it invoked a tool, answered by id |
| CourseSearch.SearchToolDefinition | backend/tests/test_search_tools.py:11-24 | the descriptor is named search_course_content, lists query, course_name and lesson_number, and requires only query |
| CourseSearch.FormattedBlocks | backend/tests/test_search_tools.py:142-183 | one block per hit, pairing each document with its metadata in ranking order |
| CourseSearch.LessonUrl | backend/tests/test_search_tools.py:185-223 | a link is found exactly when a lesson is given, the course is in the catalog, its table is readable and lists the lesson; the link is that entry |
| CourseSearch.Citations | backend/tests/test_search_tools.py:127-140 | one citation per hit, in order, titled with the course and lesson, with the lesson's resolved link |
| CourseSearch.CourseSearchTool.constructor | backend/tests/test_search_tools.py:11-24 | a new tool holds the store and the search descriptor, and no citations |
| CourseSearch.CourseSearchTool.WithDefinition | backend/tests/test_search_tools.py:267-272 | a tool over the store that advertises a given descriptor, such as one without a name, and holds no citations |
| CourseSearch.CourseSearchTool.Execute | backend/tests/test_search_tools.py:26-140 | the text is the store's error, or the no-results message, or the formatted hits; the citations are rebuilt only for formatted hits |
| CourseSearch.CourseSearchTool.FormatAndTrack | backend/tests/test_search_tools.py:142-183 | the loop formats every hit and replaces the citations with one per hit |
| CourseSearchProperties.ExecuteOutcomes | backend/tests/test_search_tools.py:97-140 | an error is returned verbatim and an empty result gives the no-results message, both keeping the citations; a formatted result gives one citation per hit |
| CourseSearchProperties.FormatResultsLayout | backend/tests/test_search_tools.py:156-169 | each hit's block sits whole at its offset, in ranking order, followed by a blank line when another block follows |
| CourseSearchProperties.HitIsShown | backend/tests/test_search_tools.py:26-42 | every hit's header, course title and document appear in the text |
| CourseSearchProperties.NoResultsSaysSo | backend/tests/test_search_tools.py:97-103 | the empty-result message begins "No relevant content found" |
| CourseSearchProperties.NoResultsNamesCourse | backend/tests/test_search_tools.py:105-117 | the empty-result message names the course filter |
| CourseSearchProperties.NoResultsNamesLesson | backend/tests/test_search_tools.py:105-117 | the empty-result message names the lesson filter as "lesson <n>" |
| CourseSearchProperties.HeaderIdentifiesLesson | backend/tests/test_search_tools.py:171-183 | within one course, equal headers mean equal lesson numbers, so a header without a lesson never equals one with a lesson |
| CourseSearchProperties.CitationLink | backend/tests/test_search_tools.py:127-140 | a citation is titled with its hit's label, and has a link exactly when the hit's lesson resolves in its course's table |
| CourseSearchProperties.OneHitWithLesson | backend/tests/test_search_tools.py:142-154 | one hit of lesson 1 of "AI Basics" formats as "[AI Basics - Lesson 1]", a newline and the document |
| CourseSearchProperties.AIBasicsLessonOne | backend/tests/test_search_tools.py:142-154 | lesson 1 of "AI Basics" is labelled exactly "[AI Basics - Lesson 1]" |
| CourseSearchProperties.OneHitWithoutLesson | backend/tests/test_search_tools.py:171-183 | for every course title and document, a single hit without a lesson formats as "[<title>]", a newline and the document |
| ToolRegistry.RegistrationName | backend/tests/test_search_tools.py:259-274 | a descriptor registers under its name exactly when it has a non-empty one; otherwise registration fails with "Tool must have a 'name'" |
| ToolRegistry.BindArgs | backend/tests/test_search_tools.py:225-236 | binding refuses a missing query or an unknown keyword; on success the query and each filter are exactly the arguments given, and an absent filter is none |
| ToolRegistry.ToolManager.constructor | backend/tests/test_search_tools.py:298-304 | a new registry is empty |
| ToolRegistry.ToolManager.RegisterTool | backend/tests/test_search_tools.py:259-274 | registration stores the tool under its descriptor name, the last registration winning and order kept; a nameless descriptor changes nothing |
| ToolRegistry.ToolManager.GetToolDefinitions | backend/tests/test_search_tools.py:276-284 | one descriptor per registered name, in registration order, each named by its key, with no name twice |
| ToolRegistry.ToolManager.ExecuteTool | backend/tests/test_search_tools.py:286-304 | the outcome is the registry's dispatch: not-found text, a binding exception, or the search text; only the invoked tool's citations change, as its search prescribes |
| ToolRegistry.ToolManager.GetLastSources | backend/tests/test_search_tools.py:306-319 | the citations are empty exactly when every tool's are; otherwise they are those of the first registered tool that holds any |
| ToolRegistry.ToolManager.ResetSources | backend/tests/test_search_tools.py:321-335 | every registered tool's citations are cleared, so the registry reports none |
| ToolRegistryProperties.BindArgsRoundTrip | backend/tests/test_search_tools.py:79-95 | the keyword arguments for a request bind back to exactly that request |
| ToolRegistryProperties.QueryAlone | backend/tests/test_search_tools.py:26-37 | a query alone binds to an unfiltered search |
| ToolRegistryProperties.DispatchDelegates | backend/tests/test_search_tools.py:286-304 | a registered name's search is delegated unchanged; an unregistered name yields "Tool '<name>' not found" |
| ToolRegistryProperties.DispatchRaisesOnBadArgs | backend/ai_generator.py:171-192 | arguments without a query surface as an exception, which the generator turns into a failure text |
| ToolRegistryProperties.RegisterSearchTool | backend/tests/test_search_tools.py:259-284 | registering the search tool succeeds under its name and offers exactly its descriptor |
| ToolRegistryProperties.RegisterNameless | backend/tests/test_search_tools.py:267-274 | registering a tool whose descriptor has no name fails with "Tool must have a 'name'" and leaves the registry empty |
| ToolRegistryProperties.RegisterTwice | backend/tests/test_search_tools.py:259-265 | a second registration under the same name replaces the first and keeps one descriptor |
| ToolRegistryProperties.InvokeUnregistered | backend/tests/test_search_tools.py:298-304 | an empty registry answers any invocation with "Tool '<name>' not found" |
| ToolRegistryProperties.SourcesThenReset | backend/tests/test_search_tools.py:306-335 | a search through the registry makes it report that search's citations, and after a reset it reports none |
| ToolRegistryProperties.RepeatedSearch | backend/tests/test_search_tools.py:238-253 | repeating a search leaves the same citations, one per hit, not accumulated ones |
| EndToEnd.SearchRoundTracksSources | backend/tests/test_ai_generator.py:298-345 | running that round's invocation through a registry holding the search tool answers as the generator's dispatch does, and leaves the tool one citation per formatted hit, so at least one when the search has hits |
| EndToEnd.SearchThenAnswer | backend/tests/test_ai_generator.py:298-345 | one search round then a text reply: two calls, the second carrying the search text as the invocation's result, and the reply's text as the answer |

## Left out

- search_tools.py is not part of this model. `CourseSearchTool` and `ToolManager` follow the behaviour their unit tests fix.
- The vector store's semantic search, fuzzy course-name resolution, distances and result limit are a parameter, a total function from the request to its results.
- Reading the catalog and parsing the stored lesson-link JSON is reduced to a parsed table, or `Unparseable`.
- The wording of the system prompt is left out. It is a parameter of the generator.
- The tool descriptor's description text and the `input_schema` wrapper with `"type": "object"` are left out. Only the name, the properties and the required list are modelled.
- Provider calls, the API key and client construction are left out. Replies are a script. A transport fault is the script running out. The request parameters are recorded instead of being sent.
- ToolRegistry.ToolManager.GetLastSources scans tools in registration order and returns the first non-empty citations. A registry that reported the tool that executed most recently would differ. The two agree whenever only one tool holds citations, which is always the case with the single search tool.
- EndToEnd.SearchThenAnswer does not state that the search tool holds citations afterwards (backend/tests/test_ai_generator.py:345), because inside the generator the registry is a pure function. EndToEnd.SearchRoundTracksSources states it for the same invocation run through a `ToolManager`.
- ToolRegistry.ToolManager.RegisterTool holds `CourseSearchTool` objects only. A tool with a nameless descriptor, as the registration test builds with a mock, is a `CourseSearchTool.WithDefinition`; the search tool itself always has a name.
- CourseSearch.SourcesAfter keeps the previous citations after an error or an empty result; only a formatted result replaces them. The tests do not fix this case.
- CourseSearch.NoResultsMessage adds a course or lesson clause whenever that filter is present. Python truthiness would leave out an empty course name or lesson 0; the tests use neither.
- Metadata without a course title cannot be represented: `Metadata.courseTitle` is required. backend/tests/test_end_to_end.py:444-456 only expects such metadata to produce some text without crashing.
- Inside the generator, the registry is a pure function from name and arguments to an outcome. The loop does not thread the tools' citation updates. `ToolManager.ExecuteTool` states those updates separately.
- ToolRegistry.BindArgs refuses a query that is not a string, and filters of the wrong type. Python would pass such values on to the store.
- Exception texts are left out. The exact Python messages of `TypeError` (binding) and `ValueError` (registration) are shortened. The model keeps the "Tool must have a 'name'" prefix that the tests check.
- The registry holds only `CourseSearchTool` objects, the one tool kind of the core. web_browser_tool.py and app.py are not part of this model.
- The legacy path copies the caller's message list. With value semantics that copy is implicit, so aliasing of the caller's list is left out.
- The generator's constructor is the `Generator` datatype: model, tool-round budget and prompt. The fixed temperature 0 and limit of 800 tokens are constants.
- Concurrency across requests that share a registry is left out. The core handles one request at a time.
