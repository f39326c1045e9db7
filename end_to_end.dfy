/**
 * The orchestrator driven with the registry's dispatch: a reply that asks for
 * one course search, then a text reply.
 */
module EndToEnd {
  import opened Wrappers
  import opened Conversation
  import opened CourseSearch
  import opened AIGenerator
  import ToolRegistry
  import ToolRegistryProperties

  /** The registry's dispatch over fixed stores, as the orchestrator sees it. */
  function RegistryDispatch(stores: map<string, Store>): Dispatch {
    (name, args) => ToolRegistry.Dispatch(stores, name, args)
  }

  /** The registry answers the search invocation with the search tool's text. */
  lemma SearchInvocation(stores: map<string, Store>, req: SearchRequest, id: string)
    requires TOOL_NAME in stores
    ensures ToolResults([ToolUse(id, TOOL_NAME, ToolRegistry.ArgsOf(req))], RegistryDispatch(stores))
         == [ToolResult(id, ExecuteText(stores[TOOL_NAME].search(req), req.courseName, req.lessonNumber))]
  {
    var use := ToolUse(id, TOOL_NAME, ToolRegistry.ArgsOf(req));
    ToolRegistryProperties.DispatchDelegates(stores, TOOL_NAME, req);
    assert [use][..0] == [];
  }

  /** A reply made of one text block answers with that text and invokes nothing. */
  lemma TextReply(answer: string, d: Dispatch)
    ensures TextOf([Text(answer)]) == answer
    ensures ToolResults([Text(answer)], d) == []
  {
    assert [Text(answer)][..0] == [];
  }

  /**
   * One search round then an answer: exactly two provider calls, the second
   * carrying the search tool's text as the result of the invocation, and the
   * answer is the second reply's text.
   */
  lemma SearchThenAnswer(g: Generator, query: string, tools: seq<ToolDefinition>, stores: map<string, Store>,
                         req: SearchRequest, id: string, answer: string)
    requires tools != [] && g.maxToolRounds >= 2
    requires TOOL_NAME in stores
    ensures
      var use := ToolUse(id, TOOL_NAME, ToolRegistry.ArgsOf(req));
      var run := Respond(g, query, None, tools, Some(RegistryDispatch(stores)),
                         [Response([use], TOOL_USE), Response([Text(answer)], "end_turn")]);
      && run.outcome == Answer(if answer != "" then answer else APOLOGY)
      && |run.calls| == 2
      && run.calls[1].messages ==
         [UserQuery(query), AssistantMessage([use]),
          ResultsMessage([ToolResult(id, ExecuteText(stores[TOOL_NAME].search(req), req.courseName, req.lessonNumber))])]
  {
    var d := RegistryDispatch(stores);
    var use := ToolUse(id, TOOL_NAME, ToolRegistry.ArgsOf(req));
    var first, second := Response([use], TOOL_USE), Response([Text(answer)], "end_turn");
    var e := Env(g, SystemContent(g.systemPrompt, None), tools, d, [first, second]);
    var text := ExecuteText(stores[TOOL_NAME].search(req), req.courseName, req.lessonNumber);
    SearchInvocation(stores, req, id);
    TextReply(answer, d);
    var m0 := [UserQuery(query)];
    var m1 := m0 + [AssistantMessage([use])] + [ResultsMessage([ToolResult(id, text)])];
    var calls1 := [ToolRequest(e, m0)];
    assert Rounds(e, 0, m0, []) == Rounds(e, 1, m1, calls1);
    assert Rounds(e, 1, m1, calls1)
        == Run(Answer(FinalText([Text(answer)])), calls1 + [ToolRequest(e, m1)], m1 + [AssistantMessage([Text(answer)])]);
  }

  /**
   * The invocation of that round, run through a registry holding one search
   * tool: the registry's answer is the dispatch the generator is given, and
   * the tool then holds one citation per formatted hit.
   */
  method SearchRoundTracksSources(store: Store, req: SearchRequest)
    returns (out: ToolOutcome, sources: seq<Citation>)
    ensures out == RegistryDispatch(map[TOOL_NAME := store])(TOOL_NAME, ToolRegistry.ArgsOf(req))
    ensures sources == SourcesAfter(store.search(req), store.catalog, [])
    ensures Formats(store.search(req)) && |store.search(req).metadata| > 0 ==> |sources| > 0
  {
    var tool := new CourseSearchTool(store);
    var manager := new ToolRegistry.ToolManager();
    var _ := manager.RegisterTool(tool);
    assert manager.tools == map[TOOL_NAME := tool];
    ToolRegistryProperties.BindArgsRoundTrip(req);
    assert manager.Snapshot() == map[TOOL_NAME := store];
    out := manager.ExecuteTool(TOOL_NAME, ToolRegistry.ArgsOf(req));
    sources := tool.lastSources;
  }
}
