/**
 * The assistant session: its history, its tool catalog, and one turn of
 * `handle_input` (two messages appended, then one run of the graph).
 */
module Assistant {
  import opened Outcomes
  import opened Messages
  import opened History
  import opened Catalog
  import opened Graph
  import ToolManager
  import AdminTools

  /** The system message content sent at the start of every turn. */
  const SystemPrompt: string := "\n            Ты — секретарь-помощник. Пользователь даёт команды. \n            Определи, какие инструменты нужно вызвать и в каком порядке.\n            Если несколько задач — выполняй последовательно.\n        "

  /** The assistant's state: the history and the discovered external tools. */
  datatype Session = Session(history: seq<Message>, external: seq<Tool>)

  /** A discovered object as a catalog entry. */
  function ToTool(o: ToolManager.Obj): Tool
    requires ToolManager.IsTool(o)
  {
    Tool(o.name.value, o.description.value)
  }

  /** Catalog entries for discovered objects, in discovery order. */
  function ToTools(objs: seq<ToolManager.Obj>): (ts: seq<Tool>)
    requires forall k :: 0 <= k < |objs| ==> ToolManager.IsTool(objs[k])
    ensures |ts| == |objs|
    ensures forall k :: 0 <= k < |objs| ==> ts[k] == ToTool(objs[k])
  {
    if |objs| == 0 then [] else [ToTool(objs[0])] + ToTools(objs[1..])
  }

  /** A new assistant: empty history, and the tools discovered in the given package. */
  function NewSession(modules: seq<ToolManager.Module>): (s: Session)
    ensures s.history == []
    ensures var found := ToolManager.LoadTools(modules);
            && |s.external| == |found|
            && forall k :: 0 <= k < |found| ==>
                 s.external[k] == Tool(found[k].name.value, found[k].description.value)
  {
    Session([], ToTools(ToolManager.LoadTools(modules)))
  }

  /** `self.tools`. */
  function Tools(s: Session): seq<Tool> {
    ToolCatalog(s.external)
  }

  /** The history `handle_input` hands to the graph: the old history, the system message, the user's text. */
  function StartTurn(h: seq<Message>, input: string): (r: seq<Message>)
    ensures |r| == |h| + 2
    ensures r[..|h|] == h
    ensures r[|h|] == SystemMsg(SystemPrompt) && r[|h| + 1] == HumanMsg(input)
  {
    h + [SystemMsg(SystemPrompt), HumanMsg(input)]
  }

  /** The session after the turn, the graph's final messages (none if it raised), and what was printed. */
  datatype TurnResult = TurnResult(session: Session, result: Option<seq<Message>>, printed: Option<string>)

  /** The answer `handle_input` prints: the last message's content, when there is one. */
  function Surfaced(result: Option<seq<Message>>): (out: Option<string>)
    ensures out.Some? <==> result.Some? && |result.value| > 0 && HasContent(Last(result.value))
    ensures out.Some? ==> out.value != "" && out.value == Last(result.value).content
  {
    if result.Some? && |result.value| > 0 && HasContent(Last(result.value))
    then Some(Last(result.value).content)
    else None
  }

  /**
   * `handle_input`: the history grows by the system and user messages, the
   * graph runs under the recursion limit, and an exception yields no result.
   */
  function HandleInput(s: Session, input: string, backend: nat -> Response, tools: ToolOracle): (t: TurnResult)
    ensures t.session.external == s.external
  {
    var f := Run(Initial(StartTurn(s.history, input)), backend, tools, RecursionLimit);
    var result := if f.node == End then Some(f.messages) else None;
    TurnResult(s.(history := f.history), result, Surfaced(result))
  }

  /** `clear_history` (the session method): the history is emptied, the tools are kept. */
  function ClearHistory(s: Session): (s': Session)
    ensures s'.history == [] && s'.external == s.external
  {
    s.(history := Clear(s.history))
  }

  /** `get_history_text`. */
  function GetHistoryText(s: Session): string {
    HistoryText(s.history)
  }

  /** `get_welcome_message`. */
  function WelcomeMessage(s: Session): string {
    Welcome(Tools(s))
  }

  /**
   * After a turn the history is the old history plus the system message, the
   * user's message and the model's reply (if one came back), or empty if the
   * reply called `clear_history`. Tool results are never added to it.
   */
  lemma TurnHistory(s: Session, input: string, backend: nat -> Response, tools: ToolOracle)
    ensures var t := HandleInput(s, input, backend, tools);
            var r := backend(0);
            var start := StartTurn(s.history, input);
            && t.session.history ==
                 (if r.Reply? && RequestsTools(r.Answer()) && ClearsHistory(r.calls) then []
                  else start + (if r.Reply? then [r.Answer()] else []))
            && |t.session.history| <= |s.history| + 3
            && forall m :: m in t.session.history && m !in s.history ==> !m.ToolMsg?
  {
    TurnOutcome(StartTurn(s.history, input), backend, tools);
  }

  /**
   * What a turn prints: nothing when the model call raised; the model's
   * answer when it requested no tools; the last tool result when it did.
   */
  lemma TurnPrints(s: Session, input: string, backend: nat -> Response, tools: ToolOracle)
    ensures var t := HandleInput(s, input, backend, tools);
            var r := backend(0);
            && (r.Raises? ==> t.printed == None && t.result == None)
            && (r.Falsy? ==> t.printed == (if input != "" then Some(input) else None))
            && (r.Reply? && !RequestsTools(r.Answer()) ==>
                  t.printed == (if r.content != "" then Some(r.content) else None))
            && (r.Reply? && RequestsTools(r.Answer()) ==>
                  var n := |r.calls|;
                  t.printed == (if r.calls[n - 1].name == ClearHistoryName then Some(AdminTools.ClearedText)
                                else if tools(0, n - 1) != "" then Some(tools(0, n - 1))
                                else None))
  {
    var r := backend(0);
    if r.Falsy? {
      PrintsOnFalsy(s, input, backend, tools);
    } else if r.Reply? && RequestsTools(r.Answer()) {
      PrintsToolResult(s, input, backend, tools);
    } else if r.Reply? {
      PrintsAnswer(s, input, backend, tools);
    } else {
      TurnOutcome(StartTurn(s.history, input), backend, tools);
    }
  }

  /** A falsy reply leaves the user's message last, and that is what is printed. */
  lemma PrintsOnFalsy(s: Session, input: string, backend: nat -> Response, tools: ToolOracle)
    requires backend(0).Falsy?
    ensures HandleInput(s, input, backend, tools).printed == (if input != "" then Some(input) else None)
  {
    var start := StartTurn(s.history, input);
    TurnOutcome(start, backend, tools);
    assert Last(start) == HumanMsg(input);
  }

  /** A reply requesting no tools is the last message, and its content is printed. */
  lemma PrintsAnswer(s: Session, input: string, backend: nat -> Response, tools: ToolOracle)
    requires backend(0).Reply? && !RequestsTools(backend(0).Answer())
    ensures var r := backend(0);
            HandleInput(s, input, backend, tools).printed == (if r.content != "" then Some(r.content) else None)
  {
    var start := StartTurn(s.history, input);
    TurnOutcome(start, backend, tools);
    assert Last(start + [backend(0).Answer()]) == backend(0).Answer();
  }

  /** After a dispatch, the result of the last call is the last message, and its text is printed. */
  lemma PrintsToolResult(s: Session, input: string, backend: nat -> Response, tools: ToolOracle)
    requires backend(0).Reply? && RequestsTools(backend(0).Answer())
    ensures var r := backend(0);
            var n := |r.calls|;
            HandleInput(s, input, backend, tools).printed ==
              (if r.calls[n - 1].name == ClearHistoryName then Some(AdminTools.ClearedText)
               else if tools(0, n - 1) != "" then Some(tools(0, n - 1))
               else None)
  {
    var start := StartTurn(s.history, input);
    DispatchOutcome(start, backend, tools);
    var r := backend(0);
    var ans := r.Answer();
    var outs := ToolOutputs(r.calls, start + [ans], tools, 0);
    var n := |r.calls|;
    var f := Run(Initial(start), backend, tools, RecursionLimit);
    assert HandleInput(s, input, backend, tools).printed == Surfaced(Some(f.messages));
    assert Last(f.messages) == outs[n - 1];
    assert outs[n - 1].content == CallResult(r.calls[n - 1], start + [ans], tools, 0, n - 1);
  }

  /** A direct answer: empty history, "hello" in, "hi" back and printed. */
  lemma DirectAnswer(backend: nat -> Response, tools: ToolOracle)
    requires backend(0) == Reply("hi", [])
    ensures var t := HandleInput(Session([], []), "hello", backend, tools);
            && t.printed == Some("hi")
            && t.session.history == [SystemMsg(SystemPrompt), HumanMsg("hello"), AIMsg("hi", [])]
  {
    TurnHistory(Session([], []), "hello", backend, tools);
    TurnPrints(Session([], []), "hello", backend, tools);
  }

  /**
   * The model's reply ends with a call to `clear_history`: the history ends
   * empty, as that tool leaves it, and the turn prints that tool's reply.
   */
  lemma ClearByTool(s: Session, input: string, backend: nat -> Response, tools: ToolOracle)
    requires backend(0).Reply? && |backend(0).calls| > 0
    requires Last(backend(0).calls).name == ClearHistoryName
    ensures var t := HandleInput(s, input, backend, tools);
            var start := StartTurn(s.history, input);
            && t.session.history == AdminTools.ClearHistoryTool(start + [backend(0).Answer()]).history
            && t.printed == Some(AdminTools.ClearHistoryTool(start + [backend(0).Answer()]).reply)
  {
    var calls := backend(0).calls;
    assert ClearsHistory(calls) by {
      assert calls[|calls| - 1].name == ClearHistoryName;
    }
    TurnHistory(s, input, backend, tools);
    TurnPrints(s, input, backend, tools);
  }

  /** After clearing, the rendered history is empty and `show_history` gives its notice. */
  lemma ClearThenRender(s: Session)
    ensures GetHistoryText(ClearHistory(s)) == ""
    ensures ShowHistory(ClearHistory(s).history) == EmptyHistoryText
  {
    AfterClear(s.history);
  }

  /**
   * The welcome message of a new session lists the built-in tools and then the
   * discovered ones, one per line, in discovery order.
   */
  lemma WelcomeOrder(modules: seq<ToolManager.Module>)
    requires forall k :: 0 <= k < |ToolManager.LoadTools(modules)| ==> Text.SingleLine(ToolManager.LoadTools(modules)[k].name.value)
    ensures var found := ToolManager.LoadTools(modules);
            Text.Split(WelcomeMessage(NewSession(modules))) ==
              [WelcomeHeader] + Bullets(InternalTools) + seq(|found|, k requires 0 <= k < |found| => " - " + found[k].name.value)
  {
    var found := ToolManager.LoadTools(modules);
    var ext := NewSession(modules).external;
    ExternalSingleLine(found);
    CatalogSingleLine(ext);
    BulletsAppend(InternalTools, ext);
  }

  /** Discovered names without newlines give catalog entries without newlines. */
  lemma ExternalSingleLine(found: seq<ToolManager.Obj>)
    requires forall k :: 0 <= k < |found| ==> ToolManager.IsTool(found[k]) && Text.SingleLine(found[k].name.value)
    ensures NamesSingleLine(ToTools(found))
  {
  }
}
