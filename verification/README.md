# Chat assistant core — a Dafny model

This project models the self-contained logic of a small LangGraph/Ollama chat
assistant (`assistant.py`, `tool_manager.py`):

- the **conversation history** — a list of system, human and AI messages (tool
  messages exist only in the graph state). It is written in exactly three places: the `[system, user]` append at the
  start of a turn, the append of the model's reply, and `clear`;
- its **text rendering**, shared by `show_history`, `get_history_text` and the
  file format of `save_history_to_file`. Messages with empty content are skipped.
  Human messages are labelled `Вы` and all others `Ассистент`, and the lines are
  joined by newlines;
- the five built-in tools: `chat_tool` (last-10 window plus reply
  normalisation), `show_history`, `clear_history`, `save_history_to_file` and
  `list_tools`; and the welcome message;
- the **per-turn graph**: entry node `model`, then `should_continue` routes
  `"continue"` to `tools` and `"end"` to END. `tools` always goes to END,
  because the edge back to `model` is commented out. The model backend is
  opaque: its responses are an oracle indexed by how many times `model` has
  already run. The tool node answers each call with one tool message, in call
  order. A `clear_history` call gets that tool's own reply and empties the
  history. Any other tool's text comes from an oracle indexed by the dispatch
  number and the call's position. `Graph.Next` is the matching nondeterministic
  step relation over `Model | Tools | End | Raised`;
- **external tool discovery**: an order-preserving filter over
  (module, attribute) pairs that keeps objects having both `name` and `description`.

Modules: `Outcomes` (Option/Result), `Messages`, `Text` (`"\n".join` and
`str.split("\n")`), `History`, `AdminTools`, `Catalog`, `ToolManager`, `Graph`,
`Assistant`.

Notes on what the code does:

- Tool results from the tool node go into the graph state only. They are never
  appended to `self.history`. The only tool that changes the history is
  `clear_history`, which empties it.
- When the model call raises, the system and user messages appended at the start
  of the turn stay in the history. Nothing is rolled back.
- The `tools → model` edge is not configurable. It is absent, so a turn makes
  exactly one run of the `model` node (`call_model`) and at most one tool
  dispatch. A dispatched `chat_tool` makes its own call to the language model;
  that call stays inside the tool oracle. The recursion limit of 5
  is never reached (`Graph.TurnOutcome`).
- Every turn appends the same system message object again, so the history
  holds one copy of it per turn since the last clear. `show_history` renders system messages with
  the label `Ассистент`, like AI messages. The system prompt spans several
  lines, so it contributes several lines to the rendered text
  (`History.SplitRendering`).
- If the backend returns a falsy value, the state's last message is the user's
  own message, so `handle_input` prints the user's text as the answer
  (`Assistant.TurnPrints`).

LangGraph's `add_messages` reducer merges messages by id. The model treats it
as plain concatenation. From the second turn on, the re-appended system message
object may therefore occur once in the real graph state, where the model's
state holds each copy. `self.history`, a plain Python list, is unaffected. The
state equation in `Graph.TurnOutcome` is exact only under this simplification.

## Model

| member | source | states |
|---|---|---|
| `Graph.ShouldContinue` | assistant.py:117-121 | "continue" iff the last message is an AI message with a non-empty tool-call list; "end" otherwise; it raises on an empty state; every route it returns is a key of the model node's edge map |
| `Graph.Route` | assistant.py:135-137 | the model node never routes back to itself; it routes to `tools` exactly when the last message requests tools, to END when it does not, and raises on an empty state |
| `Graph.ModelStep` | assistant.py:123-129 | the response is appended to both history and state only when it is truthy; otherwise both are unchanged; the graph stops with a backend failure exactly when the call raised, and otherwise goes where `should_continue` routes the new state; one model call is counted |
| `Graph.ToolsStep` | assistant.py:131-141 | the tools node adds one tool message per requested call, in call order, to the graph state only; a `clear_history` call gets "🧹 История очищена!" and every other call the tool oracle's text for its position; the history is unchanged unless `clear_history` was called, and empty exactly when it was or already was empty; the next node is END |
| `Graph.RunShape` | assistant.py:131-142 | every run of the step relation from `model` has at most three configurations: `model`, at most one `tools`, then nothing more |
| `Graph.RunIsARun` | assistant.py:131-151 | the deterministic run under the recursion limit is one such run of the step relation and ends in a terminal node |
| `Graph.TurnOutcome` | assistant.py:123-151 | a turn makes exactly one run of the `model` node (`call_model`); it dispatches tools iff the reply requests tools; it never hits the recursion limit; it fails by `BackendError` iff the backend raised, and otherwise ends at END; the state = input + reply + one result per tool call, and history = input + reply, or empty after `clear_history` |
| `Graph.DispatchOutcome` | assistant.py:123-141 | when the reply requests tools, the turn ends at END with the state holding the input, the reply, then one tool message per call, in call order |
| `Graph.OnlyFirstCallsMatter` | assistant.py:138-141 | the outcome depends only on the first backend response and the first dispatch's tool results: tool results are never sent back to the model |
| `Assistant.StartTurn` | assistant.py:145-147 | the history handed to the graph is the old history extended by exactly two messages: the system prompt, then the user's text |
| `Assistant.HandleInput` | assistant.py:145-166 | a turn leaves the tool catalog unchanged |
| `Assistant.Surfaced` | assistant.py:163-166 | an answer is printed iff the graph returned messages and the last one has non-empty content, and the printed text is that content |
| `Assistant.TurnHistory` | assistant.py:126-151 | after a turn the history is the old one + system + user (+ the reply if truthy), or empty if the reply called `clear_history`; it grows by at most 3; it never gains a tool message |
| `Assistant.TurnPrints` | assistant.py:150-166 | no answer is printed when the model raised; a falsy reply prints the user's own text; a plain reply prints its content; a tool-requesting reply prints the result of its last call, which is the confirmation when that call is `clear_history` |
| `Assistant.DirectAnswer` | assistant.py:145-166 | with an empty history, "hello" and the reply "hi", the output is "hi" and the history is [system, user("hello"), AI("hi")] |
| `Assistant.ClearByTool` | assistant.py:85-88 | when the reply's last call is `clear_history`, the history ends as that tool leaves it (empty) and the turn prints that tool's reply |
| `Assistant.ClearHistory` | assistant.py:169-171 | the session's history becomes empty and its tools are kept |
| `Assistant.ClearThenRender` | assistant.py:173-179 | after clearing, `get_history_text` is "" and `show_history` is "История пустая" |
| `Assistant.NewSession` | assistant.py:33-46 | a new session starts with an empty history, and its external tools are exactly the discovered objects, in discovery order, with their names and descriptions |
| `Assistant.WelcomeOrder` | assistant.py:182-186 | the welcome text's lines are the greeting, then one " - name" bullet per built-in tool, then one per discovered tool in discovery order |
| `History.RenderAppend` | assistant.py:175-178 | rendering distributes over concatenation, so render order is append order |
| `History.CollectLines` | assistant.py:174-178 | the loop produces one line per message with non-empty content, in history order: `Label: content` for strictly increasing positions that cover every such message |
| `History.RenderPrefix` | assistant.py:175-178 | one more loop iteration adds exactly the next message's line, when it has content |
| `History.LinesLabelled` | assistant.py:77-79 | every rendered line starts with "Вы: " or "Ассистент: " |
| `History.HistoryTextEmpty` | assistant.py:173-179 | `get_history_text` is "" iff no message has content |
| `History.ShowVersusText` | assistant.py:75-80 | `show_history` equals `get_history_text` unless that is "", in which case it is "История пустая"; it is never empty |
| `History.SaveIsText` | assistant.py:103-108 | the saved file is the rendered text followed by a newline, or empty when nothing renders |
| `History.SplitRendering` | assistant.py:175-179 | splitting the rendered text at newlines gives the pieces of every rendered line in order, so a multi-line content such as the system prompt gives several pieces; an empty rendering gives one empty piece |
| `History.AfterClear` | assistant.py:87-88 | after a clear, every rendering is empty ("" or the empty notice), and so is the chat window |
| `History.Window` | assistant.py:61 | the chat window has min(10, \|history\|) messages and is a suffix of the history, in order |
| `AdminTools.Normalize` | assistant.py:63-68 | a dict yields `arguments.message`, defaulting to "Пустой ответ", and raises if `arguments` is not a dict; any string, including "", is returned unchanged; `None` yields "Пустой ответ"; any other value yields its text if truthy, else "Пустой ответ" |
| `AdminTools.ChatToolSeesWindowOnly` | assistant.py:61-62 | messages older than the last ten never affect `chat_tool`'s answer |
| `AdminTools.ClearHistoryTool` | assistant.py:85-88 | the tool empties the history and returns its confirmation text |
| `AdminTools.SaveHistoryTool` | assistant.py:100-112 | on success the file holds the rendered lines, each ending in a newline, and the reply names the file, "history.txt" when none is given; on failure the reply is the error prefix plus the exception text |
| `AdminTools.SaveRepliesDistinct` | assistant.py:110-112 | for any histories, file names and error, a success reply never equals a failure reply and never starts with the error prefix |
| `Catalog.ListToolsOrder` | assistant.py:93-95 | `list_tools` gives the built-in names, then a newline and the external names in discovery order |
| `Catalog.ListToolsLines` | assistant.py:95 | with single-line external names, the lines of `list_tools` are exactly the catalog's names |
| `Catalog.Welcome` | assistant.py:182-186 | with single-line names, the lines of the welcome text are the greeting followed by one " - name" bullet per tool, in catalog order |
| `Graph.Run` | assistant.py:150-151 | a run under a step budget always ends terminal; from `tools` with budget 1 it ends at END; from `model` with budget 2 it never raises for the recursion limit |
| `Assistant.PrintsOnFalsy` | assistant.py:163-166 | after a falsy reply the printed answer is the user's own text, if non-empty |
| `Assistant.PrintsAnswer` | assistant.py:163-166 | after a reply requesting no tools, its content is printed if non-empty |
| `Assistant.PrintsToolResult` | assistant.py:163-166 | after a dispatch, the result of the reply's last call is printed if non-empty |
| `History.HistoryText` | assistant.py:173-179 | `get_history_text` is "" exactly when there are no rendered lines |
| `History.ShowHistory` | assistant.py:71-80 | `show_history` is never empty, and it is "История пустая" when there are no rendered lines |
| `History.SaveText` | assistant.py:105-108 | the saved text is empty exactly when there are no rendered lines, and otherwise ends with a newline |
| `AdminTools.ChatTool` | assistant.py:59-68 | a raise of the model call propagates out of the tool; otherwise the reply to the last-ten window is normalised |
| `Catalog.ListTools` | assistant.py:93-95 | with at least one tool and single-line names, the lines of `list_tools` are exactly the tool names, in catalog order |
| `Text.SplitJoin` | assistant.py:80 | splitting a newline join of single-line strings gives back the strings |
| `Text.JoinSplit` | assistant.py:179 | joining the pieces of a newline split gives back the text |
| `ToolManager.LoadTools` | tool_manager.py:5-13 | every returned object has both a `name` and a `description` |
| `ToolManager.Discover` | tool_manager.py:6-13 | the nested loop over modules and attributes computes exactly `LoadTools` |
| `ToolManager.LoadToolsIsKeepFlatten` | tool_manager.py:7-12 | the result is the tool-shaped part of the flat enumeration: module order first, then attribute order within each module |
| `ToolManager.LoadToolsAppend` | tool_manager.py:7-8 | discovering over more modules extends the earlier result |
| `ToolManager.LoadToolsCounts` | tool_manager.py:9-12 | no deduplication: a tool-shaped object appears as often as it occurs among the attributes, and other objects never appear |
| `ToolManager.LoadToolsMembership` | tool_manager.py:11-12 | an object is returned iff it has both attributes and is an attribute of some module; objects lacking either are skipped |
| `ToolManager.NoModulesNoTools` | tool_manager.py:6-13 | an empty package, or one whose modules have no attributes, yields no tools |

## Left out

- The progress spinner (assistant.py:14-21), the task cancellation and all printing other than the printed answer's text, such as the error notice and "✅ Выполнено!". These are terminal output and async concurrency.
- The Ollama model (`ChatOllama`, `bind_tools`, `ainvoke`) is an opaque oracle. For the graph it is a `Graph.Response`. For `chat_tool` it is a function from messages to the reply's content or to the text of the exception it raised.
- LangGraph internals. The tool node is modelled only as one tool message per call, in call order (see Graph.ToolsStep below). The `add_messages` reducer is plain concatenation, so message ids and merge-by-id are not modelled. The recursion limit is a step budget of 5 in `Graph.Run`, not LangGraph's own counting.
- Graph.ToolsStep: the result text of every tool other than `clear_history` comes from an oracle. This includes `show_history`, `list_tools`, `chat_tool` and `save_history_to_file`, whose functions are modelled separately. A dispatched `chat_tool`'s own language-model call is therefore part of that oracle text. The tool node runs the calls of one dispatch concurrently, so their order relative to a `clear_history` call is not determined. The tool node's error text for an unknown tool name or a raising tool is also oracle text. The model assumes that no external tool is named `clear_history`.
- AdminTools.Normalize: the error for a non-dict `arguments` is one fixed `AttributeError` text. Python's message also names the value's type, which the model does not track.
- The file write of `save_history_to_file` is a `WriteOutcome` parameter. What a failed write leaves on disk is not modelled.
- Message content is a string. LangChain's list-typed content is not modelled.
- `main.py` (the read-print loop and exit words), `tools/run_command.py` (a subprocess wrapper) and `tools/draw_cat.py` (prints a constant) are not part of this model.
- Module import and reflection in `tool_manager.py` (`pkgutil`, `importlib`, `dir`) are left out. Modules are given as attribute lists in `dir()` order, and an import that raises is not modelled.
