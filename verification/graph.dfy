/**
 * The per-turn graph: entry node `model`, a conditional edge from `model`
 * chosen by `should_continue` ("continue" to `tools`, "end" to END), and an
 * unconditional edge from `tools` to END. The model backend is opaque: its
 * responses are an oracle indexed by how many times `model` has already run.
 * The tool node answers every call in call order; `clear_history` is the
 * built-in tool, and the text any other tool returns is an oracle indexed by
 * the dispatch number and the call's position.
 */
module Graph {
  import opened Outcomes
  import opened Messages
  import Catalog
  import AdminTools

  const ContinueRoute: string := "continue"
  const EndRoute: string := "end"
  /** The turn's `recursion_limit`. */
  const RecursionLimit: nat := 5

  /** Why the graph stopped by raising instead of reaching END. */
  datatype Failure =
    | BackendError    // the model call raised
    | NoMessages      // `state["messages"][-1]` on an empty list
    | LimitReached    // more steps than the recursion limit allows

  datatype Node = Model | Tools | End | Raised(why: Failure)

  /** The node `model`'s conditional edges. */
  const ModelEdges: map<string, Node> := map[ContinueRoute := Tools, EndRoute := End]
  /** The single edge out of `tools` (the edge back to `model` is disabled). */
  const ToolsEdge: Node := End

  /** The result text of the tool called at position `k` of dispatch number `d`. */
  type ToolOracle = (nat, nat) -> string

  /**
   * What the model backend does when called: raise, return a value Python
   * treats as false, or return an AI message with its content and tool calls.
   */
  datatype Response = Raises | Falsy | Reply(content: string, calls: seq<ToolCall>) {
    /** The AI message a reply stands for. */
    function Answer(): Message
      requires Reply?
    {
      AIMsg(content, calls)
    }
  }

  /** The graph state, the assistant's history, and how often each node has run. */
  datatype Config = Config(node: Node, messages: seq<Message>, history: seq<Message>,
                           modelCalls: nat, dispatches: nat)

  /** The last message requests at least one tool call. */
  predicate RequestsTools(m: Message) {
    m.AIMsg? && |m.toolCalls| > 0
  }

  /** `should_continue`: inspects only the last message; raises on an empty state. */
  function ShouldContinue(messages: seq<Message>): (r: Result<string>)
    ensures r.Err? <==> |messages| == 0
    ensures r.Ok? ==> r.value in ModelEdges
    ensures r.Ok? ==> (r.value == ContinueRoute <==> RequestsTools(Last(messages)))
  {
    if |messages| == 0 then Err("IndexError: list index out of range")
    else if RequestsTools(Last(messages)) then Ok(ContinueRoute)
    else Ok(EndRoute)
  }

  /** The node the `model` node hands over to, given the messages it returned. */
  function Route(messages: seq<Message>): (n: Node)
    ensures n != Model
    ensures n == Tools <==> |messages| > 0 && RequestsTools(Last(messages))
    ensures |messages| > 0 && !RequestsTools(Last(messages)) ==> n == End
    ensures |messages| == 0 ==> n == Raised(NoMessages)
  {
    match ShouldContinue(messages)
    case Err(_) => Raised(NoMessages)
    case Ok(route) => ModelEdges[route]
  }

  /**
   * `call_model`: a returned (truthy) response is appended to the history and
   * to the state; a falsy one leaves both unchanged; a raise stops the graph.
   */
  function ModelStep(c: Config, r: Response): (c': Config)
    ensures c'.node != Model
    ensures c'.modelCalls == c.modelCalls + 1 && c'.dispatches == c.dispatches
    ensures c'.history == c.history + (if r.Reply? then [r.Answer()] else [])
    ensures c'.messages == c.messages + (if r.Reply? then [r.Answer()] else [])
    ensures c'.node == Raised(BackendError) <==> r.Raises?
    ensures !r.Raises? ==> c'.node == Route(c'.messages)
    ensures c'.node == Tools <==> !r.Raises? && |c'.messages| > 0 && RequestsTools(Last(c'.messages))
  {
    match r
    case Raises => c.(node := Raised(BackendError), modelCalls := c.modelCalls + 1)
    case Falsy => c.(node := Route(c.messages), modelCalls := c.modelCalls + 1)
    case Reply(_, _) =>
      var m := r.Answer();
      var ms := c.messages + [m];
      Config(Route(ms), ms, c.history + [m], c.modelCalls + 1, c.dispatches)
  }

  /** The tool calls the last message asks for (what the tool node dispatches). */
  function PendingCalls(messages: seq<Message>): seq<ToolCall> {
    if |messages| > 0 && Last(messages).AIMsg? then Last(messages).toolCalls else []
  }

  /** Some call is to the built-in `clear_history` tool, the only tool that writes the history. */
  predicate ClearsHistory(calls: seq<ToolCall>) {
    exists k :: 0 <= k < |calls| && calls[k].name == Catalog.ClearHistoryName
  }

  /** The text one call yields: `clear_history`'s own reply, or the oracle's text for any other tool. */
  function CallResult(call: ToolCall, h: seq<Message>, tools: ToolOracle, d: nat, k: nat): string {
    if call.name == Catalog.ClearHistoryName then AdminTools.ClearHistoryTool(h).reply else tools(d, k)
  }

  /** One tool message per call, in call order, each naming its call's tool. */
  function ToolOutputs(calls: seq<ToolCall>, h: seq<Message>, tools: ToolOracle, d: nat): (outs: seq<Message>)
    ensures |outs| == |calls|
    ensures forall k :: 0 <= k < |calls| ==>
              outs[k] == ToolMsg(CallResult(calls[k], h, tools, d, k), calls[k].name)
  {
    seq(|calls|, k requires 0 <= k < |calls| => ToolMsg(CallResult(calls[k], h, tools, d, k), calls[k].name))
  }

  /**
   * The `tools` node: one result message per requested call, in call order,
   * added to the graph state only. A `clear_history` call leaves the history
   * as that tool leaves it (empty); otherwise the history is untouched. Then
   * the graph ends.
   */
  function ToolsStep(c: Config, tools: ToolOracle): (c': Config)
    ensures c'.node == End
    ensures c'.dispatches == c.dispatches + 1 && c'.modelCalls == c.modelCalls
    ensures var calls := PendingCalls(c.messages);
            && |c'.messages| == |c.messages| + |calls|
            && c'.messages[..|c.messages|] == c.messages
            && forall k :: 0 <= k < |calls| ==>
                 var out := c'.messages[|c.messages| + k];
                 && out.ToolMsg? && out.toolName == calls[k].name
                 && (calls[k].name == Catalog.ClearHistoryName ==> out.content == AdminTools.ClearedText)
    ensures c'.messages == c.messages + ToolOutputs(PendingCalls(c.messages), c.history, tools, c.dispatches)
    ensures c'.history <= c.history
    ensures c'.history == [] <==> c.history == [] || ClearsHistory(PendingCalls(c.messages))
    ensures !ClearsHistory(PendingCalls(c.messages)) ==> c'.history == c.history
  {
    var calls := PendingCalls(c.messages);
    var outs := ToolOutputs(calls, c.history, tools, c.dispatches);
    var h := if ClearsHistory(calls) then AdminTools.ClearHistoryTool(c.history).history else c.history;
    Config(ToolsEdge, c.messages + outs, h, c.modelCalls, c.dispatches + 1)
  }

  predicate Terminal(c: Config) {
    c.node.End? || c.node.Raised?
  }

  /** One step of whichever node is current; the oracles are indexed by that node's call count. */
  function Step(c: Config, backend: nat -> Response, tools: ToolOracle): Config {
    match c.node
    case Model => ModelStep(c, backend(c.modelCalls))
    case Tools => ToolsStep(c, tools)
    case _ => c
  }

  /** Runs the graph until it ends, raising once more than `budget` steps would be needed. */
  function Run(c: Config, backend: nat -> Response, tools: ToolOracle, budget: nat): (f: Config)
    ensures Terminal(f)
    ensures c.node == Tools && budget >= 1 ==> f.node == End
    ensures c.node == Model && budget >= 2 ==> f.node != Raised(LimitReached)
    decreases budget
  {
    if Terminal(c) then c
    else if budget == 0 then c.(node := Raised(LimitReached))
    else Run(Step(c, backend, tools), backend, tools, budget - 1)
  }

  /** The graph is entered at `model`, with the state and the history both holding `messages`. */
  function Initial(messages: seq<Message>): Config {
    Config(Model, messages, messages, 0, 0)
  }

  /** The step relation: some backend response, or some tool results, lead from `c` to `c'`. */
  ghost predicate Next(c: Config, c': Config) {
    || (c.node == Model && exists r :: c' == ModelStep(c, r))
    || (c.node == Tools && exists tools: ToolOracle :: c' == ToolsStep(c, tools))
  }

  /** A sequence of configurations starting at `model`, each a step from the one before. */
  ghost predicate IsRun(cs: seq<Config>) {
    && |cs| >= 1
    && cs[0].node == Model
    && forall i :: 0 <= i < |cs| - 1 ==> Next(cs[i], cs[i + 1])
  }

  /**
   * Whatever the backend and the tools do, a turn visits `model` once, then at
   * most one `tools` step, then stops: at most three configurations.
   */
  lemma RunShape(cs: seq<Config>)
    requires IsRun(cs)
    ensures |cs| <= 3
    ensures forall i :: 1 <= i < |cs| ==> cs[i].node != Model
    ensures |cs| == 3 ==> cs[1].node == Tools && cs[2].node == End
  {
    assert forall i :: 0 <= i < |cs| - 1 ==> !cs[i].node.End? by {
      forall i | 0 <= i < |cs| - 1
        ensures !cs[i].node.End?
      {
        assert Next(cs[i], cs[i + 1]);
      }
    }
    if |cs| >= 2 {
      assert Next(cs[0], cs[1]);
      var r :| cs[1] == ModelStep(cs[0], r);
    }
    if |cs| >= 3 {
      assert Next(cs[1], cs[2]);
      var tools: ToolOracle :| cs[2] == ToolsStep(cs[1], tools);
      assert cs[2].node == End;
    }
  }

  /** The run the deterministic `Run` performs from a turn's initial configuration. */
  lemma RunIsARun(ms: seq<Message>, backend: nat -> Response, tools: ToolOracle)
    ensures var f := Run(Initial(ms), backend, tools, RecursionLimit);
            exists cs :: IsRun(cs) && cs[0] == Initial(ms) && cs[|cs| - 1] == f && Terminal(f)
  {
    var c0 := Initial(ms);
    var c1 := ModelStep(c0, backend(0));
    assert Next(c0, c1);
    if c1.node == Tools {
      var c2 := ToolsStep(c1, tools);
      assert Next(c1, c2);
      assert IsRun([c0, c1, c2]);
    } else {
      assert IsRun([c0, c1]);
    }
  }

  /**
   * One turn from messages ending in the user's message: one model call, a
   * tool dispatch exactly when the reply requests tools, never the recursion
   * limit, and the history grows by the reply alone or is emptied by `clear_history`.
   */
  lemma TurnOutcome(ms: seq<Message>, backend: nat -> Response, tools: ToolOracle)
    requires |ms| > 0 && Last(ms).HumanMsg?
    ensures var f := Run(Initial(ms), backend, tools, RecursionLimit);
            var r := backend(0);
            var reply := if r.Reply? then [r.Answer()] else [];
            && Terminal(f)
            && f.node != Raised(LimitReached)
            && f.modelCalls == 1
            && (f.dispatches == 1 <==> r.Reply? && RequestsTools(r.Answer()))
            && f.dispatches <= 1
            && (f.node == Raised(BackendError) <==> r.Raises?)
            && (!r.Raises? ==> f.node == End)
            && (f.node == End ==> f.messages == ms + reply + (if f.dispatches == 1 then ToolOutputs(r.calls, ms + reply, tools, 0) else []))
            && f.history == (if f.dispatches == 1 && ClearsHistory(r.calls) then [] else ms + reply)
  {
    var c0 := Initial(ms);
    var c1 := ModelStep(c0, backend(0));
    assert Run(c0, backend, tools, RecursionLimit) == Run(c1, backend, tools, RecursionLimit - 1);
    if c1.node == Tools {
      assert backend(0).Reply?;
      assert PendingCalls(c1.messages) == backend(0).calls;
      var c2 := ToolsStep(c1, tools);
      assert Run(c1, backend, tools, RecursionLimit - 1) == Run(c2, backend, tools, RecursionLimit - 2);
    }
  }

  /**
   * A reply that requests tools: the turn ends at END with the state holding
   * the input, the reply, then one tool message per call, in call order.
   */
  lemma DispatchOutcome(ms: seq<Message>, backend: nat -> Response, tools: ToolOracle)
    requires backend(0).Reply? && RequestsTools(backend(0).Answer())
    ensures var f := Run(Initial(ms), backend, tools, RecursionLimit);
            var ans := backend(0).Answer();
            && f.node == End
            && f.messages == ms + [ans] + ToolOutputs(backend(0).calls, ms + [ans], tools, 0)
  {
    var c0 := Initial(ms);
    var c1 := ModelStep(c0, backend(0));
    assert c1.node == Tools;
    assert PendingCalls(c1.messages) == backend(0).calls;
    assert Run(c0, backend, tools, RecursionLimit) == Run(c1, backend, tools, RecursionLimit - 1);
    assert Run(c1, backend, tools, RecursionLimit - 1) == ToolsStep(c1, tools);
  }

  /**
   * Only the first backend response and the first dispatch's tool results can
   * matter: the tool results are never sent back to the model within the turn.
   */
  lemma OnlyFirstCallsMatter(ms: seq<Message>, b1: nat -> Response, b2: nat -> Response,
                             t1: ToolOracle, t2: ToolOracle)
    requires b1(0) == b2(0)
    requires forall k :: t1(0, k) == t2(0, k)
    ensures Run(Initial(ms), b1, t1, RecursionLimit) == Run(Initial(ms), b2, t2, RecursionLimit)
  {
    var c1 := ModelStep(Initial(ms), b1(0));
    if c1.node == Tools {
      assert ToolsStep(c1, t1) == ToolsStep(c1, t2) by {
        assert ToolOutputs(PendingCalls(c1.messages), c1.history, t1, 0)
            == ToolOutputs(PendingCalls(c1.messages), c1.history, t2, 0);
      }
      assert Run(c1, b1, t1, RecursionLimit - 1) == ToolsStep(c1, t1);
      assert Run(c1, b2, t2, RecursionLimit - 1) == ToolsStep(c1, t2);
    }
  }
}
