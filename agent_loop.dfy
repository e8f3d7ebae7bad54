/** The agent/tool loop of src/agent-basics.ts (and, with the same code, of
    src/RAG-agent-tool.ts):
      START -> agent; agent -> tools | END (by `shouldContinue`); tools -> agent.
    The tool-bound model and the prebuilt ToolNode are oracles. The graph is
    cyclic and whether it stops depends on the model, so a run is bounded by fuel. */
module AgentLoop {
  import opened Messages

  datatype Node = Agent | Tools | End

  /** `shouldContinue`: "tools" iff the last message has a non-empty `tool_calls`;
      END otherwise, also for an empty list (optional chaining on undefined). */
  function ShouldContinue(messages: seq<Message>): (r: Node)
    ensures r == Tools <==> |messages| > 0 && |Last(messages).ToolCalls()| > 0
    ensures r == Tools || r == End
  {
    if |messages| > 0 && |Last(messages).ToolCalls()| > 0 then Tools else End
  }

  /** `callModel` / `agent`: the partial state `{ messages: [response] }`. */
  function CallModel(messages: seq<Message>, model: seq<Message> -> Message): seq<Message>
  {
    [model(messages)]
  }

  /** How the messages channel merges a node's partial state: appended. */
  function AddMessages(current: seq<Message>, update: seq<Message>): seq<Message>
  {
    current + update
  }

  /** The agent node adds exactly one message, the model's answer to the whole
      conversation, and keeps the conversation before it. */
  lemma CallModelAddsOne(messages: seq<Message>, model: seq<Message> -> Message)
    ensures var after := AddMessages(messages, CallModel(messages, model));
      && |after| == |messages| + 1
      && after[..|messages|] == messages
      && Last(after) == model(messages)
  {
  }

  /** START's only edge leads to the agent. */
  const Entry: Node := Agent

  /** The graph's edges, evaluated on the messages the node has just produced. */
  function Next(n: Node, messages: seq<Message>): Node
  {
    match n
    case Agent => ShouldContinue(messages)
    case Tools => Agent
    case End => End
  }

  /** Tools never lead to END: control always returns to the agent. */
  lemma ToolsReturnToAgent(messages: seq<Message>)
    ensures Next(Tools, messages) == Agent
    ensures Next(Agent, messages) == Tools <==> |messages| > 0 && |Last(messages).ToolCalls()| > 0
  {
  }

  datatype Outcome = Outcome(messages: seq<Message>, trace: seq<Node>)

  /** The run from node `n` taking at most `fuel` node steps; None if the fuel
      runs out first. */
  function Run(n: Node, messages: seq<Message>, model: seq<Message> -> Message,
               toolNode: seq<Message> -> seq<Message>, fuel: nat): Option<Outcome>
    decreases fuel
  {
    if n == End then Some(Outcome(messages, []))
    else if fuel == 0 then None
    else
      var update := if n == Agent then CallModel(messages, model) else toolNode(messages);
      var after := AddMessages(messages, update);
      match Run(Next(n, after), after, model, toolNode, fuel - 1)
      case None => None
      case Some(rest) => Some(Outcome(rest.messages, [n] + rest.trace))
  }

  /** If a run stops, its last message is the model's answer to the conversation
      before it and carries no tool calls; the input conversation is kept as a prefix. */
  lemma {:induction false} StoppedRunHasNoToolCalls(n: Node, messages: seq<Message>,
      model: seq<Message> -> Message, toolNode: seq<Message> -> seq<Message>, fuel: nat)
    requires n != End
    requires Run(n, messages, model, toolNode, fuel).Some?
    ensures var out := Run(n, messages, model, toolNode, fuel).value.messages;
      && |out| > |messages|
      && out[..|messages|] == messages
      && Last(out).ToolCalls() == []
      && Last(out) == model(out[..|out| - 1])
      && ShouldContinue(out) == End
    decreases fuel
  {
    var update := if n == Agent then CallModel(messages, model) else toolNode(messages);
    var after := AddMessages(messages, update);
    var next := Next(n, after);
    if next != End {
      StoppedRunHasNoToolCalls(next, after, model, toolNode, fuel - 1);
      var out := Run(next, after, model, toolNode, fuel - 1).value.messages;
      assert out[..|messages|] == out[..|after|][..|messages|];
    } else {
      assert n == Agent;
      assert after[..|after| - 1] == messages;
    }
  }

  /** A run from START alternates agent, tools, agent, ... and ends at the agent. */
  lemma {:induction false} RunAlternates(messages: seq<Message>,
      model: seq<Message> -> Message, toolNode: seq<Message> -> seq<Message>, fuel: nat)
    requires Run(Entry, messages, model, toolNode, fuel).Some?
    ensures var t := Run(Entry, messages, model, toolNode, fuel).value.trace;
      && |t| % 2 == 1
      && (forall i :: 0 <= i < |t| ==> t[i] == if i % 2 == 0 then Agent else Tools)
    decreases fuel
  {
    var after := AddMessages(messages, CallModel(messages, model));
    if ShouldContinue(after) == Tools {
      var after' := AddMessages(after, toolNode(after));
      RunAlternates(after', model, toolNode, fuel - 2);
      var t' := Run(Entry, after', model, toolNode, fuel - 2).value.trace;
      assert Run(Entry, messages, model, toolNode, fuel).value.trace == [Agent, Tools] + t';
    }
  }

  /** Fuel only bounds the run: more fuel gives the same outcome. */
  lemma {:induction false} MoreFuelSameOutcome(n: Node, messages: seq<Message>,
      model: seq<Message> -> Message, toolNode: seq<Message> -> seq<Message>, fuel: nat, fuel': nat)
    requires fuel <= fuel' && Run(n, messages, model, toolNode, fuel).Some?
    ensures Run(n, messages, model, toolNode, fuel') == Run(n, messages, model, toolNode, fuel)
    decreases fuel' - fuel
  {
    if fuel < fuel' {
      OneMoreFuel(n, messages, model, toolNode, fuel);
      MoreFuelSameOutcome(n, messages, model, toolNode, fuel + 1, fuel');
    }
  }

  lemma {:induction false} OneMoreFuel(n: Node, messages: seq<Message>,
      model: seq<Message> -> Message, toolNode: seq<Message> -> seq<Message>, fuel: nat)
    requires Run(n, messages, model, toolNode, fuel).Some?
    ensures Run(n, messages, model, toolNode, fuel + 1) == Run(n, messages, model, toolNode, fuel)
    decreases fuel
  {
    if n != End {
      var update := if n == Agent then CallModel(messages, model) else toolNode(messages);
      var after := AddMessages(messages, update);
      OneMoreFuel(Next(n, after), after, model, toolNode, fuel - 1);
    }
  }

  /** A model that never asks for tools stops the run after the agent alone. */
  lemma NoToolCallsStopsAtOnce(messages: seq<Message>, model: seq<Message> -> Message,
      toolNode: seq<Message> -> seq<Message>, fuel: nat)
    requires fuel > 0 && model(messages).ToolCalls() == []
    ensures Run(Entry, messages, model, toolNode, fuel)
      == Some(Outcome(messages + [model(messages)], [Agent]))
  {
    var after := AddMessages(messages, CallModel(messages, model));
    assert Last(after) == model(messages);
    assert Next(Agent, after) == End;
    assert [Agent] + [] == [Agent];
  }
}
