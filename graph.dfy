/**
 * The agent's state graph (agent/crypto/agent.py): the router consulted
 * after chat_node and the fixed edges between the other nodes.
 */
module Graph {
  import opened Wrappers
  import opened AgentState
  import Chat

  datatype Node =
    | Start
    | ChatNode
    | CryptosNode
    | PerformCryptosNode
    | PricesNode
    | InsightsNode
    | End

  /** The targets declared for the conditional edge out of chat_node. */
  const RouteTargets: set<Node> := {PricesNode, InsightsNode, CryptosNode, ChatNode, End}

  /** The node the first tool call's name selects. */
  function ToolTarget(name: string): Node {
    if name in ["get_prices", "analyze_coin", "get_trends"] then PricesNode
    else if name in ["get_insights"] then InsightsNode
    else if name in ["add_cryptos", "delete_cryptos", "update_cryptos"] then CryptosNode
    else ChatNode
  }

  /** route: the next node after chat_node, decided by the last message. */
  function Route(messages: seq<Message>): (r: Node)
    ensures r in RouteTargets
    ensures messages == [] ==> r == End
    ensures messages != [] && messages[|messages| - 1].ToolMessage? ==> r == ChatNode
    ensures (messages != [] && messages[|messages| - 1].AIMessage? &&
             messages[|messages| - 1].toolCalls == []) ==> r == End
    ensures r in {PricesNode, InsightsNode, CryptosNode} ==>
      messages != [] && messages[|messages| - 1].AIMessage? &&
      messages[|messages| - 1].toolCalls != []
  {
    if messages != [] && messages[|messages| - 1].AIMessage? &&
       messages[|messages| - 1].toolCalls != []
    then ToolTarget(messages[|messages| - 1].toolCalls[0].name)
    else if messages != [] && messages[|messages| - 1].ToolMessage? then ChatNode
    else End
  }

  /** Only the first tool call of the last message matters to the router. */
  lemma RouteReadsFirstCallOnly(prefix: seq<Message>, text: string, calls: seq<ToolCall>, text': string, calls': seq<ToolCall>)
    requires calls != [] && calls' != [] && calls[0].name == calls'[0].name
    ensures Route(prefix + [AIMessage(text, calls)]) == Route(prefix + [AIMessage(text', calls')])
    ensures Route(prefix + [AIMessage(text, calls)]) == ToolTarget(calls[0].name)
  {
  }

  /** Each tool name the agent offers reaches the node that serves it; every other name goes to chat_node. */
  lemma ToolTargets()
    ensures ToolTarget("get_prices") == PricesNode && ToolTarget("analyze_coin") == PricesNode
    ensures ToolTarget("get_trends") == PricesNode && ToolTarget("get_insights") == InsightsNode
    ensures ToolTarget("add_cryptos") == CryptosNode && ToolTarget("delete_cryptos") == CryptosNode
    ensures ToolTarget("update_cryptos") == CryptosNode
    ensures ToolTarget("get_price") == ChatNode && ToolTarget("get_history") == ChatNode
    ensures forall n ::
      n !in {"get_prices", "analyze_coin", "get_trends", "get_insights", "add_cryptos", "delete_cryptos", "update_cryptos"}
      ==> ToolTarget(n) == ChatNode
  {
  }

  /** The unconditional edges added by add_edge; chat_node has none. */
  function FixedEdge(n: Node): (r: Option<Node>)
    ensures r.Some? <==> n !in {ChatNode, End}
  {
    match n
    case Start => Some(ChatNode)
    case PricesNode => Some(ChatNode)
    case InsightsNode => Some(ChatNode)
    case CryptosNode => Some(PerformCryptosNode)
    case PerformCryptosNode => Some(ChatNode)
    case ChatNode => None
    case End => None
  }

  /** An edge of the compiled graph: a fixed edge or one of route's targets. */
  predicate Edge(n: Node, m: Node) {
    FixedEdge(n) == Some(m) || (n == ChatNode && m in RouteTargets)
  }

  predicate IsPath(p: seq<Node>) {
    forall i :: 0 <= i < |p| - 1 ==> Edge(p[i], p[i + 1])
  }

  /** The step the running graph takes from n given the messages so far. */
  function Next(n: Node, messages: seq<Message>): (r: Option<Node>)
    ensures r.Some? ==> Edge(n, r.value)
    ensures r.None? <==> n == End
  {
    if n == ChatNode then Some(Route(messages)) else FixedEdge(n)
  }

  /**
   * Every path from cryptos_node back to chat_node goes through
   * perform_cryptos_node, and does so in its very next step.
   */
  lemma CryptosReturnsThroughPerform(p: seq<Node>)
    requires IsPath(p) && |p| > 0 && p[0] == CryptosNode && p[|p| - 1] == ChatNode
    ensures |p| >= 3 && p[1] == PerformCryptosNode
  {
    assert Edge(p[0], p[1]);
  }

  /** From every node but END, chat_node is at most two steps away. */
  lemma {:induction false} ChatWithinTwoSteps(n: Node)
    requires n != End
    ensures n == ChatNode || FixedEdge(n) == Some(ChatNode) ||
      (FixedEdge(n).Some? && FixedEdge(FixedEdge(n).value) == Some(ChatNode))
  {
  }

  /** No path from START ever comes back to START. */
  lemma {:induction false} PathsFromStartAvoidStart(p: seq<Node>)
    requires IsPath(p) && |p| > 0 && p[0] == Start
    ensures forall i :: 0 < i < |p| ==> p[i] != Start
  {
    forall i | 0 < i < |p|
      ensures p[i] != Start
    {
      assert Edge(p[i - 1], p[i]);
    }
  }

  /**
   * The messages chat_node returns are appended to the state before route
   * runs. Whatever the model replies, the last message is then never an AI
   * message with tool calls, so route only ever leads back to chat_node or
   * to END: prices_node, insights_node and cryptos_node are not reached
   * from chat_node. (When the lookup raises, no route is taken at all.)
   */
  lemma AfterChatNodeRouteLoopsOrEnds(prior: seq<Message>, selected: Option<Value>, reply: Chat.LlmReply,
                                      process: (string, Args) -> Result<string, string>)
    ensures var r := Chat.ChatNodeUpdate(selected, reply, process);
      r.Success? ==> Route(prior + r.value.messages) in {ChatNode, End}
    ensures var r := Chat.ChatNodeUpdate(selected, reply, process);
      r.Success? && reply.Replied? && reply.response.AIMessage? && reply.response.toolCalls != [] ==>
      Route(prior + r.value.messages) == ChatNode
  {
    var r := Chat.ChatNodeUpdate(selected, reply, process);
    if r.Success? {
      var all := prior + r.value.messages;
      assert all[|all| - 1] == r.value.messages[|r.value.messages| - 1];
    }
  }

  /** The routers of agent.py and chat.py disagree on three tool names. */
  lemma RoutersDisagree()
    ensures var m := [AIMessage("", [ToolCall("get_price", "c1", NoArgs)])];
      Route(m) == ChatNode && Chat.Route(m) == "prices_node"
    ensures var m := [AIMessage("", [ToolCall("get_prices", "c1", NoArgs)])];
      Route(m) == PricesNode && Chat.Route(m) == "chat_node"
    ensures var m := [AIMessage("", [ToolCall("analyze_coin", "c1", NoArgs)])];
      Route(m) == PricesNode && Chat.Route(m) == "chat_node"
    ensures Route([]) == End && Chat.Route([]) == "END"
  {
  }
}
