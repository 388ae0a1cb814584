/**
 * The chat node and the older router of agent/crypto/chat.py. The language
 * model's reply and the market-data lookup of _process_tool_call are inputs.
 */
module Chat {
  import opened Wrappers
  import opened AgentState

  /** The names this router can return; END is state.py's "END" string. */
  const Targets: set<string> := {"prices_node", "insights_node", "cryptos_node", "chat_node", EndName}

  /** The node name the first tool call's name selects. */
  function ToolTarget(name: string): string {
    if name in ["get_price", "get_trends"] then "prices_node"
    else if name in ["get_insights"] then "insights_node"
    else if name in ["add_cryptos", "delete_cryptos", "update_cryptos"] then "cryptos_node"
    else "chat_node"
  }

  /** route of chat.py. */
  function Route(messages: seq<Message>): (r: string)
    ensures r in Targets
    ensures messages == [] ==> r == EndName
    ensures messages != [] && messages[|messages| - 1].ToolMessage? ==> r == "chat_node"
    ensures r != EndName <==>
      messages != [] &&
      (messages[|messages| - 1].ToolMessage? ||
       (messages[|messages| - 1].AIMessage? && messages[|messages| - 1].toolCalls != []))
  {
    if messages == [] then EndName
    else
      var last := messages[|messages| - 1];
      if last.AIMessage? && last.toolCalls != [] then ToolTarget(last.toolCalls[0].name)
      else if last.ToolMessage? then "chat_node"
      else EndName
  }

  /** The tool names this router knows, and the catch-all for every other name. */
  lemma ToolTargets()
    ensures ToolTarget("get_price") == "prices_node" && ToolTarget("get_trends") == "prices_node"
    ensures ToolTarget("get_insights") == "insights_node"
    ensures ToolTarget("add_cryptos") == "cryptos_node" && ToolTarget("delete_cryptos") == "cryptos_node"
    ensures ToolTarget("update_cryptos") == "cryptos_node"
    ensures forall n ::
      n !in {"get_price", "get_trends", "get_insights", "add_cryptos", "delete_cryptos", "update_cryptos"}
      ==> ToolTarget(n) == "chat_node"
  {
  }

  /** Only the first tool call's name decides the route. */
  lemma RouteReadsFirstCallOnly(prefix: seq<Message>, text: string, calls: seq<ToolCall>, text': string, calls': seq<ToolCall>)
    requires calls != [] && calls' != [] && calls[0].name == calls'[0].name
    ensures Route(prefix + [AIMessage(text, calls)]) == Route(prefix + [AIMessage(text', calls')])
    ensures Route(prefix + [AIMessage(text, calls)]) == ToolTarget(calls[0].name)
  {
  }

  /** The outcome of the language-model call. */
  datatype LlmReply = Raised(error: string) | Replied(response: Message)

  /** Whether the returned dictionary carries "selected_coin_id", and with what. */
  datatype CoinIdUpdate = Unset | SetTo(coinId: Option<Value>)

  /** The dictionary chat_node returns for the graph to merge. */
  datatype ChatUpdate = ChatUpdate(messages: seq<Message>, selectedCoinId: CoinIdUpdate)

  /**
   * chat_node's result, given the state's selected_coin_id, the model's reply
   * and the lookup that _process_tool_call performs for a tool name and args.
   * A failing model call is caught and reported in a SystemMessage; a failing
   * lookup is not caught, so its error propagates out of chat_node (Failure).
   */
  function ChatNodeUpdate(selected: Option<Value>, reply: LlmReply,
                          process: (string, Args) -> Result<string, string>): (r: Result<ChatUpdate, string>)
    ensures r.Failure? <==>
      reply.Replied? && reply.response.AIMessage? && reply.response.toolCalls != [] &&
      process(reply.response.toolCalls[0].name, reply.response.toolCalls[0].args).Failure?
    ensures r.Failure? ==>
      r.error == process(reply.response.toolCalls[0].name, reply.response.toolCalls[0].args).error
    ensures reply.Raised? ==> r == Success(ChatUpdate([SystemMessage("An error occurred: " + reply.error)], Unset))
    ensures r.Success? ==> 1 <= |r.value.messages| <= 2
    ensures r.Success? ==> (reply.Raised? <==> r.value.selectedCoinId.Unset?)
    ensures r.Success? && reply.Replied? ==> r.value.messages[0] == reply.response
    ensures r.Success? ==> (|r.value.messages| == 2 <==>
      reply.Replied? && reply.response.AIMessage? && reply.response.toolCalls != [])
  {
    match reply
    case Raised(error) =>
      Success(ChatUpdate([SystemMessage("An error occurred: " + error)], Unset))
    case Replied(response) =>
      if response.AIMessage? && response.toolCalls != [] then
        var call := response.toolCalls[0];
        match process(call.name, call.args)
        case Failure(e) => Failure(e)
        case Success(content) =>
          Success(ChatUpdate([response, ToolMessage(call.id, content)], SetTo(call.args.coinId)))
      else
        Success(ChatUpdate([response], SetTo(selected)))
  }

  /**
   * With tool calls, only the first is answered: the one ToolMessage carries
   * its id and its lookup, the selection becomes its coin_id, and the calls
   * after it change nothing, not even whether the node raises.
   */
  lemma AnswersFirstCallOnly(selected: Option<Value>, text: string, calls: seq<ToolCall>, rest: seq<ToolCall>,
                             process: (string, Args) -> Result<string, string>)
    requires calls != []
    ensures var r := ChatNodeUpdate(selected, Replied(AIMessage(text, calls)), process);
      var r' := ChatNodeUpdate(selected, Replied(AIMessage(text, [calls[0]] + rest)), process);
      var looked := process(calls[0].name, calls[0].args);
      r.Success? == r'.Success? == looked.Success? &&
      (looked.Success? ==>
        r.value.messages[1] == ToolMessage(calls[0].id, looked.value) &&
        r.value.messages[1] == r'.value.messages[1] &&
        r.value.selectedCoinId == r'.value.selectedCoinId == SetTo(calls[0].args.coinId))
  {
  }

  /** Without tool calls no lookup runs: the reply is passed on and the selection carried over. */
  lemma NoCallsKeepsSelection(selected: Option<Value>, response: Message,
                              process: (string, Args) -> Result<string, string>)
    requires !(response.AIMessage? && response.toolCalls != [])
    ensures ChatNodeUpdate(selected, Replied(response), process) == Success(ChatUpdate([response], SetTo(selected)))
  {
  }
}
