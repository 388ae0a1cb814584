/**
 * The agent's shared vocabulary (agent/crypto/state.py and the LangChain
 * message kinds the nodes exchange).
 */
module AgentState {
  import opened Wrappers

  /** A JSON-like scalar stored in a crypto record. */
  datatype Value = Str(s: string) | Num(x: real) | Null

  /** A crypto record: a dictionary from field name to value that holds "id". */
  type Record = r: map<string, Value> | "id" in r witness map["id" := Null]

  function Id(r: Record): Value { r["id"] }

  /**
   * The argument dictionary of a tool call, restricted to the keys the nodes
   * read; None is a key that is absent (a missing "args" is all None).
   */
  datatype Args = Args(
    cryptos: Option<seq<Record>>,
    cryptoIds: Option<seq<Value>>,
    coins: Option<seq<string>>,
    coin: Option<string>,
    coinId: Option<Value>)

  const NoArgs := Args(None, None, None, None, None)

  datatype ToolCall = ToolCall(name: string, id: string, args: Args)

  datatype Message =
    | HumanMessage(text: string)
    | SystemMessage(text: string)
    | AIMessage(text: string, toolCalls: seq<ToolCall>)
    | ToolMessage(toolCallId: string, content: string)
      /** A plain dictionary appended by prices_node or insights_node. */
    | DictMessage(toolCallId: string, content: string)

  /** LangGraph's END sentinel as state.py re-declares it. */
  const EndName: string := "END"

  /** Decimal rendering of a count, as an f-string prints an int. */
  function NatToString(n: nat): (s: string)
    ensures |s| >= 1
    ensures forall k :: 0 <= k < |s| ==> '0' <= s[k] <= '9'
  {
    var d := [['0', '1', '2', '3', '4', '5', '6', '7', '8', '9'][n % 10]];
    if n < 10 then d else NatToString(n / 10) + d
  }
}
