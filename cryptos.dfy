/**
 * The portfolio-list operations of the crypto agent (agent/crypto/cryptos.py):
 * the three handlers that perform_cryptos_node dispatches tool calls to, the
 * two stand-alone delete_cryptos / update_cryptos tools, and the early
 * returns of prices_node and insights_node.
 *
 * The pure functions below are the specification; the class CryptoAgent
 * holds the mutable state dictionary and its methods are proved against them.
 */
module Cryptos {
  import opened Wrappers
  import opened AgentState

  /** The part of the agent state the handlers read and write. */
  datatype CryptoView = CryptoView(cryptos: seq<Record>, selected: Option<string>)

  /** The text a handler returns, e.g. "Added 2 cryptocurrencies!". */
  function ReportText(verb: string, n: nat): string {
    verb + " " + NatToString(n) + " cryptocurrencies!"
  }

  /** args.get("cryptos", []) */
  function CryptosArg(args: Args): seq<Record> { args.cryptos.GetOr([]) }

  /** args.get("crypto_ids", []) */
  function IdsArg(args: Args): seq<Value> { args.cryptoIds.GetOr([]) }

  predicate HasId(xs: seq<Record>, v: Value) {
    exists k :: 0 <= k < |xs| && Id(xs[k]) == v
  }

  // ---------------------------------------------------------------------
  // Deleting: the list comprehension of handle_delete_cryptos
  // ---------------------------------------------------------------------

  /** The entries of xs whose id is not listed in ids, in their order. */
  function Without(xs: seq<Record>, ids: seq<Value>): (r: seq<Record>)
    ensures |r| <= |xs|
    ensures forall k :: 0 <= k < |r| ==> Id(r[k]) !in ids
  {
    if xs == [] then []
    else (if Id(xs[0]) in ids then [] else [xs[0]]) + Without(xs[1..], ids)
  }

  lemma {:induction false} WithoutMembership(xs: seq<Record>, ids: seq<Value>, x: Record)
    ensures x in Without(xs, ids) <==> x in xs && Id(x) !in ids
  {
    if xs != [] {
      WithoutMembership(xs[1..], ids, x);
      assert xs == [xs[0]] + xs[1..];
    }
  }

  /** Filtering distributes over concatenation: the original order is kept. */
  lemma {:induction false} WithoutAppend(xs: seq<Record>, ys: seq<Record>, ids: seq<Value>)
    ensures Without(xs + ys, ids) == Without(xs, ids) + Without(ys, ids)
  {
    if xs == [] {
      assert xs + ys == ys;
    } else {
      assert (xs + ys)[1..] == xs[1..] + ys;
      WithoutAppend(xs[1..], ys, ids);
    }
  }

  /** A list none of whose ids is listed is kept whole. */
  lemma {:induction false} WithoutNoneListed(xs: seq<Record>, ids: seq<Value>)
    requires forall k :: 0 <= k < |xs| ==> Id(xs[k]) !in ids
    ensures Without(xs, ids) == xs
  {
    if xs != [] {
      WithoutNoneListed(xs[1..], ids);
    }
  }

  /** Deleting a then b is deleting a + b. */
  lemma {:induction false} WithoutTwice(xs: seq<Record>, a: seq<Value>, b: seq<Value>)
    ensures Without(Without(xs, a), b) == Without(xs, a + b)
  {
    if xs != [] {
      WithoutTwice(xs[1..], a, b);
      var x := xs[0];
      if Id(x) in a {
        assert Id(x) in a + b;
        assert Without(xs, a) == Without(xs[1..], a);
        assert Without(xs, a + b) == Without(xs[1..], a + b);
      } else {
        var w := Without(xs, a);
        assert w == [x] + Without(xs[1..], a);
        assert w != [] && w[0] == x && w[1..] == Without(xs[1..], a);
        assert (Id(x) in a + b) == (Id(x) in b);
      }
    }
  }

  lemma HasIdWithout(xs: seq<Record>, ids: seq<Value>, v: Value)
    ensures HasId(Without(xs, ids), v) <==> HasId(xs, v) && v !in ids
  {
    var r := Without(xs, ids);
    if HasId(r, v) {
      var k :| 0 <= k < |r| && Id(r[k]) == v;
      WithoutMembership(xs, ids, r[k]);
      var j :| 0 <= j < |xs| && xs[j] == r[k];
    }
    if HasId(xs, v) && v !in ids {
      var j :| 0 <= j < |xs| && Id(xs[j]) == v;
      WithoutMembership(xs, ids, xs[j]);
      var k :| 0 <= k < |r| && r[k] == xs[j];
    }
  }

  /** handle_delete_cryptos clears the selection only when it is set and listed. */
  function ClearedSelection(selected: Option<string>, ids: seq<Value>): Option<string> {
    if selected.Some? && selected.value != "" && Str(selected.value) in ids then None
    else selected
  }

  // ---------------------------------------------------------------------
  // delete_cryptos: one id at a time, counting the ids that still matched
  // ---------------------------------------------------------------------

  /** The distinct listed ids that some entry of xs carries. */
  function Matched(xs: seq<Record>, ids: seq<Value>): set<Value> {
    set v | v in ids && HasId(xs, v)
  }

  /** The loop of delete_cryptos: the list and the count after processing ids. */
  function DeleteEach(xs: seq<Record>, ids: seq<Value>): (seq<Record>, nat)
    decreases |ids|
  {
    if ids == [] then (xs, 0)
    else
      var (ys, n) := DeleteEach(xs, ids[..|ids| - 1]);
      var v := ids[|ids| - 1];
      if HasId(ys, v) then (Without(ys, [v]), n + 1) else (ys, n)
  }

  /**
   * delete_cryptos ends with the same list as the comprehension of
   * handle_delete_cryptos, but counts each distinct listed id that some
   * entry carried, not every listed id.
   */
  lemma {:induction false} DeleteEachMeaning(xs: seq<Record>, ids: seq<Value>)
    ensures DeleteEach(xs, ids).0 == Without(xs, ids)
    ensures DeleteEach(xs, ids).1 == |Matched(xs, ids)|
    decreases |ids|
  {
    if ids == [] {
      WithoutNoneListed(xs, ids);
      assert Matched(xs, ids) == {};
    } else {
      var a, v := ids[..|ids| - 1], ids[|ids| - 1];
      assert ids == a + [v];
      DeleteEachMeaning(xs, a);
      var ys := Without(xs, a);
      WithoutTwice(xs, a, [v]);
      HasIdWithout(xs, a, v);
      if HasId(ys, v) {
        assert Matched(xs, ids) == Matched(xs, a) + {v};
        assert v !in Matched(xs, a);
      } else {
        WithoutNoneListed(ys, [v]);
        assert Matched(xs, ids) == Matched(xs, a);
      }
    }
  }

  /** Every listed id that matches is counted, so the count never exceeds the ids given. */
  lemma DeletedCountBound(xs: seq<Record>, ids: seq<Value>)
    ensures DeleteEach(xs, ids).1 <= |ids|
  {
    DeleteEachMeaning(xs, ids);
    SetOfSeqBound(ids, Matched(xs, ids));
  }

  lemma {:induction false} SetOfSeqBound(ids: seq<Value>, s: set<Value>)
    requires forall v :: v in s ==> v in ids
    ensures |s| <= |ids|
  {
    if ids != [] {
      var v := ids[|ids| - 1];
      var a := ids[..|ids| - 1];
      assert ids == a + [v];
      SetOfSeqBound(a, s - {v});
      assert s <= (s - {v}) + {v};
    } else {
      assert s == {};
    }
  }

  // ---------------------------------------------------------------------
  // Updating: handle_update_cryptos overrides every matching entry
  // ---------------------------------------------------------------------

  /** {**existing, **update} when the ids agree, else the entry itself. */
  function Merge(e: Record, u: Record): Record {
    if Id(e) == Id(u) then e + u else e
  }

  /** One pass of the comprehension at cryptos.py:110-115. */
  function UpdateEach(xs: seq<Record>, u: Record): seq<Record> {
    seq(|xs|, k requires 0 <= k < |xs| => Merge(xs[k], u))
  }

  /** handle_update_cryptos: one pass per update, in order. */
  function UpdateAll(xs: seq<Record>, us: seq<Record>): seq<Record>
    decreases |us|
  {
    if us == [] then xs else UpdateEach(UpdateAll(xs, us[..|us| - 1]), us[|us| - 1])
  }

  /** What one entry becomes after all the updates, in order. */
  function MergeAll(e: Record, us: seq<Record>): Record
    decreases |us|
  {
    if us == [] then e else Merge(MergeAll(e, us[..|us| - 1]), us[|us| - 1])
  }

  /** The updates whose id is v, in order. */
  function Matching(us: seq<Record>, v: Value): seq<Record>
    decreases |us|
  {
    if us == [] then []
    else Matching(us[..|us| - 1], v) + (if Id(us[|us| - 1]) == v then [us[|us| - 1]] else [])
  }

  /** Layering dictionaries left to right, later keys winning. */
  function Overlay(us: seq<Record>): map<string, Value>
    decreases |us|
  {
    if us == [] then map[] else Overlay(us[..|us| - 1]) + us[|us| - 1]
  }

  lemma MapPlusAssoc(a: map<string, Value>, b: map<string, Value>, c: map<string, Value>)
    ensures (a + b) + c == a + (b + c)
  {
  }

  /**
   * An entry ends as itself overlaid with exactly the updates carrying its
   * id, later ones winning; an update never changes an entry's id.
   */
  lemma {:induction false} MergeAllMeaning(e: Record, us: seq<Record>)
    ensures Id(MergeAll(e, us)) == Id(e)
    ensures MergeAll(e, us) == e + Overlay(Matching(us, Id(e)))
    decreases |us|
  {
    if us == [] {
      assert e + map[] == e;
    } else {
      var a, u := us[..|us| - 1], us[|us| - 1];
      MergeAllMeaning(e, a);
      var m := Matching(a, Id(e));
      assert us[..|us| - 1] == a;
      if Id(u) == Id(e) {
        assert Matching(us, Id(e)) == m + [u];
        assert (m + [u])[..|m + [u]| - 1] == m;
        assert Overlay(m + [u]) == Overlay(m) + u;
        MapPlusAssoc(e, Overlay(m), u);
      } else {
        assert Matching(us, Id(e)) == m + [];
        assert m + [] == m;
        assert MergeAll(e, us) == MergeAll(e, a);
      }
    }
  }

  lemma {:induction false} UpdateAllPointwise(xs: seq<Record>, us: seq<Record>)
    ensures |UpdateAll(xs, us)| == |xs|
    ensures forall k :: 0 <= k < |xs| ==> UpdateAll(xs, us)[k] == MergeAll(xs[k], us)
    decreases |us|
  {
    if us != [] {
      UpdateAllPointwise(xs, us[..|us| - 1]);
    }
  }

  /**
   * handle_update_cryptos keeps length and order; each entry receives the
   * fields of the updates carrying its id, and an entry no update names is
   * unchanged.
   */
  lemma UpdateAllMeaning(xs: seq<Record>, us: seq<Record>, k: nat)
    requires k < |xs|
    ensures |UpdateAll(xs, us)| == |xs|
    ensures UpdateAll(xs, us)[k] == xs[k] + Overlay(Matching(us, Id(xs[k])))
    ensures Id(UpdateAll(xs, us)[k]) == Id(xs[k])
    ensures Matching(us, Id(xs[k])) == [] ==> UpdateAll(xs, us)[k] == xs[k]
  {
    UpdateAllPointwise(xs, us);
    MergeAllMeaning(xs[k], us);
    assert xs[k] + map[] == xs[k];
  }

  // ---------------------------------------------------------------------
  // update_cryptos: only the first matching entry, counting matches
  // ---------------------------------------------------------------------

  /** The index of the first entry whose id is v. */
  function FirstMatch(xs: seq<Record>, v: Value): (r: Option<nat>)
    ensures r.Some? ==> r.value < |xs| && Id(xs[r.value]) == v
    ensures r.Some? ==> forall j :: 0 <= j < r.value ==> Id(xs[j]) != v
    ensures r.None? <==> !HasId(xs, v)
    decreases |xs|
  {
    if xs == [] then None
    else if Id(xs[0]) == v then Some(0)
    else match FirstMatch(xs[1..], v)
      case None => None
      case Some(k) => Some(k + 1)
  }

  /** The inner loop of update_cryptos for one update, and whether it matched. */
  function UpdateFirst(xs: seq<Record>, u: Record): (seq<Record>, bool) {
    match FirstMatch(xs, Id(u))
    case None => (xs, false)
    case Some(k) => (xs[k := xs[k] + u], true)
  }

  /** The outer loop of update_cryptos: the list and the count after us. */
  function UpdateFirstEach(xs: seq<Record>, us: seq<Record>): (seq<Record>, nat)
    decreases |us|
  {
    if us == [] then (xs, 0)
    else
      var (ys, n) := UpdateFirstEach(xs, us[..|us| - 1]);
      var (zs, hit) := UpdateFirst(ys, us[|us| - 1]);
      (zs, if hit then n + 1 else n)
  }

  /** The number of updates whose id some entry of xs carries. */
  function CountMatching(us: seq<Record>, xs: seq<Record>): nat
    decreases |us|
  {
    if us == [] then 0
    else CountMatching(us[..|us| - 1], xs) + (if HasId(xs, Id(us[|us| - 1])) then 1 else 0)
  }

  /** Only the first entry carrying the update's id changes. */
  lemma UpdateFirstChangesOne(xs: seq<Record>, u: Record, j: nat)
    requires j < |xs|
    ensures |UpdateFirst(xs, u).0| == |xs|
    ensures UpdateFirst(xs, u).1 <==> HasId(xs, Id(u))
    ensures Id(UpdateFirst(xs, u).0[j]) == Id(xs[j])
    ensures UpdateFirst(xs, u).0[j] ==
      if FirstMatch(xs, Id(u)) == Some(j) then xs[j] + u else xs[j]
  {
  }

  /**
   * update_cryptos keeps length and every id, and its count is the number of
   * updates (with repeats) whose id is in the list.
   */
  lemma {:induction false} UpdateFirstEachMeaning(xs: seq<Record>, us: seq<Record>)
    ensures |UpdateFirstEach(xs, us).0| == |xs|
    ensures forall k :: 0 <= k < |xs| ==> Id(UpdateFirstEach(xs, us).0[k]) == Id(xs[k])
    ensures UpdateFirstEach(xs, us).1 == CountMatching(us, xs)
    decreases |us|
  {
    if us != [] {
      var a, u := us[..|us| - 1], us[|us| - 1];
      UpdateFirstEachMeaning(xs, a);
      var ys := UpdateFirstEach(xs, a).0;
      assert HasId(ys, Id(u)) <==> HasId(xs, Id(u)) by {
        if HasId(ys, Id(u)) {
          var k :| 0 <= k < |ys| && Id(ys[k]) == Id(u);
          assert Id(xs[k]) == Id(u);
        }
        if HasId(xs, Id(u)) {
          var k :| 0 <= k < |xs| && Id(xs[k]) == Id(u);
          assert Id(ys[k]) == Id(u);
        }
      }
      forall k | 0 <= k < |xs|
        ensures Id(UpdateFirstEach(xs, us).0[k]) == Id(xs[k])
      {
        UpdateFirstChangesOne(ys, u, k);
      }
    }
  }

  /** Lists with the same ids, position by position, have the same first matches. */
  lemma {:induction false} FirstMatchSameIds(xs: seq<Record>, ys: seq<Record>, v: Value)
    requires |xs| == |ys|
    requires forall k :: 0 <= k < |xs| ==> Id(ys[k]) == Id(xs[k])
    ensures FirstMatch(ys, v) == FirstMatch(xs, v)
    decreases |xs|
  {
    if xs != [] {
      FirstMatchSameIds(xs[1..], ys[1..], v);
    }
  }

  /**
   * What update_cryptos makes of each entry: the first entry carrying an id
   * receives the fields of every update with that id, later ones winning;
   * every later entry with the same id, and every entry no update names, is
   * left as it was.
   */
  lemma {:induction false} UpdateFirstEachEntry(xs: seq<Record>, us: seq<Record>, k: nat)
    requires k < |xs|
    ensures |UpdateFirstEach(xs, us).0| == |xs|
    ensures UpdateFirstEach(xs, us).0[k] ==
      if FirstMatch(xs, Id(xs[k])) == Some(k) then xs[k] + Overlay(Matching(us, Id(xs[k])))
      else xs[k]
    decreases |us|
  {
    var v := Id(xs[k]);
    UpdateFirstEachMeaning(xs, us);
    if us == [] {
      assert xs[k] + map[] == xs[k];
    } else {
      var a, u := us[..|us| - 1], us[|us| - 1];
      assert us[..|us| - 1] == a;
      UpdateFirstEachEntry(xs, a, k);
      UpdateFirstEachMeaning(xs, a);
      var ys := UpdateFirstEach(xs, a).0;
      var m := Matching(a, v);
      FirstMatchSameIds(xs, ys, Id(u));
      UpdateFirstChangesOne(ys, u, k);
      if Id(u) == v {
        assert Matching(us, v) == m + [u];
        assert (m + [u])[..|m + [u]| - 1] == m;
        assert Overlay(m + [u]) == Overlay(m) + u;
        if FirstMatch(xs, v) == Some(k) {
          MapPlusAssoc(xs[k], Overlay(m), u);
        }
      } else {
        assert Matching(us, v) == m + [];
        assert m + [] == m;
      }
    }
  }

  /** With two entries sharing an id, the two update paths disagree. */
  lemma UpdatePathsDiffer()
    ensures
      var a := map["id" := Str("btc"), "name" := Str("Bitcoin")];
      var u := map["id" := Str("btc"), "name" := Str("BTC")];
      UpdateAll([a, a], [u]) == [a + u, a + u] &&
      UpdateFirstEach([a, a], [u]) == ([a + u, a], 1)
  {
    var a: Record := map["id" := Str("btc"), "name" := Str("Bitcoin")];
    var u: Record := map["id" := Str("btc"), "name" := Str("BTC")];
    assert [u][..0] == [];
    assert FirstMatch([a, a], Id(u)) == Some(0);
    assert UpdateFirst([a, a], u) == ([a, a][0 := a + u], true);
    assert [a, a][0 := a + u] == [a + u, a];
  }

  // ---------------------------------------------------------------------
  // The three handlers and perform_cryptos_node, as functions of the state
  // ---------------------------------------------------------------------

  const HandlerNames: set<string> := {"add_cryptos", "delete_cryptos", "update_cryptos"}

  /** The handler a tool call dispatches to: the new state and its report, if any. */
  function HandleCall(p: CryptoView, call: ToolCall): (CryptoView, Option<string>) {
    if call.name == "add_cryptos" then
      var xs := CryptosArg(call.args);
      (CryptoView(p.cryptos + xs, p.selected), Some(ReportText("Added", |xs|)))
    else if call.name == "delete_cryptos" then
      var ids := IdsArg(call.args);
      (CryptoView(Without(p.cryptos, ids), ClearedSelection(p.selected, ids)),
       Some(ReportText("Deleted", |ids|)))
    else if call.name == "update_cryptos" then
      var us := CryptosArg(call.args);
      (CryptoView(UpdateAll(p.cryptos, us), p.selected), Some(ReportText("Updated", |us|)))
    else (p, None)
  }

  /** The loop of perform_cryptos_node: the state and the ToolMessages appended. */
  function PerformAll(p: CryptoView, calls: seq<ToolCall>): (CryptoView, seq<Message>)
    decreases |calls|
  {
    if calls == [] then (p, [])
    else
      var (q, out) := PerformAll(p, calls[..|calls| - 1]);
      var call := calls[|calls| - 1];
      var (q', report) := HandleCall(q, call);
      (q', out + if report.Some? then [ToolMessage(call.id, report.value)] else [])
  }

  /** The calls a handler exists for, in call order. */
  function Handled(calls: seq<ToolCall>): seq<ToolCall>
    decreases |calls|
  {
    if calls == [] then []
    else
      Handled(calls[..|calls| - 1]) +
      (if calls[|calls| - 1].name in HandlerNames then [calls[|calls| - 1]] else [])
  }

  /**
   * perform_cryptos_node appends exactly one ToolMessage per handled call, in
   * call order, each answering that call's id; calls with other names are
   * ignored altogether.
   */
  lemma {:induction false} PerformAllMessages(p: CryptoView, calls: seq<ToolCall>)
    ensures |PerformAll(p, calls).1| == |Handled(calls)|
    ensures forall k :: 0 <= k < |Handled(calls)| ==>
      PerformAll(p, calls).1[k].ToolMessage? &&
      PerformAll(p, calls).1[k].toolCallId == Handled(calls)[k].id
    ensures PerformAll(p, calls) == PerformAll(p, Handled(calls))
    decreases |calls|
  {
    if calls != [] {
      var a, c := calls[..|calls| - 1], calls[|calls| - 1];
      PerformAllMessages(p, a);
      var h := Handled(a);
      var (q, out) := PerformAll(p, a);
      if c.name in HandlerNames {
        assert Handled(calls) == h + [c];
        assert (h + [c])[..|h + [c]| - 1] == h;
      } else {
        assert Handled(calls) == h + [];
        assert h + [] == h;
        assert HandleCall(q, c) == (q, None);
        assert out + [] == out;
      }
    }
  }

  /** The add handler appends the given records, in order, after the old ones. */
  lemma AddAppends(p: CryptoView, call: ToolCall)
    requires call.name == "add_cryptos"
    ensures var (q, report) := HandleCall(p, call);
      q.cryptos[..|p.cryptos|] == p.cryptos &&
      q.cryptos[|p.cryptos|..] == CryptosArg(call.args) &&
      report == Some(ReportText("Added", |CryptosArg(call.args)|))
    ensures call.args.cryptos.None? ==> HandleCall(p, call).0 == p
  {
  }

  // ---------------------------------------------------------------------
  // The mutable agent state
  // ---------------------------------------------------------------------

  /** The AgentState dictionary that the nodes mutate in place. */
  class CryptoAgent {
    var messages: seq<Message>
    /** None while the "cryptos" key is absent. */
    var cryptos: Option<seq<Record>>
    var selectedCryptoId: Option<string>
    var prices: Option<string>
    var insights: Option<string>

    constructor (messages: seq<Message>, cryptos: Option<seq<Record>>, selected: Option<string>)
      ensures this.messages == messages && this.cryptos == cryptos
      ensures selectedCryptoId == selected && prices.None? && insights.None?
    {
      this.messages := messages;
      this.cryptos := cryptos;
      selectedCryptoId := selected;
      prices := None;
      insights := None;
    }

    ghost function View(): CryptoView
      reads this
      requires cryptos.Some?
    {
      CryptoView(cryptos.value, selectedCryptoId)
    }

    /** The last message, which the dispatching nodes cast to an AIMessage. */
    ghost predicate EndsWithToolCalls()
      reads this
    {
      |messages| > 0 && messages[|messages| - 1].AIMessage? &&
      |messages[|messages| - 1].toolCalls| > 0
    }

    /** cryptos_node: returns the state as it is. */
    method CryptosNode()
      ensures unchanged(this)
    {
    }

    /** handle_add_cryptos */
    method HandleAdd(args: Args) returns (message: string)
      requires cryptos.Some?
      modifies this`cryptos
      ensures cryptos == Some(old(cryptos.value) + CryptosArg(args))
      ensures message == ReportText("Added", |CryptosArg(args)|)
    {
      var xs := CryptosArg(args);
      cryptos := Some(cryptos.value + xs);
      message := ReportText("Added", |xs|);
    }

    /** handle_delete_cryptos */
    method HandleDelete(args: Args) returns (message: string)
      requires cryptos.Some?
      modifies this`cryptos, this`selectedCryptoId
      ensures cryptos == Some(Without(old(cryptos.value), IdsArg(args)))
      ensures selectedCryptoId == ClearedSelection(old(selectedCryptoId), IdsArg(args))
      ensures message == ReportText("Deleted", |IdsArg(args)|)
    {
      var ids := IdsArg(args);
      if selectedCryptoId.Some? && selectedCryptoId.value != "" && Str(selectedCryptoId.value) in ids {
        selectedCryptoId := None;
      }
      cryptos := Some(Without(cryptos.value, ids));
      message := ReportText("Deleted", |ids|);
    }

    /** handle_update_cryptos */
    method HandleUpdate(args: Args) returns (message: string)
      requires cryptos.Some?
      modifies this`cryptos
      ensures cryptos == Some(UpdateAll(old(cryptos.value), CryptosArg(args)))
      ensures message == ReportText("Updated", |CryptosArg(args)|)
    {
      var us := CryptosArg(args);
      var i := 0;
      while i < |us|
        invariant 0 <= i <= |us|
        invariant cryptos == Some(UpdateAll(old(cryptos.value), us[..i]))
      {
        assert us[..i + 1][..i] == us[..i];
        cryptos := Some(UpdateEach(cryptos.value, us[i]));
        i := i + 1;
      }
      assert us[..i] == us;
      message := ReportText("Updated", |us|);
    }

    /** The action_handlers lookup of perform_cryptos_node for one call. */
    method Dispatch(call: ToolCall) returns (report: Option<string>)
      requires cryptos.Some?
      modifies this`cryptos, this`selectedCryptoId
      ensures cryptos.Some?
      ensures (View(), report) == HandleCall(old(View()), call)
    {
      report := None;
      if call.name == "add_cryptos" {
        var message := HandleAdd(call.args);
        report := Some(message);
      } else if call.name == "delete_cryptos" {
        var message := HandleDelete(call.args);
        report := Some(message);
      } else if call.name == "update_cryptos" {
        var message := HandleUpdate(call.args);
        report := Some(message);
      }
    }

    /** perform_cryptos_node */
    method PerformCryptosNode()
      requires |messages| > 0 && messages[|messages| - 1].AIMessage?
      modifies this`messages, this`cryptos, this`selectedCryptoId
      ensures cryptos.Some?
      ensures var calls := old(messages)[|old(messages)| - 1].toolCalls;
        var (p, out) := PerformAll(CryptoView(old(cryptos).GetOr([]), old(selectedCryptoId)), calls);
        View() == p && messages == old(messages) + out
    {
      var calls := messages[|messages| - 1].toolCalls;
      if cryptos.None? || cryptos.value == [] {
        cryptos := Some([]);
      }
      ghost var p0 := View();
      ghost var m0 := messages;
      var i := 0;
      while i < |calls|
        invariant 0 <= i <= |calls|
        invariant cryptos.Some?
        invariant View() == PerformAll(p0, calls[..i]).0
        invariant messages == m0 + PerformAll(p0, calls[..i]).1
      {
        var call := calls[i];
        assert calls[..i + 1][..i] == calls[..i];
        var report := Dispatch(call);
        if report.Some? {
          messages := messages + [ToolMessage(call.id, report.value)];
        }
        i := i + 1;
      }
      assert calls[..i] == calls;
    }

    /** The delete_cryptos tool, which reads and writes the state it is given. */
    method DeleteCryptos(cryptoIds: seq<Value>) returns (message: string)
      requires cryptos.Some?
      modifies this`cryptos
      ensures cryptos == Some(Without(old(cryptos.value), cryptoIds))
      ensures message == ReportText("Deleted", |Matched(old(cryptos.value), cryptoIds)|)
    {
      var deletedCount := 0;
      var i := 0;
      while i < |cryptoIds|
        invariant 0 <= i <= |cryptoIds|
        invariant cryptos.Some?
        invariant (cryptos.value, deletedCount) == DeleteEach(old(cryptos.value), cryptoIds[..i])
      {
        var v := cryptoIds[i];
        assert cryptoIds[..i + 1][..i] == cryptoIds[..i];
        if HasId(cryptos.value, v) {
          cryptos := Some(Without(cryptos.value, [v]));
          deletedCount := deletedCount + 1;
        }
        i := i + 1;
      }
      assert cryptoIds[..i] == cryptoIds;
      DeleteEachMeaning(old(cryptos.value), cryptoIds);
      message := ReportText("Deleted", deletedCount);
    }

    /** The update_cryptos tool: each update goes to the first entry with its id. */
    method UpdateCryptos(updates: seq<Record>) returns (message: string)
      requires cryptos.Some?
      modifies this`cryptos
      ensures cryptos == Some(UpdateFirstEach(old(cryptos.value), updates).0)
      ensures message == ReportText("Updated", CountMatching(updates, old(cryptos.value)))
    {
      var updatedCount := 0;
      var i := 0;
      while i < |updates|
        invariant 0 <= i <= |updates|
        invariant cryptos.Some?
        invariant (cryptos.value, updatedCount) == UpdateFirstEach(old(cryptos.value), updates[..i])
      {
        var u := updates[i];
        assert updates[..i + 1][..i] == updates[..i];
        var xs := cryptos.value;
        var j := 0;
        while j < |xs|
          invariant 0 <= j <= |xs|
          invariant cryptos == Some(xs)
          invariant forall k :: 0 <= k < j ==> Id(xs[k]) != Id(u)
        {
          if Id(xs[j]) == Id(u) {
            cryptos := Some(xs[j := xs[j] + u]);
            updatedCount := updatedCount + 1;
            break;
          }
          j := j + 1;
        }
        i := i + 1;
      }
      assert updates[..i] == updates;
      UpdateFirstEachMeaning(old(cryptos.value), updates);
      message := ReportText("Updated", updatedCount);
    }

    /**
     * prices_node, with the outcome of get_prices as an input. A failing
     * lookup raises out of the node before the state is touched.
     */
    method PricesNode(fetched: Result<string, string>) returns (raised: Option<string>)
      requires EndsWithToolCalls()
      modifies this`messages, this`prices
      ensures var call := old(messages)[|old(messages)| - 1].toolCalls[0];
        if call.args.coins.GetOr([]) == [] then
          raised.None? && messages == old(messages) && prices == old(prices)
        else if fetched.Failure? then
          raised == Some(fetched.error) && messages == old(messages) && prices == old(prices)
        else
          raised.None? && prices == Some(fetched.value) &&
          messages == old(messages) + [DictMessage(call.id, "Fetched the following prices: " + fetched.value)]
    {
      var call := messages[|messages| - 1].toolCalls[0];
      var coins := call.args.coins.GetOr([]);
      if coins == [] {
        return None;
      }
      if fetched.Failure? {
        return Some(fetched.error);
      }
      prices := Some(fetched.value);
      messages := messages + [DictMessage(call.id, "Fetched the following prices: " + fetched.value)];
      raised := None;
    }

    /**
     * insights_node, with the outcome of get_insights as an input. A failing
     * lookup raises out of the node before the state is touched.
     */
    method InsightsNode(fetched: Result<string, string>) returns (raised: Option<string>)
      requires EndsWithToolCalls()
      modifies this`messages, this`insights
      ensures var call := old(messages)[|old(messages)| - 1].toolCalls[0];
        var coin := call.args.coin.GetOr("");
        if coin == "" then
          raised.None? && messages == old(messages) && insights == old(insights)
        else if fetched.Failure? then
          raised == Some(fetched.error) && messages == old(messages) && insights == old(insights)
        else
          raised.None? && insights == Some(fetched.value) &&
          messages == old(messages) +
            [DictMessage(call.id, "Fetched the following insights for " + coin + ": " + fetched.value)]
    {
      var call := messages[|messages| - 1].toolCalls[0];
      var coin := call.args.coin.GetOr("");
      if coin == "" {
        return None;
      }
      if fetched.Failure? {
        return Some(fetched.error);
      }
      insights := Some(fetched.value);
      messages := messages + [DictMessage(call.id, "Fetched the following insights for " + coin + ": " + fetched.value)];
      raised := None;
    }
  }
}
