/**
 * The editable holdings list of the portfolio dialog
 * (ui/src/components/PortfolioManager.tsx) and its save mutation.
 */
module Portfolio {
  import opened Wrappers
  import opened Holdings
  import Appwrite

  /** The value one input row writes: the coin-id text box or the amount box. */
  datatype FieldUpdate = CoinId(coinId: string) | SetAmount(amount: Amount)

  /** { ...h, [field]: value } */
  function WithFieldValue(h: Holding, f: FieldUpdate): (r: Holding)
    ensures f.CoinId? ==> r.coinId == f.coinId && r.amount == h.amount
    ensures f.SetAmount? ==> r.amount == f.amount && r.coinId == h.coinId
  {
    match f
    case CoinId(c) => h.(coinId := c)
    case SetAmount(a) => h.(amount := a)
  }

  /** addHolding's new list: the old rows and a blank one after them. */
  function WithBlankRow(hs: seq<Holding>): (r: seq<Holding>)
    ensures |r| == |hs| + 1
    ensures r[..|hs|] == hs && r[|hs|] == Blank
  {
    hs + [Blank]
  }

  /** updateHolding's new list: row i has the one field replaced, the rest is as it was. */
  function WithField(hs: seq<Holding>, i: nat, f: FieldUpdate): (r: seq<Holding>)
    requires i < |hs|
    ensures |r| == |hs|
    ensures forall j :: 0 <= j < |hs| && j != i ==> r[j] == hs[j]
    ensures f.CoinId? ==> r[i].coinId == f.coinId && r[i].amount == hs[i].amount
    ensures f.SetAmount? ==> r[i].amount == f.amount && r[i].coinId == hs[i].coinId
  {
    hs[i := WithFieldValue(hs[i], f)]
  }

  /** Typing into the same box twice keeps only the last value. */
  lemma LastEditWins(hs: seq<Holding>, i: nat, f: FieldUpdate, g: FieldUpdate)
    requires i < |hs|
    requires f.CoinId? == g.CoinId?
    ensures WithField(WithField(hs, i, f), i, g) == WithField(hs, i, g)
  {
  }

  /** Edits to different rows, or to the two boxes of one row, do not interfere. */
  lemma EditsCommute(hs: seq<Holding>, i: nat, f: FieldUpdate, j: nat, g: FieldUpdate)
    requires i < |hs| && j < |hs|
    requires i != j || f.CoinId? != g.CoinId?
    ensures WithField(WithField(hs, i, f), j, g) == WithField(WithField(hs, j, g), i, f)
  {
  }

  /** Adding a row never disturbs the rows an edit can reach. */
  lemma AddThenEdit(hs: seq<Holding>, i: nat, f: FieldUpdate)
    requires i < |hs|
    ensures WithField(WithBlankRow(hs), i, f) == WithBlankRow(WithField(hs, i, f))
  {
  }

  /** The component's state: the rows being edited and whether the dialog is open. */
  class PortfolioManager {
    var holdings: seq<Holding>
    var isOpen: bool

    /** useState(false) and useState([{ coinId: "", amount: 0 }]) */
    constructor ()
      ensures holdings == [Blank] && !isOpen
    {
      holdings := [Blank];
      isOpen := false;
    }

    /** The dialog's onOpenChange. */
    method SetOpen(open: bool)
      modifies this`isOpen
      ensures isOpen == open
    {
      isOpen := open;
    }

    method AddHolding()
      modifies this`holdings
      ensures holdings == WithBlankRow(old(holdings))
    {
      holdings := holdings + [Blank];
    }

    /** updateHolding, called from the row at index. */
    method UpdateHolding(index: nat, f: FieldUpdate)
      requires index < |holdings|
      modifies this`holdings
      ensures holdings == WithField(old(holdings), index, f)
    {
      var newHoldings := holdings;
      newHoldings := newHoldings[index := WithFieldValue(newHoldings[index], f)];
      holdings := newHoldings;
    }

    /**
     * handleSubmit: save the rows as they are for the signed-in user; the
     * dialog closes on success and stays as it was on error.
     */
    method HandleSubmit(store: Appwrite.Store, userId: string, now: string, fault: Option<string>)
      returns (saved: Outcome<string>)
      requires store.Valid()
      modifies this`isOpen, store
      ensures store.Valid()
      ensures store.subscribers == old(store.subscribers) && store.calls == old(store.calls)
      ensures saved == if fault.Some? then Fail(fault.value) else Pass
      ensures store.holdingDocs == old(store.holdingDocs) +
        if saved.Pass? then [Appwrite.HoldingsDoc(old(store.nextId), userId, holdings, now)] else []
      ensures isOpen == if saved.Pass? then false else old(isOpen)
    {
      saved := store.SaveHoldings(userId, holdings, now, fault);
      if saved.Pass? {
        isOpen := false;
      }
    }
  }
}
