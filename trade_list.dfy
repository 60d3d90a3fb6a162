/** The trade list: the fetched trades are shown in two groups, the pending
    trades first and every other trade under "Other Settlements", with a
    header and a transaction count derived from them. */
module TradeList {

  /** The status of a trade; `Unrecognised` stands for any other or missing
      status string, which the component also shows among the other trades. */
  datatype Status = Pending | Settled | Rejected | Expired | Unrecognised

  /** A fetched trade; the amounts and token identifiers are carried to the
      table rows unchanged. */
  datatype Trade = Trade(
    id: int,
    status: Status,
    amountOfTokenToBuy: string,
    amountOfTokenToSell: string,
    tokenToSell: string,
    tokenToBuy: string)

  /** `filter(trade => trade.status === "Pending")`. */
  function PendingTrades(ts: seq<Trade>): (r: seq<Trade>)
    ensures |r| <= |ts|
    ensures forall i :: 0 <= i < |r| ==> r[i].status == Pending
    ensures forall t :: t in r <==> t in ts && t.status == Pending
  {
    if ts == [] then []
    else if ts[0].status == Pending then [ts[0]] + PendingTrades(ts[1..])
    else PendingTrades(ts[1..])
  }

  /** The trades for which the render loop under "Other Settlements" emits a
      row: those whose status is not `Pending`. */
  function OtherTrades(ts: seq<Trade>): (r: seq<Trade>)
    ensures |r| <= |ts|
    ensures forall i :: 0 <= i < |r| ==> r[i].status != Pending
    ensures forall t :: t in r <==> t in ts && t.status != Pending
  {
    if ts == [] then []
    else if ts[0].status != Pending then [ts[0]] + OtherTrades(ts[1..])
    else OtherTrades(ts[1..])
  }

  /** `a` is `b` with some elements left out and the rest in their order. */
  predicate IsSubsequence(a: seq<Trade>, b: seq<Trade>)
    decreases |b|
  {
    if a == [] then true
    else if b == [] then false
    else if a[0] == b[0] then IsSubsequence(a[1..], b[1..])
    else IsSubsequence(a, b[1..])
  }

  /** The pending group keeps the relative order of the input. */
  lemma {:induction false} PendingKeepsOrder(ts: seq<Trade>)
    ensures IsSubsequence(PendingTrades(ts), ts)
  {
    if ts != [] {
      PendingKeepsOrder(ts[1..]);
      var r := PendingTrades(ts);
      if ts[0].status == Pending {
        assert r[0] == ts[0] && r[1..] == PendingTrades(ts[1..]);
      } else {
        assert r == PendingTrades(ts[1..]);
      }
    }
  }

  /** The other group keeps the relative order of the input. */
  lemma {:induction false} OtherKeepsOrder(ts: seq<Trade>)
    ensures IsSubsequence(OtherTrades(ts), ts)
  {
    if ts != [] {
      OtherKeepsOrder(ts[1..]);
      var r := OtherTrades(ts);
      if ts[0].status != Pending {
        assert r[0] == ts[0] && r[1..] == OtherTrades(ts[1..]);
      } else {
        assert r == OtherTrades(ts[1..]);
      }
    }
  }

  /** Every input trade, counted with its repetitions, lands in exactly one group. */
  lemma {:induction false} PartitionIsExact(ts: seq<Trade>)
    ensures multiset(PendingTrades(ts)) + multiset(OtherTrades(ts)) == multiset(ts)
    ensures |PendingTrades(ts)| + |OtherTrades(ts)| == |ts|
  {
    if ts != [] {
      PartitionIsExact(ts[1..]);
      assert ts == [ts[0]] + ts[1..];
    }
  }

  /** No trade is in both groups. */
  lemma PartitionIsDisjoint(ts: seq<Trade>)
    ensures multiset(PendingTrades(ts)) !! multiset(OtherTrades(ts))
  {
    var p, o := PendingTrades(ts), OtherTrades(ts);
    forall t | t in multiset(p) ensures t !in multiset(o) {
      assert t in p;
    }
  }

  /** An empty list gives two empty groups. */
  lemma EmptyListEmptyGroups()
    ensures PendingTrades([]) == [] && OtherTrades([]) == []
  {
  }

  /** The state the component holds: the stored trade list and the stored
      pending group. */
  datatype State = State(tradeList: seq<Trade>, pendingTrades: seq<Trade>)

  /** What the component shows for a state. */
  datatype View = View(
    transactionCount: nat,
    header: string,
    pendingRows: seq<Trade>,
    otherRows: seq<Trade>)

  /** The heading above the rows: it depends only on whether there is a
      pending trade. */
  function Header(pending: seq<Trade>): (h: string)
    ensures h == "No pending trades" <==> pending == []
    ensures h == "Action Required" <==> pending != []
  {
    if |pending| > 0 then "Action Required" else "No pending trades"
  }

  /** The render of the component: the count is the stored list's length,
      the pending rows are the stored pending group and the other rows are
      the stored list's non-pending trades. */
  function Render(s: State): (v: View)
    ensures v.transactionCount == |s.tradeList|
    ensures v.header == "No pending trades" <==> s.pendingTrades == []
    ensures v.pendingRows == s.pendingTrades
    ensures forall t :: t in v.otherRows <==> t in s.tradeList && t.status != Pending
  {
    View(|s.tradeList|, Header(s.pendingTrades), s.pendingTrades, OtherTrades(s.tradeList))
  }

  /** The state after a fetch resolves with `fetched`, when the pending group
      is derived from the fetched list. */
  function AfterFetch(fetched: seq<Trade>): (s: State)
    ensures s.tradeList == fetched
    ensures forall t :: t in s.pendingTrades <==> t in fetched && t.status == Pending
  {
    State(fetched, PendingTrades(fetched))
  }

  /** After a fetch, every fetched trade is shown in exactly one group, the
      count is the number of fetched trades, and the header reads
      "No pending trades" exactly when no fetched trade is pending. */
  lemma RenderAfterFetch(fetched: seq<Trade>)
    ensures var v := Render(AfterFetch(fetched));
      && multiset(v.pendingRows) + multiset(v.otherRows) == multiset(fetched)
      && v.transactionCount == |v.pendingRows| + |v.otherRows|
      && IsSubsequence(v.pendingRows, fetched) && IsSubsequence(v.otherRows, fetched)
      && (v.header == "No pending trades" <==> forall t :: t in fetched ==> t.status != Pending)
  {
    PartitionIsExact(fetched);
    PendingKeepsOrder(fetched);
    OtherKeepsOrder(fetched);
    var p := PendingTrades(fetched);
    if p != [] {
      assert p[0] in p;
    }
  }

  /** The state after a fetch as the effect writes it: the pending group is
      filtered from `captured`, the trade list that the effect's closure saw
      when the component mounted, not from the fetched list. */
  function AfterFetchAsWritten(captured: seq<Trade>, fetched: seq<Trade>): (s: State)
    ensures s.tradeList == fetched
    ensures forall t :: t in s.pendingTrades <==> t in captured && t.status == Pending
  {
    State(fetched, PendingTrades(captured))
  }

  /** With the list captured at mount (empty), a fetched pending trade is
      shown in neither group, and the header says there are no pending
      trades although one was fetched. */
  lemma AfterFetchAsWrittenLosesPending()
    ensures var t := Trade(1, Pending, "", "", "", "");
      var v := Render(AfterFetchAsWritten([], [t]));
      && t !in v.pendingRows && t !in v.otherRows
      && v.header == "No pending trades"
      && v.transactionCount == 1
  {
  }

  /** Trades 1 (pending), 2 (settled) and 3 (pending) are grouped as [1, 3]
      and [2]. */
  lemma ExamplePartition()
    ensures var t1 := Trade(1, Pending, "", "", "", "");
      var t2 := Trade(2, Settled, "", "", "", "");
      var t3 := Trade(3, Pending, "", "", "", "");
      PendingTrades([t1, t2, t3]) == [t1, t3] && OtherTrades([t1, t2, t3]) == [t2]
  {
    var t1 := Trade(1, Pending, "", "", "", "");
    var t2 := Trade(2, Settled, "", "", "", "");
    var t3 := Trade(3, Pending, "", "", "", "");
    assert [t1, t2, t3][1..] == [t2, t3];
    assert [t2, t3][1..] == [t3];
    assert [t3][1..] == [];
    assert OtherTrades([t3]) == [];
  }
}
