/** The receive-history page (src/pages/ReceiveHistory.tsx): transactions of
    four kinds, the outstanding quantity of a borrow, the tab filter, the
    timeline of one name, the per-name summary, and the return flow that
    records a return and may close the rest of a borrow as consumed. */
module ReceiveHistory {
  import opened Js
  import Seqs
  import Sorting

  datatype TabType = InTab | ReturnTab | ConsumeTab

  datatype TxKind = In | Borrow | Return | Consume

  datatype ReasonType = Broken | Lost | Other

  /** `TxItem`; an absent optional field is `None`, an absent
      `closedAsConsume` is `false`. */
  datatype TxItem = TxItem(
    id: string, kind: TxKind, date: string, name: string, qty: real, unit: string,
    images: seq<string>, actor: string, refId: Option<string>,
    borrowedQty: Option<real>, returnedQty: Option<real>, reason: Option<string>,
    closedAsConsume: bool)

  /** `borrowedQty ?? qty` */
  function Borrowed(t: TxItem): real
  {
    if t.borrowedQty.Some? then t.borrowedQty.value else t.qty
  }

  /** `returnedQty ?? 0` */
  function ReturnedSoFar(t: TxItem): real
  {
    if t.returnedQty.Some? then t.returnedQty.value else 0.0
  }

  /** `outstandingQty(item)` */
  function OutstandingQty(t: TxItem): (r: real)
    ensures r >= 0.0
    ensures t.kind != Borrow || t.closedAsConsume ==> r == 0.0
    ensures t.kind == Borrow && !t.closedAsConsume ==> r == Max(0.0, Borrowed(t) - ReturnedSoFar(t))
  {
    if t.kind != Borrow then 0.0
    else if t.closedAsConsume then 0.0
    else Max(0.0, Borrowed(t) - ReturnedSoFar(t))
  }

  lemma OutstandingMeansOpenBorrow(t: TxItem)
    requires OutstandingQty(t) > 0.0
    ensures t.kind == Borrow && !t.closedAsConsume && ReturnedSoFar(t) < Borrowed(t)
  {
  }

  // ---------- tabs ----------

  /** The name test of `filterByTab` for the lowered, trimmed query. */
  predicate ByName(t: TxItem, qLower: string)
  {
    qLower == "" || Contains(Lower(t.name), qLower)
  }

  function KindOf(tab: TabType): TxKind
  {
    match tab
    case InTab => In
    case ReturnTab => Return
    case ConsumeTab => Consume
  }

  /** What `filterByTab` returns: one list, or the returns and the open
      borrows of the return tab. */
  datatype TabView = Rows(rows: seq<TxItem>) | ReturnView(returnRows: seq<TxItem>, borrowRows: seq<TxItem>)

  function FilterByTab(items: seq<TxItem>, tab: TabType, q: string): (v: TabView)
    ensures tab != ReturnTab <==> v.Rows?
  {
    var qLower := Lower(Trim(q));
    match tab
    case InTab => Rows(Seqs.Filter(items, (t: TxItem) => t.kind == In && ByName(t, qLower)))
    case ConsumeTab => Rows(Seqs.Filter(items, (t: TxItem) => t.kind == Consume && ByName(t, qLower)))
    case ReturnTab =>
      ReturnView(
        Seqs.Filter(items, (t: TxItem) => t.kind == Return && ByName(t, qLower)),
        Seqs.Filter(items, (t: TxItem) => t.kind == Borrow && OutstandingQty(t) > 0.0 && ByName(t, qLower)))
  }

  /** The in and consume tabs list the items of their kind whose name
      contains the lowered, trimmed query; the return tab lists the returns
      and the borrows still open that pass the same name test. */
  lemma FilterByTabMembers(items: seq<TxItem>, tab: TabType, q: string)
    ensures var v := FilterByTab(items, tab, q);
      v.Rows? ==> forall t :: t in v.rows <==> t in items && t.kind == KindOf(tab) && ByName(t, Lower(Trim(q)))
    ensures var v := FilterByTab(items, tab, q);
      v.ReturnView? ==> forall t :: t in v.returnRows <==> t in items && t.kind == Return && ByName(t, Lower(Trim(q)))
    ensures var v := FilterByTab(items, tab, q);
      v.ReturnView? ==> forall t :: t in v.borrowRows <==>
        t in items && t.kind == Borrow && OutstandingQty(t) > 0.0 && ByName(t, Lower(Trim(q)))
  {
    var qLower := Lower(Trim(q));
    var v := FilterByTab(items, tab, q);
    if tab == InTab {
      var p := (t: TxItem) => t.kind == In && ByName(t, qLower);
      assert v.rows == Seqs.Filter(items, p);
    } else if tab == ConsumeTab {
      var p := (t: TxItem) => t.kind == Consume && ByName(t, qLower);
      assert v.rows == Seqs.Filter(items, p);
    } else {
      var p := (t: TxItem) => t.kind == Return && ByName(t, qLower);
      var p2 := (t: TxItem) => t.kind == Borrow && OutstandingQty(t) > 0.0 && ByName(t, qLower);
      assert v.returnRows == Seqs.Filter(items, p);
      assert v.borrowRows == Seqs.Filter(items, p2);
    }
  }

  /** With a blank query the in and consume tabs list every item of their
      kind, in order. */
  lemma BlankQueryKeepsKind(items: seq<TxItem>, tab: TabType, q: string)
    requires tab != ReturnTab && AllSpace(q)
    ensures FilterByTab(items, tab, q).rows == Seqs.Filter(items, (t: TxItem) => t.kind == KindOf(tab))
  {
    TrimEmptyIffAllSpace(q);
    var k := KindOf(tab);
    if tab == InTab {
      FilterSameTest(items, (t: TxItem) => t.kind == In && ByName(t, ""), (t: TxItem) => t.kind == k);
    } else {
      FilterSameTest(items, (t: TxItem) => t.kind == Consume && ByName(t, ""), (t: TxItem) => t.kind == k);
    }
  }

  lemma {:induction false} FilterSameTest(s: seq<TxItem>, p: TxItem -> bool, p2: TxItem -> bool)
    requires forall t :: p(t) == p2(t)
    ensures Seqs.Filter(s, p) == Seqs.Filter(s, p2)
  {
    if s != [] {
      FilterSameTest(s[1..], p, p2);
    }
  }

  /** Every list the tabs show keeps the order of `items`. */
  lemma FilterByTabInOrder(items: seq<TxItem>, tab: TabType, q: string)
    ensures var v := FilterByTab(items, tab, q);
      && (v.Rows? ==> Seqs.IsSubsequence(v.rows, items))
      && (v.ReturnView? ==> Seqs.IsSubsequence(v.returnRows, items) && Seqs.IsSubsequence(v.borrowRows, items))
  {
    var qLower := Lower(Trim(q));
    if tab == InTab {
      Seqs.FilterIsSubsequence(items, (t: TxItem) => t.kind == In && ByName(t, qLower));
    } else if tab == ConsumeTab {
      Seqs.FilterIsSubsequence(items, (t: TxItem) => t.kind == Consume && ByName(t, qLower));
    } else {
      Seqs.FilterIsSubsequence(items, (t: TxItem) => t.kind == Return && ByName(t, qLower));
      Seqs.FilterIsSubsequence(items, (t: TxItem) => t.kind == Borrow && OutstandingQty(t) > 0.0 && ByName(t, qLower));
    }
  }

  // ---------- timeline and summary ----------

  /** `a.date.localeCompare(b.date) <= 0` */
  predicate DateLe(a: TxItem, b: TxItem)
  {
    LexLe(a.date, b.date)
  }

  lemma DateLeIsPreorder()
    ensures Sorting.TotalPreorder(DateLe)
  {
    forall a: TxItem, b: TxItem ensures DateLe(a, b) || DateLe(b, a) {
      LexLeTotal(a.date, b.date);
    }
    forall a: TxItem, b: TxItem, c: TxItem | DateLe(a, b) && DateLe(b, c) ensures DateLe(a, c) {
      LexLeTransitive(a.date, b.date, c.date);
    }
  }

  /** `buildTimeline(items, name)`: the items of that name in date order. The
      sort works on a copy; `items` is a value here. */
  function BuildTimeline(items: seq<TxItem>, name: string): (r: seq<TxItem>)
    ensures Sorting.SortedBy(r, DateLe)
    ensures multiset(r) == multiset(Seqs.Filter(items, (t: TxItem) => t.name == name))
  {
    DateLeIsPreorder();
    Sorting.Sort(Seqs.Filter(items, (t: TxItem) => t.name == name), DateLe)
  }

  lemma TimelineMembers(items: seq<TxItem>, name: string, t: TxItem)
    ensures t in BuildTimeline(items, name) <==> t in items && t.name == name
  {
    var f := Seqs.Filter(items, (x: TxItem) => x.name == name);
    assert t in BuildTimeline(items, name) <==> t in multiset(BuildTimeline(items, name));
    assert t in f <==> t in multiset(f);
  }

  /** `all.filter(i => i.name === name)` */
  function Named(all: seq<TxItem>, name: string): seq<TxItem>
  {
    if all == [] then []
    else (if all[0].name == name then [all[0]] else []) + Named(all[1..], name)
  }

  /** `ts.filter(i => i.kind === kind)` */
  function OfKind(ts: seq<TxItem>, kind: TxKind): seq<TxItem>
  {
    if ts == [] then []
    else (if ts[0].kind == kind then [ts[0]] else []) + OfKind(ts[1..], kind)
  }

  /** `reduce((s, i) => s + (i.borrowedQty ?? i.qty), 0)` */
  function SumBorrowed(ts: seq<TxItem>): real
  {
    if ts == [] then 0.0 else Borrowed(ts[0]) + SumBorrowed(ts[1..])
  }

  /** `reduce((s, i) => s + i.qty, 0)` */
  function SumQty(ts: seq<TxItem>): real
  {
    if ts == [] then 0.0 else ts[0].qty + SumQty(ts[1..])
  }

  datatype Summary = Summary(borrowedTotal: real, returnedTotal: real, shortage: real)

  /** `summarizeByName(all, name)`: the shortage is what was borrowed under
      that name minus what came back, and never below 0. */
  function SummarizeByName(all: seq<TxItem>, name: string): (s: Summary)
    ensures s.shortage >= 0.0 && s.shortage >= s.borrowedTotal - s.returnedTotal
    ensures s.shortage == 0.0 || s.shortage == s.borrowedTotal - s.returnedTotal
    ensures s.borrowedTotal <= s.returnedTotal <==> s.shortage == 0.0
  {
    var byName := Named(all, name);
    var borrowedTotal := SumBorrowed(OfKind(byName, Borrow));
    var returnedTotal := SumQty(OfKind(byName, Return));
    Summary(borrowedTotal, returnedTotal, Max(0.0, borrowedTotal - returnedTotal))
  }

  // ---------- the built-in sample data ----------

  const WireA: string := "\U{E2A}\U{E32}\U{E22}\U{E44}\U{E1F} 2x2.5mm 90m (A)"
  const Pipe: string := "\U{E17}\U{E48}\U{E2D}\U{E1E}\U{E35}\U{E27}\U{E35}\U{E0B}\U{E35} 1 \U{E19}\U{E34}\U{E49}\U{E27} x 1.5m"
  const WireB: string := "\U{E2A}\U{E32}\U{E22}\U{E44}\U{E1F} 2x1.5mm 90m"
  const Roll: string := "\U{E21}\U{E49}\U{E27}\U{E19}"
  const Length: string := "\U{E40}\U{E2A}\U{E49}\U{E19}"

  /** `MOCK_ITEMS_INIT`, without its image URLs. */
  const MockItems: seq<TxItem> := [
    TxItem("IN-20251109-001", In, "2025-11-09", WireA, 10.0, Roll, [], "\U{E41}\U{E2D}\U{E14}\U{E21}\U{E34}\U{E19}", None, None, None, None, false),
    TxItem("IN-20251108-002", In, "2025-11-08", Pipe, 5.0, Length, [], "\U{E40}\U{E2A}\U{E21}\U{E35}\U{E22}\U{E19}", None, None, None, None, false),
    TxItem("BR-20251109-101", Borrow, "2025-11-09", WireA, 6.0, Roll, [], "\U{E0A}\U{E48}\U{E32}\U{E07}\U{E2B}\U{E19}\U{E36}\U{E48}\U{E07}", None, Some(6.0), Some(0.0), None, false),
    TxItem("BR-20251108-102", Borrow, "2025-11-08", Pipe, 2.0, Length, [], "\U{E0A}\U{E48}\U{E32}\U{E07}\U{E2A}\U{E2D}\U{E07}", None, Some(2.0), Some(1.0), None, false),
    TxItem("BR-20251109-103", Borrow, "2025-11-09", WireA, 3.0, Roll, [], "\U{E0A}\U{E48}\U{E32}\U{E07}\U{E2A}\U{E35}\U{E48}", None, Some(3.0), Some(0.0), None, true),
    TxItem("CM-20251106-201", Consume, "2025-11-06", WireB, 1.0, Roll, [], "\U{E0A}\U{E48}\U{E32}\U{E07}\U{E2A}\U{E32}\U{E21}", None, None, None,
      Some("\U{E43}\U{E0A}\U{E49}\U{E15}\U{E48}\U{E2D}\U{E42}\U{E04}\U{E23}\U{E07}\U{E01}\U{E32}\U{E23}"), false),
    TxItem("RT-20251108-301", Return, "2025-11-08", Pipe, 1.0, Length, [], "\U{E0A}\U{E48}\U{E32}\U{E07}\U{E2A}\U{E2D}\U{E07}", Some("BR-20251108-102"), None, None,
      Some("\U{E04}\U{E37}\U{E19}\U{E15}\U{E32}\U{E21}\U{E17}\U{E35}\U{E48}\U{E40}\U{E2B}\U{E25}\U{E37}\U{E2D}"), false)
  ]

  /** The page's development check: on the sample data the pipe was
      borrowed 2 and returned 1, so borrowed is at least returned. */
  lemma MockPipeSummary()
    ensures SummarizeByName(MockItems, Pipe) == Summary(2.0, 1.0, 1.0)
  {
    var m := MockItems;
    MockPipeRows();
    var byName := [m[1], m[3], m[6]];
    assert OfKind(byName[2..], Borrow) == [];
    assert OfKind(byName[1..], Borrow) == [m[3]];
    assert OfKind(byName, Borrow) == [m[3]];
    assert OfKind(byName[2..], Return) == [m[6]];
    assert OfKind(byName[1..], Return) == [m[6]];
    assert OfKind(byName, Return) == [m[6]];
    assert [m[3]][1..] == [] && [m[6]][1..] == [];
    assert SumBorrowed([m[3]]) == 2.0;
    assert SumQty([m[6]]) == 1.0;
  }

  lemma MockPipeRows()
    ensures Named(MockItems, Pipe) == [MockItems[1], MockItems[3], MockItems[6]]
  {
    var m := MockItems;
    assert WireA != Pipe && WireB != Pipe by {
      assert WireA[0] != Pipe[0];
      assert WireB[0] != Pipe[0];
    }
    assert Named(m[6..], Pipe) == [m[6]];
    assert Named(m[5..], Pipe) == [m[6]];
    assert Named(m[4..], Pipe) == [m[6]];
    assert Named(m[3..], Pipe) == [m[3], m[6]];
    assert Named(m[2..], Pipe) == [m[3], m[6]];
    assert Named(m[1..], Pipe) == [m[1], m[3], m[6]];
  }

  // ---------- the return flow ----------

  datatype ReturnError = BadQty | NothingOutstanding | MustClose | OverOutstanding

  /** The message shown for each rejection. */
  function ReturnErrorText(e: ReturnError): (s: string)
    ensures s != ""
  {
    match e
    case BadQty => "\U{E01}\U{E23}\U{E2D}\U{E01}\U{E08}\U{E33}\U{E19}\U{E27}\U{E19}\U{E04}\U{E37}\U{E19}\U{E43}\U{E2B}\U{E49}\U{E16}\U{E39}\U{E01}\U{E15}\U{E49}\U{E2D}\U{E07}"
    case NothingOutstanding => "\U{E44}\U{E21}\U{E48}\U{E21}\U{E35}\U{E02}\U{E2D}\U{E07}\U{E04}\U{E49}\U{E32}\U{E07}\U{E04}\U{E37}\U{E19}\U{E41}\U{E25}\U{E49}\U{E27}"
    case MustClose => "\U{E2B}\U{E32}\U{E01}\U{E04}\U{E37}\U{E19} 0 \U{E15}\U{E49}\U{E2D}\U{E07}\U{E40}\U{E25}\U{E37}\U{E2D}\U{E01}\U{E1B}\U{E34}\U{E14}\U{E07}\U{E32}\U{E19}\U{E04}\U{E49}\U{E32}\U{E07} (\U{E15}\U{E31}\U{E14}\U{E08}\U{E33}\U{E2B}\U{E19}\U{E48}\U{E32}\U{E22})"
    case OverOutstanding => "\U{E08}\U{E33}\U{E19}\U{E27}\U{E19}\U{E04}\U{E37}\U{E19}\U{E40}\U{E01}\U{E34}\U{E19}\U{E17}\U{E35}\U{E48}\U{E04}\U{E49}\U{E32}\U{E07}\U{E2D}\U{E22}\U{E39}\U{E48}"
  }

  /** `validateReturn(maxOutstanding, qty, willCloseAsConsume)`: the first
      failing check, or `None` for `true`. */
  function ValidateReturn(maxOutstanding: real, qty: Num, willClose: bool): (r: Option<ReturnError>)
    ensures r == Some(BadQty) <==> !qty.Finite? || qty.v < 0.0
    ensures r == Some(NothingOutstanding) <==> qty == Finite(0.0) && maxOutstanding <= 0.0
    ensures r == Some(MustClose) <==> qty == Finite(0.0) && maxOutstanding > 0.0 && !willClose
    ensures r == Some(OverOutstanding) <==> qty.Finite? && qty.v > 0.0 && qty.v > maxOutstanding
    ensures r.None? <==> qty.Finite? && 0.0 <= qty.v <= maxOutstanding && (qty.v == 0.0 ==> maxOutstanding > 0.0 && willClose)
  {
    if !qty.Finite? || qty.v < 0.0 then Some(BadQty)
    else if qty.v == 0.0 then
      (if maxOutstanding <= 0.0 then Some(NothingOutstanding)
       else if !willClose then Some(MustClose)
       else None)
    else if qty.v > maxOutstanding then Some(OverOutstanding)
    else None
  }

  /** The fixed reason texts: "other reason", "broken/damaged" and "lost". */
  const OtherFallback: string := "\U{E40}\U{E2B}\U{E15}\U{E38}\U{E1C}\U{E25}\U{E2D}\U{E37}\U{E48}\U{E19}"
  const BrokenReason: string := "\U{E1E}\U{E31}\U{E07}/\U{E0A}\U{E33}\U{E23}\U{E38}\U{E14}"
  const LostReason: string := "\U{E2B}\U{E32}\U{E22}/\U{E2A}\U{E39}\U{E0D}\U{E2B}\U{E32}\U{E22}"

  /** The reason recorded for a short return. */
  function ReasonComposed(kind: ReasonType, other: string): (s: string)
    ensures s != ""
    ensures kind == Other && Trim(other) != "" ==> s == Trim(other)
    ensures kind == Other && Trim(other) == "" ==> s == OtherFallback
    ensures kind == Broken ==> s == BrokenReason
    ensures kind == Lost ==> s == LostReason
  {
    match kind
    case Other => if Trim(other) != "" then Trim(other) else OtherFallback
    case Broken => BrokenReason
    case Lost => LostReason
  }

  const UserActor: string := "\U{E1C}\U{E39}\U{E49}\U{E43}\U{E0A}\U{E49}\U{E23}\U{E30}\U{E1A}\U{E1A}"
  const SystemActor: string := "\U{E23}\U{E30}\U{E1A}\U{E1A}"

  /** `findIndex(i => i.id === id)` */
  function FindIndex(items: seq<TxItem>, id: string): (i: int)
    ensures -1 <= i < |items|
    ensures i >= 0 ==> items[i].id == id && forall j :: 0 <= j < i ==> items[j].id != id
    ensures i < 0 ==> forall j :: 0 <= j < |items| ==> items[j].id != id
  {
    if items == [] then -1
    else if items[0].id == id then 0
    else
      var j := FindIndex(items[1..], id);
      if j < 0 then -1 else j + 1
  }

  /** The borrow with `extra` more returned, capped at what was borrowed. */
  function AddReturned(t: TxItem, extra: real): TxItem
  {
    t.(returnedQty := Some(Min(ReturnedSoFar(t) + extra, Borrowed(t))))
  }

  /** Applies `AddReturned` to the first item with the given id, if any. */
  function UpdateBorrow(items: seq<TxItem>, id: string, extra: real): (r: seq<TxItem>)
    ensures |r| == |items|
  {
    var idx := FindIndex(items, id);
    if idx >= 0 then items[idx := AddReturned(items[idx], extra)] else items
  }

  function ReturnTx(target: TxItem, qty: real, maxOut: real, reason: string, today: string, now: nat): TxItem
  {
    TxItem("RT-" + NatToString(now), Return, today, target.name, qty, target.unit, target.images,
      UserActor, Some(target.id), None, None, if qty == maxOut then None else Some(reason), false)
  }

  function ConsumeTx(target: TxItem, remaining: real, reason: string, today: string, now: nat): TxItem
  {
    TxItem("CM-" + NatToString(now), Consume, today, target.name, remaining, target.unit, target.images,
      SystemActor, None, None, None, Some(reason), false)
  }

  /** Whether the rest of the borrow is closed as consumed. */
  predicate Closes(target: TxItem, qty: real, close: bool)
  {
    Max(0.0, OutstandingQty(target) - qty) > 0.0 && close
  }

  /** The list after `submitReturn` accepted `qty` for `target`; `today`
      and `now` stand for the clock. */
  function AfterReturn(items: seq<TxItem>, target: TxItem, qty: real, close: bool, reason: string, today: string, now: nat): (r: seq<TxItem>)
    ensures var k := if Closes(target, qty, close) then 2 else 1;
      |r| == |items| + k && r[k - 1].kind == Return && r[k - 1].qty == qty
  {
    var maxOut := OutstandingQty(target);
    var next := [ReturnTx(target, qty, maxOut, reason, today, now)] + UpdateBorrow(items, target.id, qty);
    var remaining := Max(0.0, maxOut - qty);
    if remaining > 0.0 && close then
      [ConsumeTx(target, remaining, reason, today, now)] + UpdateBorrow(next, target.id, remaining)
    else next
  }

  /** `submitReturn` puts a return tx for the entered qty in front of the
      list, and before it a consume tx for the rest when that is closed; the
      reason is left out exactly when the whole outstanding qty came back. */
  lemma AfterReturnNewTxs(items: seq<TxItem>, target: TxItem, qty: real, close: bool, reason: string, today: string, now: nat)
    ensures var r := AfterReturn(items, target, qty, close, reason, today, now);
      var k := if Closes(target, qty, close) then 2 else 1;
      && |r| == |items| + k
      && r[k - 1].kind == Return && r[k - 1].qty == qty && r[k - 1].refId == Some(target.id)
      && r[k - 1].name == target.name
      && (r[k - 1].reason.None? <==> qty == OutstandingQty(target))
      && (Closes(target, qty, close) ==>
            r[0].kind == Consume && r[0].qty == OutstandingQty(target) - qty && r[0].reason == Some(reason))
  {
  }

  /** Every existing item other than the borrow keeps its place behind the
      new transactions and is unchanged. */
  lemma AfterReturnOthersUnchanged(items: seq<TxItem>, target: TxItem, qty: real, close: bool, reason: string,
                                   today: string, now: nat, j: int)
    requires "RT-" + NatToString(now) != target.id
    requires 0 <= j < |items| && j != FindIndex(items, target.id)
    ensures var r := AfterReturn(items, target, qty, close, reason, today, now);
      var k := if Closes(target, qty, close) then 2 else 1;
      |r| == |items| + k && r[j + k] == items[j]
  {
    var maxOut := OutstandingQty(target);
    var rt := ReturnTx(target, qty, maxOut, reason, today, now);
    var next := [rt] + UpdateBorrow(items, target.id, qty);
    PrependUpdateKeeps(items, rt, target.id, qty, j);
    if Closes(target, qty, close) {
      var remaining := Max(0.0, maxOut - qty);
      var ct := ConsumeTx(target, remaining, reason, today, now);
      PrependUpdateKeeps(next, ct, target.id, remaining, j + 1);
      assert AfterReturn(items, target, qty, close, reason, today, now) == [ct] + UpdateBorrow(next, target.id, remaining);
    } else {
      assert AfterReturn(items, target, qty, close, reason, today, now) == next;
    }
  }

  /** One step of the list update: an item other than the borrow moves one
      place back, unchanged, and is still not the one found by the id when
      the new front item has another id. */
  lemma PrependUpdateKeeps(items: seq<TxItem>, first: TxItem, id: string, extra: real, j: int)
    requires 0 <= j < |items| && j != FindIndex(items, id)
    ensures var r := [first] + UpdateBorrow(items, id, extra);
      |r| == |items| + 1 && r[j + 1] == items[j] && (first.id != id ==> j + 1 != FindIndex(r, id))
  {
    var u := UpdateBorrow(items, id, extra);
    UpdateBorrowOthers(items, id, extra, j);
    if first.id != id {
      UpdateBorrowKeepsIndex(items, id, extra, id);
      FindIndexBehind(first, u, id);
    }
  }

  lemma UpdateBorrowOthers(items: seq<TxItem>, id: string, extra: real, j: int)
    requires 0 <= j < |items| && j != FindIndex(items, id)
    ensures UpdateBorrow(items, id, extra)[j] == items[j]
  {
  }

  /** The update keeps every id, so the borrow is found where it was. */
  lemma UpdateBorrowKeepsIndex(items: seq<TxItem>, id: string, extra: real, id2: string)
    ensures FindIndex(UpdateBorrow(items, id, extra), id2) == FindIndex(items, id2)
  {
    var u := UpdateBorrow(items, id, extra);
    assert forall k :: 0 <= k < |items| ==> u[k].id == items[k].id;
    FindIndexSameIds(items, u, id2);
  }

  lemma {:induction false} FindIndexSameIds(a: seq<TxItem>, b: seq<TxItem>, id: string)
    requires |a| == |b| && forall k :: 0 <= k < |a| ==> a[k].id == b[k].id
    ensures FindIndex(a, id) == FindIndex(b, id)
  {
    if a != [] {
      FindIndexSameIds(a[1..], b[1..], id);
    }
  }

  lemma FindIndexBehind(first: TxItem, rest: seq<TxItem>, id: string)
    requires first.id != id
    ensures FindIndex([first] + rest, id) == if FindIndex(rest, id) >= 0 then FindIndex(rest, id) + 1 else -1
  {
    assert ([first] + rest)[1..] == rest;
  }

  /** After an accepted return on a borrow that is in the list as shown, the
      borrow still owes `outstanding - qty`, or nothing when the rest was
      closed as consumed. */
  lemma AfterReturnOutstanding(items: seq<TxItem>, target: TxItem, qty: real, close: bool, reason: string, today: string, now: nat)
    requires ValidateReturn(OutstandingQty(target), Finite(qty), close).None?
    requires FindIndex(items, target.id) >= 0 && items[FindIndex(items, target.id)] == target
    requires "RT-" + NatToString(now) != target.id
    ensures var r := AfterReturn(items, target, qty, close, reason, today, now);
      var k := if Closes(target, qty, close) then 2 else 1;
      OutstandingQty(r[FindIndex(items, target.id) + k]) ==
        if Closes(target, qty, close) then 0.0 else OutstandingQty(target) - qty
  {
    var maxOut := OutstandingQty(target);
    var idx := FindIndex(items, target.id);
    var rt := ReturnTx(target, qty, maxOut, reason, today, now);
    var u := UpdateBorrow(items, target.id, qty);
    var t1 := AddReturned(target, qty);
    assert u[idx] == t1;
    assert maxOut == Borrowed(target) - ReturnedSoFar(target);
    assert ReturnedSoFar(t1) == ReturnedSoFar(target) + qty;
    if Closes(target, qty, close) {
      var remaining := maxOut - qty;
      FindIndexBehind(rt, u, target.id);
      var t2 := AddReturned(t1, remaining);
      assert UpdateBorrow([rt] + u, target.id, remaining)[idx + 1] == t2;
      assert ReturnedSoFar(t2) == Borrowed(target);
    }
  }

  // ---------- the page state ----------

  class ReceiveHistoryPage {
    var items: seq<TxItem>
    var returnOpen: bool
    var returnTarget: Option<TxItem>
    /** `Number(returnQty)`: the value the quantity text parses to. */
    var returnQty: Num
    var reasonType: ReasonType
    var reasonOther: string
    var closeAsConsume: bool
    var returnError: string

    constructor()
      ensures items == MockItems && !returnOpen && returnTarget.None?
      ensures returnQty == Finite(0.0) && reasonType == Lost && reasonOther == ""
      ensures closeAsConsume && returnError == ""
    {
      items := MockItems;
      returnOpen := false;
      returnTarget := None;
      returnQty := Finite(0.0);
      reasonType := Lost;
      reasonOther := "";
      closeAsConsume := true;
      returnError := "";
    }

    /** `openReturnModal(target)`: the quantity starts at what is
        outstanding, the reason at "lost", closing switched on. */
    method OpenReturnModal(target: Option<TxItem>)
      modifies this
      ensures target.None? ==> unchanged(this)
      ensures target.Some? ==>
        && returnTarget == target && returnQty == Finite(OutstandingQty(target.value))
        && reasonType == Lost && reasonOther == "" && closeAsConsume && returnError == "" && returnOpen
        && items == old(items)
    {
      if target.None? {
        return;
      }
      var out := OutstandingQty(target.value);
      returnTarget := target;
      returnQty := Finite(if out > 0.0 then out else 0.0);
      reasonType := Lost;
      reasonOther := "";
      closeAsConsume := true;
      returnError := "";
      returnOpen := true;
    }

    /** The quantity input: `Number` of the text typed, as the submit reads it. */
    method SetReturnQty(text: InputText)
      modifies this
      ensures returnQty == InputNumber(text)
      ensures returnOpen == old(returnOpen) && returnTarget == old(returnTarget) && items == old(items) && returnError == old(returnError)
      ensures reasonType == old(reasonType) && reasonOther == old(reasonOther) && closeAsConsume == old(closeAsConsume)
    {
      returnQty := InputNumber(text);
    }

    /** The reason select. */
    method SetReasonType(k: ReasonType)
      modifies this
      ensures reasonType == k
      ensures returnOpen == old(returnOpen) && returnTarget == old(returnTarget) && items == old(items) && returnError == old(returnError)
      ensures returnQty == old(returnQty) && reasonOther == old(reasonOther) && closeAsConsume == old(closeAsConsume)
    {
      reasonType := k;
    }

    /** The free-text reason input of the "other" choice. */
    method SetReasonOther(text: string)
      modifies this
      ensures reasonOther == text
      ensures returnOpen == old(returnOpen) && returnTarget == old(returnTarget) && items == old(items) && returnError == old(returnError)
      ensures returnQty == old(returnQty) && reasonType == old(reasonType) && closeAsConsume == old(closeAsConsume)
    {
      reasonOther := text;
    }

    /** The close-as-consume checkbox. */
    method SetCloseAsConsume(b: bool)
      modifies this
      ensures closeAsConsume == b
      ensures returnOpen == old(returnOpen) && returnTarget == old(returnTarget) && items == old(items) && returnError == old(returnError)
      ensures returnQty == old(returnQty) && reasonType == old(reasonType) && reasonOther == old(reasonOther)
    {
      closeAsConsume := b;
    }

    /** The dialog's close and cancel buttons: `setReturnOpen(false)`. */
    method CloseReturnModal()
      modifies this
      ensures !returnOpen
      ensures items == old(items) && returnTarget == old(returnTarget) && returnQty == old(returnQty)
      ensures reasonType == old(reasonType) && reasonOther == old(reasonOther)
      ensures closeAsConsume == old(closeAsConsume) && returnError == old(returnError)
    {
      returnOpen := false;
    }

    /** `submitReturn()`: a rejected quantity only sets the error text; an
        accepted one updates the list and closes the modal. `today` is
        `new Date().toISOString().slice(0, 10)` and `now` is `Date.now()`. */
    method SubmitReturn(today: string, now: nat)
      modifies this
      ensures returnTarget == old(returnTarget) && returnQty == old(returnQty)
      ensures reasonType == old(reasonType) && reasonOther == old(reasonOther) && closeAsConsume == old(closeAsConsume)
      ensures old(returnTarget).None? ==> unchanged(this)
      ensures old(returnTarget).Some? ==>
        var check := ValidateReturn(OutstandingQty(old(returnTarget).value), old(returnQty), old(closeAsConsume));
        && (check.Some? ==> returnError == ReturnErrorText(check.value) && items == old(items) && returnOpen == old(returnOpen))
        && (check.None? ==>
              && items == AfterReturn(old(items), old(returnTarget).value, old(returnQty).v, old(closeAsConsume),
                                      ReasonComposed(old(reasonType), old(reasonOther)), today, now)
              && !returnOpen && returnError == old(returnError))
    {
      if returnTarget.None? {
        return;
      }
      var target := returnTarget.value;
      var maxOut := OutstandingQty(target);
      var valid := ValidateReturn(maxOut, returnQty, closeAsConsume);
      if valid.Some? {
        returnError := ReturnErrorText(valid.value);
        return;
      }
      var reason := ReasonComposed(reasonType, reasonOther);
      var next := ApplyReturn(items, target, returnQty.v, closeAsConsume, reason, today, now);
      items := next;
      returnOpen := false;
    }
  }

  /** The list update of `submitReturn` once the quantity is accepted. */
  method ApplyReturn(items: seq<TxItem>, target: TxItem, qty: real, close: bool, reason: string,
                     today: string, now: nat) returns (next: seq<TxItem>)
    ensures next == AfterReturn(items, target, qty, close, reason, today, now)
  {
    var maxOut := OutstandingQty(target);
    next := items;
    var idx := FindIndex(next, target.id);
    if idx != -1 {
      next := next[idx := AddReturned(next[idx], qty)];
    }
    assert next == UpdateBorrow(items, target.id, qty);
    next := [ReturnTx(target, qty, maxOut, reason, today, now)] + next;
    var remaining := Max(0.0, maxOut - qty);
    if remaining > 0.0 && close {
      var before := next;
      var idx2 := FindIndex(next, target.id);
      if idx2 != -1 {
        next := next[idx2 := AddReturned(next[idx2], remaining)];
      }
      assert next == UpdateBorrow(before, target.id, remaining);
      next := [ConsumeTx(target, remaining, reason, today, now)] + next;
    }
  }
}
