/** The history page (src/pages/History.tsx): the receive/issue feed with its
    tab and name filters, the list of open borrows with their status and
    note, and the return dialog whose two quantity inputs are kept within the
    quantity still out. */
module History {
  import opened Js
  import Seqs

  /** `HistoryItem`; an absent optional text is `None`. */
  datatype HistoryItem = HistoryItem(
    id: string, date: string, itemName: string, qty: real, unit: string, kind: string,
    zone: Option<string>, channel: Option<string>, remark: Option<string>,
    images: seq<string>, requestBy: Option<string>)

  /** `BorrowedItem`: quantities are computed by the server. */
  datatype BorrowedItem = BorrowedItem(
    outId: string, date: string, itemName: string, qtyKey: real, qtyReturned: real,
    qtyLost: real, qtyLeft: real, requestBy: string, remark: string)

  datatype Tab = AllTab | InTab | ConsumeTab | BorrowTab

  /** The feed filter sent to the server for a non-borrow tab. */
  datatype FeedFilter = FeedAll | FeedIn | FeedOut

  const ConsumeType: string := "CONSUME"

  /** `apiFilter` in `loadData`: CONSUME asks for the whole OUT feed. */
  function ApiFilter(tab: Tab): (f: FeedFilter)
    ensures f == FeedIn <==> tab == InTab
    ensures f == FeedOut <==> tab == ConsumeTab
  {
    if tab == InTab then FeedIn else if tab == ConsumeTab then FeedOut else FeedAll
  }

  predicate IsConsume(x: HistoryItem) { x.kind == ConsumeType }

  /** What `loadData` stores as `rawHistory` for the feed `data` of a
      non-borrow tab: the consume tab keeps the CONSUME rows only. */
  function KeptFeed(tab: Tab, data: seq<HistoryItem>): (r: seq<HistoryItem>)
    ensures tab != ConsumeTab ==> r == data
    ensures tab == ConsumeTab ==> forall x :: x in r <==> x in data && x.kind == ConsumeType
  {
    if tab == ConsumeTab then Seqs.Filter(data, IsConsume) else data
  }

  lemma KeptFeedInOrder(tab: Tab, data: seq<HistoryItem>)
    ensures Seqs.IsSubsequence(KeptFeed(tab, data), data)
  {
    if tab == ConsumeTab {
      Seqs.FilterIsSubsequence(data, IsConsume);
    } else {
      Seqs.SubsequenceOfItself(data);
    }
  }

  /** The rows `renderHistoryList` shows: the item name contains the
      filter, both lowercased (the filter is not trimmed). */
  function HistoryRows(raw: seq<HistoryItem>, filter: string): (r: seq<HistoryItem>)
    ensures forall x :: x in r <==> x in raw && Contains(Lower(x.itemName), Lower(filter))
  {
    Seqs.Filter(raw, (x: HistoryItem) => Contains(Lower(x.itemName), Lower(filter)))
  }

  /** The rows `renderBorrowList` shows, by the same test. */
  function BorrowRows(borrows: seq<BorrowedItem>, filter: string): (r: seq<BorrowedItem>)
    ensures forall x :: x in r <==> x in borrows && Contains(Lower(x.itemName), Lower(filter))
  {
    Seqs.Filter(borrows, (x: BorrowedItem) => Contains(Lower(x.itemName), Lower(filter)))
  }

  lemma RowsInOrder(raw: seq<HistoryItem>, borrows: seq<BorrowedItem>, filter: string)
    ensures Seqs.IsSubsequence(HistoryRows(raw, filter), raw)
    ensures Seqs.IsSubsequence(BorrowRows(borrows, filter), borrows)
  {
    Seqs.FilterIsSubsequence(raw, (x: HistoryItem) => Contains(Lower(x.itemName), Lower(filter)));
    Seqs.FilterIsSubsequence(borrows, (x: BorrowedItem) => Contains(Lower(x.itemName), Lower(filter)));
  }

  /** An empty filter shows every row. */
  lemma EmptyFilterShowsAll(raw: seq<HistoryItem>, borrows: seq<BorrowedItem>)
    ensures HistoryRows(raw, "") == raw
    ensures BorrowRows(borrows, "") == borrows
  {
    forall x: HistoryItem {
      ContainsEmpty(Lower(x.itemName));
    }
    forall x: BorrowedItem {
      ContainsEmpty(Lower(x.itemName));
    }
    Seqs.FilterAll(raw, (x: HistoryItem) => Contains(Lower(x.itemName), Lower("")));
    Seqs.FilterAll(borrows, (x: BorrowedItem) => Contains(Lower(x.itemName), Lower("")));
  }

  // ---------- borrow status ----------

  datatype BorrowStatus = Pending(left: real) | Incomplete | Complete

  /** The status line of a borrow row. */
  function Status(x: BorrowedItem): (r: BorrowStatus)
    ensures r.Pending? <==> x.qtyLeft > 0.0
    ensures r == Incomplete <==> x.qtyLeft <= 0.0 && x.qtyLost > 0.0
    ensures r == Complete <==> x.qtyLeft <= 0.0 && x.qtyLost <= 0.0
    ensures r.Pending? ==> r.left == x.qtyLeft
  {
    if x.qtyLeft > 0.0 then Pending(x.qtyLeft)
    else if x.qtyLost > 0.0 then Incomplete
    else Complete
  }

  /** The return button is rendered instead of the "finished" label. */
  predicate ShowsReturnButton(x: BorrowedItem)
  {
    x.qtyLeft > 0.0
  }

  lemma ReturnButtonIffPending(x: BorrowedItem)
    ensures ShowsReturnButton(x) <==> Status(x).Pending?
    ensures !ShowsReturnButton(x) ==> Status(x) != Complete ==> x.qtyLost > 0.0
  {
  }

  // ---------- the note of a borrow ----------

  const NoteTag: string := "(Note:"

  /** The end of the run of whitespace that starts at `j`. */
  function SpaceEnd(s: string, j: nat): (k: nat)
    requires j <= |s|
    ensures j <= k <= |s|
    ensures forall t :: j <= t < k ==> IsSpace(s[t])
    ensures k < |s| ==> !IsSpace(s[k])
    decreases |s| - j
  {
    if j < |s| && IsSpace(s[j]) then SpaceEnd(s, j + 1) else j
  }

  /** The end of the line that contains position `k`. */
  function LineEnd(s: string, k: nat): (m: nat)
    requires k <= |s|
    ensures k <= m <= |s|
    ensures forall t :: k <= t < m ==> !IsLineTerminator(s[t])
    ensures m < |s| ==> IsLineTerminator(s[m])
    decreases |s| - k
  {
    if k < |s| && !IsLineTerminator(s[k]) then LineEnd(s, k + 1) else k
  }

  /** The last `)` in `s[k..m]`, or -1. */
  function LastParen(s: string, k: nat, m: nat): (p: int)
    requires k <= m <= |s|
    ensures p == -1 || (k <= p < m && s[p] == ')')
    ensures forall t :: (if p == -1 then k else p + 1) <= t < m ==> s[t] != ')'
    decreases m
  {
    if m == k then -1 else if s[m - 1] == ')' then m - 1 else LastParen(s, k, m - 1)
  }

  /** The capture of `/\(Note:\s*(.*)\)/` in `s`, from the leftmost
      `(Note:` at or after `i` that has a `)` later on its line;
      backtracking of `\s*` never yields a different match, since the
      characters it gives back are whitespace, not `)`. */
  function NoteCapture(s: string, i: nat): (c: Option<string>)
    ensures c.Some? ==> forall t :: 0 <= t < |c.value| ==> !IsLineTerminator(c.value[t])
    ensures c.Some? ==> |c.value| + |NoteTag| < |s|
    decreases |s| - i
  {
    if i + |NoteTag| > |s| then None
    else if s[i..i + |NoteTag|] == NoteTag && LastParen(s, SpaceEnd(s, i + |NoteTag|), LineEnd(s, SpaceEnd(s, i + |NoteTag|))) >= 0 then
      var k := SpaceEnd(s, i + |NoteTag|);
      Some(s[k..LastParen(s, k, LineEnd(s, k))])
    else NoteCapture(s, i + 1)
  }

  /** `.replace(/\)$/, '')` */
  function DropClosingParen(c: string): (r: string)
    ensures c != "" && c[|c| - 1] == ')' ==> r == c[..|c| - 1]
    ensures !(c != "" && c[|c| - 1] == ')') ==> r == c
  {
    if c != "" && c[|c| - 1] == ')' then c[..|c| - 1] else c
  }

  /** The note shown for a borrow: the captured text when `requestBy`
      holds a note, else the remark; shown only when non-empty. */
  function Note(x: BorrowedItem): (r: string)
    ensures r != x.remark ==> forall t :: 0 <= t < |r| ==> !IsLineTerminator(r[t])
  {
    match NoteCapture(x.requestBy, 0)
    case Some(c) => DropClosingParen(c)
    case None => x.remark
  }

  lemma {:induction false} NoteCaptureSkips(s: string, i: nat, j: nat)
    requires i <= j <= |s|
    requires forall t :: i <= t < j ==> !OccursAt(s, NoteTag, t)
    ensures NoteCapture(s, i) == NoteCapture(s, j)
    decreases j - i
  {
    if i < j {
      assert !OccursAt(s, NoteTag, i);
      NoteCaptureSkips(s, i + 1, j);
    }
  }

  /** Without `(Note:` in `requestBy` the remark is the note. */
  lemma NoteWithoutTag(x: BorrowedItem)
    requires !Contains(x.requestBy, NoteTag)
    ensures Note(x) == x.remark
  {
    var s := x.requestBy;
    if |s| >= |NoteTag| {
      NoteCaptureSkips(s, 0, |s| - |NoteTag| + 1);
    }
  }

  /** With `requestBy == a + "(Note:" + c + ")"`, the first tag at the
      join, `c` on one line and not starting with whitespace, the note is
      `c` with one closing parenthesis dropped. */
  lemma NoteWithTag(x: BorrowedItem, a: string, c: string)
    requires x.requestBy == a + NoteTag + c + ")"
    requires forall t :: 0 <= t < |a| ==> !OccursAt(x.requestBy, NoteTag, t)
    requires forall t :: 0 <= t < |c| ==> !IsLineTerminator(c[t])
    requires c == "" || !IsSpace(c[0])
    ensures Note(x) == DropClosingParen(c)
  {
    var s := x.requestBy;
    var j := |a| + |NoteTag|;
    NoteCaptureSkips(s, 0, |a|);
    TaggedParts(s, a, c);
    assert SpaceEnd(s, j) == j by {
      if c == "" { assert s[j] == ')'; } else { assert s[j] == c[0]; }
    }
    LineEndAtEnd(s, j);
    assert LastParen(s, j, |s|) == |s| - 1;
  }

  /** Where the pieces of `a + NoteTag + c + ")"` lie. */
  lemma TaggedParts(s: string, a: string, c: string)
    requires s == a + NoteTag + c + ")"
    ensures |s| == |a| + |NoteTag| + |c| + 1
    ensures s[|a|..|a| + |NoteTag|] == NoteTag
    ensures s[|a| + |NoteTag|..|s| - 1] == c
    ensures s[|s| - 1] == ')'
    ensures forall t :: 0 <= t < |c| ==> s[|a| + |NoteTag| + t] == c[t]
  {
    assert s == (a + NoteTag) + (c + ")");
    assert (a + NoteTag)[|a|..] == NoteTag;
  }

  /** A line with no terminator after `k` runs to the end of the text. */
  lemma {:induction false} LineEndAtEnd(s: string, k: nat)
    requires k <= |s|
    requires forall t :: k <= t < |s| ==> !IsLineTerminator(s[t])
    ensures LineEnd(s, k) == |s|
    decreases |s| - k
  {
    if k < |s| {
      LineEndAtEnd(s, k + 1);
    }
  }


  // ---------- the return dialog ----------

  /** The two quantity inputs of the dialog. */
  datatype Inputs = Inputs(returnQty: Field, lostQty: Field)

  /** Both quantities, with `''` as 0, are non-negative and add up to at
      most what is still out. */
  predicate Within(qtyLeft: real, q: Inputs)
  {
    qtyLeft >= 0.0 && OrZero(q.returnQty) >= 0.0 && OrZero(q.lostQty) >= 0.0
    && OrZero(q.returnQty) + OrZero(q.lostQty) <= qtyLeft
  }

  /** `Math.max(0, Number(val))` for a value the handlers accept, or None
      when they ignore it (NaN, or above `qtyLeft`). */
  function Accepted(qtyLeft: real, n: Num): (r: Option<real>)
    ensures r.Some? ==> 0.0 <= r.value <= qtyLeft
    ensures n.NaN? || n.PosInf? ==> r == None
    ensures n.NegInf? ==> r == (if qtyLeft >= 0.0 then Some(0.0) else None)
    ensures n.Finite? ==> r == (if Max(0.0, n.v) <= qtyLeft then Some(Max(0.0, n.v)) else None)
  {
    match n
    case NaN => None
    case PosInf => None
    case NegInf => if 0.0 <= qtyLeft then Some(0.0) else None
    case Finite(v) => if Max(0.0, v) <= qtyLeft then Some(Max(0.0, v)) else None
  }

  /** `handleLostChange(val)`. */
  function LostChanged(qtyLeft: real, q: Inputs, val: InputText): (r: Inputs)
    ensures val.EmptyText? ==> r == Inputs(Val(qtyLeft), Blank)
    ensures val.Entered? && Accepted(qtyLeft, val.n).None? ==> r == q
    ensures val.Entered? && Accepted(qtyLeft, val.n).Some? ==>
      r.lostQty == Val(Accepted(qtyLeft, val.n).value)
    // whatever is accepted, the return input becomes the complement
    ensures r != q ==> OrZero(r.returnQty) + OrZero(r.lostQty) == qtyLeft
    ensures Within(qtyLeft, q) || (qtyLeft >= 0.0 && r != q) ==> Within(qtyLeft, r)
  {
    match val
    case EmptyText => Inputs(Val(qtyLeft), Blank)
    case Entered(n) =>
      match Accepted(qtyLeft, n)
      case None => q
      case Some(lost) => Inputs(Val(Max(0.0, qtyLeft - lost)), Val(lost))
  }

  /** `handleReturnChange(val)`. */
  function ReturnChanged(qtyLeft: real, q: Inputs, val: InputText): (r: Inputs)
    ensures val.EmptyText? ==> r.returnQty == Blank
    ensures val.Entered? && Accepted(qtyLeft, val.n).None? ==> r == q
    ensures val.Entered? && Accepted(qtyLeft, val.n).Some? ==>
      r.returnQty == Val(Accepted(qtyLeft, val.n).value)
    // the lost input is only ever lowered, and only when the sum would exceed
    ensures r.lostQty != q.lostQty ==>
      OrZero(r.returnQty) + OrZero(r.lostQty) == qtyLeft < OrZero(r.returnQty) + OrZero(q.lostQty)
    ensures Within(qtyLeft, q) ==> Within(qtyLeft, r)
  {
    var lost := OrZero(q.lostQty);
    match val
    case EmptyText =>
      Inputs(Blank, if lost > qtyLeft then Val(qtyLeft) else q.lostQty)
    case Entered(n) =>
      match Accepted(qtyLeft, n)
      case None => q
      case Some(ret) =>
        Inputs(Val(ret), if ret + lost > qtyLeft then Val(Max(0.0, qtyLeft - ret)) else q.lostQty)
  }

  datatype SubmitError = NothingReturned | OverLeft | NoReturner | NoReason

  /** The alert each failed check shows. */
  function SubmitErrorText(e: SubmitError): string
  {
    match e
    case NothingReturned =>
      "\U{0E15}\U{0E49}\U{0E2D}\U{0E07}\U{0E21}\U{0E35}\U{0E01}\U{0E32}\U{0E23}\U{0E04}\U{0E37}\U{0E19}\U{0E2B}\U{0E23}\U{0E37}\U{0E2D}\U{0E41}\U{0E08}\U{0E49}\U{0E07}\U{0E2B}\U{0E32}\U{0E22}\U{0E2D}\U{0E22}\U{0E48}\U{0E32}\U{0E07}\U{0E19}\U{0E49}\U{0E2D}\U{0E22} 1 \U{0E0A}\U{0E34}\U{0E49}\U{0E19}"
    case OverLeft =>
      "\U{0E08}\U{0E33}\U{0E19}\U{0E27}\U{0E19}\U{0E04}\U{0E37}\U{0E19}\U{0E23}\U{0E27}\U{0E21}\U{0E40}\U{0E01}\U{0E34}\U{0E19}\U{0E01}\U{0E27}\U{0E48}\U{0E32}\U{0E17}\U{0E35}\U{0E48}\U{0E04}\U{0E49}\U{0E32}\U{0E07}\U{0E23}\U{0E31}\U{0E1A}"
    case NoReturner =>
      "\U{0E01}\U{0E23}\U{0E38}\U{0E13}\U{0E32}\U{0E23}\U{0E30}\U{0E1A}\U{0E38}\U{0E0A}\U{0E37}\U{0E48}\U{0E2D}\U{0E1C}\U{0E39}\U{0E49}\U{0E04}\U{0E37}\U{0E19}"
    case NoReason =>
      "\U{0E01}\U{0E23}\U{0E38}\U{0E13}\U{0E32}\U{0E23}\U{0E30}\U{0E1A}\U{0E38}\U{0E2A}\U{0E32}\U{0E40}\U{0E2B}\U{0E15}\U{0E38}\U{0E01}\U{0E32}\U{0E23}\U{0E2B}\U{0E32}\U{0E22}/\U{0E40}\U{0E2A}\U{0E35}\U{0E22}\U{0E2B}\U{0E32}\U{0E22}"
  }

  /** The `returnItem` payload; the name and reason go as typed. */
  datatype ReturnRequest = ReturnRequest(
    outId: string, returnQty: real, lostQty: real, returnerName: string, reason: string)

  datatype Submission = Rejected(error: SubmitError) | Sent(request: ReturnRequest)

  /** `handleSubmit`: the first failing check wins. */
  function SubmitOutcome(item: BorrowedItem, q: Inputs, returnerName: string, reason: string): (r: Submission)
    ensures r == Rejected(NothingReturned) <==> OrZero(q.returnQty) + OrZero(q.lostQty) == 0.0
    ensures r == Rejected(OverLeft) <==>
      OrZero(q.returnQty) + OrZero(q.lostQty) != 0.0 && OrZero(q.returnQty) + OrZero(q.lostQty) > item.qtyLeft
    ensures r == Rejected(NoReturner) <==>
      OrZero(q.returnQty) + OrZero(q.lostQty) != 0.0 && OrZero(q.returnQty) + OrZero(q.lostQty) <= item.qtyLeft
      && Trim(returnerName) == ""
    ensures r == Rejected(NoReason) <==>
      OrZero(q.returnQty) + OrZero(q.lostQty) != 0.0 && OrZero(q.returnQty) + OrZero(q.lostQty) <= item.qtyLeft
      && Trim(returnerName) != "" && OrZero(q.lostQty) > 0.0 && Trim(reason) == ""
    ensures r.Sent? ==> r.request == ReturnRequest(item.outId, OrZero(q.returnQty), OrZero(q.lostQty), returnerName, reason)
    ensures r.Sent? && Within(item.qtyLeft, q) ==>
      r.request.returnQty >= 0.0 && r.request.lostQty >= 0.0
      && 0.0 < r.request.returnQty + r.request.lostQty <= item.qtyLeft
  {
    var ret := OrZero(q.returnQty);
    var lost := OrZero(q.lostQty);
    if ret + lost == 0.0 then Rejected(NothingReturned)
    else if ret + lost > item.qtyLeft then Rejected(OverLeft)
    else if Trim(returnerName) == "" then Rejected(NoReturner)
    else if lost > 0.0 && Trim(reason) == "" then Rejected(NoReason)
    else Sent(ReturnRequest(item.outId, ret, lost, returnerName, reason))
  }

  /** `ReturnModal` for one open borrow. */
  class ReturnModal {
    const item: BorrowedItem
    var returnQty: Field
    var lostQty: Field
    var returnerName: string
    var reason: string

    function Quantities(): Inputs
      reads this
    {
      Inputs(returnQty, lostQty)
    }

    predicate Valid()
      reads this
    {
      Within(item.qtyLeft, Quantities())
    }

    /** Opened from the return button, which only shows for a borrow with
        something still out. */
    constructor (borrow: BorrowedItem)
      requires ShowsReturnButton(borrow)
      ensures Valid()
      ensures item == borrow && returnQty == Val(borrow.qtyLeft) && lostQty == Val(0.0)
      ensures returnerName == "" && reason == ""
    {
      item := borrow;
      returnQty := Val(borrow.qtyLeft);
      lostQty := Val(0.0);
      returnerName := "";
      reason := "";
    }

    method HandleLostChange(val: InputText)
      modifies this
      ensures old(Valid()) ==> Valid()
      ensures Quantities() == LostChanged(item.qtyLeft, old(Quantities()), val)
      ensures returnerName == old(returnerName) && reason == old(reason)
    {
      if val.EmptyText? {
        lostQty := Blank;
        returnQty := Val(item.qtyLeft);
        return;
      }
      if val.n.NaN? {
        return;
      }
      var newLost := match val.n
        case Finite(v) => Max(0.0, v)
        case NegInf => 0.0
        case _ => item.qtyLeft + 1.0;
      if newLost > item.qtyLeft {
        return;
      }
      lostQty := Val(newLost);
      returnQty := Val(Max(0.0, item.qtyLeft - newLost));
    }

    method HandleReturnChange(val: InputText)
      modifies this
      ensures old(Valid()) ==> Valid()
      ensures Quantities() == ReturnChanged(item.qtyLeft, old(Quantities()), val)
      ensures returnerName == old(returnerName) && reason == old(reason)
    {
      if val.EmptyText? {
        returnQty := Blank;
        var currentLost := OrZero(lostQty);
        if currentLost > item.qtyLeft {
          lostQty := Val(item.qtyLeft);
        }
        return;
      }
      if val.n.NaN? {
        return;
      }
      var newReturn := match val.n
        case Finite(v) => Max(0.0, v)
        case NegInf => 0.0
        case _ => item.qtyLeft + 1.0;
      if newReturn > item.qtyLeft {
        return;
      }
      var currentLost := OrZero(lostQty);
      returnQty := Val(newReturn);
      if newReturn + currentLost > item.qtyLeft {
        lostQty := Val(Max(0.0, item.qtyLeft - newReturn));
      }
    }

    method SetReturnerName(v: string)
      modifies this
      ensures returnerName == v && Quantities() == old(Quantities()) && reason == old(reason)
    {
      returnerName := v;
    }

    method SetReason(v: string)
      modifies this
      ensures reason == v && Quantities() == old(Quantities()) && returnerName == old(returnerName)
    {
      reason := v;
    }

    /** What pressing the confirm button does with the current inputs. */
    function Submit(): (r: Submission)
      reads this
      ensures Valid() && r.Sent? ==>
        0.0 < r.request.returnQty + r.request.lostQty <= item.qtyLeft
        && Trim(r.request.returnerName) != ""
        && (r.request.lostQty > 0.0 ==> Trim(r.request.reason) != "")
    {
      SubmitOutcome(item, Quantities(), returnerName, reason)
    }
  }

  /** The page's own state. */
  class HistoryPage {
    var tab: Tab
    var rawHistory: seq<HistoryItem>
    var borrowList: seq<BorrowedItem>
    var filter: string
    var selectedBorrow: Option<BorrowedItem>

    constructor ()
      ensures tab == AllTab && rawHistory == [] && borrowList == [] && filter == ""
      ensures selectedBorrow == None
    {
      tab := AllTab;
      rawHistory := [];
      borrowList := [];
      filter := "";
      selectedBorrow := None;
    }

    method SwitchTab(t: Tab)
      modifies this
      ensures tab == t
      ensures rawHistory == old(rawHistory) && borrowList == old(borrowList)
      ensures filter == old(filter) && selectedBorrow == old(selectedBorrow)
    {
      tab := t;
    }

    /** `loadData` once the server has answered: `borrowed` is what
        `getBorrowedList` returned for the borrow tab, `feed` what
        `getAllHistory(ApiFilter(tab))` returned for the others. */
    method LoadData(feed: seq<HistoryItem>, borrowed: seq<BorrowedItem>)
      modifies this
      ensures tab == BorrowTab ==> borrowList == borrowed && rawHistory == old(rawHistory)
      ensures tab != BorrowTab ==> rawHistory == KeptFeed(tab, feed) && borrowList == old(borrowList)
      ensures tab == old(tab) && filter == old(filter) && selectedBorrow == old(selectedBorrow)
    {
      if tab == BorrowTab {
        borrowList := borrowed;
      } else if tab == ConsumeTab {
        rawHistory := Seqs.Filter(feed, IsConsume);
      } else {
        rawHistory := feed;
      }
    }

    method SetFilter(v: string)
      modifies this
      ensures filter == v && tab == old(tab) && rawHistory == old(rawHistory)
      ensures borrowList == old(borrowList) && selectedBorrow == old(selectedBorrow)
    {
      filter := v;
    }

    /** The return button of a row; it exists only for a pending borrow. */
    method SelectBorrow(x: BorrowedItem)
      requires ShowsReturnButton(x)
      modifies this
      ensures selectedBorrow == Some(x)
      ensures tab == old(tab) && rawHistory == old(rawHistory)
      ensures borrowList == old(borrowList) && filter == old(filter)
    {
      selectedBorrow := Some(x);
    }

    /** The dialog's `onClose`: the selection is cleared. */
    method CloseReturn()
      modifies this
      ensures selectedBorrow == None
      ensures tab == old(tab) && rawHistory == old(rawHistory)
      ensures borrowList == old(borrowList) && filter == old(filter)
    {
      selectedBorrow := None;
    }

    /** The dialog's `onSuccess`: the selection is cleared and `loadData`
        runs again on the server's new answer. */
    method ReturnDone(feed: seq<HistoryItem>, borrowed: seq<BorrowedItem>)
      modifies this
      ensures selectedBorrow == None
      ensures tab == BorrowTab ==> borrowList == borrowed && rawHistory == old(rawHistory)
      ensures tab != BorrowTab ==> rawHistory == KeptFeed(tab, feed) && borrowList == old(borrowList)
      ensures tab == old(tab) && filter == old(filter)
    {
      CloseReturn();
      LoadData(feed, borrowed);
    }
  }
}
