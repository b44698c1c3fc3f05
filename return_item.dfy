/** The return page (src/pages/ReturnItem.tsx): the list of open borrows, the
    dialog that opens on one of them with a full return as default, and the
    checks the dialog runs before it sends a return. */
module ReturnItem {
  import opened Js
  import History

  type BorrowedItem = History.BorrowedItem

  /** `Number(x || 0)`: `''` and NaN are falsy and read as 0. */
  function ReadQty(x: InputText): (r: Num)
    ensures r != NaN
    ensures x.EmptyText? || x == Entered(NaN) ==> r == Finite(0.0)
    ensures x.Entered? && x.n != NaN ==> r == x.n
  {
    match x
    case EmptyText => Finite(0.0)
    case Entered(n) => if n == NaN then Finite(0.0) else n
  }

  predicate IsNegative(n: Num)
  {
    n == NegInf || (n.Finite? && n.v < 0.0)
  }

  datatype SubmitError = NegativeQty | NothingReturned | OverLeft | NoReason

  function SubmitErrorText(e: SubmitError): string
  {
    match e
    case NegativeQty =>
      "\U{0E08}\U{0E33}\U{0E19}\U{0E27}\U{0E19}\U{0E15}\U{0E49}\U{0E2D}\U{0E07}\U{0E44}\U{0E21}\U{0E48}\U{0E15}\U{0E34}\U{0E14}\U{0E25}\U{0E1A}"
    case NothingReturned =>
      "\U{0E15}\U{0E49}\U{0E2D}\U{0E07}\U{0E23}\U{0E30}\U{0E1A}\U{0E38}\U{0E08}\U{0E33}\U{0E19}\U{0E27}\U{0E19}\U{0E04}\U{0E37}\U{0E19} \U{0E2B}\U{0E23}\U{0E37}\U{0E2D} \U{0E08}\U{0E33}\U{0E19}\U{0E27}\U{0E19}\U{0E40}\U{0E2A}\U{0E35}\U{0E22}/\U{0E2B}\U{0E32}\U{0E22} \U{0E2D}\U{0E22}\U{0E48}\U{0E32}\U{0E07}\U{0E19}\U{0E49}\U{0E2D}\U{0E22} 1"
    case OverLeft =>
      "\U{0E08}\U{0E33}\U{0E19}\U{0E27}\U{0E19}\U{0E23}\U{0E27}\U{0E21} (\U{0E04}\U{0E37}\U{0E19}+\U{0E2B}\U{0E32}\U{0E22}) \U{0E15}\U{0E49}\U{0E2D}\U{0E07}\U{0E44}\U{0E21}\U{0E48}\U{0E40}\U{0E01}\U{0E34}\U{0E19}\U{0E22}\U{0E2D}\U{0E14}\U{0E04}\U{0E49}\U{0E32}\U{0E07}\U{0E04}\U{0E37}\U{0E19}"
    case NoReason =>
      "\U{0E01}\U{0E23}\U{0E13}\U{0E35}\U{0E21}\U{0E35}\U{0E02}\U{0E2D}\U{0E07}\U{0E2B}\U{0E32}\U{0E22}/\U{0E40}\U{0E2A}\U{0E35}\U{0E22} \U{0E15}\U{0E49}\U{0E2D}\U{0E07}\U{0E23}\U{0E30}\U{0E1A}\U{0E38}\U{0E40}\U{0E2B}\U{0E15}\U{0E38}\U{0E1C}\U{0E25}"
  }

  /** The `returnItem` payload of this page: no returner name, the reason trimmed. */
  datatype ReturnPayload = ReturnPayload(outId: string, returnQty: real, lostQty: real, reason: string)

  datatype Submission = Rejected(error: SubmitError) | Sent(payload: ReturnPayload)

  /** The sum is zero: both reads are finite and add up to 0. */
  predicate SumIsZero(r: Num, l: Num)
  {
    r.Finite? && l.Finite? && r.v + l.v == 0.0
  }

  /** The sum exceeds `qtyLeft`; an infinite read always does. */
  predicate SumExceeds(r: Num, l: Num, qtyLeft: real)
  {
    !(r.Finite? && l.Finite?) || r.v + l.v > qtyLeft
  }

  /** `handleReturnSubmit` for the selected borrow: the first failing check wins. */
  function SubmitReturn(item: BorrowedItem, ret: InputText, lost: InputText, reason: string): (s: Submission)
    ensures s == Rejected(NegativeQty) <==> IsNegative(ReadQty(ret)) || IsNegative(ReadQty(lost))
    ensures s == Rejected(NothingReturned) <==>
      !IsNegative(ReadQty(ret)) && !IsNegative(ReadQty(lost)) && SumIsZero(ReadQty(ret), ReadQty(lost))
    ensures s == Rejected(OverLeft) <==>
      !IsNegative(ReadQty(ret)) && !IsNegative(ReadQty(lost)) && !SumIsZero(ReadQty(ret), ReadQty(lost))
      && SumExceeds(ReadQty(ret), ReadQty(lost), item.qtyLeft)
    ensures s.Sent? ==>
      && ReadQty(ret) == Finite(s.payload.returnQty) && ReadQty(lost) == Finite(s.payload.lostQty)
      && s.payload.outId == item.outId
      && s.payload.returnQty >= 0.0 && s.payload.lostQty >= 0.0
      && 0.0 < s.payload.returnQty + s.payload.lostQty <= item.qtyLeft
      && s.payload.reason == Trim(reason)
      && (s.payload.lostQty > 0.0 ==> s.payload.reason != "")
    ensures s == Rejected(NoReason) <==>
      ReadQty(ret).Finite? && ReadQty(lost).Finite?
      && ReadQty(ret).v >= 0.0 && ReadQty(lost).v > 0.0
      && ReadQty(ret).v + ReadQty(lost).v <= item.qtyLeft && Trim(reason) == ""
  {
    var r := ReadQty(ret);
    var l := ReadQty(lost);
    if IsNegative(r) || IsNegative(l) then Rejected(NegativeQty)
    else if SumIsZero(r, l) then Rejected(NothingReturned)
    else if SumExceeds(r, l, item.qtyLeft) then Rejected(OverLeft)
    else if l.v > 0.0 && Trim(reason) == "" then Rejected(NoReason)
    else Sent(ReturnPayload(item.outId, r.v, l.v, Trim(reason)))
  }

  /** The dialog's default, a full return, is accepted for any borrow with
      something still out, whatever the reason field holds. */
  lemma FullReturnAccepted(item: BorrowedItem, reason: string)
    requires item.qtyLeft > 0.0
    ensures SubmitReturn(item, Entered(Finite(item.qtyLeft)), Entered(Finite(0.0)), reason)
      == Sent(ReturnPayload(item.outId, item.qtyLeft, 0.0, Trim(reason)))
  {
    var r := ReadQty(Entered(Finite(item.qtyLeft)));
    var l := ReadQty(Entered(Finite(0.0)));
    assert r == Finite(item.qtyLeft) && l == Finite(0.0);
    assert !IsNegative(r) && !IsNegative(l);
    assert !SumIsZero(r, l) && !SumExceeds(r, l, item.qtyLeft);
  }

  /** The page's state. */
  class ReturnItemPage {
    var list: seq<BorrowedItem>
    var selectedItem: Option<BorrowedItem>
    var returnQty: InputText
    var lostQty: InputText
    var reason: string

    constructor ()
      ensures list == [] && selectedItem == None
      ensures returnQty == EmptyText && lostQty == Entered(Finite(0.0)) && reason == ""
    {
      list := [];
      selectedItem := None;
      returnQty := EmptyText;
      lostQty := Entered(Finite(0.0));
      reason := "";
    }

    /** `fetchList` once `getBorrowedList` has answered with `data`. */
    method FetchList(data: seq<BorrowedItem>)
      modifies this
      ensures list == data && selectedItem == old(selectedItem)
      ensures returnQty == old(returnQty) && lostQty == old(lostQty) && reason == old(reason)
    {
      list := data;
    }

    /** `handleOpenModal(item)`: a full return, nothing lost, no reason. */
    method OpenModal(item: BorrowedItem)
      modifies this
      ensures selectedItem == Some(item)
      ensures returnQty == Entered(Finite(item.qtyLeft)) && lostQty == Entered(Finite(0.0)) && reason == ""
      ensures list == old(list)
    {
      selectedItem := Some(item);
      returnQty := Entered(Finite(item.qtyLeft));
      lostQty := Entered(Finite(0.0));
      reason := "";
    }

    method CloseModal()
      modifies this
      ensures selectedItem == None && list == old(list)
      ensures returnQty == old(returnQty) && lostQty == old(lostQty) && reason == old(reason)
    {
      selectedItem := None;
    }

    method SetReturnQty(v: InputText)
      modifies this
      ensures returnQty == v && lostQty == old(lostQty) && reason == old(reason)
      ensures list == old(list) && selectedItem == old(selectedItem)
    {
      returnQty := v;
    }

    method SetLostQty(v: InputText)
      modifies this
      ensures lostQty == v && returnQty == old(returnQty) && reason == old(reason)
      ensures list == old(list) && selectedItem == old(selectedItem)
    {
      lostQty := v;
    }

    method SetReason(v: string)
      modifies this
      ensures reason == v && returnQty == old(returnQty) && lostQty == old(lostQty)
      ensures list == old(list) && selectedItem == old(selectedItem)
    {
      reason := v;
    }

    /** What the confirm button does now: nothing without a selection. */
    function Submit(): (s: Option<Submission>)
      reads this
      ensures s.None? <==> selectedItem.None?
      ensures s.Some? && s.value.Sent? ==>
        s.value.payload.outId == selectedItem.value.outId
        && 0.0 < s.value.payload.returnQty + s.value.payload.lostQty <= selectedItem.value.qtyLeft
    {
      if selectedItem.None? then None
      else Some(SubmitReturn(selectedItem.value, returnQty, lostQty, reason))
    }

    /** After a sent return succeeds: the dialog closes and the list is
        fetched again, here `refreshed`. */
    method ReturnSucceeded(refreshed: seq<BorrowedItem>)
      modifies this
      ensures selectedItem == None && list == refreshed
      ensures returnQty == old(returnQty) && lostQty == old(lostQty) && reason == old(reason)
    {
      CloseModal();
      FetchList(refreshed);
    }
  }
}
