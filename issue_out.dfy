/** The issue page (src/pages/IssueOut.tsx): a form that issues or lends an
    item from one slot, prefilled from the page that linked to it, checked
    in a fixed order before the out record is created. */
module IssueOut {
  import opened Js

  const Zones: seq<string> := ["A", "B", "C"]

  const ChannelCount: nat := 25

  /** The slot choices "1" to "25". */
  const Channels: seq<string> := NumberLabels(ChannelCount)

  const Units: seq<string> := [
    "\U{0E0A}\U{0E34}\U{0E49}\U{0E19}", "\U{0E43}\U{0E1A}", "\U{0E01}\U{0E25}\U{0E48}\U{0E2D}\U{0E07}",
    "\U{0E41}\U{0E16}\U{0E27}", "\U{0E41}\U{0E1E}\U{0E47}\U{0E04}"]

  lemma ChannelChoices()
    ensures |Channels| == 25
    ensures Channels[0] == "1" && Channels[24] == "25"
    ensures forall i, j :: 0 <= i < j < 25 ==> Channels[i] != Channels[j]
  {
    var cs := Channels;
    assert cs[24] == NatToString(25) == NatToString(2) + [DigitChar(5)];
    forall i, j | 0 <= i < j < 25
      ensures cs[i] != cs[j]
    {
      if cs[i] == cs[j] {
        NatToStringInjective(i + 1, j + 1);
      }
    }
  }

  datatype OutType = ConsumeOut | BorrowOut

  /** The router state another page passes; an absent field is `None`. */
  datatype RouteState = RouteState(
    itemName: Option<string>, zone: Option<string>, channel: Option<string>, unit: Option<string>)

  /** The field is present and truthy. */
  predicate Given(x: Option<string>)
  {
    x.Some? && x.value != ""
  }

  /** `!nQty || nQty <= 0` fails: the number is positive (Infinity included). */
  predicate PositiveNumber(n: Num)
  {
    n == PosInf || (n.Finite? && n.v > 0.0)
  }

  datatype IssueError = NoItemName | BadQty | NoRequester

  function IssueErrorText(e: IssueError): string
  {
    match e
    case NoItemName =>
      "\U{0E01}\U{0E23}\U{0E38}\U{0E13}\U{0E32}\U{0E01}\U{0E23}\U{0E2D}\U{0E01}\U{0E0A}\U{0E37}\U{0E48}\U{0E2D}\U{0E2A}\U{0E34}\U{0E19}\U{0E04}\U{0E49}\U{0E32}"
    case BadQty =>
      "\U{0E01}\U{0E23}\U{0E38}\U{0E13}\U{0E32}\U{0E01}\U{0E23}\U{0E2D}\U{0E01}\U{0E08}\U{0E33}\U{0E19}\U{0E27}\U{0E19}\U{0E17}\U{0E35}\U{0E48}\U{0E21}\U{0E32}\U{0E01}\U{0E01}\U{0E27}\U{0E48}\U{0E32} 0"
    case NoRequester =>
      "\U{0E01}\U{0E23}\U{0E38}\U{0E13}\U{0E32}\U{0E01}\U{0E23}\U{0E2D}\U{0E01}\U{0E0A}\U{0E37}\U{0E48}\U{0E2D}\U{0E1C}\U{0E39}\U{0E49}\U{0E40}\U{0E1A}\U{0E34}\U{0E01}"
  }

  /** The error shown when `createOut` fails without a message. */
  const CreateFailedText: string :=
    "\U{0E40}\U{0E01}\U{0E34}\U{0E14}\U{0E02}\U{0E49}\U{0E2D}\U{0E1C}\U{0E34}\U{0E14}\U{0E1E}\U{0E25}\U{0E32}\U{0E14}\U{0E23}\U{0E30}\U{0E2B}\U{0E27}\U{0E48}\U{0E32}\U{0E07}\U{0E1A}\U{0E31}\U{0E19}\U{0E17}\U{0E36}\U{0E01}\U{0E01}\U{0E32}\U{0E23}\U{0E40}\U{0E1A}\U{0E34}\U{0E01}"

  /** The success message for the document number `outId`. */
  function SuccessText(kind: OutType, outId: string): string
  {
    "\U{0E1A}\U{0E31}\U{0E19}\U{0E17}\U{0E36}\U{0E01}\U{0E01}\U{0E32}\U{0E23}"
    + (if kind == ConsumeOut then "\U{0E40}\U{0E1A}\U{0E34}\U{0E01}" else "\U{0E22}\U{0E37}\U{0E21}")
    + "\U{0E40}\U{0E23}\U{0E35}\U{0E22}\U{0E1A}\U{0E23}\U{0E49}\U{0E2D}\U{0E22} \U{0E40}\U{0E25}\U{0E02}\U{0E17}\U{0E35}\U{0E48}\U{0E40}\U{0E2D}\U{0E01}\U{0E2A}\U{0E32}\U{0E23}: "
    + outId
  }

  /** The `createOut` payload. */
  datatype OutPayload = OutPayload(
    itemName: string, qty: Num, unit: string, zone: string, channel: string,
    requestBy: string, remark: string, kind: OutType)

  /** The form's values. */
  datatype Form = Form(
    itemName: string, qty: InputText, unit: string, zone: string, channel: string,
    requestBy: string, kind: OutType, remark: string)

  /** The validations of `handleSubmit`, first failure first. */
  function Check(f: Form): (e: Option<IssueError>)
    ensures e == Some(NoItemName) <==> Trim(f.itemName) == ""
    ensures e == Some(BadQty) <==> Trim(f.itemName) != "" && !PositiveNumber(InputNumber(f.qty))
    ensures e == Some(NoRequester) <==>
      Trim(f.itemName) != "" && PositiveNumber(InputNumber(f.qty)) && Trim(f.requestBy) == ""
    ensures e == None <==>
      Trim(f.itemName) != "" && PositiveNumber(InputNumber(f.qty)) && Trim(f.requestBy) != ""
  {
    if Trim(f.itemName) == "" then Some(NoItemName)
    else if !PositiveNumber(InputNumber(f.qty)) then Some(BadQty)
    else if Trim(f.requestBy) == "" then Some(NoRequester)
    else None
  }

  /** The record `createOut` receives, when every validation passes. */
  function Request(f: Form): (r: Option<OutPayload>)
    ensures r.None? <==> Check(f).Some?
    ensures r.Some? ==>
      && r.value.itemName == Trim(f.itemName) && r.value.itemName != ""
      && r.value.requestBy == Trim(f.requestBy) && r.value.requestBy != ""
      && r.value.remark == Trim(f.remark)
      && r.value.qty == InputNumber(f.qty) && PositiveNumber(r.value.qty)
      && r.value.unit == f.unit && r.value.zone == f.zone && r.value.channel == f.channel
      && r.value.kind == f.kind
  {
    if Check(f).Some? then None
    else Some(OutPayload(Trim(f.itemName), InputNumber(f.qty), f.unit, f.zone, f.channel,
                         Trim(f.requestBy), Trim(f.remark), f.kind))
  }

  /** The default form can never be sent: its name and quantity are empty. */
  lemma DefaultFormRejected()
    ensures Check(Form("", EmptyText, Units[0], "A", "1", "", ConsumeOut, "")) == Some(NoItemName)
  {
    assert Trim("") == "";
  }

  /** What `createOut` answered. */
  datatype CreateResult = Created(outId: string) | Failed(message: string)

  class IssueOutPage {
    var itemName: string
    var qty: InputText
    var unit: string
    var zone: string
    var channel: string
    var requestBy: string
    var kind: OutType
    var remark: string
    var successMsg: Option<string>
    var errorMsg: Option<string>

    function Values(): Form
      reads this
    {
      Form(itemName, qty, unit, zone, channel, requestBy, kind, remark)
    }

    constructor ()
      ensures Values() == Form("", EmptyText, Units[0], Zones[0], "1", "", ConsumeOut, "")
      ensures successMsg == None && errorMsg == None
    {
      itemName := "";
      qty := EmptyText;
      unit := Units[0];
      zone := Zones[0];
      channel := "1";
      requestBy := "";
      kind := ConsumeOut;
      remark := "";
      successMsg := None;
      errorMsg := None;
    }

    /** The prefill effect: each of name, zone, channel and unit is taken
        from the route state only when it is there and non-empty. */
    method Prefill(state: Option<RouteState>)
      modifies this
      ensures state.Some? && Given(state.value.itemName) ==> itemName == state.value.itemName.value
      ensures !(state.Some? && Given(state.value.itemName)) ==> itemName == old(itemName)
      ensures state.Some? && Given(state.value.zone) ==> zone == state.value.zone.value
      ensures !(state.Some? && Given(state.value.zone)) ==> zone == old(zone)
      ensures state.Some? && Given(state.value.channel) ==> channel == state.value.channel.value
      ensures !(state.Some? && Given(state.value.channel)) ==> channel == old(channel)
      ensures state.Some? && Given(state.value.unit) ==> unit == state.value.unit.value
      ensures !(state.Some? && Given(state.value.unit)) ==> unit == old(unit)
      ensures qty == old(qty) && requestBy == old(requestBy) && kind == old(kind) && remark == old(remark)
      ensures successMsg == old(successMsg) && errorMsg == old(errorMsg)
    {
      if state.Some? {
        var st := state.value;
        if Given(st.itemName) { itemName := st.itemName.value; }
        if Given(st.zone) { zone := st.zone.value; }
        if Given(st.channel) { channel := st.channel.value; }
        if Given(st.unit) { unit := st.unit.value; }
      }
    }

    /** `handleSubmit`; `answer` is what `createOut` returns when called.
        `sent` is the record passed to `createOut`, if it was called. */
    method Submit(answer: CreateResult) returns (sent: Option<OutPayload>)
      modifies this
      ensures sent == Request(old(Values()))
      ensures sent.None? ==>
        errorMsg == Some(IssueErrorText(Check(old(Values())).value))
        && successMsg == None && Values() == old(Values())
      ensures sent.Some? && answer.Created? ==>
        successMsg == Some(SuccessText(old(kind), answer.outId)) && errorMsg == None
        && Values() == old(Values()).(itemName := "", qty := EmptyText, remark := "")
      ensures sent.Some? && answer.Failed? ==>
        errorMsg == Some(if answer.message != "" then answer.message else CreateFailedText)
        && successMsg == None && Values() == old(Values())
    {
      var form := Values();
      sent := Request(form);
      if sent.None? {
        ShowResult(Some(IssueErrorText(Check(form).value)), None);
        return;
      }
      match answer {
        case Created(outId) =>
          ShowResult(None, Some(SuccessText(kind, outId)));
          ClearAfterIssue();
        case Failed(message) =>
          ShowResult(Some(if message != "" then message else CreateFailedText), None);
      }
    }

    /** The two message slots: `errorMsg` and `successMsg`. */
    method ShowResult(error: Option<string>, success: Option<string>)
      modifies this
      ensures errorMsg == error && successMsg == success && Values() == old(Values())
    {
      errorMsg := error;
      successMsg := success;
    }

    /** After a successful issue only the name, quantity and remark are cleared. */
    method ClearAfterIssue()
      modifies this
      ensures Values() == old(Values()).(itemName := "", qty := EmptyText, remark := "")
      ensures errorMsg == old(errorMsg) && successMsg == old(successMsg)
    {
      itemName := "";
      qty := EmptyText;
      remark := "";
    }
  }

  /** After a successful issue the form is rejected as it stands until a
      name and a quantity are entered again. */
  lemma ResetFormRejected(f: Form)
    ensures Check(f.(itemName := "", qty := EmptyText, remark := "")) == Some(NoItemName)
  {
    assert Trim("") == "";
  }
}
