/** The receive page (src/pages/ReceiveIn.tsx): the form for goods coming in,
    its collect-all-errors check, the slot list of the chosen shelf, the
    merge of picked photos without duplicates, the tag parsing of the save
    and the similar-name check run when the name field loses focus. */
module ReceiveIn {
  import opened Js
  import Seqs
  import Imaging
  import Settings

  type File = Imaging.File
  type ShelfConfig = Settings.ShelfConfig

  const DefaultUnit: string := "\U{0E0A}\U{0E34}\U{0E49}\U{0E19}"

  /** The form's values; `qty` is `''` or the number the input read. */
  datatype ReceiveForm = ReceiveForm(
    name: string, unit: string, qty: InputText, zone: string, channel: string,
    detail: string, images: seq<File>, tags: string)

  const EmptyForm: ReceiveForm := ReceiveForm("", DefaultUnit, EmptyText, "", "", "", [], "")

  // ---------- validate ----------

  const NameError: string :=
    "\U{0E01}\U{0E23}\U{0E2D}\U{0E01}\U{0E0A}\U{0E37}\U{0E48}\U{0E2D}\U{0E2A}\U{0E34}\U{0E19}\U{0E04}\U{0E49}\U{0E32}"
  const QtyError: string :=
    "\U{0E08}\U{0E33}\U{0E19}\U{0E27}\U{0E19}\U{0E15}\U{0E49}\U{0E2D}\U{0E07}\U{0E21}\U{0E32}\U{0E01}\U{0E01}\U{0E27}\U{0E48}\U{0E32} 0"
  const ZoneError: string := "\U{0E40}\U{0E25}\U{0E37}\U{0E2D}\U{0E01}\U{0E42}\U{0E0B}\U{0E19}"
  const ChannelError: string := "\U{0E40}\U{0E25}\U{0E37}\U{0E2D}\U{0E01}\U{0E0A}\U{0E48}\U{0E2D}\U{0E07}"

  /** The keys of the error record: the names of the validated fields. */
  datatype ErrorKey = NameKey | QtyKey | ZoneKey | ChannelKey

  /** The message recorded under each key. */
  function Message(k: ErrorKey): string
  {
    match k
    case NameKey => NameError
    case QtyKey => QtyError
    case ZoneKey => ZoneError
    case ChannelKey => ChannelError
  }

  /** `!form.name.trim()` */
  predicate NameMissing(name: string)
  {
    Trim(name) == ""
  }

  /** `form.qty === '' || Number(form.qty) <= 0`; NaN compares false and
      passes. */
  function BadQty(qty: InputText): (b: bool)
    ensures !b <==> qty.Entered? && (qty.n.NaN? || qty.n.PosInf? || (qty.n.Finite? && qty.n.v > 0.0))
  {
    qty.EmptyText? || qty.n == NegInf || (qty.n.Finite? && qty.n.v <= 0.0)
  }

  /** The record built from the four check outcomes, in the order
      `validate` runs them. */
  function Record(nameMissing: bool, badQty: bool, noZone: bool, noChannel: bool): (e: map<ErrorKey, string>)
    ensures NameKey in e <==> nameMissing
    ensures QtyKey in e <==> badQty
    ensures ZoneKey in e <==> noZone
    ensures ChannelKey in e <==> noChannel
    ensures forall k :: k in e ==> e[k] == Message(k)
  {
    var e1 := RecordIf(map[], nameMissing, NameKey, Message(NameKey));
    var e2 := RecordIf(e1, badQty, QtyKey, Message(QtyKey));
    var e3 := RecordIf(e2, noZone, ZoneKey, Message(ZoneKey));
    RecordIf(e3, noChannel, ChannelKey, Message(ChannelKey))
  }

  /** The record `validate` builds: one entry per failed check, all checks
      run. */
  function Errors(f: ReceiveForm): (e: map<ErrorKey, string>)
    ensures NameKey in e <==> NameMissing(f.name)
    ensures QtyKey in e <==> BadQty(f.qty)
    ensures ZoneKey in e <==> f.zone == ""
    ensures ChannelKey in e <==> f.channel == ""
    ensures forall k :: k in e ==> e[k] == Message(k)
  {
    Record(NameMissing(f.name), BadQty(f.qty), f.zone == "", f.channel == "")
  }

  /** The form passes exactly when no check failed. */
  lemma ValidIffNoErrors(f: ReceiveForm)
    ensures |Errors(f)| == 0 <==>
      !NameMissing(f.name) && !BadQty(f.qty) && f.zone != "" && f.channel != ""
  {
    var e := Errors(f);
    if NameMissing(f.name) {
      assert NameKey in e.Keys;
    } else if BadQty(f.qty) {
      assert QtyKey in e.Keys;
    } else if f.zone == "" {
      assert ZoneKey in e.Keys;
    } else if f.channel == "" {
      assert ChannelKey in e.Keys;
    } else {
      assert e.Keys == {};
    }
  }

  /** A form with no name, no quantity, no zone and no slot fails all four
      checks; the cleared form is one. */
  lemma BlankFormFailsAll(f: ReceiveForm)
    requires f.name == "" && f.qty == EmptyText && f.zone == "" && f.channel == ""
    ensures var e := Errors(f); NameKey in e && QtyKey in e && ZoneKey in e && ChannelKey in e
  {
    assert Trim(f.name) == "";
  }

  // ---------- the slots of the chosen shelf ----------

  /** `shelves.find(s => s.zone === zone)` */
  function ActiveShelf(shelves: seq<ShelfConfig>, zone: string): (r: Option<ShelfConfig>)
    ensures r.None? <==> forall k :: 0 <= k < |shelves| ==> shelves[k].zone != zone
    ensures r.Some? ==> r.value in shelves && r.value.zone == zone
    ensures r.Some? ==>
      exists k :: 0 <= k < |shelves| && shelves[k] == r.value && forall j :: 0 <= j < k ==> shelves[j].zone != zone
  {
    if shelves == [] then None
    else if shelves[0].zone == zone then Some(shelves[0])
    else
      var r := ActiveShelf(shelves[1..], zone);
      if r.Some? then
        var k :| 0 <= k < |shelves[1..]| && shelves[1..][k] == r.value
          && forall j :: 0 <= j < k ==> shelves[1..][j].zone != zone;
        assert shelves[k + 1] == r.value;
        r
      else r
  }

  /** The slot count of a shelf, as `Array.from` reads a length
      (`ToLength`): the capacity truncated toward zero, and no slots for a
      capacity below one. */
  function SlotCount(s: ShelfConfig): (n: nat)
    ensures Settings.Capacity(s) < 1.0 ==> n == 0
    ensures Settings.Capacity(s) >= 0.0 ==> n as real <= Settings.Capacity(s) < n as real + 1.0
  {
    var c := Settings.Capacity(s);
    if c <= 0.0 then 0 else c.Floor
  }

  /** `availableChannels`: "1" to the shelf's capacity for the shelf of the
      chosen zone, none when no shelf has that zone. */
  function AvailableChannels(shelves: seq<ShelfConfig>, zone: string): (r: seq<string>)
    ensures ActiveShelf(shelves, zone).None? ==> r == []
    ensures ActiveShelf(shelves, zone).Some? ==>
      |r| == SlotCount(ActiveShelf(shelves, zone).value)
    ensures forall i :: 0 <= i < |r| ==> r[i] == NatToString(i + 1)
  {
    var shelf := ActiveShelf(shelves, zone);
    if shelf.None? then [] else NumberLabels(SlotCount(shelf.value))
  }

  /** A slot is offered exactly when it is the decimal numeral of a number
      from 1 to the capacity. */
  lemma {:induction false} ChannelOffered(shelves: seq<ShelfConfig>, zone: string, c: string)
    requires ActiveShelf(shelves, zone).Some?
    ensures c in AvailableChannels(shelves, zone) <==>
      exists n :: 1 <= n <= SlotCount(ActiveShelf(shelves, zone).value) && c == NatToString(n)
  {
    var r := AvailableChannels(shelves, zone);
    if c in r {
      var i :| 0 <= i < |r| && r[i] == c;
      assert 1 <= i + 1 <= SlotCount(ActiveShelf(shelves, zone).value) && c == NatToString(i + 1);
    }
    if exists n :: 1 <= n <= SlotCount(ActiveShelf(shelves, zone).value) && c == NatToString(n) {
      var n :| 1 <= n <= SlotCount(ActiveShelf(shelves, zone).value) && c == NatToString(n);
      assert r[n - 1] == c;
    }
  }

  /** No slot is offered twice. */
  lemma ChannelsDistinct(shelves: seq<ShelfConfig>, zone: string)
    ensures var r := AvailableChannels(shelves, zone);
      forall i, j :: 0 <= i < j < |r| ==> r[i] != r[j]
  {
    var r := AvailableChannels(shelves, zone);
    forall i, j | 0 <= i < j < |r|
      ensures r[i] != r[j]
    {
      if r[i] == r[j] {
        NatToStringInjective(i + 1, j + 1);
      }
    }
  }

  // ---------- merging picked photos ----------

  /** `g.name === f.name && g.size === f.size` */
  predicate SameFile(f: File, g: File)
  {
    f.name == g.name && f.size == g.size
  }

  /** `arr.findIndex(g => SameFile(g, f))`: -1 when there is none. */
  function FindSame(arr: seq<File>, f: File): (k: int)
    ensures -1 <= k < |arr|
  {
    if arr == [] then -1
    else if SameFile(arr[0], f) then 0
    else
      var k := FindSame(arr[1..], f);
      if k == -1 then -1 else k + 1
  }

  /** The index found holds the first file with the name and size of `f`;
      -1 means there is none. */
  lemma {:induction false} FindSameFacts(arr: seq<File>, f: File)
    ensures var k := FindSame(arr, f);
      && (k >= 0 ==> SameFile(arr[k], f) && forall j :: 0 <= j < k ==> !SameFile(arr[j], f))
      && (k == -1 ==> forall j :: 0 <= j < |arr| ==> !SameFile(arr[j], f))
  {
    if arr != [] && !SameFile(arr[0], f) {
      FindSameFacts(arr[1..], f);
      var k := FindSame(arr[1..], f);
      if k == -1 {
        forall j | 0 <= j < |arr|
          ensures !SameFile(arr[j], f)
        {
          if j > 0 { assert arr[j] == arr[1..][j - 1]; }
        }
      } else {
        assert arr[k + 1] == arr[1..][k];
        forall j | 0 <= j < k + 1
          ensures !SameFile(arr[j], f)
        {
          if j > 0 { assert arr[j] == arr[1..][j - 1]; }
        }
      }
    }
  }

  /** A file with no earlier file of the same name and size is found at its own index. */
  lemma FindSameAtFirst(arr: seq<File>, j: nat)
    requires j < |arr|
    requires forall m :: 0 <= m < j ==> !SameFile(arr[m], arr[j])
    ensures FindSame(arr, arr[j]) == j
  {
    FindSameFacts(arr, arr[j]);
  }

  /** Two files with the same name and size are first found at one index. */
  lemma {:induction false} FindSameOfSame(arr: seq<File>, f: File, g: File)
    requires SameFile(f, g)
    ensures FindSame(arr, f) == FindSame(arr, g)
  {
    if arr != [] && !SameFile(arr[0], f) {
      FindSameOfSame(arr[1..], f, g);
    }
  }

  /** The filter of `onFilesSelected` from index `i` on: an entry stays when it
      is the first with its name and size. */
  function KeepFirst(arr: seq<File>, i: nat): seq<File>
    requires i <= |arr|
    decreases |arr| - i
  {
    if i == |arr| then []
    else if FindSame(arr, arr[i]) == i then [arr[i]] + KeepFirst(arr, i + 1)
    else KeepFirst(arr, i + 1)
  }

  /** What the filter keeps: first occurrences only, in the order of their
      positions, and every first occurrence from `i` on. */
  lemma {:induction false} KeepFirstFacts(arr: seq<File>, i: nat)
    requires i <= |arr|
    ensures var r := KeepFirst(arr, i);
      && (forall k :: 0 <= k < |r| ==> r[k] in arr && i <= FindSame(arr, r[k]) && arr[FindSame(arr, r[k])] == r[k])
      && (forall k1, k2 :: 0 <= k1 < k2 < |r| ==> FindSame(arr, r[k1]) < FindSame(arr, r[k2]))
      && (forall j :: i <= j < |arr| && FindSame(arr, arr[j]) == j ==> arr[j] in r)
    decreases |arr| - i
  {
    if i < |arr| {
      KeepFirstFacts(arr, i + 1);
      var rest := KeepFirst(arr, i + 1);
      if FindSame(arr, arr[i]) == i {
        var r := [arr[i]] + rest;
        assert KeepFirst(arr, i) == r;
        forall k | 0 <= k < |r|
          ensures r[k] in arr && i <= FindSame(arr, r[k]) && arr[FindSame(arr, r[k])] == r[k]
        {
          if k > 0 { assert r[k] == rest[k - 1]; }
        }
        forall k1, k2 | 0 <= k1 < k2 < |r|
          ensures FindSame(arr, r[k1]) < FindSame(arr, r[k2])
        {
          assert r[k2] == rest[k2 - 1];
          if k1 > 0 { assert r[k1] == rest[k1 - 1]; }
        }
      }
    }
  }

  /** `[...images, ...files]` with the later duplicates dropped. */
  function MergeFiles(images: seq<File>, files: seq<File>): seq<File>
  {
    KeepFirst(images + files, 0)
  }

  predicate DistinctFiles(s: seq<File>)
  {
    forall k1, k2 :: 0 <= k1 < k2 < |s| ==> !SameFile(s[k1], s[k2])
  }

  /** The filter over a whole list keeps no two files with the same name
      and size, keeps only files of the list, and keeps for each file of the
      list the first one with its name and size. */
  lemma KeepFirstDeduplicates(arr: seq<File>)
    ensures DistinctFiles(KeepFirst(arr, 0))
    ensures forall f :: f in KeepFirst(arr, 0) ==> f in arr
    ensures forall f :: f in arr ==>
      var k := FindSame(arr, f); 0 <= k && arr[k] in KeepFirst(arr, 0) && SameFile(arr[k], f)
  {
    var r := KeepFirst(arr, 0);
    KeepFirstFacts(arr, 0);
    forall k1, k2 | 0 <= k1 < k2 < |r|
      ensures !SameFile(r[k1], r[k2])
    {
      if SameFile(r[k1], r[k2]) {
        FindSameOfSame(arr, r[k1], r[k2]);
      }
    }
    forall f | f in arr
      ensures var k := FindSame(arr, f); 0 <= k && arr[k] in r && SameFile(arr[k], f)
    {
      var k := FindSame(arr, f);
      FindSameFacts(arr, f);
      FindSameOfSame(arr, arr[k], f);
    }
  }

  /** The merged list has no two files with the same name and size, every
      file picked or held is represented by its first occurrence, and
      nothing else is in it. */
  lemma MergeFilesDeduplicates(images: seq<File>, files: seq<File>)
    ensures DistinctFiles(MergeFiles(images, files))
    ensures forall f :: f in MergeFiles(images, files) ==> f in images + files
    ensures forall f :: f in images + files ==>
      var k := FindSame(images + files, f);
      0 <= k && (images + files)[k] in MergeFiles(images, files) && SameFile((images + files)[k], f)
  {
    KeepFirstDeduplicates(images + files);
  }

  /** Held photos that are already free of duplicates stay first, in order. */
  lemma MergeKeepsHeld(images: seq<File>, files: seq<File>)
    requires DistinctFiles(images)
    ensures MergeFiles(images, files) == images + KeepFirst(images + files, |images|)
  {
    var arr := images + files;
    forall j | 0 <= j < |images|
      ensures FirstAt(arr, j)
    {
      assert forall m :: 0 <= m < j ==> !SameFile(arr[m], arr[j]);
      FindSameAtFirst(arr, j);
    }
    HeldPrefix(arr, |images|, 0);
    assert arr[0..|images|] == images;
  }

  /** The file at `j` is the first with its name and size. */
  predicate FirstAt(arr: seq<File>, j: nat)
    requires j < |arr|
  {
    FindSame(arr, arr[j]) == j
  }

  lemma {:induction false} HeldPrefix(arr: seq<File>, n: nat, i: nat)
    requires i <= n <= |arr|
    requires forall j :: 0 <= j < n ==> FirstAt(arr, j)
    ensures KeepFirst(arr, i) == arr[i..n] + KeepFirst(arr, n)
    decreases n - i
  {
    if i < n {
      var head := arr[i];
      assert FirstAt(arr, i);
      assert KeepFirst(arr, i) == [head] + KeepFirst(arr, i + 1);
      HeldPrefix(arr, n, i + 1);
      assert arr[i..n] == [head] + arr[i + 1..n];
    } else {
      assert arr[i..n] == [];
    }
  }

  // ---------- tags ----------

  /** The tags of the save: none for an empty field, otherwise the trimmed
      text split on whitespace with the empty pieces dropped. They are the
      words of the text in order: joined with single spaces they give the
      trimmed text with each run of whitespace squashed to one space, which
      determines them (`Js.JoinedWordsDetermine`). */
  function Tags(text: string): (r: seq<string>)
    ensures forall k :: 0 <= k < |r| ==> r[k] != "" && NoSpace(r[k])
    ensures Join(r, " ") == SquashSpaces(Trim(text))
  {
    if text == "" then []
    else
      TrimmedWords(text);
      NonEmpty(Split(Trim(text)))
  }

  lemma TrimmedWords(text: string)
    ensures AllWords(NonEmpty(Split(Trim(text))))
    ensures Join(NonEmpty(Split(Trim(text))), " ") == SquashSpaces(Trim(text))
  {
    var u := Trim(text);
    SplitWords(u);
    TrimUnpadded(u);
  }

  /** The receive page and the product dialog of the settings page read a
      tag field into the same list. */
  lemma TagsAgree(text: string)
    ensures Tags(text) == Settings.EditedTags(text)
  {
    var a := Tags(text);
    var b := Settings.EditedTags(text);
    assert AllWords(a) && AllWords(b);
    if text == "" {
      assert Trim("") == "";
      assert SquashSpaces("") == "";
    }
    JoinedWordsDetermine(a, b);
  }

  /** A field of nothing but whitespace gives no tags. */
  lemma BlankTagsGiveNone(text: string)
    requires AllSpace(text)
    ensures Tags(text) == []
  {
    if text != "" {
      TrimEmptyIffAllSpace(text);
      assert Trim(text) == "";
      assert Split("") == [""];
      assert NonEmpty([""]) == [];
    }
  }

  /** Words typed with single spaces between them come back as those words. */
  lemma TagsOfJoinedWords(words: seq<string>)
    requires AllWords(words)
    ensures Tags(Join(words, " ")) == words
  {
    if words != [] {
      JoinEnds(words);
      TrimUnpadded(Join(words, " "));
      SplitJoin(words);
      NonEmptyKeepsWords(words);
    }
  }

  // ---------- the save ----------

  /** The record `uploadReceive` receives, without the processed images. */
  datatype ReceivePayload = ReceivePayload(
    name: string, qty: Num, unit: string, zone: string, channel: string,
    detail: string, tags: seq<string>)

  /** The payload of `handleSave`; the name is sent as typed, untrimmed. */
  function Payload(f: ReceiveForm): (p: ReceivePayload)
    ensures p.name == f.name && p.unit == f.unit && p.zone == f.zone
      && p.channel == f.channel && p.detail == f.detail
    ensures p.tags == Tags(f.tags)
    ensures !BadQty(f.qty) ==> p.qty == NaN || p.qty == PosInf || (p.qty.Finite? && p.qty.v > 0.0)
  {
    var q := InputNumber(f.qty);
    assert !BadQty(f.qty) ==> q == NaN || q == PosInf || (q.Finite? && q.v > 0.0);
    ReceivePayload(f.name, q, f.unit, f.zone, f.channel, f.detail, Tags(f.tags))
  }

  /** A candidate `checkSimilarProducts` returns. */
  datatype ProductCandidate = ProductCandidate(id: string, productName: string, score: real)

  /** The query of `handleCheckSimilarity`: the trimmed name, and none when it
      is shorter than two UTF-16 units. */
  function SimilarityQuery(name: string): (q: Option<string>)
    ensures q.None? <==> Utf16Length(Trim(name)) < 2
    ensures q.Some? ==> q.value == Trim(name) && q.value != ""
  {
    var trimmed := Trim(name);
    if trimmed == "" || Utf16Length(trimmed) < 2 then None else Some(trimmed)
  }

  /** One field update of `setField`. */
  datatype FieldUpdate =
    | SetName(name: string) | SetUnit(unit: string) | SetQty(qty: InputText)
    | SetZone(zone: string) | SetChannel(channel: string) | SetDetail(detail: string)
    | SetImages(images: seq<File>) | SetTags(tags: string)

  function ApplyUpdate(f: ReceiveForm, u: FieldUpdate): (g: ReceiveForm)
    ensures u.SetName? ==> g == f.(name := u.name)
    ensures u.SetUnit? ==> g == f.(unit := u.unit)
    ensures u.SetQty? ==> g == f.(qty := u.qty)
    ensures u.SetZone? ==> g == f.(zone := u.zone)
    ensures u.SetChannel? ==> g == f.(channel := u.channel)
    ensures u.SetDetail? ==> g == f.(detail := u.detail)
    ensures u.SetImages? ==> g == f.(images := u.images)
    ensures u.SetTags? ==> g == f.(tags := u.tags)
  {
    match u
    case SetName(x) => f.(name := x)
    case SetUnit(x) => f.(unit := x)
    case SetQty(x) => f.(qty := x)
    case SetZone(x) => f.(zone := x)
    case SetChannel(x) => f.(channel := x)
    case SetDetail(x) => f.(detail := x)
    case SetImages(x) => f.(images := x)
    case SetTags(x) => f.(tags := x)
  }

  /** What `uploadReceive` answered. */
  datatype UploadResult = UploadOk | UploadFailed(error: string)

  /** The page's state. */
  class ReceiveInPage {
    var form: ReceiveForm
    var errors: map<ErrorKey, string>
    var shelves: seq<ShelfConfig>
    var similarityMatches: seq<ProductCandidate>

    constructor ()
      ensures form == EmptyForm && errors == map[] && shelves == [] && similarityMatches == []
    {
      form := EmptyForm;
      errors := map[];
      shelves := [];
      similarityMatches := [];
    }

    /** The shelves `getShelfConfigs` answered with. */
    method LoadShelves(data: seq<ShelfConfig>)
      modifies this
      ensures shelves == data && form == old(form) && errors == old(errors)
      ensures similarityMatches == old(similarityMatches)
    {
      shelves := data;
    }

    /** The slot choices shown for the chosen zone. */
    function Channels(): (r: seq<string>)
      reads this
      ensures forall i :: 0 <= i < |r| ==> r[i] == NatToString(i + 1)
    {
      AvailableChannels(shelves, form.zone)
    }

    method SetField(u: FieldUpdate)
      modifies this
      ensures form == ApplyUpdate(old(form), u)
      ensures errors == old(errors) && shelves == old(shelves) && similarityMatches == old(similarityMatches)
    {
      form := ApplyUpdate(form, u);
    }

    /** `validate`: the error record built check by check, then stored. */
    method Validate() returns (ok: bool)
      modifies this
      ensures errors == Errors(form) && form == old(form)
      ensures ok <==> !NameMissing(form.name) && !BadQty(form.qty) && form.zone != "" && form.channel != ""
      ensures shelves == old(shelves) && similarityMatches == old(similarityMatches)
    {
      var f := form;
      var e: map<ErrorKey, string> := map[];
      e := RecordIf(e, NameMissing(f.name), NameKey, Message(NameKey));
      e := RecordIf(e, BadQty(f.qty), QtyKey, Message(QtyKey));
      e := RecordIf(e, f.zone == "", ZoneKey, Message(ZoneKey));
      e := RecordIf(e, f.channel == "", ChannelKey, Message(ChannelKey));
      ValidIffNoErrors(f);
      ok := |e| == 0;
      ShowErrors(e);
    }

    /** `setErrors` */
    method ShowErrors(e: map<ErrorKey, string>)
      modifies this
      ensures errors == e && form == old(form)
      ensures shelves == old(shelves) && similarityMatches == old(similarityMatches)
    {
      errors := e;
    }

    /** `handleSave`: `answer` is what `uploadReceive` returns when called;
        `sent` is the payload, if it was sent. */
    method Save(answer: UploadResult) returns (sent: Option<ReceivePayload>)
      modifies this
      ensures errors == Errors(old(form))
      ensures sent.None? <==> |Errors(old(form))| > 0
      ensures sent.Some? ==> sent.value == Payload(old(form))
      ensures sent.Some? && answer.UploadOk? ==> form == EmptyForm && errors == map[]
      ensures !(sent.Some? && answer.UploadOk?) ==> form == old(form)
      ensures shelves == old(shelves) && similarityMatches == old(similarityMatches)
    {
      var ok := Validate();
      ValidIffNoErrors(form);
      if !ok {
        sent := None;
        return;
      }
      sent := Some(Payload(form));
      if answer.UploadOk? {
        ResetAfterSave();
      }
    }

    /** The empty form and no errors, after a successful upload. */
    method ResetAfterSave()
      modifies this
      ensures form == EmptyForm && errors == map[]
      ensures shelves == old(shelves) && similarityMatches == old(similarityMatches)
    {
      form := EmptyForm;
      errors := map[];
    }

    /** `onFilesSelected`: nothing happens when no file was picked. */
    method FilesSelected(files: seq<File>)
      modifies this
      ensures files == [] ==> form == old(form)
      ensures files != [] ==> form == old(form).(images := MergeFiles(old(form).images, files))
      ensures errors == old(errors) && shelves == old(shelves) && similarityMatches == old(similarityMatches)
    {
      if files != [] {
        SetField(SetImages(MergeFiles(form.images, files)));
      }
    }

    /** The remove button of preview `i`: the photo list without its `i`-th
        entry. */
    method RemovePreview(i: nat)
      requires i < |form.images|
      modifies this
      ensures form == old(form).(images := Seqs.RemoveAt(old(form).images, i))
      ensures |form.images| == |old(form).images| - 1
      ensures errors == old(errors) && shelves == old(shelves) && similarityMatches == old(similarityMatches)
    {
      SetField(SetImages(Seqs.RemoveAt(form.images, i)));
    }

    /** `handleCheckSimilarity`; `matches` is what `checkSimilarProducts`
        answers when asked. `query` is what it was asked, if anything. */
    method CheckSimilarity(matches: seq<ProductCandidate>) returns (query: Option<string>)
      modifies this
      ensures query == SimilarityQuery(old(form).name)
      ensures similarityMatches == (if query.Some? && |matches| > 0 then matches else old(similarityMatches))
      ensures form == old(form) && errors == old(errors) && shelves == old(shelves)
    {
      query := SimilarityQuery(form.name);
      if query.Some? && |matches| > 0 {
        similarityMatches := matches;
      }
    }

    /** `handleUseExisting`: the name becomes the candidate's and the dialog
        closes. */
    method UseExisting(item: ProductCandidate)
      modifies this
      ensures form == old(form).(name := item.productName) && similarityMatches == []
      ensures errors == old(errors) && shelves == old(shelves)
    {
      SetField(SetName(item.productName));
      similarityMatches := [];
    }

    /** `handleForceCreate` and `handleCancelCheck`: the dialog closes. */
    method DismissMatches()
      modifies this
      ensures similarityMatches == [] && form == old(form)
      ensures errors == old(errors) && shelves == old(shelves)
    {
      similarityMatches := [];
    }

    /** The clear button. */
    method ClearForm()
      modifies this
      ensures form == EmptyForm
      ensures errors == old(errors) && shelves == old(shelves) && similarityMatches == old(similarityMatches)
    {
      form := EmptyForm;
    }
  }
}
