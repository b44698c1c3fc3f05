/** The receive-form validator (src/lib/validators.ts): every check runs and
    records its error under the field's key, a missing unit is filled in on
    the argument itself, and the form passes when no error was recorded. */
module Validators {
  import opened Js
  import Imaging

  type File = Imaging.File

  /** `qty` is text or a number. */
  datatype QtyInput = QtyText(text: string) | QtyValue(n: Num)

  /** `typeof f.qty === 'string' ? Number(f.qty) : f.qty` */
  function QtyNumber(q: QtyInput): (n: Num)
    ensures q.QtyText? ==> n == StringToNumber(q.text)
    ensures q.QtyValue? ==> n == q.n
  {
    match q
    case QtyText(t) => StringToNumber(t)
    case QtyValue(n) => n
  }

  /** The quantity passes: a finite whole number above zero. */
  predicate PositiveInteger(n: Num)
  {
    n.Finite? && n.v > 0.0 && n.v.Floor as real == n.v
  }

  const DefaultUnit: string := "\U{0E0A}\U{0E34}\U{0E49}\U{0E19}"

  const NameError: string :=
    "\U{0E01}\U{0E23}\U{0E38}\U{0E13}\U{0E32}\U{0E01}\U{0E23}\U{0E2D}\U{0E01}\U{0E0A}\U{0E37}\U{0E48}\U{0E2D}\U{0E2A}\U{0E34}\U{0E19}\U{0E04}\U{0E49}\U{0E32}"
  const QtyError: string :=
    "\U{0E08}\U{0E33}\U{0E19}\U{0E27}\U{0E19}\U{0E15}\U{0E49}\U{0E2D}\U{0E07}\U{0E40}\U{0E1B}\U{0E47}\U{0E19}\U{0E08}\U{0E33}\U{0E19}\U{0E27}\U{0E19}\U{0E40}\U{0E15}\U{0E47}\U{0E21} > 0"
  const ZoneError: string := "\U{0E40}\U{0E25}\U{0E37}\U{0E2D}\U{0E01}\U{0E42}\U{0E0B}\U{0E19}"
  const ChannelError: string := "\U{0E40}\U{0E25}\U{0E37}\U{0E2D}\U{0E01}\U{0E0A}\U{0E48}\U{0E2D}\U{0E07}"
  const NoImageError: string :=
    "\U{0E15}\U{0E49}\U{0E2D}\U{0E07}\U{0E21}\U{0E35}\U{0E23}\U{0E39}\U{0E1B}\U{0E2D}\U{0E22}\U{0E48}\U{0E32}\U{0E07}\U{0E19}\U{0E49}\U{0E2D}\U{0E22} 1 \U{0E44}\U{0E1F}\U{0E25}\U{0E4C}"
  const TooManyImagesError: string :=
    "\U{0E2D}\U{0E31}\U{0E1B}\U{0E42}\U{0E2B}\U{0E25}\U{0E14}\U{0E44}\U{0E14}\U{0E49}\U{0E2A}\U{0E39}\U{0E07}\U{0E2A}\U{0E38}\U{0E14} 3 \U{0E23}\U{0E39}\U{0E1B}"

  /** The keys of the error record: the names of the validated fields. */
  datatype ErrorKey = NameKey | QtyKey | ZoneKey | ChannelKey | ImagesKey

  /** `!f.name?.trim()` */
  predicate NameMissing(name: Option<string>)
  {
    name.None? || Trim(name.value) == ""
  }

  /** The entry the two image checks leave: the later one wins. */
  function ImagesError(images: Option<seq<File>>): (e: Option<string>)
    ensures e.None? <==> images.Some? && 1 <= |images.value| <= 3
    ensures e == Some(TooManyImagesError) <==> images.Some? && |images.value| > 3
    ensures e == Some(NoImageError) <==> images.None? || |images.value| < 1
  {
    if images.Some? && |images.value| > 3 then Some(TooManyImagesError)
    else if images.None? || |images.value| < 1 then Some(NoImageError)
    else None
  }

  /** The message each field check records; the images entry has its own. */
  function Message(k: ErrorKey): string
  {
    match k
    case NameKey => NameError
    case QtyKey => QtyError
    case ZoneKey => ZoneError
    case ChannelKey => ChannelError
    case ImagesKey => NoImageError
  }

  /** The record built from the outcomes of the validations, in the order the
      validator runs them; the second image check overwrites the first. */
  function Record(nameMissing: bool, badQty: bool, noZone: bool, noChannel: bool,
                  tooFew: bool, tooMany: bool): (e: map<ErrorKey, string>)
    ensures NameKey in e <==> nameMissing
    ensures QtyKey in e <==> badQty
    ensures ZoneKey in e <==> noZone
    ensures ChannelKey in e <==> noChannel
    ensures ImagesKey in e <==> tooFew || tooMany
    ensures forall k :: k in e && k != ImagesKey ==> e[k] == Message(k)
    ensures ImagesKey in e ==> e[ImagesKey] == if tooMany then TooManyImagesError else NoImageError
  {
    var e1 := RecordIf(map[], nameMissing, NameKey, Message(NameKey));
    var e2 := RecordIf(e1, badQty, QtyKey, Message(QtyKey));
    var e3 := RecordIf(e2, noZone, ZoneKey, Message(ZoneKey));
    var e4 := RecordIf(e3, noChannel, ChannelKey, Message(ChannelKey));
    var e5 := RecordIf(e4, tooFew, ImagesKey, NoImageError);
    RecordIf(e5, tooMany, ImagesKey, TooManyImagesError)
  }

  /** The `errors` record: one entry per failing check, the images entry
      written by the later of its two checks when both would apply. */
  function Errors(name: Option<string>, qty: QtyInput, zone: string, channel: string,
                  images: Option<seq<File>>): (e: map<ErrorKey, string>)
    ensures NameKey in e <==> NameMissing(name)
    ensures QtyKey in e <==> !PositiveInteger(QtyNumber(qty))
    ensures ZoneKey in e <==> zone == ""
    ensures ChannelKey in e <==> channel == ""
    ensures ImagesKey in e <==> ImagesError(images).Some?
    ensures forall k :: k in e && k != ImagesKey ==> e[k] == Message(k)
    ensures ImagesKey in e ==> e[ImagesKey] == ImagesError(images).value
  {
    Record(NameMissing(name), !PositiveInteger(QtyNumber(qty)), zone == "", channel == "",
           images.None? || |images.value| < 1, images.Some? && |images.value| > 3)
  }

  /** No error is recorded exactly when every check passes; then there are
      one to three images. */
  lemma {:induction false} NoErrorsIffValid(name: Option<string>, qty: QtyInput, zone: string, channel: string,
                                            images: Option<seq<File>>)
    ensures |Errors(name, qty, zone, channel, images)| == 0 <==>
      !NameMissing(name) && PositiveInteger(QtyNumber(qty)) && zone != "" && channel != ""
      && images.Some? && 1 <= |images.value| <= 3
  {
    var e := Errors(name, qty, zone, channel, images);
    if NameMissing(name) {
      assert NameKey in e.Keys;
    } else if !PositiveInteger(QtyNumber(qty)) {
      assert QtyKey in e.Keys;
    } else if zone == "" {
      assert ZoneKey in e.Keys;
    } else if channel == "" {
      assert ChannelKey in e.Keys;
    } else if ImagesError(images).Some? {
      assert ImagesKey in e.Keys;
    } else {
      assert e.Keys == {};
    }
  }

  /** A positive whole number typed as its numeral passes the quantity
      check; zero does not. */
  lemma WholeNumberTextAccepted(n: nat)
    ensures PositiveInteger(QtyNumber(QtyText(NatToString(n)))) <==> n > 0
  {
    NumberOfNatToString(n);
  }

  /** Whatever the other fields hold, a quantity that reads as a number with
      a fractional part is reported under the quantity key, with the
      quantity message, and the form is refused. */
  lemma FractionRejected(name: Option<string>, qty: QtyInput, zone: string, channel: string,
                         images: Option<seq<File>>)
    requires QtyNumber(qty).Finite? && QtyNumber(qty).v.Floor as real != QtyNumber(qty).v
    ensures var e := Errors(name, qty, zone, channel, images);
      QtyKey in e && e[QtyKey] == QtyError && |e| > 0
  {
    var e := Errors(name, qty, zone, channel, images);
    assert QtyKey in e.Keys;
  }

  /** The validator's outcome. */
  datatype Validation = Ok | Invalid(errors: map<ErrorKey, string>)

  /** The form object the validator receives and may write. */
  class ReceiveFormArg {
    var name: Option<string>
    var qty: QtyInput
    var unit: string
    var zone: string
    var channel: string
    var images: Option<seq<File>>

    constructor (name: Option<string>, qty: QtyInput, unit: string, zone: string, channel: string,
                 images: Option<seq<File>>)
      ensures this.name == name && this.qty == qty && this.unit == unit
      ensures this.zone == zone && this.channel == channel && this.images == images
    {
      this.name := name;
      this.qty := qty;
      this.unit := unit;
      this.zone := zone;
      this.channel := channel;
      this.images := images;
    }
  }

  /** `validateReceiveForm(f)`: all checks run, an empty unit is set to the
      default on `f` and nothing else of `f` changes; the form passes when no
      error was recorded. */
  method ValidateReceiveForm(f: ReceiveFormArg) returns (r: Validation)
    modifies f
    ensures r.Ok? <==> |Errors(f.name, f.qty, f.zone, f.channel, f.images)| == 0
    ensures r.Invalid? ==> r.errors == Errors(f.name, f.qty, f.zone, f.channel, f.images)
    ensures r.Ok? ==> f.images.Some? && 1 <= |f.images.value| <= 3
    ensures f.unit == if old(f.unit) == "" then DefaultUnit else old(f.unit)
    ensures f.name == old(f.name) && f.qty == old(f.qty) && f.zone == old(f.zone)
    ensures f.channel == old(f.channel) && f.images == old(f.images)
  {
    var errors := CollectErrors(f);
    NoErrorsIffValid(f.name, f.qty, f.zone, f.channel, f.images);
    if |errors| > 0 {
      r := Invalid(errors);
    } else {
      r := Ok;
    }
  }

  /** The validations in the validator's order: name and quantity, then the unit
      default on `f`, then zone, slot and images; the record is built from
      the outcomes as `Record` states. */
  method CollectErrors(f: ReceiveFormArg) returns (errors: map<ErrorKey, string>)
    modifies f
    ensures errors == Errors(f.name, f.qty, f.zone, f.channel, f.images)
    ensures f.unit == if old(f.unit) == "" then DefaultUnit else old(f.unit)
    ensures f.name == old(f.name) && f.qty == old(f.qty) && f.zone == old(f.zone)
    ensures f.channel == old(f.channel) && f.images == old(f.images)
  {
    var name, qty, zone, channel, images := f.name, f.qty, f.zone, f.channel, f.images;
    var nameMissing := NameMissing(name);
    var badQty := !PositiveInteger(QtyNumber(qty));
    DefaultTheUnit(f);
    var tooFew := images.None? || |images.value| < 1;
    var tooMany := images.Some? && |images.value| > 3;
    errors := Record(nameMissing, badQty, zone == "", channel == "", tooFew, tooMany);
  }

  /** `if (!f.unit) f.unit = 'ชิ้น'` */
  method DefaultTheUnit(f: ReceiveFormArg)
    modifies f
    ensures f.unit == if old(f.unit) == "" then DefaultUnit else old(f.unit)
    ensures f.name == old(f.name) && f.qty == old(f.qty) && f.zone == old(f.zone)
    ensures f.channel == old(f.channel) && f.images == old(f.images)
  {
    if f.unit == "" {
      f.unit := DefaultUnit;
    }
  }
}
