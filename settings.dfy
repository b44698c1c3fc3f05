/** The settings page (src/pages/Settings.tsx): the shelf table with its
    add/edit form, the product list with its search, and the product dialog
    that edits the name, unit, tags and image list of one product. */
module Settings {
  import opened Js
  import Seqs

  // ---------- shelves ----------

  /** One row of the shelf table: a zone with `floors` rows of
      `slotsPerFloor` slots each. Both counts come from number inputs
      read with `Number(...)`, so a typed `2.5` is kept as it is. */
  datatype ShelfConfig = ShelfConfig(zone: string, floors: real, slotsPerFloor: real)

  /** The capacity column: `floors * slots_per_floor` slots. */
  function Capacity(s: ShelfConfig): real
  {
    s.floors * s.slotsPerFloor
  }

  const EmptyShelfForm: ShelfConfig := ShelfConfig("", 5.0, 5.0)

  /** What `handleSave` passes to `upsertShelfConfig`: nothing when the zone
      is empty, the form unchanged otherwise. */
  function ShelfSaveRequest(form: ShelfConfig): (r: Option<ShelfConfig>)
    ensures r.None? <==> form.zone == ""
    ensures r.Some? ==> r.value == form
  {
    if form.zone == "" then None else Some(form)
  }

  /** A zone typed into the form holds no lower-case letter, and typing the
      stored zone again stores it unchanged. */
  lemma {:induction false} UpperZone(text: string)
    ensures forall i :: 0 <= i < |Upper(text)| ==> !('a' <= Upper(text)[i] <= 'z')
    ensures Upper(Upper(text)) == Upper(text)
  {
    var u := Upper(text);
    forall i | 0 <= i < |u|
      ensures UpperChar(u[i]) == u[i]
    {
      UpperCharIdempotent(text[i]);
    }
  }

  lemma UpperCharIdempotent(c: char)
    ensures UpperChar(UpperChar(c)) == UpperChar(c)
  {
  }

  /** The shelf tab's state. */
  class ShelfTab {
    var shelves: seq<ShelfConfig>
    var isEditing: bool
    var form: ShelfConfig

    constructor ()
      ensures shelves == [] && !isEditing && form == EmptyShelfForm
    {
      shelves := [];
      isEditing := false;
      form := EmptyShelfForm;
    }

    /** `load` once `getShelfConfigs` has answered with `data`. */
    method Load(data: seq<ShelfConfig>)
      modifies this
      ensures shelves == data && isEditing == old(isEditing) && form == old(form)
    {
      shelves := data;
    }

    /** The "add shelf" button: the form opens with what it last held. */
    method StartAdd()
      modifies this
      ensures isEditing && shelves == old(shelves) && form == old(form)
    {
      isEditing := true;
    }

    /** The edit button of row `s`. */
    method StartEdit(s: ShelfConfig)
      modifies this
      ensures isEditing && form == s && shelves == old(shelves)
    {
      form := s;
      isEditing := true;
    }

    method Cancel()
      modifies this
      ensures !isEditing && form == old(form) && shelves == old(shelves)
    {
      isEditing := false;
    }

    /** The zone input: stored upper-cased. */
    method SetZone(text: string)
      modifies this
      ensures form == old(form).(zone := Upper(text))
      ensures isEditing == old(isEditing) && shelves == old(shelves)
    {
      form := form.(zone := Upper(text));
    }

    /** The floors input: `n` is `Number(e.target.value)`, which a number
        input makes 0 for an empty box and the decimal typed otherwise. */
    method SetFloors(n: real)
      modifies this
      ensures form == old(form).(floors := n)
      ensures isEditing == old(isEditing) && shelves == old(shelves)
    {
      form := form.(floors := n);
    }

    /** The slots-per-floor input, read the same way. */
    method SetSlotsPerFloor(n: real)
      modifies this
      ensures form == old(form).(slotsPerFloor := n)
      ensures isEditing == old(isEditing) && shelves == old(shelves)
    {
      form := form.(slotsPerFloor := n);
    }

    /** `handleSave`: `upserted` tells whether `upsertShelfConfig` succeeded
        and `reloaded` is what the following `load` fetched. `sent` is the
        record passed to the upsert, if it was called. */
    method Save(upserted: bool, reloaded: seq<ShelfConfig>) returns (sent: Option<ShelfConfig>)
      modifies this
      ensures sent == ShelfSaveRequest(old(form))
      ensures sent.None? || !upserted ==>
        form == old(form) && isEditing == old(isEditing) && shelves == old(shelves)
      ensures sent.Some? && upserted ==> form == EmptyShelfForm && !isEditing && shelves == reloaded
    {
      sent := ShelfSaveRequest(form);
      if sent.Some? && upserted {
        isEditing := false;
        form := EmptyShelfForm;
        shelves := reloaded;
      }
    }
  }

  // ---------- products ----------

  /** A product as the product list holds it. */
  datatype Product = Product(
    name: string, unit: Option<string>, tags: Option<seq<string>>, images: Option<seq<string>>)

  const MaxListed: nat := 50

  predicate NameMatches(p: Product, search: string)
  {
    Contains(Lower(p.name), Lower(search))
  }

  /** The product list: the products whose lower-cased name contains the
      lower-cased search, in order, at most the first 50 of them. */
  function Listed(products: seq<Product>, search: string): (r: seq<Product>)
    ensures |r| <= MaxListed
    ensures forall p :: p in r ==> p in products && NameMatches(p, search)
    ensures |Seqs.Filter(products, p => NameMatches(p, search))| <= MaxListed ==>
      forall p :: p in products && NameMatches(p, search) ==> p in r
    ensures var all := Seqs.Filter(products, p => NameMatches(p, search));
      r <= all && |r| == (if |all| <= MaxListed then |all| else MaxListed)
  {
    var filtered := Seqs.Filter(products, p => NameMatches(p, search));
    if |filtered| <= MaxListed then filtered
    else
      assert forall p :: p in filtered[..MaxListed] ==> p in filtered;
      filtered[..MaxListed]
  }

  // ---------- the product dialog ----------

  /** What `processFiles` gives for one picked file, as far as the dialog
      uses it. */
  datatype Processed = Processed(objectUrl: string, blob: seq<bv8>, fileName: string)

  /** One entry of `imageList`: a stored image (`isNew` false, no blob) or a
      processed new one. */
  datatype ImageEntry = ImageEntry(
    id: string, url: string, blob: Option<seq<bv8>>, fileName: Option<string>, isNew: bool)

  /** An entry of the images payload of `updateProduct`: a URL to keep or a
      blob to upload. */
  datatype ImagePayload = KeepUrl(url: string) | Upload(blob: Option<seq<bv8>>, fileName: Option<string>)

  /** The record `updateProduct` receives. */
  datatype ProductUpdate = ProductUpdate(
    name: string, unit: string, tags: seq<string>, images: seq<ImagePayload>)

  function Existing(url: string): ImageEntry
  {
    ImageEntry(url, url, None, None, false)
  }

  function Added(p: Processed): ImageEntry
  {
    ImageEntry(p.objectUrl, p.objectUrl, Some(p.blob), Some(p.fileName), true)
  }

  /** The dialog's first image list: every stored URL as a stored entry, in
      order. */
  function InitialImages(images: Option<seq<string>>): (r: seq<ImageEntry>)
    ensures images.None? ==> r == []
    ensures images.Some? ==> |r| == |images.value|
    ensures images.Some? ==> forall i :: 0 <= i < |r| ==>
      !r[i].isNew && r[i].url == images.value[i] && r[i].id == images.value[i] && r[i].blob.None?
  {
    if images.None? then [] else seq(|images.value|, i requires 0 <= i < |images.value| => Existing(images.value[i]))
  }

  /** The entries made for newly processed files, in the order processed. */
  function NewEntries(processed: seq<Processed>): (r: seq<ImageEntry>)
    ensures |r| == |processed|
    ensures forall i :: 0 <= i < |r| ==>
      r[i].isNew && r[i].url == processed[i].objectUrl && r[i].blob == Some(processed[i].blob)
      && r[i].fileName == Some(processed[i].fileName)
  {
    seq(|processed|, i requires 0 <= i < |processed| => Added(processed[i]))
  }

  function EntryPayload(e: ImageEntry): ImagePayload
  {
    if e.isNew then Upload(e.blob, e.fileName) else KeepUrl(e.url)
  }

  /** The images payload: one entry per image, in the list's order. */
  function ImagesPayload(list: seq<ImageEntry>): (r: seq<ImagePayload>)
    ensures |r| == |list|
    ensures forall i :: 0 <= i < |r| ==>
      (list[i].isNew ==> r[i] == Upload(list[i].blob, list[i].fileName))
      && (!list[i].isNew ==> r[i] == KeepUrl(list[i].url))
  {
    seq(|list|, i requires 0 <= i < |list| => EntryPayload(list[i]))
  }

  /** Opening the dialog and saving it straight away keeps every stored URL,
      in order. */
  lemma {:induction false} UntouchedImagesKept(images: seq<string>)
    ensures ImagesPayload(InitialImages(Some(images))) == seq(|images|, i requires 0 <= i < |images| => KeepUrl(images[i]))
  {
  }

  /** The tags as `save` sends them: split on whitespace, each piece trimmed,
      the empty ones dropped. They are the words of the text in order: joined
      with single spaces they give the trimmed text with each run of
      whitespace squashed to one space. */
  function EditedTags(text: string): (r: seq<string>)
    ensures forall k :: 0 <= k < |r| ==> r[k] != "" && NoSpace(r[k])
    ensures Join(r, " ") == SquashSpaces(Trim(text))
  {
    var pieces := Split(text);
    forall k | 0 <= k < |pieces| ensures Trim(pieces[k]) == pieces[k] {
      TrimNoSpace(pieces[k]);
    }
    assert TrimEach(pieces) == pieces;
    SplitWords(text);
    NonEmpty(TrimEach(pieces))
  }

  function TrimEach(xs: seq<string>): (r: seq<string>)
    ensures |r| == |xs|
    ensures forall k :: 0 <= k < |xs| ==> r[k] == Trim(xs[k])
  {
    seq(|xs|, k requires 0 <= k < |xs| => Trim(xs[k]))
  }

  /** The tag text the dialog starts with. */
  function TagText(tags: Option<seq<string>>): string
  {
    if tags.Some? then Join(tags.value, " ") else ""
  }

  /** Tags that are non-empty and free of whitespace survive the dialog's
      join and split unchanged. */
  lemma TagRoundTrip(tags: seq<string>)
    requires AllWords(tags)
    ensures EditedTags(TagText(Some(tags))) == tags
  {
    if tags == [] {
      assert Split("") == [""];
      assert TrimEach([""]) == [""];
    } else {
      SplitJoin(tags);
      var pieces := Split(Join(tags, " "));
      forall k | 0 <= k < |pieces|
        ensures Trim(pieces[k]) == pieces[k]
      {
        TrimNoSpace(pieces[k]);
      }
      assert TrimEach(pieces) == pieces;
      NonEmptyKeepsWords(tags);
    }
  }

  /** The product dialog's state. */
  class EditProductModal {
    const originalName: string
    var name: string
    var unit: string
    var tags: string
    var imageList: seq<ImageEntry>

    constructor (item: Product)
      ensures originalName == item.name && name == item.name
      ensures unit == (if item.unit.Some? then item.unit.value else "")
      ensures tags == TagText(item.tags)
      ensures imageList == InitialImages(item.images)
    {
      originalName := item.name;
      name := item.name;
      unit := if item.unit.Some? then item.unit.value else "";
      tags := TagText(item.tags);
      imageList := InitialImages(item.images);
    }

    /** `handleFileSelect` once `processFiles` has answered: the new entries
        go after the existing ones. */
    method AddProcessed(processed: seq<Processed>)
      modifies this
      ensures imageList == old(imageList) + NewEntries(processed)
      ensures imageList[..|old(imageList)|] == old(imageList)
      ensures name == old(name) && unit == old(unit) && tags == old(tags)
    {
      imageList := imageList + NewEntries(processed);
    }

    /** `removeImage(index)`: every entry but the one at `index`, in order. */
    method RemoveImage(index: int)
      modifies this
      ensures imageList == Seqs.RemoveAt(old(imageList), index)
      ensures name == old(name) && unit == old(unit) && tags == old(tags)
    {
      imageList := Seqs.RemoveAt(imageList, index);
    }

    method SetName(v: string)
      modifies this
      ensures name == v && unit == old(unit) && tags == old(tags) && imageList == old(imageList)
    {
      name := v;
    }

    method SetUnit(v: string)
      modifies this
      ensures unit == v && name == old(name) && tags == old(tags) && imageList == old(imageList)
    {
      unit := v;
    }

    method SetTags(v: string)
      modifies this
      ensures tags == v && name == old(name) && unit == old(unit) && imageList == old(imageList)
    {
      tags := v;
    }

    /** What `save` passes to `updateProduct`, under the original name. */
    function SaveRequest(): (r: ProductUpdate)
      reads this
      ensures r.name == name && r.unit == unit
      ensures r.tags == EditedTags(tags) && r.images == ImagesPayload(imageList)
      ensures |r.images| == |imageList|
      ensures forall k :: 0 <= k < |r.tags| ==> r.tags[k] != "" && NoSpace(r.tags[k])
    {
      ProductUpdate(name, unit, EditedTags(tags), ImagesPayload(imageList))
    }
  }
}
