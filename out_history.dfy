/** The out-history page (src/pages/OutHistory.tsx): the issue and loan
    records newest document number first, the name search, and how a
    record's date and remark are shown. */
module OutHistory {
  import opened Js
  import Seqs
  import Sorting

  /** One record as `getOutHistory` returns it; `qty` is shown as text. */
  datatype OutRow = OutRow(
    outId: string, date: string, itemName: string, qty: string, unit: string,
    zone: string, channel: string, remark: Option<string>, images: seq<string>)

  /** The comparator `String(b.out_id).localeCompare(String(a.out_id))` lets
      `x` stay before `y` when `y`'s number does not sort after `x`'s. */
  function IdDesc(x: OutRow, y: OutRow): bool
  {
    LexLe(y.outId, x.outId)
  }

  lemma IdDescIsPreorder()
    ensures Sorting.TotalPreorder(IdDesc)
  {
    forall x: OutRow, y: OutRow
      ensures IdDesc(x, y) || IdDesc(y, x)
    {
      LexLeTotal(x.outId, y.outId);
    }
    forall x: OutRow, y: OutRow, z: OutRow | IdDesc(x, y) && IdDesc(y, z)
      ensures IdDesc(x, z)
    {
      LexLeTransitive(z.outId, y.outId, x.outId);
    }
  }

  /** Sorted by `IdDesc`, no record has a number after an earlier one's. */
  lemma {:induction false} NewestFirst(rows: seq<OutRow>, i: int, j: int)
    requires Sorting.SortedBy(rows, IdDesc) && 0 <= i < j < |rows|
    ensures LexLe(rows[j].outId, rows[i].outId)
    ensures rows[i].outId != rows[j].outId ==> !LexLe(rows[i].outId, rows[j].outId)
  {
    if LexLe(rows[i].outId, rows[j].outId) {
      LexLeAntisymmetric(rows[i].outId, rows[j].outId);
    }
  }

  predicate NameMatches(x: OutRow, filter: string)
  {
    Contains(Lower(x.itemName), Lower(filter))
  }

  /** `rows`: the records whose lower-cased name contains the lower-cased
      filter. */
  function Rows(raw: seq<OutRow>, filter: string): (r: seq<OutRow>)
    ensures forall x :: x in r <==> x in raw && NameMatches(x, filter)
  {
    Seqs.Filter(raw, (x: OutRow) => NameMatches(x, filter))
  }

  /** The rows keep the loaded order, and an empty filter shows them all. */
  lemma RowsInOrder(raw: seq<OutRow>, filter: string)
    ensures Seqs.IsSubsequence(Rows(raw, filter), raw)
    ensures Rows(raw, "") == raw
  {
    Seqs.FilterIsSubsequence(raw, (x: OutRow) => NameMatches(x, filter));
    forall x: OutRow {
      ContainsEmpty(Lower(x.itemName));
    }
    Seqs.FilterAll(raw, (x: OutRow) => NameMatches(x, ""));
  }

  /** `String(x.date).slice(0, 10)`: the first ten characters. */
  function DateShown(date: string): (r: string)
    ensures r <= date
    ensures |r| == if |date| < 10 then |date| else 10
  {
    if |date| < 10 then date else date[..10]
  }

  /** The remark cell: the remark as stored, or "-" when it is absent or
      nothing but whitespace. */
  function RemarkShown(remark: Option<string>): (r: string)
    ensures remark.None? || AllSpace(remark.value) ==> r == "-"
    ensures remark.Some? && !AllSpace(remark.value) ==> r == remark.value
  {
    if remark.Some? && remark.value != "" && Trim(remark.value) != "" then remark.value
    else
      if remark.Some? && remark.value != "" then TrimEmptyIffAllSpace(remark.value); "-"
      else "-"
  }

  /** The remark cell never looks empty. */
  lemma RemarkNeverBlank(remark: Option<string>)
    ensures !AllSpace(RemarkShown(remark))
  {
    var shown := RemarkShown(remark);
    if shown == "-" {
      assert !IsSpace(shown[0]);
    } else {
      TrimEmptyIffAllSpace(remark.value);
    }
  }

  /** The page's state. */
  class OutHistoryPage {
    var raw: seq<OutRow>
    var filter: string
    var images: seq<string>
    var open: bool

    constructor ()
      ensures raw == [] && filter == "" && images == [] && !open
    {
      raw := [];
      filter := "";
      images := [];
      open := false;
    }

    /** `load`: the fetched array is sorted in place, newest number first. */
    method Load(r: array<OutRow>)
      modifies this, r
      ensures raw == r[..]
      ensures Sorting.SortedBy(raw, IdDesc)
      ensures multiset(raw) == multiset(old(r[..]))
      ensures filter == old(filter) && images == old(images) && open == old(open)
    {
      IdDescIsPreorder();
      Sorting.InsertionSort(r, IdDesc);
      raw := r[..];
    }

    method SetFilter(v: string)
      modifies this
      ensures filter == v && raw == old(raw) && images == old(images) && open == old(open)
    {
      filter := v;
    }

    /** A thumbnail of `x` opens the viewer on all of `x`'s images. */
    method OpenImages(x: OutRow)
      modifies this
      ensures open && images == x.images
      ensures raw == old(raw) && filter == old(filter)
    {
      images := x.images;
      open := true;
    }

    method CloseImages()
      modifies this
      ensures !open && images == old(images)
      ensures raw == old(raw) && filter == old(filter)
    {
      open := false;
    }

    function Shown(): (r: seq<OutRow>)
      reads this
      ensures forall x :: x in r <==> x in raw && NameMatches(x, filter)
    {
      Rows(raw, filter)
    }
  }
}
