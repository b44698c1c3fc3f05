/** The stock page (src/pages/Stock.tsx): the per-slot balance table fetched
    from the server, sorted by balance, largest first, and the keyword search
    over item name, zone and channel. */
module Stock {
  import opened Js
  import Seqs
  import Sorting

  /** One row of the summary; the totals and the balance are computed by the
      server. An absent or null zone or channel is `None`. */
  datatype Row = Row(
    itemName: string, unit: string, totalIn: real, totalOut: real, balance: real,
    lastInDate: Option<string>, lastOutDate: Option<string>,
    zone: Option<string>, channel: Option<string>)

  /** The comparator `b.BALANCE - a.BALANCE` lets `x` stay before `y` when it
      is not negative for them. */
  function BalanceDesc(x: Row, y: Row): bool
  {
    x.balance >= y.balance
  }

  lemma BalanceDescIsPreorder()
    ensures Sorting.TotalPreorder(BalanceDesc)
  {
  }

  /** `(x || '')` for an optional text. */
  function OrEmpty(x: Option<string>): (r: string)
    ensures x.None? ==> r == ""
    ensures x.Some? ==> r == x.value
  {
    match x
    case None => ""
    case Some(v) => v
  }

  /** The keyword test of one row. */
  predicate Matches(x: Row, kw: string)
  {
    || Contains(Lower(x.itemName), kw)
    || Contains(Lower(OrEmpty(x.zone)), kw)
    || Contains(Lower(OrEmpty(x.channel)), kw)
  }

  /** `filtered`: every row for an empty keyword, otherwise the rows whose
      lower-cased name, zone or channel contains the lower-cased keyword. */
  function Filtered(rows: seq<Row>, filter: string): (r: seq<Row>)
    ensures filter == "" ==> r == rows
    ensures filter != "" ==> forall x :: x in r <==> x in rows && Matches(x, Lower(filter))
  {
    var kw := Lower(filter);
    var keep := (x: Row) => kw == "" || Matches(x, kw);
    if filter == "" then
      Seqs.FilterAll(rows, keep);
      Seqs.Filter(rows, keep)
    else
      Seqs.Filter(rows, keep)
  }

  /** The rows kept are in the table's order. */
  lemma FilteredInOrder(rows: seq<Row>, filter: string)
    ensures Seqs.IsSubsequence(Filtered(rows, filter), rows)
  {
    var kw := Lower(filter);
    Seqs.FilterIsSubsequence(rows, (x: Row) => kw == "" || Matches(x, kw));
  }

  /** The page's state. */
  class StockPage {
    var rows: seq<Row>
    var filter: string

    constructor ()
      ensures rows == [] && filter == ""
    {
      rows := [];
      filter := "";
    }

    /** `load`: the fetched array is sorted in place, then shown. */
    method Load(data: array<Row>)
      modifies this, data
      ensures rows == data[..]
      ensures Sorting.SortedBy(rows, BalanceDesc)
      ensures multiset(rows) == multiset(old(data[..]))
      ensures filter == old(filter)
    {
      BalanceDescIsPreorder();
      Sorting.InsertionSort(data, BalanceDesc);
      rows := data[..];
    }

    method SetFilter(v: string)
      modifies this
      ensures filter == v && rows == old(rows)
    {
      filter := v;
    }

    /** The rows the table shows. */
    function Shown(): (r: seq<Row>)
      reads this
      ensures filter == "" ==> r == rows
      ensures filter != "" ==> forall x :: x in r <==> x in rows && Matches(x, Lower(filter))
    {
      Filtered(rows, filter)
    }
  }

  /** After a load, the rows shown for any keyword are still largest balance
      first. */
  lemma ShownStaysSorted(rows: seq<Row>, filter: string)
    requires Sorting.SortedBy(rows, BalanceDesc)
    ensures Sorting.SortedBy(Filtered(rows, filter), BalanceDesc)
  {
    FilteredInOrder(rows, filter);
    Sorting.SubsequenceSorted(Filtered(rows, filter), rows, BalanceDesc);
  }
}
