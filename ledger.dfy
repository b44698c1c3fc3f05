/** The stock ledger the map page computes on the client (src/pages/Map.tsx):
    receipt rows and out rows are folded into one entry per
    (name, zone, channel), and the entries with a positive balance are grouped
    into one product per name; plus the search and alternate-location lists. */
module Ledger {
  import opened Js
  import Seqs

  /** The default unit, "ชิ้น" (piece). */
  const DefaultUnit: string := "\U{0E0A}\U{0E34}\U{0E49}\U{0E19}"

  /** A receipt row as listed by the API. A missing text field is "";
      `channel` is `None` when it is null or undefined and else `String(channel)`. */
  datatype Receipt = Receipt(productName: string, name: string, zone: string, channel: Option<string>, qty: Num, unit: string)

  /** An out row (`OutHistoryRow`). */
  datatype OutRow = OutRow(itemName: string, zone: string, channel: string, qty: Num, unit: string)

  /** Where stock of a product sits. The page joins the three parts into the
      string `name|zone|channel`; see `StringKey`. */
  datatype Key = Key(name: string, zone: string, channel: string)

  /** A `stockMap` value; its name, zone and channel are those of its key. */
  datatype Entry = Entry(key: Key, qty: real, unit: string)

  datatype Location = Location(zone: string, channel: string, qty: real, unit: string)

  datatype Product = Product(id: string, name: string, img: string, locations: seq<Location>)

  // ---------- reading one row ----------

  /** `Number(qty) || 0` for a finite or NaN value. */
  function NumberOrZero(n: Num): (r: real)
    ensures n.Finite? ==> r == n.v
    ensures !n.Finite? ==> r == 0.0
  {
    if n.Finite? then n.v else 0.0
  }

  /** `unit || 'ชิ้น'` */
  function UnitOr(u: string): (r: string)
    ensures r != ""
    ensures u != "" ==> r == u
  {
    if u == "" then DefaultUnit else u
  }

  /** The key of a receipt, or `None` when the row is skipped: no name (of
      `product_name || name`), no zone, or a null channel. */
  function ReceiptKey(r: Receipt): (k: Option<Key>)
    ensures k.None? <==> (r.productName == "" && r.name == "") || r.zone == "" || r.channel.None?
    ensures k.Some? ==> k.value.zone == r.zone && k.value.channel == r.channel.value
  {
    var pName := if r.productName != "" then r.productName else r.name;
    if pName == "" || r.zone == "" || r.channel.None? then None
    else Some(Key(Trim(pName), r.zone, r.channel.value))
  }

  /** The key of an out row, or `None` when the row is skipped: no item name,
      no zone or no channel. */
  function OutKey(o: OutRow): (k: Option<Key>)
    ensures k.None? <==> o.itemName == "" || o.zone == "" || o.channel == ""
    ensures k.Some? ==> k.value == Key(Trim(o.itemName), o.zone, o.channel)
  {
    if o.itemName == "" || o.zone == "" || o.channel == "" then None
    else Some(Key(Trim(o.itemName), o.zone, o.channel))
  }

  // ---------- the stock map ----------

  /** `stockMap.get(key)`: the position of the entry with key `k`, or -1. */
  function Find(es: seq<Entry>, k: Key): (i: int)
    ensures -1 <= i < |es|
    ensures i >= 0 ==> es[i].key == k
    ensures i < 0 <==> forall j :: 0 <= j < |es| ==> es[j].key != k
  {
    if es == [] then -1
    else if es[0].key == k then 0
    else
      var j := Find(es[1..], k);
      if j < 0 then -1 else j + 1
  }

  /** What one counted row does to the map: add `delta` at `key`, and
      `unit` in case the entry is new. */
  datatype Posting = Posting(key: Key, delta: real, unit: string)

  /** A receipt adds its quantity. */
  function ReceiptPosting(r: Receipt): Option<Posting>
  {
    match ReceiptKey(r)
    case None => None
    case Some(k) => Some(Posting(k, NumberOrZero(r.qty), UnitOr(r.unit)))
  }

  /** An out row takes its quantity away. */
  function OutPosting(o: OutRow): Option<Posting>
  {
    match OutKey(o)
    case None => None
    case Some(k) => Some(Posting(k, -NumberOrZero(o.qty), UnitOr(o.unit)))
  }

  function ReceiptPostings(rs: seq<Receipt>): seq<Posting>
  {
    if rs == [] then []
    else
      var p := ReceiptPosting(rs[|rs| - 1]);
      ReceiptPostings(rs[..|rs| - 1]) + (if p.Some? then [p.value] else [])
  }

  /** All postings, in loop order: the receipts', then the out rows'. */
  function Postings(rs: seq<Receipt>, os: seq<OutRow>): seq<Posting>
  {
    if os == [] then ReceiptPostings(rs)
    else
      var p := OutPosting(os[|os| - 1]);
      Postings(rs, os[..|os| - 1]) + (if p.Some? then [p.value] else [])
  }

  /** One posting applied to the map: the existing entry's qty changes by
      `delta`, or a new entry with qty `delta` is added at the end. */
  function Post(es: seq<Entry>, p: Posting): seq<Entry>
  {
    var i := Find(es, p.key);
    if i >= 0 then es[i := es[i].(qty := es[i].qty + p.delta)]
    else es + [Entry(p.key, p.delta, p.unit)]
  }

  /** The map after the postings `ps`, starting from an empty map. */
  function Apply(ps: seq<Posting>): seq<Entry>
  {
    if ps == [] then [] else Post(Apply(ps[..|ps| - 1]), ps[|ps| - 1])
  }

  /** The `stockMap` values, in insertion order, after both loops. */
  function Stock(rs: seq<Receipt>, os: seq<OutRow>): seq<Entry>
  {
    Apply(Postings(rs, os))
  }

  lemma ApplySnoc(ps: seq<Posting>, p: Posting)
    ensures Apply(ps + [p]) == Post(Apply(ps), p)
  {
    assert (ps + [p])[..|ps + [p]| - 1] == ps;
  }

  lemma ReceiptPostingsSnoc(rs: seq<Receipt>, i: nat)
    requires i < |rs|
    ensures ReceiptPosting(rs[i]).None? ==> ReceiptPostings(rs[..i + 1]) == ReceiptPostings(rs[..i])
    ensures ReceiptPosting(rs[i]).Some? ==> ReceiptPostings(rs[..i + 1]) == ReceiptPostings(rs[..i]) + [ReceiptPosting(rs[i]).value]
  {
    assert rs[..i + 1][..i] == rs[..i];
  }

  lemma PostingsSnoc(rs: seq<Receipt>, os: seq<OutRow>, i: nat)
    requires i < |os|
    ensures OutPosting(os[i]).None? ==> Postings(rs, os[..i + 1]) == Postings(rs, os[..i])
    ensures OutPosting(os[i]).Some? ==> Postings(rs, os[..i + 1]) == Postings(rs, os[..i]) + [OutPosting(os[i]).value]
  {
    assert os[..i + 1][..i] == os[..i];
  }

  /** `stockMap.get(key)`, then `existing.qty += delta` on the entry found,
      or `stockMap.set(key, ...)` with a new entry. */
  method PostRow(stock: seq<Entry>, p: Posting) returns (stock': seq<Entry>)
    ensures stock' == Post(stock, p)
  {
    var existing := Find(stock, p.key);
    if existing >= 0 {
      stock' := stock[existing := stock[existing].(qty := stock[existing].qty + p.delta)];
    } else {
      stock' := stock + [Entry(p.key, p.delta, p.unit)];
    }
  }

  /** The receipt loop of `loadData` (Map.tsx). */
  method PostReceipts(receipts: seq<Receipt>) returns (stock: seq<Entry>)
    ensures stock == Apply(ReceiptPostings(receipts))
  {
    stock := [];
    for i := 0 to |receipts|
      invariant stock == Apply(ReceiptPostings(receipts[..i]))
    {
      ReceiptPostingsSnoc(receipts, i);
      var item := receipts[i];
      var key := ReceiptKey(item);
      if key.None? {
        continue;
      }
      var qty := NumberOrZero(item.qty);
      ApplySnoc(ReceiptPostings(receipts[..i]), Posting(key.value, qty, UnitOr(item.unit)));
      stock := PostRow(stock, Posting(key.value, qty, UnitOr(item.unit)));
    }
    assert receipts[..|receipts|] == receipts;
  }

  /** The out-row loop of `loadData` (Map.tsx), on the map the receipts left. */
  method PostOuts(start: seq<Entry>, ghost receipts: seq<Receipt>, outs: seq<OutRow>) returns (stock: seq<Entry>)
    requires start == Apply(ReceiptPostings(receipts))
    ensures stock == Apply(Postings(receipts, outs))
  {
    stock := start;
    assert outs[..0] == [];
    for i := 0 to |outs|
      invariant stock == Apply(Postings(receipts, outs[..i]))
    {
      PostingsSnoc(receipts, outs, i);
      var item := outs[i];
      var key := OutKey(item);
      if key.None? {
        continue;
      }
      var qty := NumberOrZero(item.qty);
      ApplySnoc(Postings(receipts, outs[..i]), Posting(key.value, -qty, UnitOr(item.unit)));
      stock := PostRow(stock, Posting(key.value, -qty, UnitOr(item.unit)));
    }
    assert outs[..|outs|] == outs;
  }

  // ---------- properties of the stock map ----------

  predicate KeysDistinct(es: seq<Entry>)
  {
    forall i, j :: 0 <= i < j < |es| ==> es[i].key != es[j].key
  }

  /** The balance the map holds for `k` (0 when there is no entry). */
  function QtyAt(es: seq<Entry>, k: Key): real
  {
    var i := Find(es, k);
    if i >= 0 then es[i].qty else 0.0
  }

  lemma PostKeys(es: seq<Entry>, p: Posting)
    requires KeysDistinct(es)
    ensures KeysDistinct(Post(es, p))
  {
    if Find(es, p.key) < 0 {
      assert forall j :: 0 <= j < |es| ==> es[j].key != p.key;
    }
  }

  /** How one posting changes the entry for any key `k`. */
  lemma PostAt(es: seq<Entry>, p: Posting, k: Key)
    ensures var es2 := Post(es, p); var i := Find(es, k); var i2 := Find(es2, k);
      && QtyAt(es2, k) == QtyAt(es, k) + (if k == p.key then p.delta else 0.0)
      && (i2 >= 0 <==> i >= 0 || k == p.key)
      && (i >= 0 ==> i2 == i && es2[i2].unit == es[i].unit)
      && (i < 0 && k == p.key ==> es2[i2].unit == p.unit)
  {
    var i := Find(es, p.key);
    var es2 := Post(es, p);
    if i >= 0 {
      assert forall j :: 0 <= j < |es| ==> es2[j].key == es[j].key;
      FindSameKeys(es, es2, k);
    } else {
      FindAppend(es, Entry(p.key, p.delta, p.unit), k);
    }
  }

  lemma {:induction false} FindSameKeys(a: seq<Entry>, b: seq<Entry>, k: Key)
    requires |a| == |b| && forall j :: 0 <= j < |a| ==> a[j].key == b[j].key
    ensures Find(a, k) == Find(b, k)
  {
    if a != [] {
      FindSameKeys(a[1..], b[1..], k);
    }
  }

  lemma {:induction false} FindAppend(a: seq<Entry>, e: Entry, k: Key)
    ensures Find(a + [e], k) == if Find(a, k) >= 0 then Find(a, k) else if e.key == k then |a| else -1
  {
    if a != [] {
      assert (a + [e])[1..] == a[1..] + [e];
      FindAppend(a[1..], e, k);
    }
  }

  /** The sum of the deltas posted at `k`. */
  function DeltaAt(ps: seq<Posting>, k: Key): real
  {
    if ps == [] then 0.0
    else DeltaAt(ps[..|ps| - 1], k) + (if ps[|ps| - 1].key == k then ps[|ps| - 1].delta else 0.0)
  }

  /** The unit of the first posting at `k`. */
  function FirstUnitAt(ps: seq<Posting>, k: Key): Option<string>
  {
    if ps == [] then None
    else
      var u := FirstUnitAt(ps[..|ps| - 1], k);
      if u.Some? then u else (if ps[|ps| - 1].key == k then Some(ps[|ps| - 1].unit) else None)
  }

  lemma {:induction false} ApplyKeys(ps: seq<Posting>)
    ensures KeysDistinct(Apply(ps))
  {
    if ps != [] {
      ApplyKeys(ps[..|ps| - 1]);
      PostKeys(Apply(ps[..|ps| - 1]), ps[|ps| - 1]);
    }
  }

  /** The entry at `k` holds the sum of the deltas posted at `k`; it exists
      exactly when something was posted at `k`, with the first such unit. */
  lemma {:induction false} ApplyAt(ps: seq<Posting>, k: Key)
    ensures var es := Apply(ps); var i := Find(es, k);
      && QtyAt(es, k) == DeltaAt(ps, k)
      && (i >= 0 <==> FirstUnitAt(ps, k).Some?)
      && (i >= 0 ==> es[i].unit == FirstUnitAt(ps, k).value)
  {
    if ps != [] {
      ApplyAt(ps[..|ps| - 1], k);
      PostAt(Apply(ps[..|ps| - 1]), ps[|ps| - 1], k);
    }
  }

  lemma {:induction false} DeltaAtConcat(a: seq<Posting>, b: seq<Posting>, k: Key)
    ensures DeltaAt(a + b, k) == DeltaAt(a, k) + DeltaAt(b, k)
  {
    if b != [] {
      assert (a + b)[..|a + b| - 1] == a + b[..|b| - 1];
      DeltaAtConcat(a, b[..|b| - 1], k);
    } else {
      assert a + b == a;
    }
  }

  lemma {:induction false} FirstUnitAtConcat(a: seq<Posting>, b: seq<Posting>, k: Key)
    ensures FirstUnitAt(a + b, k) == if FirstUnitAt(a, k).Some? then FirstUnitAt(a, k) else FirstUnitAt(b, k)
  {
    if b != [] {
      assert (a + b)[..|a + b| - 1] == a + b[..|b| - 1];
      FirstUnitAtConcat(a, b[..|b| - 1], k);
    } else {
      assert a + b == a;
    }
  }

  /** Sum of the counted receipt quantities for key `k`. */
  function ReceivedAt(rs: seq<Receipt>, k: Key): real
  {
    if rs == [] then 0.0
    else
      var r := rs[|rs| - 1];
      ReceivedAt(rs[..|rs| - 1], k) + (if ReceiptKey(r) == Some(k) then NumberOrZero(r.qty) else 0.0)
  }

  /** Sum of the counted out quantities for key `k`. */
  function IssuedAt(os: seq<OutRow>, k: Key): real
  {
    if os == [] then 0.0
    else
      var o := os[|os| - 1];
      IssuedAt(os[..|os| - 1], k) + (if OutKey(o) == Some(k) then NumberOrZero(o.qty) else 0.0)
  }

  /** The unit of the first receipt counted for `k`. */
  function FirstReceiptUnit(rs: seq<Receipt>, k: Key): Option<string>
  {
    if rs == [] then None
    else
      var u := FirstReceiptUnit(rs[..|rs| - 1], k);
      var r := rs[|rs| - 1];
      if u.Some? then u else (if ReceiptKey(r) == Some(k) then Some(UnitOr(r.unit)) else None)
  }

  /** The unit of the first out row counted for `k`. */
  function FirstOutUnit(os: seq<OutRow>, k: Key): Option<string>
  {
    if os == [] then None
    else
      var u := FirstOutUnit(os[..|os| - 1], k);
      var o := os[|os| - 1];
      if u.Some? then u else (if OutKey(o) == Some(k) then Some(UnitOr(o.unit)) else None)
  }

  /** What one receipt posts at `k`. */
  lemma ReceiptTailAt(r: Receipt, k: Key)
    ensures var p := ReceiptPosting(r); var tail := if p.Some? then [p.value] else [];
      && DeltaAt(tail, k) == (if ReceiptKey(r) == Some(k) then NumberOrZero(r.qty) else 0.0)
      && FirstUnitAt(tail, k) == (if ReceiptKey(r) == Some(k) then Some(UnitOr(r.unit)) else None)
  {
    var p := ReceiptPosting(r);
    if p.Some? {
      assert [p.value][..0] == [];
    }
  }

  /** What one out row posts at `k`. */
  lemma OutTailAt(o: OutRow, k: Key)
    ensures var p := OutPosting(o); var tail := if p.Some? then [p.value] else [];
      && DeltaAt(tail, k) == (if OutKey(o) == Some(k) then -NumberOrZero(o.qty) else 0.0)
      && FirstUnitAt(tail, k) == (if OutKey(o) == Some(k) then Some(UnitOr(o.unit)) else None)
  {
    var p := OutPosting(o);
    if p.Some? {
      assert [p.value][..0] == [];
    }
  }

  lemma {:induction false} ReceiptPostingsAt(rs: seq<Receipt>, k: Key)
    ensures DeltaAt(ReceiptPostings(rs), k) == ReceivedAt(rs, k)
    ensures FirstUnitAt(ReceiptPostings(rs), k) == FirstReceiptUnit(rs, k)
  {
    if rs != [] {
      var init := rs[..|rs| - 1];
      var r := rs[|rs| - 1];
      var p := ReceiptPosting(r);
      var tail := if p.Some? then [p.value] else [];
      assert ReceiptPostings(rs) == ReceiptPostings(init) + tail;
      ReceiptPostingsAt(init, k);
      ReceiptTailAt(r, k);
      DeltaAtConcat(ReceiptPostings(init), tail, k);
      FirstUnitAtConcat(ReceiptPostings(init), tail, k);
    }
  }

  lemma {:induction false} PostingsAt(rs: seq<Receipt>, os: seq<OutRow>, k: Key)
    ensures DeltaAt(Postings(rs, os), k) == ReceivedAt(rs, k) - IssuedAt(os, k)
    ensures FirstUnitAt(Postings(rs, os), k) ==
      if FirstReceiptUnit(rs, k).Some? then FirstReceiptUnit(rs, k) else FirstOutUnit(os, k)
  {
    if os == [] {
      ReceiptPostingsAt(rs, k);
    } else {
      var init := os[..|os| - 1];
      var o := os[|os| - 1];
      var p := OutPosting(o);
      var tail := if p.Some? then [p.value] else [];
      assert Postings(rs, os) == Postings(rs, init) + tail;
      PostingsAt(rs, init, k);
      OutTailAt(o, k);
      DeltaAtConcat(Postings(rs, init), tail, k);
      FirstUnitAtConcat(Postings(rs, init), tail, k);
    }
  }

  /** One entry per key; the balance of a key is what its receipts brought
      in minus what its out rows took out (skipped rows count for nothing). */
  lemma StockConservation(rs: seq<Receipt>, os: seq<OutRow>, k: Key)
    ensures KeysDistinct(Stock(rs, os))
    ensures QtyAt(Stock(rs, os), k) == ReceivedAt(rs, k) - IssuedAt(os, k)
  {
    ApplyKeys(Postings(rs, os));
    ApplyAt(Postings(rs, os), k);
    PostingsAt(rs, os, k);
  }

  /** A key has an entry exactly when some counted row has it, and the entry's
      unit is that of the first receipt for the key, or, when there is none,
      of the first out row (whose qty then starts negative). */
  lemma StockEntryUnit(rs: seq<Receipt>, os: seq<OutRow>, k: Key)
    ensures var es := Stock(rs, os); var i := Find(es, k);
      && (i >= 0 <==> FirstReceiptUnit(rs, k).Some? || FirstOutUnit(os, k).Some?)
      && (i >= 0 && FirstReceiptUnit(rs, k).Some? ==> es[i].unit == FirstReceiptUnit(rs, k).value)
      && (i >= 0 && FirstReceiptUnit(rs, k).None? ==> es[i].unit == FirstOutUnit(os, k).value)
  {
    ApplyAt(Postings(rs, os), k);
    PostingsAt(rs, os, k);
  }

  /** An out row whose key has no entry yet opens one with the negated qty. */
  lemma OutWithoutReceipt(k: Key, o: OutRow)
    requires OutKey(o) == Some(k)
    ensures Stock([], [o]) == [Entry(k, -NumberOrZero(o.qty), UnitOr(o.unit))]
  {
    assert [o][..0] == [];
    assert Postings([], [o]) == [] + [Posting(k, -NumberOrZero(o.qty), UnitOr(o.unit))];
    ApplySnoc([], Posting(k, -NumberOrZero(o.qty), UnitOr(o.unit)));
  }

  // ---------- grouping by product name ----------

  function LocationOf(e: Entry): Location
  {
    Location(e.key.zone, e.key.channel, e.qty, e.unit)
  }

  /** `productMap.get(name)`: the position of the product named `name`, or -1. */
  function FindProduct(ps: seq<Product>, name: string): (i: int)
    ensures -1 <= i < |ps|
    ensures i >= 0 ==> ps[i].name == name
    ensures i < 0 <==> forall j :: 0 <= j < |ps| ==> ps[j].name != name
  {
    if ps == [] then -1
    else if ps[0].name == name then 0
    else
      var j := FindProduct(ps[1..], name);
      if j < 0 then -1 else j + 1
  }

  /** The `productMap` values after the grouping loop over `es`. */
  function Group(es: seq<Entry>): seq<Product>
  {
    if es == [] then []
    else
      var ps := Group(es[..|es| - 1]);
      var e := es[|es| - 1];
      if e.qty <= 0.0 then ps
      else
        var i := FindProduct(ps, e.key.name);
        if i >= 0 then ps[i := ps[i].(locations := ps[i].locations + [LocationOf(e)])]
        else ps + [Product(e.key.name, e.key.name, "", [LocationOf(e)])]
  }

  /** The grouping loop of `loadData` (Map.tsx). */
  method GroupByName(stock: seq<Entry>) returns (products: seq<Product>)
    ensures products == Group(stock)
  {
    products := [];
    for i := 0 to |stock|
      invariant products == Group(stock[..i])
    {
      assert stock[..i + 1][..i] == stock[..i];
      var entry := stock[i];
      if entry.qty <= 0.0 {
        continue;
      }
      var loc := LocationOf(entry);
      var existing := FindProduct(products, entry.key.name);
      if existing >= 0 {
        products := products[existing := products[existing].(locations := products[existing].locations + [loc])];
      } else {
        products := products + [Product(entry.key.name, entry.key.name, "", [loc])];
      }
    }
    assert stock[..|stock|] == stock;
  }

  /** `loadData` (Map.tsx) on the fetched rows. */
  method LoadData(receipts: seq<Receipt>, outs: seq<OutRow>) returns (products: seq<Product>)
    ensures products == Group(Stock(receipts, outs))
  {
    var stock := PostReceipts(receipts);
    stock := PostOuts(stock, receipts, outs);
    products := GroupByName(stock);
  }

  /** The locations of the positive entries named `name`, in map order. */
  function LocationsNamed(es: seq<Entry>, name: string): seq<Location>
  {
    if es == [] then []
    else
      var e := es[|es| - 1];
      LocationsNamed(es[..|es| - 1], name) + (if e.key.name == name && e.qty > 0.0 then [LocationOf(e)] else [])
  }

  predicate NamesDistinct(ps: seq<Product>)
  {
    forall i, j :: 0 <= i < j < |ps| ==> ps[i].name != ps[j].name
  }

  /** How one grouping step changes the product positions by name. */
  lemma GroupStep(ps: seq<Product>, e: Entry, name: string)
    requires e.qty > 0.0
    ensures var i := FindProduct(ps, e.key.name);
      var ps2 := if i >= 0 then ps[i := ps[i].(locations := ps[i].locations + [LocationOf(e)])]
        else ps + [Product(e.key.name, e.key.name, "", [LocationOf(e)])];
      && (FindProduct(ps2, name) >= 0 <==> FindProduct(ps, name) >= 0 || name == e.key.name)
      && (i >= 0 ==> forall j :: 0 <= j < |ps| ==> ps2[j].name == ps[j].name)
  {
    var i := FindProduct(ps, e.key.name);
    if i >= 0 {
      var ps2 := ps[i := ps[i].(locations := ps[i].locations + [LocationOf(e)])];
      FindProductSameNames(ps, ps2, name);
    } else {
      FindProductAppend(ps, Product(e.key.name, e.key.name, "", [LocationOf(e)]), name);
    }
  }

  /** One product per name that has a positive entry and none for other
      names. */
  lemma {:induction false} GroupNames(es: seq<Entry>, name: string)
    ensures NamesDistinct(Group(es))
    ensures FindProduct(Group(es), name) >= 0 <==> LocationsNamed(es, name) != []
  {
    if es != [] {
      var e := es[|es| - 1];
      GroupNames(es[..|es| - 1], name);
      if e.qty > 0.0 {
        GroupStep(Group(es[..|es| - 1]), e, name);
        GroupNames(es[..|es| - 1], e.key.name);
      }
    }
  }

  /** Each product's id is its name, its image is blank, and its locations
      are exactly the positive entries of that name, in map order. */
  lemma {:induction false} GroupProducts(es: seq<Entry>)
    ensures forall i :: 0 <= i < |Group(es)| ==>
      && Group(es)[i].id == Group(es)[i].name
      && Group(es)[i].img == ""
      && Group(es)[i].locations == LocationsNamed(es, Group(es)[i].name)
  {
    if es != [] {
      var init := es[..|es| - 1];
      var e := es[|es| - 1];
      GroupProducts(init);
      if e.qty > 0.0 {
        GroupNames(init, e.key.name);
        GroupNames(es, e.key.name);
        var ps := Group(init);
        var i := FindProduct(ps, e.key.name);
        if i >= 0 {
          GroupStep(ps, e, e.key.name);
        }
      }
    }
  }

  lemma {:induction false} FindProductSameNames(a: seq<Product>, b: seq<Product>, name: string)
    requires |a| == |b| && forall j :: 0 <= j < |a| ==> a[j].name == b[j].name
    ensures FindProduct(a, name) == FindProduct(b, name)
  {
    if a != [] {
      FindProductSameNames(a[1..], b[1..], name);
    }
  }

  lemma {:induction false} FindProductAppend(a: seq<Product>, p: Product, name: string)
    ensures FindProduct(a + [p], name) ==
      if FindProduct(a, name) >= 0 then FindProduct(a, name) else if p.name == name then |a| else -1
  {
    if a != [] {
      assert (a + [p])[1..] == a[1..] + [p];
      FindProductAppend(a[1..], p, name);
    }
  }

  lemma {:induction false} LocationsNamedPositive(es: seq<Entry>, name: string)
    ensures forall l :: l in LocationsNamed(es, name) ==> l.qty > 0.0
  {
    if es != [] {
      LocationsNamedPositive(es[..|es| - 1], name);
    }
  }

  // ---------- totals, search and alternates ----------

  /** `totalQty(p)` (Map.tsx): the sum of the location quantities. */
  function TotalQty(p: Product): real
  {
    SumQty(p.locations)
  }

  function SumQty(ls: seq<Location>): real
  {
    if ls == [] then 0.0 else SumQty(ls[..|ls| - 1]) + ls[|ls| - 1].qty
  }

  lemma {:induction false} SumQtyPositive(ls: seq<Location>)
    requires ls != [] && forall l :: l in ls ==> l.qty > 0.0
    ensures SumQty(ls) > 0.0
  {
    var init := ls[..|ls| - 1];
    if init != [] {
      assert forall l :: l in init ==> l in ls;
      SumQtyPositive(init);
    }
  }

  /** Every product built by `loadData` has only positive locations and a
      positive total. */
  lemma LoadedProductsPositive(rs: seq<Receipt>, os: seq<OutRow>, i: int)
    requires 0 <= i < |Group(Stock(rs, os))|
    ensures var p := Group(Stock(rs, os))[i];
      (forall l :: l in p.locations ==> l.qty > 0.0) && TotalQty(p) > 0.0
  {
    var es := Stock(rs, os);
    GroupProducts(es);
    var p := Group(es)[i];
    GroupNames(es, p.name);
    LocationsNamedPositive(es, p.name);
    assert FindProduct(Group(es), p.name) >= 0;
    SumQtyPositive(p.locations);
  }

  /** The `SearchPage` results (Map.tsx): none for a blank query, else the
      products whose lower-cased name contains the trimmed, lower-cased query,
      in order. */
  function SearchResults(products: seq<Product>, query: string): (r: seq<Product>)
    ensures Lower(Trim(query)) == "" ==> r == []
    ensures Lower(Trim(query)) != "" ==> forall p :: p in r <==> p in products && Contains(Lower(p.name), Lower(Trim(query)))
  {
    var q := Lower(Trim(query));
    if q == "" then [] else Seqs.Filter(products, (x: Product) => Contains(Lower(x.name), q))
  }

  lemma SearchResultsInOrder(products: seq<Product>, query: string)
    ensures Seqs.IsSubsequence(SearchResults(products, query), products)
  {
    var q := Lower(Trim(query));
    if q != "" {
      Seqs.FilterIsSubsequence(products, (x: Product) => Contains(Lower(x.name), q));
    }
  }

  /** The other-locations list of `MapView` (Map.tsx): the product's
      locations except those at the shown zone and channel. */
  function Alternates(p: Product, at: Location): (r: seq<Location>)
    ensures forall l :: l in r <==> l in p.locations && (l.zone != at.zone || l.channel != at.channel)
  {
    Seqs.Filter(p.locations, (l: Location) => l.zone != at.zone || l.channel != at.channel)
  }

  lemma AlternatesInOrder(p: Product, at: Location)
    ensures Seqs.IsSubsequence(Alternates(p, at), p.locations)
  {
    Seqs.FilterIsSubsequence(p.locations, (l: Location) => l.zone != at.zone || l.channel != at.channel);
  }

  // ---------- the string key ----------

  /** The map key as the page writes it: `${name}|${zone}|${channel}`. */
  function StringKey(k: Key): string
  {
    k.name + "|" + k.zone + "|" + k.channel
  }

  /** Two different locations share one string key when a name or a zone
      contains `|`, so their rows post to one entry. */
  lemma StringKeyCollision()
    ensures Key("a|b", "c", "1") != Key("a", "b|c", "1")
    ensures StringKey(Key("a|b", "c", "1")) == StringKey(Key("a", "b|c", "1"))
  {
    assert StringKey(Key("a|b", "c", "1")) == "a|b|c|1";
    assert StringKey(Key("a", "b|c", "1")) == "a|b|c|1";
  }

  /** The position of the first `|` in `s`, or `|s|`. */
  function BarIndex(s: string): nat
  {
    if s == "" || s[0] == '|' then 0 else 1 + BarIndex(s[1..])
  }

  lemma {:induction false} BarIndexAfter(n: string, rest: string)
    requires '|' !in n
    ensures BarIndex(n + "|" + rest) == |n|
  {
    if n != "" {
      assert (n + "|" + rest)[1..] == n[1..] + "|" + rest;
      BarIndexAfter(n[1..], rest);
    }
  }

  lemma SplitAtBar(n1: string, rest1: string, n2: string, rest2: string)
    requires '|' !in n1 && '|' !in n2
    requires n1 + "|" + rest1 == n2 + "|" + rest2
    ensures n1 == n2 && rest1 == rest2
  {
    var s := n1 + "|" + rest1;
    BarIndexAfter(n1, rest1);
    BarIndexAfter(n2, rest2);
    assert n1 == s[..|n1|];
    assert n2 == s[..|n2|];
    assert rest1 == s[|n1| + 1..];
    assert rest2 == s[|n2| + 1..];
  }

  /** Without `|` in names and zones the string key tells locations apart. */
  lemma StringKeyInjective(k1: Key, k2: Key)
    requires '|' !in k1.name && '|' !in k2.name && '|' !in k1.zone && '|' !in k2.zone
    requires StringKey(k1) == StringKey(k2)
    ensures k1 == k2
  {
    assert StringKey(k1) == k1.name + "|" + (k1.zone + "|" + k1.channel);
    assert StringKey(k2) == k2.name + "|" + (k2.zone + "|" + k2.channel);
    SplitAtBar(k1.name, k1.zone + "|" + k1.channel, k2.name, k2.zone + "|" + k2.channel);
    SplitAtBar(k1.zone, k1.channel, k2.zone, k2.channel);
  }

  // ---------- the stock map as written: keyed by the string ----------

  /** `stockMap.get(key)` as the page does it: the entry whose string key
      equals that of `k`, or -1. */
  function FindAsWritten(es: seq<Entry>, k: Key): (i: int)
    ensures -1 <= i < |es|
    ensures i >= 0 ==> StringKey(es[i].key) == StringKey(k)
    ensures i < 0 <==> forall j :: 0 <= j < |es| ==> StringKey(es[j].key) != StringKey(k)
  {
    if es == [] then -1
    else if StringKey(es[0].key) == StringKey(k) then 0
    else
      var j := FindAsWritten(es[1..], k);
      if j < 0 then -1 else j + 1
  }

  /** One posting as the page applies it: an entry found by string key takes
      the delta, else a new entry with the row's own name, zone and channel. */
  function PostAsWritten(es: seq<Entry>, p: Posting): seq<Entry>
  {
    var i := FindAsWritten(es, p.key);
    if i >= 0 then es[i := es[i].(qty := es[i].qty + p.delta)]
    else es + [Entry(p.key, p.delta, p.unit)]
  }

  function ApplyAsWritten(ps: seq<Posting>): seq<Entry>
  {
    if ps == [] then [] else PostAsWritten(ApplyAsWritten(ps[..|ps| - 1]), ps[|ps| - 1])
  }

  /** The `stockMap` values after both loops of `loadData` as written. */
  function StockAsWritten(rs: seq<Receipt>, os: seq<OutRow>): seq<Entry>
  {
    ApplyAsWritten(Postings(rs, os))
  }

  /** The two colliding slots of `StringKeyCollision`, one unit received at
      each: the page keeps one entry holding 2 under the first slot, where
      the model keeps one per slot. */
  lemma StockAsWrittenMerges()
    ensures var ps := [Posting(Key("a|b", "c", "1"), 1.0, DefaultUnit), Posting(Key("a", "b|c", "1"), 1.0, DefaultUnit)];
      && ApplyAsWritten(ps) == [Entry(Key("a|b", "c", "1"), 2.0, DefaultUnit)]
      && Apply(ps) == [Entry(Key("a|b", "c", "1"), 1.0, DefaultUnit), Entry(Key("a", "b|c", "1"), 1.0, DefaultUnit)]
  {
    var k1, k2 := Key("a|b", "c", "1"), Key("a", "b|c", "1");
    var ps := [Posting(k1, 1.0, DefaultUnit), Posting(k2, 1.0, DefaultUnit)];
    StringKeyCollision();
    assert ps[..1][..0] == [];
    assert ps[..1] == [ps[0]];
    assert ApplyAsWritten(ps[..1]) == [Entry(k1, 1.0, DefaultUnit)];
    assert Apply(ps[..1]) == [Entry(k1, 1.0, DefaultUnit)];
    assert FindAsWritten([Entry(k1, 1.0, DefaultUnit)], k2) == 0;
    assert Find([Entry(k1, 1.0, DefaultUnit)], k2) == -1;
  }

  /** Neither the name nor the zone holds a `|`. */
  predicate BarFree(k: Key)
  {
    '|' !in k.name && '|' !in k.zone
  }

  predicate AllBarFree(es: seq<Entry>)
  {
    forall j :: 0 <= j < |es| ==> BarFree(es[j].key)
  }

  lemma {:induction false} FindAgrees(es: seq<Entry>, k: Key)
    requires BarFree(k) && AllBarFree(es)
    ensures FindAsWritten(es, k) == Find(es, k)
  {
    if es != [] {
      if StringKey(es[0].key) == StringKey(k) {
        StringKeyInjective(es[0].key, k);
      }
      FindAgrees(es[1..], k);
    }
  }

  predicate PostingsBarFreeIn(ps: seq<Posting>)
  {
    forall p :: p in ps ==> BarFree(p.key)
  }

  lemma PostBarFree(es: seq<Entry>, p: Posting)
    requires AllBarFree(es) && BarFree(p.key)
    ensures AllBarFree(Post(es, p))
  {
  }

  lemma {:induction false} ApplyAgrees(ps: seq<Posting>)
    requires PostingsBarFreeIn(ps)
    ensures ApplyAsWritten(ps) == Apply(ps)
    ensures AllBarFree(Apply(ps))
  {
    if ps != [] {
      var init := ps[..|ps| - 1];
      var p := ps[|ps| - 1];
      assert p in ps;
      assert forall x :: x in init ==> x in ps;
      ApplyAgrees(init);
      FindAgrees(Apply(init), p.key);
      PostAgrees(Apply(init), p);
      PostBarFree(Apply(init), p);
      assert ApplyAsWritten(ps) == PostAsWritten(ApplyAsWritten(init), p);
      assert Apply(ps) == Post(Apply(init), p);
    }
  }

  lemma PostAgrees(es: seq<Entry>, p: Posting)
    requires FindAsWritten(es, p.key) == Find(es, p.key)
    ensures PostAsWritten(es, p) == Post(es, p)
  {
  }

  lemma TrimBarFree(s: string)
    requires '|' !in s
    ensures '|' !in Trim(s)
  {
    var a := TrimIsSlice(s);
    assert forall c :: c in Trim(s) ==> c in s;
  }

  /** The receipts and out rows name no slot with a `|` in its name or zone. */
  predicate RowsBarFree(rs: seq<Receipt>, os: seq<OutRow>)
  {
    && (forall r :: r in rs ==> '|' !in r.productName && '|' !in r.name && '|' !in r.zone)
    && (forall o :: o in os ==> '|' !in o.itemName && '|' !in o.zone)
  }

  lemma TailBarFree(ps: seq<Posting>, p: Option<Posting>)
    requires PostingsBarFreeIn(ps) && (p.Some? ==> BarFree(p.value.key))
    ensures PostingsBarFreeIn(ps + (if p.Some? then [p.value] else []))
  {
  }

  lemma ReceiptPostingBarFree(r: Receipt)
    requires '|' !in r.productName && '|' !in r.name && '|' !in r.zone
    ensures ReceiptPosting(r).Some? ==> BarFree(ReceiptPosting(r).value.key)
  {
    var pName := if r.productName != "" then r.productName else r.name;
    TrimBarFree(pName);
    if ReceiptKey(r).Some? {
      assert ReceiptKey(r).value == Key(Trim(pName), r.zone, r.channel.value);
    }
  }

  lemma {:induction false} ReceiptPostingsBarFree(rs: seq<Receipt>)
    requires RowsBarFree(rs, [])
    ensures PostingsBarFreeIn(ReceiptPostings(rs))
  {
    if rs != [] {
      var r := rs[|rs| - 1];
      var init := rs[..|rs| - 1];
      assert r in rs;
      assert forall x :: x in init ==> x in rs;
      ReceiptPostingsBarFree(init);
      ReceiptPostingBarFree(r);
      TailBarFree(ReceiptPostings(init), ReceiptPosting(r));
      var p := ReceiptPosting(r);
      assert ReceiptPostings(rs) == ReceiptPostings(init) + (if p.Some? then [p.value] else []);
    }
  }

  lemma {:induction false} PostingsBarFree(rs: seq<Receipt>, os: seq<OutRow>)
    requires RowsBarFree(rs, os)
    ensures PostingsBarFreeIn(Postings(rs, os))
  {
    if os == [] {
      ReceiptPostingsBarFree(rs);
    } else {
      var o := os[|os| - 1];
      var init := os[..|os| - 1];
      assert o in os;
      assert forall x :: x in init ==> x in os;
      PostingsBarFree(rs, init);
      TrimBarFree(o.itemName);
      TailBarFree(Postings(rs, init), OutPosting(o));
      var p := OutPosting(o);
      assert Postings(rs, os) == Postings(rs, init) + (if p.Some? then [p.value] else []);
    }
  }

  /** When no row has a `|` in its name or zone, the page's string-keyed
      map is the map of the model, entry for entry. */
  lemma StockAsWrittenAgrees(rs: seq<Receipt>, os: seq<OutRow>)
    requires RowsBarFree(rs, os)
    ensures StockAsWritten(rs, os) == Stock(rs, os)
  {
    PostingsBarFree(rs, os);
    ApplyAgrees(Postings(rs, os));
  }
}
