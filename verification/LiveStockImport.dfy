/** Importing the audited packages in one transaction and reading them back. */
module LiveStockImport {
  import opened Base
  import opened LiveStockBuild

  const WAREHOUSE := 8

  datatype Line = Line(model: nat, size: string, quantity: int)
  datatype StockLine = StockLine(line: Line, available: int, reserved: int, sold: int, status: string)
  datatype Alias = Alias(code: string, kind: string)
  datatype Scan = Scan(kind: string, user: nat)

  /** The evidence of one source row: its checksum and the row itself. */
  datatype Receipt = Receipt(id: nat, record: string, checksum: string, payload: Package)
  datatype Stored = Stored(id: nat, receipt: nat, no: string, barcode: string, total: int, warehouse: nat, status: string, weight: Option<real>)

  /** A row that hangs on a package. */
  datatype Child<T> = Child(package: nat, data: T)

  datatype Tables = Tables(receipts: seq<Receipt>, packages: seq<Stored>, items: seq<Child<Line>>, stocks: seq<Child<StockLine>>,
                           aliases: seq<Child<Alias>>, scans: seq<Child<Scan>>)

  datatype Db = Db(tables: Tables, nextReceipt: nat, nextPackage: nat)

  /** The resolved models, the importing user and the checksum function. */
  datatype Inputs = Inputs(models: map<string, nat>, identity: Identity, importer: nat, checksum: Package -> string)

  function QrCode(qr: string): string { "uzerp_ii_" + qr + "_1" }
  function PackageNo(qr: string): string { "OLD-" + qr + "-1" }

  lemma {:induction false} CodesDiffer(a: string, b: string)
    ensures QrCode(a) == QrCode(b) ==> a == b
    ensures PackageNo(a) == PackageNo(b) ==> a == b
  {
    assert QrCode(a)[9..9 + |a|] == a && QrCode(b)[9..9 + |b|] == b;
    assert PackageNo(a)[4..4 + |a|] == a && PackageNo(b)[4..4 + |b|] == b;
  }

  function ModelOf(inp: Inputs, k: ItemKey): nat { if inp.identity(k) in inp.models then inp.models[inp.identity(k)] else 0 }

  function LinesOf(inp: Inputs, items: seq<Item>): (r: seq<Line>)
    ensures |r| == |items|
  {
    if items == [] then []
    else
      var i := items[|items| - 1];
      LinesOf(inp, items[..|items| - 1]) + [Line(ModelOf(inp, i.key), i.key.size, i.quantity)]
  }

  /** The line of an item: the model its identity resolves to, its size, its pieces. */
  predicate LineFor(inp: Inputs, item: Item, line: Line)
  {
    && line.size == item.key.size && line.quantity == item.quantity
    && (inp.identity(item.key) in inp.models ==> line.model == inp.models[inp.identity(item.key)])
  }

  lemma {:induction false} LinesAre(inp: Inputs, items: seq<Item>)
    ensures forall i :: 0 <= i < |items| ==> LineFor(inp, items[i], LinesOf(inp, items)[i])
  {
    if items != [] {
      var l := |items| - 1;
      LinesAre(inp, items[..l]);
      assert LinesOf(inp, items)[..l] == LinesOf(inp, items[..l]);
    }
  }

  function Attach<T>(p: nat, data: seq<T>): (r: seq<Child<T>>)
    ensures |r| == |data| && forall i :: 0 <= i < |r| ==> r[i] == Child(p, data[i])
  {
    if data == [] then [] else Attach(p, data[..|data| - 1]) + [Child(p, data[|data| - 1])]
  }

  function FullStock(lines: seq<Line>): (r: seq<StockLine>)
    ensures |r| == |lines| && forall i :: 0 <= i < |r| ==> r[i] == StockLine(lines[i], lines[i].quantity, 0, 0, "available")
  {
    if lines == [] then [] else FullStock(lines[..|lines| - 1]) + [StockLine(lines[|lines| - 1], lines[|lines| - 1].quantity, 0, 0, "available")]
  }

  // ----- the import -----

  /** The unique constraints of the target: record ids, package numbers, barcodes. */
  predicate Taken(t: Tables, row: Package)
  {
    (exists i :: 0 <= i < |t.receipts| && t.receipts[i].record == row.qr) ||
    (exists i :: 0 <= i < |t.packages| && (t.packages[i].no == PackageNo(row.qr) || t.packages[i].barcode == QrCode(row.qr)))
  }

  function NewReceipt(inp: Inputs, db: Db, row: Package): Receipt { Receipt(db.nextReceipt, row.qr, inp.checksum(row), row) }

  function NewPackage(db: Db, row: Package): Stored
  {
    Stored(db.nextPackage, db.nextReceipt, PackageNo(row.qr), QrCode(row.qr), row.quantity, WAREHOUSE, "received_in_storage", None)
  }

  function Added(inp: Inputs, db: Db, row: Package, t: Tables): Tables
  {
    var lines := LinesOf(inp, row.items);
    Tables(t.receipts + [NewReceipt(inp, db, row)], t.packages + [NewPackage(db, row)],
           t.items + Attach(db.nextPackage, lines), t.stocks + Attach(db.nextPackage, FullStock(lines)),
           t.aliases + [Child(db.nextPackage, Alias(row.qr, "legacy_external_qr"))],
           t.scans + [Child(db.nextPackage, Scan("legacy_live_stock_import", inp.importer))])
  }

  function ImportRow(inp: Inputs, db: Db, row: Package): Option<Db>
  {
    if Taken(db.tables, row) then None
    else Some(Db(Added(inp, db, row, db.tables), db.nextReceipt + 1, db.nextPackage + 1))
  }

  function ImportRows(inp: Inputs, db: Db, rows: seq<Package>): Option<Db>
  {
    if rows == [] then Some(db)
    else
      var before := ImportRows(inp, db, rows[..|rows| - 1]);
      if before.None? then None else ImportRow(inp, before.value, rows[|rows| - 1])
  }

  /** The rows one package adds, under the ids it is given. */
  ghost predicate RowAdded(inp: Inputs, t: Tables, row: Package, receipt: nat, package: nat)
  {
    && Receipt(receipt, row.qr, inp.checksum(row), row) in t.receipts
    && Stored(package, receipt, "OLD-" + row.qr + "-1", "uzerp_ii_" + row.qr + "_1", row.quantity, 8, "received_in_storage", None) in t.packages
    && Child(package, Alias(row.qr, "legacy_external_qr")) in t.aliases && Child(package, Scan("legacy_live_stock_import", inp.importer)) in t.scans
    && forall k :: 0 <= k < |row.items| ==> ItemAdded(inp, t, row.items[k], package)
  }

  ghost predicate ItemAdded(inp: Inputs, t: Tables, item: Item, package: nat)
  {
    exists line :: LineFor(inp, item, line) && Child(package, line) in t.items
      && Child(package, StockLine(line, item.quantity, 0, 0, "available")) in t.stocks
  }

  /** Everything that was there before still is. */
  ghost predicate Extends(u: Tables, t: Tables)
  {
    t.receipts <= u.receipts && t.packages <= u.packages && t.items <= u.items && t.stocks <= u.stocks && t.aliases <= u.aliases && t.scans <= u.scans
  }

  lemma {:induction false} OneRowAdded(inp: Inputs, db: Db, row: Package, t: Tables)
    ensures var u := Added(inp, db, row, t); Extends(u, t) && RowAdded(inp, u, row, db.nextReceipt, db.nextPackage)
  {
    var u, p, lines := Added(inp, db, row, t), db.nextPackage, LinesOf(inp, row.items);
    LinesAre(inp, row.items);
    hide LinesOf, LineFor;
    assert u.receipts[|t.receipts|] == NewReceipt(inp, db, row) && u.packages[|t.packages|] == NewPackage(db, row);
    assert u.aliases[|t.aliases|] == Child(p, Alias(row.qr, "legacy_external_qr")) && u.scans[|t.scans|] == Child(p, Scan("legacy_live_stock_import", inp.importer));
    forall k | 0 <= k < |row.items| ensures ItemAdded(inp, u, row.items[k], p) {
      ItemOfRow(inp, row, k, lines, u, t, p);
    }
  }

  lemma {:induction false} ItemOfRow(inp: Inputs, row: Package, k: nat, lines: seq<Line>, u: Tables, t: Tables, p: nat)
    requires k < |row.items| == |lines| && LineFor(inp, row.items[k], lines[k])
    requires u.items == t.items + Attach(p, lines) && u.stocks == t.stocks + Attach(p, FullStock(lines))
    ensures ItemAdded(inp, u, row.items[k], p)
  {
    assert u.items[|t.items| + k] == Child(p, lines[k]);
    assert u.stocks[|t.stocks| + k] == Child(p, StockLine(lines[k], lines[k].quantity, 0, 0, "available"));
  }

  lemma {:induction false} StillAdded(inp: Inputs, t: Tables, u: Tables, row: Package, receipt: nat, package: nat)
    requires RowAdded(inp, t, row, receipt, package) && Extends(u, t)
    ensures RowAdded(inp, u, row, receipt, package)
  {
    assert forall x :: x in t.receipts ==> x in u.receipts;
    assert forall x :: x in t.packages ==> x in u.packages;
    assert forall x :: x in t.items ==> x in u.items;
    assert forall x :: x in t.stocks ==> x in u.stocks;
    assert forall x :: x in t.aliases ==> x in u.aliases;
    assert forall x :: x in t.scans ==> x in u.scans;
    forall k | 0 <= k < |row.items| ensures ItemAdded(inp, u, row.items[k], package) {
      assert ItemAdded(inp, t, row.items[k], package);
      hide LineFor;
    }
  }

  /** Nothing but `n` rows with so many items has been added. */
  ghost predicate Grown(u: Tables, t: Tables, n: nat, items: nat)
  {
    && Extends(u, t)
    && |u.receipts| == |t.receipts| + n && |u.packages| == |t.packages| + n
    && |u.items| == |t.items| + items && |u.stocks| == |t.stocks| + items
    && |u.aliases| == |t.aliases| + n && |u.scans| == |t.scans| + n
  }

  lemma {:induction false} GrownStep(inp: Inputs, db: Db, row: Package, mid: Tables, t: Tables, n: nat, items: nat)
    requires Grown(mid, t, n, items)
    ensures Grown(Added(inp, db, row, mid), t, n + 1, items + |row.items|)
  {
    hide LinesOf;
  }

  /** Every row has been added, under consecutive ids. */
  ghost predicate AllRowsAdded(inp: Inputs, t: Tables, rows: seq<Package>, receipt: nat, package: nat)
  {
    forall i :: 0 <= i < |rows| ==> RowAdded(inp, t, rows[i], receipt + i, package + i)
  }

  lemma {:induction false} OneMoreAdded(inp: Inputs, t: Tables, u: Tables, rows: seq<Package>, receipt: nat, package: nat)
    requires rows != [] && AllRowsAdded(inp, t, rows[..|rows| - 1], receipt, package) && Extends(u, t)
    requires RowAdded(inp, u, rows[|rows| - 1], receipt + |rows| - 1, package + |rows| - 1)
    ensures AllRowsAdded(inp, u, rows, receipt, package)
  {
    hide RowAdded, Extends;
    forall i | 0 <= i < |rows| ensures RowAdded(inp, u, rows[i], receipt + i, package + i) {
      if i < |rows| - 1 {
        assert RowAdded(inp, t, rows[..|rows| - 1][i], receipt + i, package + i);
        StillAdded(inp, t, u, rows[i], receipt + i, package + i);
      }
    }
  }

  ghost predicate ImportedAs(inp: Inputs, db: Db, rows: seq<Package>, after: Db)
  {
    && after.nextReceipt == db.nextReceipt + |rows| && after.nextPackage == db.nextPackage + |rows|
    && Grown(after.tables, db.tables, |rows|, ItemCount(rows))
    && AllRowsAdded(inp, after.tables, rows, db.nextReceipt, db.nextPackage)
  }

  lemma {:induction false} ImportedStep(inp: Inputs, db: Db, rows: seq<Package>, mid: Db)
    requires rows != [] && ImportedAs(inp, db, rows[..|rows| - 1], mid)
    ensures ImportedAs(inp, db, rows, Db(Added(inp, mid, rows[|rows| - 1], mid.tables), mid.nextReceipt + 1, mid.nextPackage + 1))
  {
    var l := |rows| - 1;
    hide RowAdded, Added, Extends, Grown, AllRowsAdded;
    OneRowAdded(inp, mid, rows[l], mid.tables);
    GrownStep(inp, mid, rows[l], mid.tables, db.tables, l, ItemCount(rows[..l]));
    OneMoreAdded(inp, mid.tables, Added(inp, mid, rows[l], mid.tables), rows, db.nextReceipt, db.nextPackage);
  }

  /** An import adds every row under the next ids in order, on the model of each item, and
      nothing else: the rest is untouched, and the new rows are counted. */
  lemma {:induction false} ImportedExactly(inp: Inputs, db: Db, rows: seq<Package>)
    requires ImportRows(inp, db, rows).Some?
    ensures ImportedAs(inp, db, rows, ImportRows(inp, db, rows).value)
  {
    if rows != [] {
      hide ImportedAs, Added, Taken;
      ImportedExactly(inp, db, rows[..|rows| - 1]);
      ImportedStep(inp, db, rows, ImportRows(inp, db, rows[..|rows| - 1]).value);
    }
  }

  // ----- reading back -----

  predicate Wanted(rows: seq<Package>, record: string) { exists i :: 0 <= i < |rows| && rows[i].qr == record }

  function WantedReceipts(receipts: seq<Receipt>, rows: seq<Package>): seq<Receipt>
  {
    if receipts == [] then []
    else
      var l := |receipts| - 1;
      WantedReceipts(receipts[..l], rows) + if Wanted(rows, receipts[l].record) then [receipts[l]] else []
  }

  function IdsOf(receipts: seq<Receipt>): set<nat> { set r | r in receipts :: r.id }

  function PackagesOn(packages: seq<Stored>, receipts: set<nat>): seq<Stored>
  {
    if packages == [] then []
    else
      var l := |packages| - 1;
      PackagesOn(packages[..l], receipts) + if packages[l].receipt in receipts then [packages[l]] else []
  }

  function PackageIds(packages: seq<Stored>): set<nat> { set p | p in packages :: p.id }

  function ChildrenOn<T>(children: seq<Child<T>>, packages: set<nat>): seq<Child<T>>
  {
    if children == [] then []
    else
      var l := |children| - 1;
      ChildrenOn(children[..l], packages) + if children[l].package in packages then [children[l]] else []
  }

  /** What the queries of the readback return. */
  function ViewOf(t: Tables, rows: seq<Package>): Tables
  {
    var receipts := WantedReceipts(t.receipts, rows);
    var packages := PackagesOn(t.packages, IdsOf(receipts));
    var ids := PackageIds(packages);
    Tables(receipts, packages, ChildrenOn(t.items, ids), ChildrenOn(t.stocks, ids), ChildrenOn(t.aliases, ids), ChildrenOn(t.scans, ids))
  }

  /** Dictionary lookups: the last entry wins. */
  function FindReceipt(receipts: seq<Receipt>, record: string): Option<Receipt>
  {
    if receipts == [] then None
    else if receipts[|receipts| - 1].record == record then Some(receipts[|receipts| - 1])
    else FindReceipt(receipts[..|receipts| - 1], record)
  }

  function FindPackage(packages: seq<Stored>, receipt: nat): Option<Stored>
  {
    if packages == [] then None
    else if packages[|packages| - 1].receipt == receipt then Some(packages[|packages| - 1])
    else FindPackage(packages[..|packages| - 1], receipt)
  }

  function DataOf<T>(children: seq<Child<T>>, package: nat): seq<T>
  {
    if children == [] then []
    else
      var l := |children| - 1;
      DataOf(children[..l], package) + if children[l].package == package then [children[l].data] else []
  }

  function LineOf(stocks: seq<StockLine>): (r: seq<Line>)
    ensures |r| == |stocks| && forall i :: 0 <= i < |r| ==> r[i] == stocks[i].line
  {
    if stocks == [] then [] else LineOf(stocks[..|stocks| - 1]) + [stocks[|stocks| - 1].line]
  }

  function ItemCount(rows: seq<Package>): nat
  {
    if rows == [] then 0 else ItemCount(rows[..|rows| - 1]) + |rows[|rows| - 1].items|
  }

  predicate CountsOk(v: Tables, rows: seq<Package>)
  {
    |v.receipts| == |rows| && |v.packages| == |rows| && |v.items| == ItemCount(rows) && |v.stocks| == ItemCount(rows)
    && |v.aliases| == |rows| && |v.scans| == |rows|
  }

  predicate PackageOk(p: Stored, row: Package)
  {
    p.no == PackageNo(row.qr) && p.barcode == QrCode(row.qr) && p.total == row.quantity && p.warehouse == WAREHOUSE
    && p.status == "received_in_storage" && p.weight.None?
  }

  predicate Untouched(s: StockLine) { s.available == s.line.quantity && s.reserved == 0 && s.sold == 0 && s.status == "available" }

  /** Sorted breakdowns are compared as multisets. */
  predicate BreakdownOk(inp: Inputs, items: seq<Line>, stocks: seq<StockLine>, row: Package)
  {
    && multiset(items) == multiset(LinesOf(inp, row.items)) && multiset(LineOf(stocks)) == multiset(LinesOf(inp, row.items))
    && forall i :: 0 <= i < |stocks| ==> Untouched(stocks[i])
  }

  predicate EvidenceOk(inp: Inputs, aliases: seq<Alias>, scans: seq<Scan>, row: Package)
  {
    && aliases != [] && aliases[|aliases| - 1] == Alias(row.qr, "legacy_external_qr")
    && scans != [] && scans[|scans| - 1] == Scan("legacy_live_stock_import", inp.importer)
  }

  predicate RowOk(inp: Inputs, v: Tables, row: Package)
  {
    var r := FindReceipt(v.receipts, row.qr);
    r.Some? && r.value.checksum == inp.checksum(row) && r.value.payload == row &&
    var p := FindPackage(v.packages, r.value.id);
    p.Some? && PackageOk(p.value, row)
    && BreakdownOk(inp, DataOf(v.items, p.value.id), DataOf(v.stocks, p.value.id), row)
    && EvidenceOk(inp, DataOf(v.aliases, p.value.id), DataOf(v.scans, p.value.id), row)
  }

  predicate Accepts(inp: Inputs, t: Tables, rows: seq<Package>)
  {
    CountsOk(ViewOf(t, rows), rows) && forall i :: 0 <= i < |rows| ==> RowOk(inp, ViewOf(t, rows), rows[i])
  }

  /** `readback` */
  method Readback(inp: Inputs, t: Tables, rows: seq<Package>) returns (ok: bool)
    ensures ok <==> Accepts(inp, t, rows)
  {
    hide RowOk, CountsOk, ViewOf;
    var v := ViewOf(t, rows);
    if !CountsOk(v, rows) { return false; }
    for i := 0 to |rows|
      invariant forall k :: 0 <= k < i ==> RowOk(inp, v, rows[k])
    {
      if !RowOk(inp, v, rows[i]) { return false; }
    }
    ok := true;
  }

  // ----- what acceptance means -----

  function Pieces(lines: seq<Line>): int
  {
    if lines == [] then 0 else Pieces(lines[..|lines| - 1]) + lines[|lines| - 1].quantity
  }

  function AvailableOf(stocks: seq<StockLine>): int
  {
    if stocks == [] then 0 else AvailableOf(stocks[..|stocks| - 1]) + stocks[|stocks| - 1].available
  }

  lemma {:induction false} PiecesRemove(lines: seq<Line>, i: nat)
    requires i < |lines|
    ensures Pieces(lines) == Pieces(lines[..i] + lines[i + 1..]) + lines[i].quantity
  {
    var l := |lines| - 1;
    if i == l {
      assert lines[..i] + lines[i + 1..] == lines[..l];
    } else {
      PiecesRemove(lines[..l], i);
      var without := lines[..i] + lines[i + 1..];
      assert without[..|without| - 1] == lines[..l][..i] + lines[..l][i + 1..];
      assert without[|without| - 1] == lines[l];
    }
  }

  lemma {:induction false} RemoveOne(a: seq<Line>, i: nat)
    requires i < |a|
    ensures multiset(a[..i] + a[i + 1..]) == multiset(a) - multiset{a[i]}
  {
    assert a == a[..i] + [a[i]] + a[i + 1..];
  }

  lemma {:induction false} PiecesUnordered(a: seq<Line>, b: seq<Line>)
    requires multiset(a) == multiset(b)
    ensures Pieces(a) == Pieces(b)
    decreases |a|
  {
    if a == [] {
      assert |multiset(b)| == 0;
    } else {
      var l := |a| - 1;
      assert a == a[..l] + [a[l]];
      assert a[l] in multiset(b);
      var i :| 0 <= i < |b| && b[i] == a[l];
      RemoveOne(a, l);
      RemoveOne(b, i);
      assert a[..l] + a[l + 1..] == a[..l];
      PiecesUnordered(a[..l], b[..i] + b[i + 1..]);
      PiecesRemove(b, i);
    }
  }

  lemma {:induction false} PiecesOfItems(inp: Inputs, items: seq<Item>)
    ensures Pieces(LinesOf(inp, items)) == ItemTotal(items)
  {
    if items != [] {
      var l := |items| - 1;
      PiecesOfItems(inp, items[..l]);
      var lines := LinesOf(inp, items);
      assert lines[..l] == LinesOf(inp, items[..l]);
    }
  }

  lemma {:induction false} AvailableIsPieces(stocks: seq<StockLine>)
    requires forall i :: 0 <= i < |stocks| ==> Untouched(stocks[i])
    ensures AvailableOf(stocks) == Pieces(LineOf(stocks))
  {
    if stocks != [] {
      var l := |stocks| - 1;
      AvailableIsPieces(stocks[..l]);
      var lines := LineOf(stocks);
      assert lines[..l] == LineOf(stocks[..l]);
    }
  }

  /** Whatever the readback accepts: the package of every row has the items of the row and
      the same stock, as multisets, and what is available adds up to the package total. */
  lemma {:induction false} AcceptedMeans(inp: Inputs, t: Tables, rows: seq<Package>, i: nat) returns (p: Stored)
    requires Accepts(inp, t, rows) && i < |rows| && ItemTotal(rows[i].items) == rows[i].quantity
    ensures p in t.packages && PackageOk(p, rows[i])
    ensures var v := ViewOf(t, rows);
      multiset(DataOf(v.items, p.id)) == multiset(LineOf(DataOf(v.stocks, p.id))) == multiset(LinesOf(inp, rows[i].items))
      && AvailableOf(DataOf(v.stocks, p.id)) == p.total == ItemTotal(rows[i].items)
  {
    var v := ViewOf(t, rows);
    var row := rows[i];
    assert RowOk(inp, v, row);
    var r := FindReceipt(v.receipts, row.qr);
    p := FindPackage(v.packages, r.value.id).value;
    FoundPackage(v.packages, r.value.id);
    PackagesAreStored(t.packages, IdsOf(v.receipts));
    var stocks := DataOf(v.stocks, p.id);
    hide ViewOf, DataOf, FindReceipt, FindPackage;
    AvailableIsPieces(stocks);
    PiecesUnordered(LineOf(stocks), LinesOf(inp, row.items));
    PiecesOfItems(inp, row.items);
  }

  lemma {:induction false} FoundPackage(packages: seq<Stored>, receipt: nat)
    ensures FindPackage(packages, receipt).Some? ==> FindPackage(packages, receipt).value in packages
  {
    if packages != [] { FoundPackage(packages[..|packages| - 1], receipt); }
  }

  lemma {:induction false} PackagesAreStored(packages: seq<Stored>, receipts: set<nat>)
    ensures forall p :: p in PackagesOn(packages, receipts) ==> p in packages
  {
    if packages != [] { PackagesAreStored(packages[..|packages| - 1], receipts); }
  }

  lemma {:induction false} DataIsStored<T(!new)>(children: seq<Child<T>>, ids: set<nat>, p: nat)
    ensures forall x :: x in DataOf(ChildrenOn(children, ids), p) ==> Child(p, x) in children
  {
    if children != [] {
      var l := |children| - 1;
      DataIsStored(children[..l], ids, p);
      var before := ChildrenOn(children[..l], ids);
      assert before + [] == before && (before + [children[l]])[..|before|] == before;
    }
  }

  lemma {:induction false} FoundAreFor(receipts: seq<Receipt>, packages: seq<Stored>, record: string, receipt: nat)
    ensures FindReceipt(receipts, record).Some? ==> FindReceipt(receipts, record).value in receipts && FindReceipt(receipts, record).value.record == record
    ensures FindPackage(packages, receipt).Some? ==> FindPackage(packages, receipt).value in packages && FindPackage(packages, receipt).value.receipt == receipt
    decreases |receipts| + |packages|
  {
    if receipts != [] { FoundAreFor(receipts[..|receipts| - 1], packages, record, receipt); }
    if packages != [] { FoundAreFor(receipts, packages[..|packages| - 1], record, receipt); }
  }

  lemma {:induction false} BreakdownHas(inp: Inputs, items: seq<Line>, stocks: seq<StockLine>, row: Package, k: nat)
    requires BreakdownOk(inp, items, stocks, row) && k < |row.items|
    ensures var line := LinesOf(inp, row.items)[k];
      LineFor(inp, row.items[k], line) && line in items && StockLine(line, row.items[k].quantity, 0, 0, "available") in stocks
  {
    LinesAre(inp, row.items);
    var lines := LinesOf(inp, row.items);
    var line := lines[k];
    assert line in multiset(lines);
    assert line in LineOf(stocks);
    var i :| 0 <= i < |LineOf(stocks)| && LineOf(stocks)[i] == line;
    assert Untouched(stocks[i]);
  }

  /** What the readback accepts holds every row as the import writes it: its receipt with
      checksum and payload, its package, every item and its stock on the right model, the alias
      and the scan. */
  lemma {:induction false} AcceptedHolds(inp: Inputs, t: Tables, rows: seq<Package>, i: nat) returns (receipt: nat, package: nat)
    requires Accepts(inp, t, rows) && i < |rows|
    ensures RowAdded(inp, t, rows[i], receipt, package)
  {
    var v, row := ViewOf(t, rows), rows[i];
    assert RowOk(inp, v, row);
    var r := FindReceipt(v.receipts, row.qr).value;
    receipt := r.id;
    FoundAreFor(v.receipts, v.packages, row.qr, receipt);
    var p := FindPackage(v.packages, receipt).value;
    package := p.id;
    WantedPart(t.receipts, rows);
    PackagesAreStored(t.packages, IdsOf(v.receipts));
    var ids := PackageIds(v.packages);
    DataIsStored(t.items, ids, package);
    DataIsStored(t.stocks, ids, package);
    DataIsStored(t.aliases, ids, package);
    DataIsStored(t.scans, ids, package);
    hide WantedReceipts, PackagesOn, ChildrenOn, DataOf, FindReceipt, FindPackage, BreakdownOk, LineFor;
    forall k | 0 <= k < |row.items| ensures ItemAdded(inp, t, row.items[k], package) {
      BreakdownHas(inp, DataOf(v.items, package), DataOf(v.stocks, package), row, k);
    }
  }

  // ----- an import is accepted -----

  ghost predicate Bounded<T(!new)>(children: seq<Child<T>>, next: nat) { forall c :: c in children ==> c.package < next }

  /** Ids are handed out in order, and references point to rows that exist. */
  ghost predicate Fresh(t: Tables, nextReceipt: nat, nextPackage: nat)
  {
    && (forall r :: r in t.receipts ==> r.id < nextReceipt)
    && (forall p :: p in t.packages ==> p.id < nextPackage && p.receipt < nextReceipt)
    && Bounded(t.items, nextPackage) && Bounded(t.stocks, nextPackage)
    && Bounded(t.aliases, nextPackage) && Bounded(t.scans, nextPackage)
  }

  lemma {:induction false} ChildrenOnAdded<T(!new)>(children: seq<Child<T>>, ids: set<nat>, p: nat, data: seq<T>)
    requires Bounded(children, p)
    ensures ChildrenOn(children + Attach(p, data), ids + {p}) == ChildrenOn(children, ids) + Attach(p, data)
  {
    if data != [] {
      var l := |data| - 1;
      ChildrenOnAdded(children, ids, p, data[..l]);
      var all := children + Attach(p, data);
      assert all[..|all| - 1] == children + Attach(p, data[..l]) by { assert Attach(p, data)[..l] == Attach(p, data[..l]); }
      assert all[|all| - 1] == Child(p, data[l]);
    } else {
      assert children + Attach(p, data) == children;
      ChildrenOnMore(children, ids, p);
    }
  }

  lemma {:induction false} ChildrenOnMore<T(!new)>(children: seq<Child<T>>, ids: set<nat>, p: nat)
    requires Bounded(children, p)
    ensures ChildrenOn(children, ids + {p}) == ChildrenOn(children, ids)
  {
    if children != [] {
      assert children[|children| - 1] in children;
      ChildrenOnMore(children[..|children| - 1], ids, p);
    }
  }

  lemma {:induction false} ChildrenOnPart<T(!new)>(children: seq<Child<T>>, ids: set<nat>, next: nat)
    requires Bounded(children, next)
    ensures Bounded(ChildrenOn(children, ids), next)
  {
    if children != [] {
      assert children[|children| - 1] in children;
      ChildrenOnPart(children[..|children| - 1], ids, next);
    }
  }

  lemma {:induction false} DataOfAdded<T(!new)>(children: seq<Child<T>>, p: nat, data: seq<T>, q: nat)
    requires Bounded(children, p)
    ensures q < p ==> DataOf(children + Attach(p, data), q) == DataOf(children, q)
    ensures q == p ==> DataOf(children + Attach(p, data), q) == data
  {
    if data != [] {
      var l := |data| - 1;
      DataOfAdded(children, p, data[..l], q);
      var all := children + Attach(p, data);
      assert all[..|all| - 1] == children + Attach(p, data[..l]) by { assert Attach(p, data)[..l] == Attach(p, data[..l]); }
      assert all[|all| - 1] == Child(p, data[l]);
      assert data == data[..l] + [data[l]];
    } else {
      assert children + Attach(p, data) == children;
      if q == p { NoData(children, p); }
    }
  }

  lemma {:induction false} NoData<T(!new)>(children: seq<Child<T>>, p: nat)
    requires Bounded(children, p)
    ensures DataOf(children, p) == []
  {
    if children != [] {
      assert children[|children| - 1] in children;
      NoData(children[..|children| - 1], p);
    }
  }

  lemma {:induction false} WantedMore(receipts: seq<Receipt>, rows: seq<Package>, row: Package)
    requires forall i :: 0 <= i < |receipts| ==> receipts[i].record != row.qr
    ensures WantedReceipts(receipts, rows + [row]) == WantedReceipts(receipts, rows)
  {
    if receipts != [] {
      var l := |receipts| - 1;
      WantedMore(receipts[..l], rows, row);
      WantedIff(rows, row, receipts[l].record);
    }
  }

  lemma {:induction false} WantedIff(rows: seq<Package>, row: Package, record: string)
    ensures Wanted(rows + [row], record) <==> Wanted(rows, record) || record == row.qr
  {
    var more := rows + [row];
    assert more[|rows|] == row;
    if Wanted(rows, record) {
      var i :| 0 <= i < |rows| && rows[i].qr == record;
      assert more[i].qr == record;
    }
  }

  lemma {:induction false} WantedPart(receipts: seq<Receipt>, rows: seq<Package>)
    ensures forall r :: r in WantedReceipts(receipts, rows) ==> r in receipts
  {
    if receipts != [] { WantedPart(receipts[..|receipts| - 1], rows); }
  }

  lemma {:induction false} PackagesOnMore(packages: seq<Stored>, receipts: set<nat>, next: nat)
    requires forall p :: p in packages ==> p.receipt < next
    ensures PackagesOn(packages, receipts + {next}) == PackagesOn(packages, receipts)
  {
    if packages != [] {
      assert packages[|packages| - 1] in packages;
      PackagesOnMore(packages[..|packages| - 1], receipts, next);
    }
  }

  lemma {:induction false} ReceiptsAdded(receipts: seq<Receipt>, rows: seq<Package>, row: Package, latest: Receipt)
    requires latest.record == row.qr && forall i :: 0 <= i < |receipts| ==> receipts[i].record != row.qr
    ensures WantedReceipts(receipts + [latest], rows + [row]) == WantedReceipts(receipts, rows) + [latest]
    ensures IdsOf(WantedReceipts(receipts, rows) + [latest]) == IdsOf(WantedReceipts(receipts, rows)) + {latest.id}
  {
    WantedMore(receipts, rows, row);
    WantedIff(rows, row, row.qr);
    hide Wanted;
    assert (receipts + [latest])[..|receipts|] == receipts;
    var found := WantedReceipts(receipts, rows);
    SameSet(IdsOf(found + [latest]), IdsOf(found) + {latest.id});
  }

  lemma {:induction false} PackagesAdded(packages: seq<Stored>, receipts: set<nat>, p: Stored)
    requires forall x :: x in packages ==> x.receipt < p.receipt
    ensures PackagesOn(packages + [p], receipts + {p.receipt}) == PackagesOn(packages, receipts) + [p]
    ensures PackageIds(PackagesOn(packages, receipts) + [p]) == PackageIds(PackagesOn(packages, receipts)) + {p.id}
  {
    PackagesOnMore(packages, receipts, p.receipt);
    assert (packages + [p])[..|packages|] == packages;
    var found := PackagesOn(packages, receipts);
    SameSet(PackageIds(found + [p]), PackageIds(found) + {p.id});
  }

  /** The queries for the rows so far and one more return what they returned, and the new rows. */
  lemma {:induction false} ViewAdded(inp: Inputs, db: Db, rows: seq<Package>, row: Package)
    requires Fresh(db.tables, db.nextReceipt, db.nextPackage) && !Taken(db.tables, row)
    ensures ViewOf(Added(inp, db, row, db.tables), rows + [row]) == Added(inp, db, row, ViewOf(db.tables, rows))
  {
    hide WantedReceipts, PackagesOn, ChildrenOn, IdsOf, PackageIds, LinesOf, FullStock, Attach, Bounded;
    var t, latest, p := db.tables, NewReceipt(inp, db, row), NewPackage(db, row);
    ReceiptsAdded(t.receipts, rows, row, latest);
    var ids := IdsOf(WantedReceipts(t.receipts, rows));
    PackagesAdded(t.packages, ids, p);
    ChildrenAdded(inp, db, row, PackageIds(PackagesOn(t.packages, ids)));
  }

  lemma {:induction false} ChildrenAdded(inp: Inputs, db: Db, row: Package, ids: set<nat>)
    requires Fresh(db.tables, db.nextReceipt, db.nextPackage)
    ensures var t, after := db.tables, Added(inp, db, row, db.tables);
      var lines, p := LinesOf(inp, row.items), db.nextPackage;
      && ChildrenOn(after.items, ids + {p}) == ChildrenOn(t.items, ids) + Attach(p, lines)
      && ChildrenOn(after.stocks, ids + {p}) == ChildrenOn(t.stocks, ids) + Attach(p, FullStock(lines))
      && ChildrenOn(after.aliases, ids + {p}) == ChildrenOn(t.aliases, ids) + [Child(p, Alias(row.qr, "legacy_external_qr"))]
      && ChildrenOn(after.scans, ids + {p}) == ChildrenOn(t.scans, ids) + [Child(p, Scan("legacy_live_stock_import", inp.importer))]
  {
    var lines, p := LinesOf(inp, row.items), db.nextPackage;
    hide LinesOf, FullStock, ChildrenOn;
    ChildrenOnAdded(db.tables.items, ids, p, lines);
    ChildrenOnAdded(db.tables.stocks, ids, p, FullStock(lines));
    OneChild(p, Alias(row.qr, "legacy_external_qr"));
    OneChild(p, Scan("legacy_live_stock_import", inp.importer));
    ChildrenOnAdded(db.tables.aliases, ids, p, [Alias(row.qr, "legacy_external_qr")]);
    ChildrenOnAdded(db.tables.scans, ids, p, [Scan("legacy_live_stock_import", inp.importer)]);
  }

  lemma {:induction false} OneChild<T>(p: nat, x: T)
    ensures Attach(p, [x]) == [Child(p, x)]
  {
    assert [x][..0] == [];
  }

  lemma {:induction false} FindReceiptAdded(receipts: seq<Receipt>, latest: Receipt, record: string)
    ensures FindReceipt(receipts + [latest], record) == if latest.record == record then Some(latest) else FindReceipt(receipts, record)
    ensures FindReceipt(receipts, record).Some? ==> FindReceipt(receipts, record).value in receipts
  {
    assert (receipts + [latest])[..|receipts|] == receipts;
    FoundReceipt(receipts, record);
  }

  lemma {:induction false} FoundReceipt(receipts: seq<Receipt>, record: string)
    ensures FindReceipt(receipts, record).Some? ==> FindReceipt(receipts, record).value in receipts
  {
    if receipts != [] { FoundReceipt(receipts[..|receipts| - 1], record); }
  }

  lemma {:induction false} FindPackageAdded(packages: seq<Stored>, latest: Stored, receipt: nat)
    ensures FindPackage(packages + [latest], receipt) == if latest.receipt == receipt then Some(latest) else FindPackage(packages, receipt)
    ensures FindPackage(packages, receipt).Some? ==> FindPackage(packages, receipt).value in packages
  {
    assert (packages + [latest])[..|packages|] == packages;
    FoundPackage(packages, receipt);
  }

  /** What hangs on one package, after a row is added. */
  lemma {:induction false} DataAdded(inp: Inputs, db: Db, row: Package, v: Tables, q: nat)
    requires Fresh(v, db.nextReceipt, db.nextPackage) && q <= db.nextPackage
    ensures var after, lines := Added(inp, db, row, v), LinesOf(inp, row.items);
      if q < db.nextPackage then
        DataOf(after.items, q) == DataOf(v.items, q) && DataOf(after.stocks, q) == DataOf(v.stocks, q)
        && DataOf(after.aliases, q) == DataOf(v.aliases, q) && DataOf(after.scans, q) == DataOf(v.scans, q)
      else
        DataOf(after.items, q) == lines && DataOf(after.stocks, q) == FullStock(lines)
        && DataOf(after.aliases, q) == [Alias(row.qr, "legacy_external_qr")]
        && DataOf(after.scans, q) == [Scan("legacy_live_stock_import", inp.importer)]
  {
    var lines, p := LinesOf(inp, row.items), db.nextPackage;
    hide LinesOf, FullStock, DataOf;
    DataOfAdded(v.items, p, lines, q);
    DataOfAdded(v.stocks, p, FullStock(lines), q);
    OneChild(p, Alias(row.qr, "legacy_external_qr"));
    OneChild(p, Scan("legacy_live_stock_import", inp.importer));
    DataOfAdded(v.aliases, p, [Alias(row.qr, "legacy_external_qr")], q);
    DataOfAdded(v.scans, p, [Scan("legacy_live_stock_import", inp.importer)], q);
  }

  lemma {:induction false} RowOkKept(inp: Inputs, db: Db, row: Package, v: Tables, q: Package)
    requires Fresh(v, db.nextReceipt, db.nextPackage) && RowOk(inp, v, q) && q.qr != row.qr
    ensures RowOk(inp, Added(inp, db, row, v), q)
  {
    hide LinesOf, FullStock, DataOf, FindReceipt, FindPackage, BreakdownOk, EvidenceOk, PackageOk;
    FindReceiptAdded(v.receipts, NewReceipt(inp, db, row), q.qr);
    var r := FindReceipt(v.receipts, q.qr).value;
    FindPackageAdded(v.packages, NewPackage(db, row), r.id);
    var p := FindPackage(v.packages, r.id).value;
    DataAdded(inp, db, row, v, p.id);
  }

  lemma {:induction false} FullStockIsWhole(lines: seq<Line>)
    ensures LineOf(FullStock(lines)) == lines && forall i :: 0 <= i < |FullStock(lines)| ==> Untouched(FullStock(lines)[i])
  {
  }

  lemma {:induction false} RowOkAdded(inp: Inputs, db: Db, row: Package, v: Tables)
    requires Fresh(v, db.nextReceipt, db.nextPackage)
    ensures RowOk(inp, Added(inp, db, row, v), row)
  {
    FullStockIsWhole(LinesOf(inp, row.items));
    hide LinesOf, FullStock, LineOf, DataOf, FindReceipt, FindPackage;
    FindReceiptAdded(v.receipts, NewReceipt(inp, db, row), row.qr);
    FindPackageAdded(v.packages, NewPackage(db, row), db.nextReceipt);
    DataAdded(inp, db, row, v, db.nextPackage);
  }

  lemma {:induction false} ViewFresh(t: Tables, rows: seq<Package>, nextReceipt: nat, nextPackage: nat)
    requires Fresh(t, nextReceipt, nextPackage)
    ensures Fresh(ViewOf(t, rows), nextReceipt, nextPackage)
  {
    WantedPart(t.receipts, rows);
    var receipts := WantedReceipts(t.receipts, rows);
    PackagesAreStored(t.packages, IdsOf(receipts));
    var ids := PackageIds(PackagesOn(t.packages, IdsOf(receipts)));
    hide WantedReceipts, PackagesOn, ChildrenOn;
    ChildrenOnPart(t.items, ids, nextPackage);
    ChildrenOnPart(t.stocks, ids, nextPackage);
    ChildrenOnPart(t.aliases, ids, nextPackage);
    ChildrenOnPart(t.scans, ids, nextPackage);
  }

  lemma {:induction false} AddedFresh(inp: Inputs, db: Db, row: Package)
    requires Fresh(db.tables, db.nextReceipt, db.nextPackage)
    ensures Fresh(Added(inp, db, row, db.tables), db.nextReceipt + 1, db.nextPackage + 1)
  {
    hide LinesOf;
  }

  lemma {:induction false} StillFree(inp: Inputs, db: Db, row: Package, other: Package)
    requires !Taken(db.tables, other) && other.qr != row.qr
    ensures !Taken(Added(inp, db, row, db.tables), other)
  {
    hide LinesOf, QrCode, PackageNo;
    CodesDiffer(row.qr, other.qr);
  }

  ghost predicate RowsDiffer(rows: seq<Package>) { forall i, j :: 0 <= i < j < |rows| ==> rows[i].qr != rows[j].qr }

  /** No row of the list is in the target yet. */
  ghost predicate NoneTaken(t: Tables, rows: seq<Package>) { forall i :: 0 <= i < |rows| ==> !Taken(t, rows[i]) }

  /** An import goes through, and leaves any other free identifiers free. */
  lemma {:induction false} ImportGoesThrough(inp: Inputs, db: Db, rows: seq<Package>, others: seq<Package>)
    requires Fresh(db.tables, db.nextReceipt, db.nextPackage) && RowsDiffer(rows + others) && NoneTaken(db.tables, rows + others)
    ensures ImportRows(inp, db, rows).Some?
    ensures var after := ImportRows(inp, db, rows).value;
      Fresh(after.tables, after.nextReceipt, after.nextPackage) && NoneTaken(after.tables, others)
  {
    hide Taken, Fresh, Added;
    if rows == [] {
      assert rows + others == others;
    } else {
      var l := |rows| - 1;
      var row := rows[l];
      assert rows[..l] + ([row] + others) == rows + others;
      ImportGoesThrough(inp, db, rows[..l], [row] + others);
      var before := ImportRows(inp, db, rows[..l]).value;
      assert ([row] + others)[0] == row;
      AddedFresh(inp, before, row);
      forall i | 0 <= i < |others| ensures !Taken(Added(inp, before, row, before.tables), others[i]) {
        assert ([row] + others)[i + 1] == others[i] && (rows + others)[|rows| + i] == others[i] && (rows + others)[l] == row;
        StillFree(inp, before, row, others[i]);
      }
    }
  }

  /** Rows with different QRs, none of them in the target yet, are all imported, and the
      readback accepts the result. */
  lemma {:induction false} ImportIsAccepted(inp: Inputs, db: Db, rows: seq<Package>)
    requires Fresh(db.tables, db.nextReceipt, db.nextPackage) && RowsDiffer(rows) && NoneTaken(db.tables, rows)
    ensures ImportRows(inp, db, rows).Some? && Accepts(inp, ImportRows(inp, db, rows).value.tables, rows)
  {
    hide Taken, Fresh, Added, Accepts;
    assert rows + [] == rows;
    ImportGoesThrough(inp, db, rows, []);
    if rows == [] {
      NothingAccepted(inp, db.tables);
    } else {
      var l := |rows| - 1;
      assert rows[..l] + [rows[l]] == rows;
      ImportIsAccepted(inp, db, rows[..l]);
      ImportGoesThrough(inp, db, rows[..l], [rows[l]]);
      var before := ImportRows(inp, db, rows[..l]).value;
      assert [rows[l]][0] == rows[l];
      AcceptOneMore(inp, before, rows[..l], rows[l]);
    }
  }

  lemma {:induction false} NothingAccepted(inp: Inputs, t: Tables)
    ensures Accepts(inp, t, [])
  {
    NothingViewed(t);
    hide ViewOf;
  }

  lemma {:induction false} NothingViewed(t: Tables)
    ensures ViewOf(t, []) == Tables([], [], [], [], [], [])
  {
    NoReceipts(t.receipts);
    NoPackages(t.packages);
    NoChildren(t.items);
    NoChildren(t.stocks);
    NoChildren(t.aliases);
    NoChildren(t.scans);
    NoIds();
  }

  lemma {:induction false} NoIds()
    ensures IdsOf([]) == {} && PackageIds([]) == {}
  {
    SameSet(IdsOf([]), {});
    SameSet(PackageIds([]), {});
  }

  lemma {:induction false} NoReceipts(receipts: seq<Receipt>)
    ensures WantedReceipts(receipts, []) == []
  {
    if receipts != [] { NoReceipts(receipts[..|receipts| - 1]); }
  }

  lemma {:induction false} NoPackages(packages: seq<Stored>)
    ensures PackagesOn(packages, {}) == []
  {
    if packages != [] { NoPackages(packages[..|packages| - 1]); }
  }

  lemma {:induction false} NoChildren<T>(children: seq<Child<T>>)
    ensures ChildrenOn(children, {}) == []
  {
    if children != [] { NoChildren(children[..|children| - 1]); }
  }

  lemma {:induction false} AcceptOneMore(inp: Inputs, db: Db, rows: seq<Package>, row: Package)
    requires Fresh(db.tables, db.nextReceipt, db.nextPackage) && !Taken(db.tables, row)
    requires Accepts(inp, db.tables, rows) && RowsDiffer(rows + [row])
    ensures Accepts(inp, Added(inp, db, row, db.tables), rows + [row])
  {
    var v, more := ViewOf(db.tables, rows), rows + [row];
    hide ViewOf, Fresh, Taken, Added, RowOk, CountsOk;
    ViewAdded(inp, db, rows, row);
    ViewFresh(db.tables, rows, db.nextReceipt, db.nextPackage);
    CountsAdded(inp, db, rows, row, v);
    RowOkAdded(inp, db, row, v);
    assert more[|rows|] == row;
    forall i | 0 <= i < |more| ensures RowOk(inp, Added(inp, db, row, v), more[i]) {
      if i < |rows| {
        assert more[i] == rows[i] && more[|rows|] == row && rows[i].qr != row.qr;
        RowOkKept(inp, db, row, v, rows[i]);
      }
    }
  }

  lemma {:induction false} CountsAdded(inp: Inputs, db: Db, rows: seq<Package>, row: Package, v: Tables)
    requires CountsOk(v, rows)
    ensures CountsOk(Added(inp, db, row, v), rows + [row])
  {
    assert (rows + [row])[..|rows|] == rows;
    hide LinesOf;
  }

  // ----- the transaction -----

  /** The codes the collision check looks for. */
  predicate Collides(t: Tables, rows: seq<Package>)
  {
    exists i :: 0 <= i < |rows| && (Taken(t, rows[i]) || AliasTaken(t, rows[i]) || CrossTaken(t, rows[i]))
  }

  predicate AliasTaken(t: Tables, row: Package)
  {
    exists i :: 0 <= i < |t.aliases| && t.aliases[i].data.code in [QrCode(row.qr), row.qr, PackageNo(row.qr)]
  }

  /** A number used as a barcode or the other way round, or the bare QR as either. */
  predicate CrossTaken(t: Tables, row: Package)
  {
    exists i :: 0 <= i < |t.packages| &&
      (t.packages[i].barcode in [row.qr, PackageNo(row.qr)] || t.packages[i].no in [row.qr, QrCode(row.qr)])
  }

  /** Every item has a model. */
  predicate Resolved(inp: Inputs, rows: seq<Package>)
  {
    forall i, k :: 0 <= i < |rows| && 0 <= k < |rows[i].items| ==> inp.identity(rows[i].items[k].key) in inp.models
  }

  class Target {
    var db: Db

    /** Models, collision check, import, readback, commit; anything else rolls back. With all
        models resolved and a collision-free target every manifest with different QRs is
        committed, and what is committed has been accepted. */
    method Apply(inp: Inputs, rows: seq<Package>) returns (ok: bool)
      requires Fresh(db.tables, db.nextReceipt, db.nextPackage)
      modifies this
      ensures !ok ==> db == old(db)
      ensures ok ==> Some(db) == ImportRows(inp, old(db), rows) && Accepts(inp, db.tables, rows)
      ensures ok ==> Resolved(inp, rows) && !Collides(old(db).tables, rows)
      ensures RowsDiffer(rows) ==> (ok <==> Resolved(inp, rows) && !Collides(old(db).tables, rows))
    {
      hide Taken, Fresh, Added, Accepts, AliasTaken, CrossTaken;
      if !Resolved(inp, rows) || Collides(db.tables, rows) { return false; }
      var start := db;
      if RowsDiffer(rows) { ImportIsAccepted(inp, db, rows); }
      for i := 0 to |rows|
        invariant ImportRows(inp, start, rows[..i]) == Some(db)
      {
        assert rows[..i + 1][..i] == rows[..i];
        var next := ImportRow(inp, db, rows[i]);
        if next.None? {
          NoWayPast(inp, start, rows, i + 1);
          db := start;
          return false;
        }
        db := next.value;
      }
      assert rows[..|rows|] == rows;
      ok := Readback(inp, db.tables, rows);
      if !ok { db := start; }
    }
  }

  lemma {:induction false} NoWayPast(inp: Inputs, db: Db, rows: seq<Package>, c: nat)
    requires c <= |rows| && ImportRows(inp, db, rows[..c]).None?
    ensures ImportRows(inp, db, rows).None?
  {
    hide ImportRow;
    if c < |rows| {
      assert rows[..|rows| - 1][..c] == rows[..c];
      NoWayPast(inp, db, rows[..|rows| - 1], c);
    } else {
      assert rows[..c] == rows;
    }
  }
}
