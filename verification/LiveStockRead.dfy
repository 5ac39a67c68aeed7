/** Reading the stock manifest back in: the checks of a row, the totals of the file, and when
    what the builder wrote passes them. */
module LiveStockRead {
  import opened Base
  import opened LiveStockBuild
  import LiveStockImport

  /** The totals a manifest states of its rows. */
  datatype Summary = Summary(packages: nat, quantity: int, items: nat, corrected: nat, hidden: nat)

  datatype Refusal = NotPositive | WrongSource | WrongFlag | BadItem | WrongTotal | RepeatedItem

  // ----- one row -----

  /** Texts, pieces and target of an item are stated. */
  predicate Stated(k: ItemKey, target: Target)
  {
    k.model != "" && k.variant != "" && k.size != "" && (target.Catalog? ==> target.id > 0 && target.code != "")
  }

  ghost predicate Readable(normal: ItemKey -> string, p: Package)
  {
    QuantityChecks(p) && ItemsDiffer(normal, p.items) && forall i :: 0 <= i < |p.items| ==> Stated(p.items[i].key, p.items[i].target)
  }

  /** `validate_row`, with the first check that fails. */
  method ValidateRow(normal: ItemKey -> string, p: Package) returns (refusal: Option<Refusal>)
    ensures refusal.None? <==> Readable(normal, p)
    ensures refusal == Some(NotPositive) <==> p.quantity <= 0 || p.candidate <= 0 || p.exhaustive <= 0
    ensures refusal == Some(BadItem) ==> exists i :: 0 <= i < |p.items| && !(p.items[i].quantity > 0 && Stated(p.items[i].key, p.items[i].target))
    ensures refusal == Some(WrongTotal) ==> p.items == [] || ItemTotal(p.items) != p.quantity
    ensures refusal == Some(RepeatedItem) ==> !ItemsDiffer(normal, p.items)
  {
    if p.quantity <= 0 || p.candidate <= 0 || p.exhaustive <= 0 { return Some(NotPositive); }
    if !p.isDirect && p.quantity != p.exhaustive { return Some(WrongSource); }
    if p.corrected != (p.quantity != p.candidate) { return Some(WrongFlag); }
    var total, proper := SumItems(p.items);
    if !proper { return Some(BadItem); }
    if p.items == [] || total != p.quantity { return Some(WrongTotal); }
    var differ := CheckRepeats(normal, p.items);
    refusal := if differ then None else Some(RepeatedItem);
  }

  /** Every item by itself, and the pieces of all. */
  method SumItems(items: seq<Item>) returns (total: int, proper: bool)
    ensures proper <==> forall i :: 0 <= i < |items| ==> items[i].quantity > 0 && Stated(items[i].key, items[i].target)
    ensures proper ==> total == ItemTotal(items)
  {
    total := 0;
    for i := 0 to |items|
      invariant total == ItemTotal(items[..i])
      invariant forall j :: 0 <= j < i ==> items[j].quantity > 0 && Stated(items[j].key, items[j].target)
    {
      if items[i].quantity <= 0 || !Stated(items[i].key, items[i].target) { return total, false; }
      assert items[..i + 1][..i] == items[..i];
      total := total + items[i].quantity;
    }
    assert items[..|items|] == items;
    proper := true;
  }

  /** No normal form comes up twice. */
  method CheckRepeats(normal: ItemKey -> string, items: seq<Item>) returns (ok: bool)
    ensures ok <==> ItemsDiffer(normal, items)
  {
    var seen: set<string> := {};
    for i := 0 to |items|
      invariant forall s :: s in seen <==> exists j :: 0 <= j < i && normal(items[j].key) == s
      invariant forall j, k :: 0 <= j < k < i ==> normal(items[j].key) != normal(items[k].key)
    {
      if normal(items[i].key) in seen { return false; }
      seen := seen + {normal(items[i].key)};
    }
    ok := true;
  }

  // ----- the file -----

  function QuantityOf(rows: seq<Package>): int
  {
    if rows == [] then 0 else QuantityOf(rows[..|rows| - 1]) + rows[|rows| - 1].quantity
  }

  function CorrectedOf(rows: seq<Package>): nat
  {
    if rows == [] then 0 else CorrectedOf(rows[..|rows| - 1]) + if rows[|rows| - 1].corrected then 1 else 0
  }

  function HiddenIn(items: seq<Item>): nat
  {
    if items == [] then 0 else HiddenIn(items[..|items| - 1]) + if items[|items| - 1].target.Hidden? then 1 else 0
  }

  function HiddenOf(rows: seq<Package>): nat
  {
    if rows == [] then 0 else HiddenOf(rows[..|rows| - 1]) + HiddenIn(rows[|rows| - 1].items)
  }

  /** The totals the builder writes beside the rows. */
  function SummaryOf(rows: seq<Package>): Summary
  {
    Summary(|rows|, QuantityOf(rows), LiveStockImport.ItemCount(rows), CorrectedOf(rows), HiddenOf(rows))
  }

  ghost predicate HeldApart(rows: seq<Package>, held: seq<Held>)
  {
    && (forall i, j :: 0 <= i < j < |held| ==> held[i].qr != held[j].qr)
    && (forall i, j :: 0 <= i < |rows| && 0 <= j < |held| ==> rows[i].qr != held[j].qr)
  }

  /** `read_manifest`: every row readable, no package twice, totals as stated, held packages
      once and not among the rows. */
  method ReadManifest(normal: ItemKey -> string, rows: seq<Package>, held: seq<Held>, summary: Summary) returns (ok: bool)
    ensures ok <==>
      (forall i :: 0 <= i < |rows| ==> Readable(normal, rows[i])) && LiveStockImport.RowsDiffer(rows) && summary == SummaryOf(rows) && HeldApart(rows, held)
  {
    hide Readable, SummaryOf, HeldApart;
    var qrs: set<string> := {};
    for i := 0 to |rows|
      invariant forall j :: 0 <= j < i ==> Readable(normal, rows[j])
      invariant forall j, k :: 0 <= j < k < i ==> rows[j].qr != rows[k].qr
      invariant forall q :: q in qrs <==> exists j :: 0 <= j < i && rows[j].qr == q
    {
      var refusal := ValidateRow(normal, rows[i]);
      if refusal.Some? { return false; }
      if rows[i].qr in qrs { return false; }
      qrs := qrs + {rows[i].qr};
    }
    var totals := Summarize(rows);
    if summary != totals { return false; }
    ok := CheckHeld(rows, held, qrs);
  }

  /** The totals, row by row. */
  method Summarize(rows: seq<Package>) returns (summary: Summary)
    ensures summary == SummaryOf(rows)
  {
    var quantity, items, corrected, hidden := 0, 0, 0, 0;
    for i := 0 to |rows|
      invariant quantity == QuantityOf(rows[..i]) && items == LiveStockImport.ItemCount(rows[..i])
      invariant corrected == CorrectedOf(rows[..i]) && hidden == HiddenOf(rows[..i])
    {
      assert rows[..i + 1][..i] == rows[..i];
      quantity, items := quantity + rows[i].quantity, items + |rows[i].items|;
      corrected, hidden := corrected + (if rows[i].corrected then 1 else 0), hidden + HiddenIn(rows[i].items);
    }
    assert rows[..|rows|] == rows;
    summary := Summary(|rows|, quantity, items, corrected, hidden);
  }

  method CheckHeld(rows: seq<Package>, held: seq<Held>, qrs: set<string>) returns (ok: bool)
    requires forall q :: q in qrs <==> exists j :: 0 <= j < |rows| && rows[j].qr == q
    ensures ok <==> HeldApart(rows, held)
  {
    var seen: set<string> := {};
    for i := 0 to |held|
      invariant forall j, k :: 0 <= j < k < i ==> held[j].qr != held[k].qr
      invariant forall q :: q in seen <==> exists j :: 0 <= j < i && held[j].qr == q
      invariant forall j, k :: 0 <= j < |rows| && 0 <= k < i ==> rows[j].qr != held[k].qr
    {
      if held[i].qr in seen || held[i].qr in qrs { return false; }
      seen := seen + {held[i].qr};
    }
    ok := true;
  }

  // ----- what the builder wrote -----

  /** What the audit must hold for the importer to read a row: a positive candidate, pieces of
      every item of a direct query, texts and targets stated, and no two of its models, variants
      and sizes the same in the importer's normal form. */
  ghost predicate Agreed(a: Audit, qr: string, normal: ItemKey -> string)
    requires qr in a.plan
  {
    && a.plan[qr].candidate > 0 && (IsDirect(a, qr) ==> PiecesLeft(a.direct[qr].items))
    && (forall k, l :: k in SourceKeys(a, qr) && l in SourceKeys(a, qr) && k != l ==> normal(k) != normal(l))
    && (forall k :: k in SourceKeys(a, qr) ==> a.identity(k) in TargetsOf(a, qr) && Stated(k, TargetsOf(a, qr)[a.identity(k)]))
  }

  lemma {:induction false} RowIsReadExactly(a: Audit, qr: string, p: Package, normal: ItemKey -> string)
    requires qr in a.plan && qr in a.live && RowFor(a, qr, p) && PassesExactly(a, qr, p)
    ensures Readable(normal, p) <==> Agreed(a, qr, normal)
  {
    ItemsDifferExactly(a, qr, p, normal);
    StatedExactly(a, qr, p);
    hide RowFor, QuantityChecks, ItemsDiffer, PiecesLeft, SourceKeys, IsDirect, TargetsOf;
  }

  lemma {:induction false} StatedExactly(a: Audit, qr: string, p: Package)
    requires qr in a.plan && qr in a.live && RowFor(a, qr, p)
    ensures (forall i :: 0 <= i < |p.items| ==> Stated(p.items[i].key, p.items[i].target)) <==>
      forall k :: k in SourceKeys(a, qr) ==> a.identity(k) in TargetsOf(a, qr) && Stated(k, TargetsOf(a, qr)[a.identity(k)])
  {
    var src := RowSource(a, qr, p);
    MadeKeys(a, qr, a.live[qr].0, src, p.quantity);
    SortedKeysAre(src);
    hide RowFor, SourceKeys, TargetsOf, Stated, MadeFrom, SortedKeys, ItemKeys, PiecesOf;
    var keys := KeysIn(p.items);
    assert forall k :: k in keys <==> k in SourceKeys(a, qr);
    forall k | k in SourceKeys(a, qr) ensures exists i :: 0 <= i < |p.items| && p.items[i].key == k {
      var i :| 0 <= i < |keys| && keys[i] == k;
      assert p.items[i].key == k;
    }
    forall i | 0 <= i < |p.items| ensures p.items[i].key in SourceKeys(a, qr) { assert keys[i] in keys; }
  }

  /** Builder and importer: what is built is read back exactly when every row agrees with the
      importer's checks; everything else in the file always fits. */
  method BuildAndRead(a: Audit, normal: ItemKey -> string) returns (built: bool, read: bool)
    ensures built <==> a.plan.Keys == a.live.Keys && forall qr :: qr in a.plan ==> Buildable(a, qr)
    ensures built ==> (read <==> forall qr :: qr in a.plan && qr in a.live && a.live[qr].0 > 0 ==> Agreed(a, qr, normal))
  {
    hide *;
    var ok, rows, held := BuildManifest(a);
    if !ok { return false, false; }
    built := true;
    read := ReadManifest(normal, rows, held, SummaryOf(rows));
    forall i | 0 <= i < |rows| ensures Readable(normal, rows[i]) <==> Agreed(a, rows[i].qr, normal) {
      RowIsReadExactly(a, rows[i].qr, rows[i], normal);
    }
    DifferIs(rows, held);
    forall i | 0 <= i < |rows| ensures Lists(rows, rows[i].qr) { ListsThis(rows, i); }
    forall qr | qr in a.plan && qr in a.live && a.live[qr].0 > 0 ensures exists i :: 0 <= i < |rows| && rows[i].qr == qr {
      ListedRow(a, rows, held, qr);
    }
  }

  lemma {:induction false} DifferIs(rows: seq<Package>, held: seq<Held>)
    requires forall i, j :: 0 <= i < j < |rows| ==> rows[i].qr != rows[j].qr
    requires forall i, j :: 0 <= i < j < |held| ==> held[i].qr != held[j].qr
    requires forall i, j :: 0 <= i < |rows| && 0 <= j < |held| ==> rows[i].qr != held[j].qr
    ensures LiveStockImport.RowsDiffer(rows) && HeldApart(rows, held)
  {
  }

  lemma {:induction false} ListsThis(rows: seq<Package>, i: nat)
    requires i < |rows|
    ensures Lists(rows, rows[i].qr)
  {
  }

  lemma {:induction false} ListedRow(a: Audit, rows: seq<Package>, held: seq<Held>, qr: string)
    requires qr in a.live && a.live[qr].0 > 0 && (Lists(rows, qr) || Holds(held, qr))
    requires forall i :: 0 <= i < |held| ==> HeldFor(a, held[i])
    ensures exists i :: 0 <= i < |rows| && rows[i].qr == qr
  {
  }
}
