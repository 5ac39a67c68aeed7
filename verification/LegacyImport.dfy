/** The resumable import of legacy stock: batches are committed, a crash loses the batch at
    work, and the same input can be run again. */
module LegacyImport {
  import opened Base

  /** `clean` and `casefold`; only how they compose with storing a text matters here. */
  datatype Texts = Texts(clean: string -> string, fold: string -> string)

  /** One source row: its record id in full, the numbers it states, and the texts derived
      from it (`code`, `color`, `size` and `packageNo` as they will be stored). */
  datatype Row = Row(fullId: string, checksum: string, quantity: Option<real>, available: Option<real>,
                     code: string, color: string, size: string, packageNo: string, aliases: seq<string>)

  const ID_LIMIT := 128

  /** The record id as it is stored. */
  function Id(r: Row): string { if |r.fullId| <= ID_LIMIT then r.fullId else r.fullId[..ID_LIMIT] }

  // ----- quantities -----

  /** A positive whole number, up to a millionth. */
  function PositiveInt(x: Option<real>): Option<int>
  {
    if x.None? then None
    else
      var rounded := (x.value + 0.5).Floor;
      var off := x.value - rounded as real;
      if x.value <= 0.0 || off > 0.000001 || off < -0.000001 then None else Some(rounded)
  }

  /** The stated available quantity, or the original one; never more than that. */
  function CurrentQuantity(r: Row): Option<int>
  {
    var original := PositiveInt(r.quantity);
    if original.None? || r.available.None? then original
    else
      var current := PositiveInt(r.available);
      if current.None? || current.value > original.value then None else current
  }

  function Available(r: Row): int { if CurrentQuantity(r).Some? then CurrentQuantity(r).value else 0 }

  predicate Acceptable(r: Row) { r.fullId != "" && CurrentQuantity(r).Some? && Available(r) >= 0 }

  ghost predicate FullIdsDiffer(rows: seq<Row>) { forall i, j :: 0 <= i < j < |rows| ==> rows[i].fullId != rows[j].fullId }

  ghost predicate IdsDiffer(rows: seq<Row>) { forall i, j :: 0 <= i < j < |rows| ==> Id(rows[i]) != Id(rows[j]) }

  function AvailableSum(rows: seq<Row>): int
  {
    if rows == [] then 0 else AvailableSum(rows[..|rows| - 1]) + Available(rows[|rows| - 1])
  }

  /** `profile_rows`: refuses blank or repeated ids and unusable quantities. */
  method ProfileRows(rows: seq<Row>) returns (available: Option<int>)
    ensures available.Some? <==> FullIdsDiffer(rows) && forall i :: 0 <= i < |rows| ==> Acceptable(rows[i])
    ensures available.Some? ==> available.value == AvailableSum(rows)
  {
    hide CurrentQuantity, Acceptable, Available;
    var seen: set<string>, sum := {}, 0;
    for i := 0 to |rows|
      invariant forall x :: x in seen <==> exists k :: 0 <= k < i && rows[k].fullId == x
      invariant FullIdsDiffer(rows[..i])
      invariant sum == AvailableSum(rows[..i])
      invariant forall k :: 0 <= k < i ==> Acceptable(rows[k])
    {
      var r := rows[i];
      assert rows[..i + 1][..i] == rows[..i];
      if r.fullId in seen {
        var k :| 0 <= k < i && rows[k].fullId == r.fullId;
        return None;
      }
      if !Acceptable(r) { return None; }
      seen, sum := seen + {r.fullId}, sum + Available(r);
    }
    assert rows[..|rows|] == rows;
    available := Some(sum);
  }

  // ----- the database and what a run keeps in memory -----

  datatype Package = Package(receipt: string, no: string, model: nat, color: string, size: string, aliases: seq<string>)
  datatype Stock = Stock(no: string, model: nat, color: string, size: string, quantity: int, available: int)

  /** Models are numbered in the order they were created. */
  datatype Db = Db(receipts: map<string, string>, packages: map<string, Package>, stock: seq<Stock>,
                   models: seq<string>, sizes: seq<(nat, string)>, colors: seq<(nat, string)>)

  /** The dictionary of models and the sets of sizes and colors a run starts from. */
  datatype Cache = Cache(models: map<string, nat>, sizes: set<(nat, string)>, colors: set<(nat, string)>)

  function LoadModels(t: Texts, models: seq<string>): map<string, nat>
  {
    if models == [] then map[]
    else
      var l := |models| - 1;
      var code := t.clean(models[l]);
      if code == "" then LoadModels(t, models[..l]) else LoadModels(t, models[..l])[t.fold(code) := l]
  }

  function LoadTexts(t: Texts, rows: seq<(nat, string)>): set<(nat, string)>
  {
    if rows == [] then {} else LoadTexts(t, rows[..|rows| - 1]) + {(rows[|rows| - 1].0, t.fold(t.clean(rows[|rows| - 1].1)))}
  }

  function Load(t: Texts, db: Db): Cache
  {
    Cache(LoadModels(t, db.models), LoadTexts(t, db.sizes), LoadTexts(t, db.colors))
  }

  datatype Session = Session(db: Db, cache: Cache)

  /** The model of the row, created when its code is new. */
  function ModelFor(t: Texts, s: Session, r: Row): (nat, Session)
  {
    var key := t.fold(r.code);
    if key in s.cache.models then (s.cache.models[key], s)
    else
      (|s.db.models|, Session(s.db.(models := s.db.models + [r.code]), s.cache.(models := s.cache.models[key := |s.db.models|])))
  }

  /** A text kept once per model, up to `casefold`. */
  function Remember(t: Texts, rows: seq<(nat, string)>, known: set<(nat, string)>, m: nat, text: string): (seq<(nat, string)>, set<(nat, string)>)
  {
    if (m, t.fold(text)) in known then (rows, known) else (rows + [(m, text)], known + {(m, t.fold(text))})
  }

  /** One row: skipped when its receipt exists, refused when its package number is taken or
      its code is to be created a second time, since both columns are unique. */
  function ImportRow(t: Texts, s: Session, r: Row): Option<Session>
  {
    if Id(r) in s.db.receipts then Some(s)
    else if r.packageNo in s.db.packages || (t.fold(r.code) !in s.cache.models && r.code in s.db.models) then None
    else
      var (m, n) := ModelFor(t, s, r);
      var (sizes, knownSizes) := Remember(t, n.db.sizes, n.cache.sizes, m, r.size);
      var (colors, knownColors) := Remember(t, n.db.colors, n.cache.colors, m, r.color);
      Some(Session(
        Db(n.db.receipts[Id(r) := r.checksum],
           n.db.packages[r.packageNo := Package(Id(r), r.packageNo, m, r.color, r.size, r.aliases)],
           n.db.stock + [Stock(r.packageNo, m, r.color, r.size, Available(r), Available(r))],
           n.db.models, sizes, colors),
        Cache(n.cache.models, knownSizes, knownColors)))
  }

  function ImportRows(t: Texts, s: Session, rows: seq<Row>): Option<Session>
  {
    if rows == [] then Some(s)
    else
      var before := ImportRows(t, s, rows[..|rows| - 1]);
      if before.None? then None else ImportRow(t, before.value, rows[|rows| - 1])
  }

  /** An uninterrupted run over the database. */
  function Run(t: Texts, db: Db, rows: seq<Row>): Option<Session> { ImportRows(t, Session(db, Load(t, db)), rows) }

  /** No stored receipt of these rows has another checksum. */
  predicate Preflight(db: Db, rows: seq<Row>)
  {
    forall i :: 0 <= i < |rows| && Id(rows[i]) in db.receipts && LastWithId(rows, i) ==> db.receipts[Id(rows[i])] == rows[i].checksum
  }

  predicate LastWithId(rows: seq<Row>, i: nat)
    requires i < |rows|
  {
    forall j :: i < j < |rows| ==> Id(rows[j]) != Id(rows[i])
  }

  // ----- what is in memory is what would be loaded -----

  /** Cleaning a stored text again leaves it the same text up to case. */
  predicate Keeps(t: Texts, text: string) { t.fold(t.clean(text)) == t.fold(text) }

  /** The texts of a row stay findable once they are stored. */
  predicate Stable(t: Texts, r: Row) { t.clean(r.code) != "" && Keeps(t, r.code) && Keeps(t, r.size) && Keeps(t, r.color) }

  lemma {:induction false} RememberLoads(t: Texts, rows: seq<(nat, string)>, m: nat, text: string)
    requires Keeps(t, text)
    ensures var (longer, known) := Remember(t, rows, LoadTexts(t, rows), m, text); known == LoadTexts(t, longer)
  {
    assert (rows + [(m, text)])[..|rows|] == rows;
  }

  lemma {:induction false} ModelLoads(t: Texts, s: Session, r: Row)
    requires t.clean(r.code) != "" && Keeps(t, r.code) && s.cache == Load(t, s.db)
    ensures var (m, n) := ModelFor(t, s, r); n.cache == Load(t, n.db) && n.db == s.db.(models := n.db.models)
  {
    assert (s.db.models + [r.code])[..|s.db.models|] == s.db.models;
  }

  lemma {:induction false} CacheIsLoaded(t: Texts, s: Session, r: Row)
    requires Stable(t, r) && s.cache == Load(t, s.db) && ImportRow(t, s, r).Some?
    ensures ImportRow(t, s, r).value.cache == Load(t, ImportRow(t, s, r).value.db)
  {
    if Id(r) !in s.db.receipts {
      ModelLoads(t, s, r);
      var (m, n) := ModelFor(t, s, r);
      hide LoadModels, LoadTexts, ModelFor, Remember;
      RememberLoads(t, n.db.sizes, m, r.size);
      RememberLoads(t, n.db.colors, m, r.color);
    }
  }

  lemma {:induction false} CacheStaysLoaded(t: Texts, s: Session, rows: seq<Row>)
    requires s.cache == Load(t, s.db) && ImportRows(t, s, rows).Some? && forall i :: 0 <= i < |rows| ==> Stable(t, rows[i])
    ensures ImportRows(t, s, rows).value.cache == Load(t, ImportRows(t, s, rows).value.db)
  {
    if rows != [] {
      hide ImportRow, Load, Stable;
      var l := |rows| - 1;
      CacheStaysLoaded(t, s, rows[..l]);
      CacheIsLoaded(t, ImportRows(t, s, rows[..l]).value, rows[l]);
    }
  }

  // ----- receipts -----

  lemma {:induction false} ReceiptsGrow(t: Texts, s: Session, rows: seq<Row>)
    requires ImportRows(t, s, rows).Some?
    ensures var db := ImportRows(t, s, rows).value.db;
      && (forall id :: id in db.receipts ==> id in s.db.receipts || exists i :: 0 <= i < |rows| && Id(rows[i]) == id)
      && (forall i :: 0 <= i < |rows| ==> Id(rows[i]) in db.receipts)
      && (forall id :: id in s.db.receipts ==> id in db.receipts && db.receipts[id] == s.db.receipts[id])
  {
    hide ImportRow, Id;
    if rows != [] {
      var l := |rows| - 1;
      ReceiptsGrow(t, s, rows[..l]);
      ReceiptStep(t, ImportRows(t, s, rows[..l]).value, rows[l]);
      var db, before := ImportRows(t, s, rows).value.db, ImportRows(t, s, rows[..l]).value.db;
      forall id | id in db.receipts && id !in s.db.receipts ensures exists i :: 0 <= i < |rows| && Id(rows[i]) == id {
        if id in before.receipts {
          var i :| 0 <= i < l && Id(rows[..l][i]) == id;
          assert Id(rows[i]) == id;
        } else {
          assert Id(rows[l]) == id;
        }
      }
      forall i | 0 <= i < |rows| ensures Id(rows[i]) in db.receipts {
        if i < l { assert Id(rows[..l][i]) in before.receipts; }
      }
    }
  }

  /** A new receipt holds the checksum of the first row with its id. */
  lemma {:induction false} ReceiptOfFirst(t: Texts, s: Session, rows: seq<Row>, i: nat)
    requires ImportRows(t, s, rows).Some? && i < |rows| && Id(rows[i]) !in s.db.receipts && FirstWithId(rows, i)
    ensures var db := ImportRows(t, s, rows).value.db; Id(rows[i]) in db.receipts && db.receipts[Id(rows[i])] == rows[i].checksum
  {
    hide ImportRow, Id;
    var l := |rows| - 1;
    ReceiptStep(t, ImportRows(t, s, rows[..l]).value, rows[l]);
    ReceiptsGrow(t, s, rows[..l]);
    if i < l {
      assert FirstWithId(rows[..l], i);
      ReceiptOfFirst(t, s, rows[..l], i);
    } else {
      assert Id(rows[l]) !in ImportRows(t, s, rows[..l]).value.db.receipts;
    }
  }

  predicate FirstWithId(rows: seq<Row>, i: nat)
    requires i < |rows|
  {
    forall j :: 0 <= j < i ==> Id(rows[j]) != Id(rows[i])
  }

  lemma {:induction false} ReceiptStep(t: Texts, s: Session, r: Row)
    requires ImportRow(t, s, r).Some?
    ensures ImportRow(t, s, r).value.db.receipts == if Id(r) in s.db.receipts then s.db.receipts else s.db.receipts[Id(r) := r.checksum]
  {
  }

  // ----- what is booked for a row -----

  /** The model or one of its sizes or colors is remembered under this text. */
  ghost predicate Remembered(t: Texts, rows: seq<(nat, string)>, m: nat, text: string)
  {
    exists i :: 0 <= i < |rows| && rows[i].0 == m && t.fold(t.clean(rows[i].1)) == t.fold(text)
  }

  /** Receipt, package and stock of the row, on model `m`, which is the model of its code and
      has its size and color. */
  ghost predicate BookedOn(t: Texts, db: Db, r: Row, m: nat)
  {
    && Id(r) in db.receipts && db.receipts[Id(r)] == r.checksum
    && m < |db.models| && t.clean(db.models[m]) != "" && t.fold(t.clean(db.models[m])) == t.fold(r.code)
    && r.packageNo in db.packages && db.packages[r.packageNo] == Package(Id(r), r.packageNo, m, r.color, r.size, r.aliases)
    && Stock(r.packageNo, m, r.color, r.size, Available(r), Available(r)) in db.stock
    && Remembered(t, db.sizes, m, r.size) && Remembered(t, db.colors, m, r.color)
  }

  /** A model counts under the text its code cleans to. */
  predicate CountsAs(t: Texts, models: seq<string>, i: nat, k: string)
    requires i < |models|
  {
    t.clean(models[i]) != "" && t.fold(t.clean(models[i])) == k
  }

  lemma {:induction false} LoadedModels(t: Texts, models: seq<string>)
    ensures forall k :: k in LoadModels(t, models) ==> LoadModels(t, models)[k] < |models| && CountsAs(t, models, LoadModels(t, models)[k], k)
    ensures forall i :: 0 <= i < |models| && t.clean(models[i]) != "" ==> t.fold(t.clean(models[i])) in LoadModels(t, models)
  {
    if models != [] {
      var l := |models| - 1;
      LoadedModels(t, models[..l]);
      assert forall i :: 0 <= i < l ==> models[..l][i] == models[i];
    }
  }

  lemma {:induction false} LoadedTexts(t: Texts, rows: seq<(nat, string)>, m: nat, text: string)
    ensures (m, t.fold(text)) in LoadTexts(t, rows) <==> Remembered(t, rows, m, text)
  {
    if rows != [] {
      var l := |rows| - 1;
      LoadedTexts(t, rows[..l], m, text);
      if Remembered(t, rows[..l], m, text) {
        var i :| 0 <= i < l && rows[..l][i].0 == m && t.fold(t.clean(rows[..l][i].1)) == t.fold(text);
        assert rows[i].0 == m;
      }
      if Remembered(t, rows, m, text) {
        var i :| 0 <= i < |rows| && rows[i].0 == m && t.fold(t.clean(rows[i].1)) == t.fold(text);
        if i < l { assert rows[..l][i].0 == m; }
      }
    }
  }

  lemma {:induction false} ModelFound(t: Texts, s: Session, r: Row)
    requires Stable(t, r) && s.cache == Load(t, s.db)
    ensures var (m, n) := ModelFor(t, s, r);
      && m < |n.db.models| && CountsAs(t, n.db.models, m, t.fold(r.code)) && s.db.models <= n.db.models
      && n.db == s.db.(models := n.db.models)
  {
    LoadedModels(t, s.db.models);
    hide LoadModels, LoadTexts;
  }

  /** The row that is imported is booked. */
  lemma {:induction false} RowBooked(t: Texts, s: Session, r: Row) returns (m: nat)
    requires Stable(t, r) && s.cache == Load(t, s.db) && ImportRow(t, s, r).Some? && Id(r) !in s.db.receipts
    ensures BookedOn(t, ImportRow(t, s, r).value.db, r, m)
  {
    ModelFound(t, s, r);
    ModelLoads(t, s, r);
    var found := ModelFor(t, s, r);
    hide ModelFor, LoadModels, LoadTexts, CountsAs;
    m := found.0;
    var n := found.1;
    RememberNoted(t, n.db.sizes, m, r.size);
    RememberNoted(t, n.db.colors, m, r.color);
    ModelCounts(t, n.db.models, m, t.fold(r.code));
    hide Remember, Remembered, Id, Available, Keeps;
    var after := ImportRow(t, s, r).value;
    assert after.db.stock[|n.db.stock|] == Stock(r.packageNo, m, r.color, r.size, Available(r), Available(r));
  }

  lemma {:induction false} ModelCounts(t: Texts, models: seq<string>, m: nat, k: string)
    requires m < |models| && CountsAs(t, models, m, k)
    ensures t.clean(models[m]) != "" && t.fold(t.clean(models[m])) == k
  {
  }

  lemma {:induction false} RememberNoted(t: Texts, rows: seq<(nat, string)>, m: nat, text: string)
    requires Keeps(t, text)
    ensures Remembered(t, Remember(t, rows, LoadTexts(t, rows), m, text).0, m, text)
  {
    RememberLoads(t, rows, m, text);
    RememberHolds(t, rows, LoadTexts(t, rows), m, text);
    LoadedTexts(t, Remember(t, rows, LoadTexts(t, rows), m, text).0, m, text);
    hide LoadTexts, Remember, Remembered, Keeps;
  }

  lemma {:induction false} RememberHolds(t: Texts, rows: seq<(nat, string)>, known: set<(nat, string)>, m: nat, text: string)
    ensures var (longer, now) := Remember(t, rows, known, m, text); rows <= longer && (m, t.fold(text)) in now
  {
  }

  /** What is booked stays booked. */
  ghost predicate Extends(before: Db, after: Db)
  {
    && before.models <= after.models && before.stock <= after.stock && before.sizes <= after.sizes && before.colors <= after.colors
    && (forall k :: k in before.receipts ==> k in after.receipts && after.receipts[k] == before.receipts[k])
    && (forall k :: k in before.packages ==> k in after.packages && after.packages[k] == before.packages[k])
  }

  lemma {:induction false} RowExtends(t: Texts, s: Session, r: Row)
    requires ImportRow(t, s, r).Some?
    ensures Extends(s.db, ImportRow(t, s, r).value.db)
  {
  }

  lemma {:induction false} BookedStays(t: Texts, before: Db, after: Db, r: Row, m: nat)
    requires BookedOn(t, before, r, m) && Extends(before, after)
    ensures BookedOn(t, after, r, m)
  {
    hide Id, Available;
    RememberedStays(t, before.sizes, after.sizes, m, r.size);
    RememberedStays(t, before.colors, after.colors, m, r.color);
    hide Remembered;
    var x := Stock(r.packageNo, m, r.color, r.size, Available(r), Available(r));
    var i :| 0 <= i < |before.stock| && before.stock[i] == x;
    assert after.stock[i] == x;
  }

  lemma {:induction false} RememberedStays(t: Texts, before: seq<(nat, string)>, after: seq<(nat, string)>, m: nat, text: string)
    requires Remembered(t, before, m, text) && before <= after
    ensures Remembered(t, after, m, text)
  {
    var i :| 0 <= i < |before| && before[i].0 == m && t.fold(t.clean(before[i].1)) == t.fold(text);
    assert after[i] == before[i];
  }

  /** After a run every row whose receipt is new has its package and its stock, in its color
      and size and with its available pieces, on a model of its code that has both. */
  lemma {:induction false} RowsBooked(t: Texts, s: Session, rows: seq<Row>, i: nat) returns (m: nat)
    requires ImportRows(t, s, rows).Some? && s.cache == Load(t, s.db) && forall j :: 0 <= j < |rows| ==> Stable(t, rows[j])
    requires i < |rows| && Id(rows[i]) !in s.db.receipts && FirstWithId(rows, i)
    ensures BookedOn(t, ImportRows(t, s, rows).value.db, rows[i], m)
  {
    hide ImportRow, Id, Stable, Load, BookedOn, Extends;
    var l := |rows| - 1;
    var before := ImportRows(t, s, rows[..l]).value;
    CacheStaysLoaded(t, s, rows[..l]);
    if i < l {
      FirstInPrefix(rows, l, i);
      m := RowsBooked(t, s, rows[..l], i);
      RowExtends(t, before, rows[l]);
      BookedStays(t, before.db, ImportRows(t, s, rows).value.db, rows[i], m);
    } else {
      ReceiptsGrow(t, s, rows[..l]);
      assert forall j :: 0 <= j < l ==> rows[..l][j] == rows[j];
      m := RowBooked(t, before, rows[l]);
    }
  }

  /** A model is only created when no model counts under the code of the row. */
  lemma {:induction false} ModelsCreated(t: Texts, s: Session, rows: seq<Row>, i: nat, j: nat)
    requires ImportRows(t, s, rows).Some? && s.cache == Load(t, s.db) && forall k :: 0 <= k < |rows| ==> Stable(t, rows[k])
    requires i < j < |ImportRows(t, s, rows).value.db.models| && |s.db.models| <= j
    ensures var models := ImportRows(t, s, rows).value.db.models; !CountsAs(t, models, i, t.fold(t.clean(models[j])))
  {
    hide ImportRow, Id, Stable, Load, CountsAs;
    if rows != [] {
      var l := |rows| - 1;
      var before, after := ImportRows(t, s, rows[..l]).value, ImportRows(t, s, rows).value;
      CacheStaysLoaded(t, s, rows[..l]);
      ModelCreated(t, before, rows[l], i);
      if j < |before.db.models| {
        ModelsCreated(t, s, rows[..l], i, j);
        SameCounts(t, before.db.models, after.db.models, i, t.fold(t.clean(before.db.models[j])));
      }
    }
  }

  lemma {:induction false} SameCounts(t: Texts, models: seq<string>, more: seq<string>, i: nat, k: string)
    requires models <= more && i < |models|
    ensures CountsAs(t, more, i, k) <==> CountsAs(t, models, i, k)
  {
  }

  lemma {:induction false} ModelCreated(t: Texts, s: Session, r: Row, i: nat)
    requires Stable(t, r) && s.cache == Load(t, s.db) && ImportRow(t, s, r).Some?
    ensures var models, after := s.db.models, ImportRow(t, s, r).value.db.models;
      && models <= after && |after| <= |models| + 1
      && (|after| == |models| + 1 && i < |models| ==> !CountsAs(t, after, i, t.fold(t.clean(after[|models|]))))
  {
    LoadedModels(t, s.db.models);
    hide LoadModels, LoadTexts, Remember, Available;
  }

  // ----- when a run goes through -----

  /** The row is the first with a stored id that has no receipt yet. */
  predicate New(db: Db, rows: seq<Row>, i: nat)
    requires i < |rows|
  {
    Id(rows[i]) !in db.receipts && FirstWithId(rows, i)
  }

  lemma {:induction false} NewInPrefix(db: Db, rows: seq<Row>, c: nat, i: nat)
    requires i < c <= |rows|
    ensures New(db, rows[..c], i) <==> New(db, rows, i)
  {
    FirstInPrefix(rows, c, i);
    hide Id, FirstWithId;
  }

  lemma {:induction false} NewIsUnknown(t: Texts, s: Session, rows: seq<Row>)
    requires rows != [] && ImportRows(t, s, rows[..|rows| - 1]).Some?
    ensures New(s.db, rows, |rows| - 1) <==> Id(rows[|rows| - 1]) !in ImportRows(t, s, rows[..|rows| - 1]).value.db.receipts
  {
    hide Id, ImportRow;
    var l := |rows| - 1;
    ReceiptsGrow(t, s, rows[..l]);
    assert forall j :: 0 <= j < l ==> rows[..l][j] == rows[j];
  }

  /** The package numbers taken are those there were and those of the new rows. */
  lemma {:induction false} PackagesTaken(t: Texts, s: Session, rows: seq<Row>, no: string)
    requires ImportRows(t, s, rows).Some?
    ensures no in ImportRows(t, s, rows).value.db.packages <==>
      no in s.db.packages || exists i :: 0 <= i < |rows| && New(s.db, rows, i) && rows[i].packageNo == no
  {
    hide Id, ImportRow, New;
    if rows != [] {
      var l := |rows| - 1;
      PackagesTaken(t, s, rows[..l], no);
      NewIsUnknown(t, s, rows);
      PackageStep(t, ImportRows(t, s, rows[..l]).value, rows[l]);
      forall i | 0 <= i < l ensures (New(s.db, rows[..l], i) <==> New(s.db, rows, i)) && rows[..l][i] == rows[i] { NewInPrefix(s.db, rows, l, i); }
    }
  }

  lemma {:induction false} PackageStep(t: Texts, s: Session, r: Row)
    requires ImportRow(t, s, r).Some?
    ensures ImportRow(t, s, r).value.db.packages.Keys == s.db.packages.Keys + if Id(r) in s.db.receipts then {} else {r.packageNo}
  {
    hide Remember;
  }

  /** A row with stable texts is refused exactly when it is new and its number is taken. */
  lemma {:induction false} RowPasses(t: Texts, s: Session, r: Row)
    requires Stable(t, r) && s.cache == Load(t, s.db)
    ensures ImportRow(t, s, r).Some? <==> Id(r) in s.db.receipts || r.packageNo !in s.db.packages
  {
    LoadedModels(t, s.db.models);
    hide LoadModels, LoadTexts, Remember, Id, Available;
    if r.code in s.db.models {
      var i :| 0 <= i < |s.db.models| && s.db.models[i] == r.code;
      assert t.fold(t.clean(s.db.models[i])) in LoadModels(t, s.db.models);
    }
  }

  ghost predicate NumbersFree(db: Db, rows: seq<Row>)
  {
    && (forall i :: 0 <= i < |rows| && New(db, rows, i) ==> rows[i].packageNo !in db.packages)
    && (forall i, j :: 0 <= i < j < |rows| && New(db, rows, i) && New(db, rows, j) ==> rows[i].packageNo != rows[j].packageNo)
  }

  /** With stable texts a run goes through if and only if the package numbers of the new rows
      are free and differ. */
  lemma {:induction false} RunsExactly(t: Texts, s: Session, rows: seq<Row>)
    requires s.cache == Load(t, s.db) && forall i :: 0 <= i < |rows| ==> Stable(t, rows[i])
    ensures ImportRows(t, s, rows).Some? <==> NumbersFree(s.db, rows)
  {
    hide Id, ImportRow, New, Stable, Load;
    if rows != [] {
      var l := |rows| - 1;
      RunsExactly(t, s, rows[..l]);
      forall i | 0 <= i < l ensures (New(s.db, rows[..l], i) <==> New(s.db, rows, i)) && rows[..l][i] == rows[i] { NewInPrefix(s.db, rows, l, i); }
      if ImportRows(t, s, rows[..l]).Some? {
        NewIsUnknown(t, s, rows);
        CacheStaysLoaded(t, s, rows[..l]);
        RowPasses(t, ImportRows(t, s, rows[..l]).value, rows[l]);
        PackagesTaken(t, s, rows[..l], rows[l].packageNo);
      }
    }
  }

  // ----- resuming -----

  /** Rows whose receipts exist change nothing. */
  lemma {:induction false} KnownRowsSkipped(t: Texts, s: Session, rows: seq<Row>)
    requires forall i :: 0 <= i < |rows| ==> Id(rows[i]) in s.db.receipts
    ensures ImportRows(t, s, rows) == Some(s)
  {
    if rows != [] { KnownRowsSkipped(t, s, rows[..|rows| - 1]); }
  }

  lemma {:induction false} ImportConcat(t: Texts, s: Session, a: seq<Row>, b: seq<Row>)
    requires ImportRows(t, s, a).Some?
    ensures ImportRows(t, s, a + b) == ImportRows(t, ImportRows(t, s, a).value, b)
  {
    hide ImportRow;
    if b == [] {
      assert a + b == a;
    } else {
      var l := |b| - 1;
      ImportConcat(t, s, a, b[..l]);
      assert (a + b)[..|a + b| - 1] == a + b[..l];
    }
  }

  lemma {:induction false} PrefixSucceeds(t: Texts, s: Session, rows: seq<Row>, c: nat)
    requires ImportRows(t, s, rows).Some? && c <= |rows|
    ensures ImportRows(t, s, rows[..c]).Some?
  {
    hide ImportRow;
    if c < |rows| {
      PrefixSucceeds(t, s, rows[..|rows| - 1], c);
      assert rows[..|rows| - 1][..c] == rows[..c];
    } else {
      assert rows[..c] == rows;
    }
  }

  /** A run over what a crashed run committed gets as far as the farther of the two. */
  lemma {:induction false} RunAgain(t: Texts, db: Db, rows: seq<Row>, c: nat, d: nat)
    requires (forall i :: 0 <= i < |rows| ==> Stable(t, rows[i])) && Run(t, db, rows).Some? && c <= |rows| && d <= |rows|
    ensures Run(t, db, rows[..c]).Some?
    ensures Run(t, Run(t, db, rows[..c]).value.db, rows[..d]) == Run(t, db, rows[..if c < d then d else c])
  {
    hide ImportRow, Stable;
    var start := Session(db, Load(t, db));
    PrefixSucceeds(t, start, rows, c);
    var at := ImportRows(t, start, rows[..c]).value;
    CacheStaysLoaded(t, start, rows[..c]);
    ReceiptsGrow(t, start, rows[..c]);
    hide ImportRows, Id, Load;
    var low := if c < d then c else d;
    forall i | 0 <= i < low ensures Id(rows[..low][i]) in at.db.receipts {
      assert Id(rows[..c][i]) in at.db.receipts;
    }
    KnownRowsSkipped(t, at, rows[..low]);
    if c < d {
      assert rows[..d] == rows[..c] + rows[c..d];
      ImportConcat(t, at, rows[..c], rows[c..d]);
      ImportConcat(t, start, rows[..c], rows[c..d]);
    }
  }

  /** The committed database after runs that crashed having committed `crashes[i]` rows each. */
  ghost function Crashed(t: Texts, db: Db, rows: seq<Row>, crashes: seq<nat>): Option<Db>
    requires forall i :: 0 <= i < |crashes| ==> crashes[i] <= |rows|
  {
    if crashes == [] then Some(db)
    else
      var before := Crashed(t, db, rows, crashes[..|crashes| - 1]);
      var last := if before.Some? then Run(t, before.value, rows[..crashes[|crashes| - 1]]) else None;
      if last.Some? then Some(last.value.db) else None
  }

  lemma {:induction false} CrashesOnlyAdvance(t: Texts, db: Db, rows: seq<Row>, crashes: seq<nat>) returns (reached: nat)
    requires (forall i :: 0 <= i < |rows| ==> Stable(t, rows[i])) && Run(t, db, rows).Some?
    requires forall i :: 0 <= i < |crashes| ==> crashes[i] <= |rows|
    ensures reached <= |rows| && Run(t, db, rows[..reached]).Some?
    ensures Crashed(t, db, rows, crashes) == Some(Run(t, db, rows[..reached]).value.db)
  {
    if crashes == [] {
      reached := 0;
    } else {
      hide Stable, Run;
      var l := |crashes| - 1;
      var before := CrashesOnlyAdvance(t, db, rows, crashes[..l]);
      RunAgain(t, db, rows, before, crashes[l]);
      reached := if before < crashes[l] then crashes[l] else before;
      RunAgain(t, db, rows, reached, reached);
    }
  }

  /** However often it crashed and wherever, a completed run leaves the database of one
      uninterrupted run, and running once more only skips. */
  lemma {:induction false} CrashAndRerun(t: Texts, db: Db, rows: seq<Row>, crashes: seq<nat>)
    requires (forall i :: 0 <= i < |rows| ==> Stable(t, rows[i])) && Run(t, db, rows).Some?
    requires forall i :: 0 <= i < |crashes| ==> crashes[i] <= |rows|
    ensures Crashed(t, db, rows, crashes).Some?
    ensures Run(t, Crashed(t, db, rows, crashes).value, rows) == Run(t, db, rows)
    ensures Run(t, Run(t, db, rows).value.db, rows) == Run(t, db, rows)
  {
    hide Stable, Run;
    var reached := CrashesOnlyAdvance(t, db, rows, crashes);
    RunAgain(t, db, rows, reached, |rows|);
    RunAgain(t, db, rows, |rows|, |rows|);
    assert rows[..|rows|] == rows;
  }

  // ----- the preflight of a rerun -----

  lemma {:induction false} IdsDifferOnce(rows: seq<Row>, i: nat)
    requires IdsDiffer(rows) && i < |rows|
    ensures FirstWithId(rows, i) && LastWithId(rows, i)
  {
    hide Id;
    forall j | 0 <= j < i ensures Id(rows[j]) != Id(rows[i]) {}
  }

  /** Of the rows that share a stored id without a receipt, one of the first `c` among them,
      the first and the last have the same checksum. */
  predicate EndsAgree(db: Db, rows: seq<Row>, c: nat)
    requires c <= |rows|
  {
    forall i, j :: 0 <= i < c && 0 <= j < |rows| && Id(rows[i]) == Id(rows[j]) && Id(rows[i]) !in db.receipts && FirstWithId(rows, i) && LastWithId(rows, j) ==>
      rows[i].checksum == rows[j].checksum
  }

  /** The first row with the id of row `k`. */
  lemma {:induction false} FirstOf(rows: seq<Row>, k: nat) returns (i: nat)
    requires k < |rows|
    ensures i <= k && Id(rows[i]) == Id(rows[k]) && FirstWithId(rows, i)
    decreases k
  {
    hide Id;
    if FirstWithId(rows, k) {
      i := k;
    } else {
      var j :| 0 <= j < k && Id(rows[j]) == Id(rows[k]);
      i := FirstOf(rows, j);
    }
  }

  lemma {:induction false} ReceiptOfPrefix(t: Texts, db: Db, rows: seq<Row>, c: nat, i: nat)
    requires i < c <= |rows| && Run(t, db, rows[..c]).Some? && FirstWithId(rows, i) && Id(rows[i]) !in db.receipts
    ensures var after := Run(t, db, rows[..c]).value.db; Id(rows[i]) in after.receipts && after.receipts[Id(rows[i])] == rows[i].checksum
  {
    hide Id, Load, ImportRows;
    FirstInPrefix(rows, c, i);
    ReceiptOfFirst(t, Session(db, Load(t, db)), rows[..c], i);
  }

  lemma {:induction false} AgreeingPass(t: Texts, db: Db, rows: seq<Row>, c: nat, j: nat)
    requires Preflight(db, rows) && c <= |rows| && Run(t, db, rows[..c]).Some? && EndsAgree(db, rows, c)
    requires j < |rows| && LastWithId(rows, j) && Id(rows[j]) in Run(t, db, rows[..c]).value.db.receipts
    ensures Run(t, db, rows[..c]).value.db.receipts[Id(rows[j])] == rows[j].checksum
  {
    ReceiptsGrow(t, Session(db, Load(t, db)), rows[..c]);
    hide ImportRows, Id, Load, LastWithId, FirstWithId;
    if Id(rows[j]) !in db.receipts {
      var k :| 0 <= k < c && Id(rows[..c][k]) == Id(rows[j]);
      assert Id(rows[k]) == Id(rows[j]);
      var i := FirstOf(rows, k);
      ReceiptOfPrefix(t, db, rows, c, i);
    }
  }

  /** After a run that committed `c` rows, all of them if it completed, the preflight that
      passed before passes again if and only if the first and the last row of every stored id
      have the same checksum; it does when no two stored ids are equal. */
  lemma {:induction false} PreflightAgainExactly(t: Texts, db: Db, rows: seq<Row>, c: nat)
    requires Preflight(db, rows) && c <= |rows| && Run(t, db, rows[..c]).Some?
    ensures Preflight(Run(t, db, rows[..c]).value.db, rows) <==> EndsAgree(db, rows, c)
    ensures IdsDiffer(rows) ==> EndsAgree(db, rows, c)
  {
    hide ImportRows, Id, Load, LastWithId, FirstWithId, Run;
    var after := Run(t, db, rows[..c]).value.db;
    if EndsAgree(db, rows, c) {
      forall j | 0 <= j < |rows| && Id(rows[j]) in after.receipts && LastWithId(rows, j) ensures after.receipts[Id(rows[j])] == rows[j].checksum {
        AgreeingPass(t, db, rows, c, j);
      }
    }
    if Preflight(after, rows) {
      forall i, j | 0 <= i < c && 0 <= j < |rows| && Id(rows[i]) == Id(rows[j]) && Id(rows[i]) !in db.receipts && FirstWithId(rows, i) && LastWithId(rows, j)
        ensures rows[i].checksum == rows[j].checksum
      {
        ReceiptOfPrefix(t, db, rows, c, i);
      }
    }
    if IdsDiffer(rows) {
      forall i, j | 0 <= i < c && 0 <= j < |rows| && Id(rows[i]) == Id(rows[j]) ensures i == j { SameRow(rows, i, j); }
    }
  }

  lemma {:induction false} SameRow(rows: seq<Row>, i: nat, k: nat)
    requires IdsDiffer(rows) && i < |rows| && k < |rows| && Id(rows[i]) == Id(rows[k])
    ensures i == k
  {
    hide Id;
  }

  /** Two rows the profile accepts, whose ids only differ past their stored length, make a
      completed import impossible to run again: the receipt of the first contradicts the last. */
  lemma {:induction false} LongIdsBlockReruns(t: Texts, rows: seq<Row>)
    requires |rows| == 2 && FullIdsDiffer(rows) && Id(rows[0]) == Id(rows[1]) && rows[0].checksum != rows[1].checksum
    requires Run(t, EMPTY, rows).Some?
    ensures Preflight(EMPTY, rows) && !Preflight(Run(t, EMPTY, rows).value.db, rows)
  {
    hide Id, Run;
    assert FirstWithId(rows, 0) && LastWithId(rows, 1);
    assert rows[..2] == rows;
    PreflightAgainExactly(t, EMPTY, rows, 2);
  }

  const EMPTY := Db(map[], map[], [], [], [], [])

  // ----- how much is added -----

  function StockSum(stock: seq<Stock>): int
  {
    if stock == [] then 0 else StockSum(stock[..|stock| - 1]) + stock[|stock| - 1].quantity
  }

  /** The available quantities of the rows that are the first with their id. */
  function FirstSum(rows: seq<Row>): int
  {
    if rows == [] then 0
    else
      var l := |rows| - 1;
      FirstSum(rows[..l]) + if FirstWithId(rows, l) then Available(rows[l]) else 0
  }

  lemma {:induction false} StockStep(t: Texts, s: Session, r: Row)
    requires ImportRow(t, s, r).Some?
    ensures StockSum(ImportRow(t, s, r).value.db.stock) == StockSum(s.db.stock) + if Id(r) in s.db.receipts then 0 else Available(r)
  {
    hide Remember;
    if Id(r) !in s.db.receipts {
      var (m, n) := ModelFor(t, s, r);
      var longer := ImportRow(t, s, r).value.db.stock;
      assert longer[..|longer| - 1] == s.db.stock;
    }
  }

  /** Over a database without receipts for these rows, an import adds exactly the quantities
      of the first rows with each id. */
  lemma {:induction false} QuantityAdded(t: Texts, s: Session, rows: seq<Row>)
    requires ImportRows(t, s, rows).Some? && forall i :: 0 <= i < |rows| ==> Id(rows[i]) !in s.db.receipts
    ensures StockSum(ImportRows(t, s, rows).value.db.stock) == StockSum(s.db.stock) + FirstSum(rows)
  {
    hide ImportRow, Id, Available;
    if rows != [] {
      var l := |rows| - 1;
      QuantityAdded(t, s, rows[..l]);
      ReceiptsGrow(t, s, rows[..l]);
      var before := ImportRows(t, s, rows[..l]).value;
      StockStep(t, before, rows[l]);
      assert forall i :: 0 <= i < l ==> Id(rows[..l][i]) == Id(rows[i]);
      assert FirstWithId(rows, l) <==> Id(rows[l]) !in before.db.receipts;
    }
  }

  /** Only rows without available pieces repeat a stored id. */
  predicate NothingLost(rows: seq<Row>) { forall i :: 0 <= i < |rows| ==> FirstWithId(rows, i) || Available(rows[i]) == 0 }

  lemma {:induction false} FirstSumBound(rows: seq<Row>)
    requires forall i :: 0 <= i < |rows| ==> Available(rows[i]) >= 0
    ensures FirstSum(rows) <= AvailableSum(rows)
    ensures FirstSum(rows) == AvailableSum(rows) <==> NothingLost(rows)
  {
    hide Id, Available;
    if rows != [] {
      var l := |rows| - 1;
      FirstSumBound(rows[..l]);
      forall i | 0 <= i < l ensures FirstWithId(rows[..l], i) <==> FirstWithId(rows, i) { FirstInPrefix(rows, l, i); }
    }
  }

  lemma {:induction false} FirstInPrefix(rows: seq<Row>, c: nat, i: nat)
    requires i < c <= |rows|
    ensures FirstWithId(rows[..c], i) <==> FirstWithId(rows, i)
  {
    hide Id;
    assert forall j :: 0 <= j < c ==> rows[..c][j] == rows[j];
  }

  lemma {:induction false} DistinctLoseNothing(rows: seq<Row>)
    requires IdsDiffer(rows)
    ensures NothingLost(rows)
  {
    hide Id;
    forall i | 0 <= i < |rows| ensures FirstWithId(rows, i) { IdsDifferOnce(rows, i); }
  }

  /** A first import adds exactly the profiled quantity if and only if no row with pieces
      repeats an id once ids are cut to their stored length: such a row is passed over. */
  lemma {:induction false} AddsProfiledQuantityExactly(t: Texts, db: Db, rows: seq<Row>)
    requires Run(t, db, rows).Some? && forall i :: 0 <= i < |rows| ==> Acceptable(rows[i]) && Id(rows[i]) !in db.receipts
    ensures StockSum(Run(t, db, rows).value.db.stock) == StockSum(db.stock) + AvailableSum(rows) <==> NothingLost(rows)
    ensures IdsDiffer(rows) ==> NothingLost(rows)
  {
    assert forall i :: 0 <= i < |rows| ==> Available(rows[i]) >= 0;
    hide Id, Available, Acceptable;
    QuantityAdded(t, Session(db, Load(t, db)), rows);
    FirstSumBound(rows);
    if IdsDiffer(rows) { DistinctLoseNothing(rows); }
  }

  /** The check for a positive whole number passes a fraction of at most a millionth as no
      pieces, and every other quantity it passes is at least one piece. */
  lemma {:induction false} ZeroQuantityExactly(x: real)
    ensures PositiveInt(Some(x)) == Some(0) <==> 0.0 < x <= 0.000001
    ensures PositiveInt(Some(x)).Some? && x > 0.000001 ==> PositiveInt(Some(x)).value >= 1
  {
    if 0.0 < x <= 0.000001 { assert (x + 0.5).Floor == 0; }
  }

  // ----- texts that cleaning changes -----

  lemma {:induction false} LoadOne(t: Texts, m: nat, text: string)
    ensures LoadTexts(t, [(m, text)]) == {(m, t.fold(t.clean(text)))}
  {
    assert [(m, text)][..0] == [];
    var none: set<(nat, string)> := {};
    assert LoadTexts(t, []) == none;
  }

  lemma {:induction false} LoadOneModel(t: Texts, code: string)
    ensures LoadModels(t, [code]) == if t.clean(code) == "" then map[] else map[t.fold(t.clean(code)) := 0]
  {
    assert [code][..0] == [];
  }

  /** The database after one row over the empty one. */
  function First(r: Row): Db
  {
    Db(map[Id(r) := r.checksum], map[r.packageNo := Package(Id(r), r.packageNo, 0, r.color, r.size, r.aliases)],
       [Stock(r.packageNo, 0, r.color, r.size, Available(r), Available(r))], [r.code], [(0, r.size)], [(0, r.color)])
  }

  lemma {:induction false} RememberFirst(t: Texts, text: string)
    ensures Remember(t, [], {}, 0, text).0 == [(0, text)] && Remember(t, [], {}, 0, text).1 == {(0, t.fold(text))}
  {
    var none: seq<(nat, string)>, unknown: set<(nat, string)> := [], {};
    assert none + [(0, text)] == [(0, text)] && unknown + {(0, t.fold(text))} == {(0, t.fold(text))};
  }

  lemma {:induction false} FirstRow(t: Texts, r: Row)
    ensures Load(t, EMPTY) == Cache(map[], {}, {})
    ensures ImportRow(t, Session(EMPTY, Load(t, EMPTY)), r) == Some(Session(First(r), Cache(map[t.fold(r.code) := 0], {(0, t.fold(r.size))}, {(0, t.fold(r.color))})))
  {
    hide Id, Available;
    var none: set<(nat, string)> := {};
    assert LoadTexts(t, []) == none;
    var (m, n) := ModelFor(t, Session(EMPTY, Load(t, EMPTY)), r);
    assert m == 0 && n.db.models == [r.code] && n.cache.models == map[t.fold(r.code) := 0];
    assert n.db.receipts[Id(r) := r.checksum] == First(r).receipts && n.db.packages[r.packageNo := First(r).packages[r.packageNo]] == First(r).packages;
    assert n.db.stock + First(r).stock == First(r).stock;
    RememberFirst(t, r.size);
    RememberFirst(t, r.color);
  }

  /** A second row with the texts of the first adds neither model nor size nor color when
      they are in the cache, and else adds what is not, the code being refused. */
  lemma {:induction false} SecondRow(t: Texts, a: Row, b: Row, cache: Cache)
    requires Id(a) != Id(b) && a.packageNo != b.packageNo && a.code == b.code && a.size == b.size && a.color == b.color
    requires t.fold(b.code) in cache.models ==> cache.models[t.fold(b.code)] == 0
    ensures var next := ImportRow(t, Session(First(a), cache), b);
      && (next.Some? <==> t.fold(b.code) in cache.models)
      && (next.Some? ==> next.value.db.sizes == [(0, a.size)] + if (0, t.fold(b.size)) in cache.sizes then [] else [(0, b.size)])
      && (next.Some? ==> next.value.db.colors == [(0, a.color)] + if (0, t.fold(b.color)) in cache.colors then [] else [(0, b.color)])
  {
    hide Id, Available;
  }

  lemma {:induction false} RunsOfTwo(t: Texts, db: Db, a: Row, b: Row)
    ensures Run(t, db, [a]) == ImportRow(t, Session(db, Load(t, db)), a)
    ensures Run(t, db, [a, b]) == if Run(t, db, [a]).None? then None else ImportRow(t, Run(t, db, [a]).value, b)
  {
    hide ImportRow, Load;
    var none: seq<Row> := [];
    assert [a, b][..1] == [a] && [a][..0] == none;
    assert ImportRows(t, Session(db, Load(t, db)), none) == Some(Session(db, Load(t, db)));
  }

  /** That the texts are stable is exactly what is needed: of any two new rows with the same
      texts, a crash between them and a second run give the database of one run if and only
      if those texts stay findable. Otherwise the second run adds the size or the color once
      more, or fails on the code. */
  lemma {:induction false} StableIsNeeded(t: Texts, a: Row, b: Row)
    requires Id(a) != Id(b) && a.packageNo != b.packageNo && a.code == b.code && a.size == b.size && a.color == b.color
    ensures Run(t, EMPTY, [a, b]).Some? && Crashed(t, EMPTY, [a, b], [1]) == Some(First(a))
    ensures var rerun := Run(t, First(a), [a, b]); (rerun.Some? && rerun.value.db == Run(t, EMPTY, [a, b]).value.db) <==> Stable(t, a)
  {
    hide *;
    BothRows(t, a, b);
    assert [a, b][..1] == [a];
    OneCrash(t, EMPTY, [a, b]);
    SecondRun(t, a, b);
    if Stable(t, a) {
      SameTextsStable(t, a, b);
      forall i | 0 <= i < 2 ensures Stable(t, [a, b][i]) {}
      CrashAndRerun(t, EMPTY, [a, b], [1]);
    }
  }

  lemma {:induction false} SameTextsStable(t: Texts, a: Row, b: Row)
    requires a.code == b.code && a.size == b.size && a.color == b.color
    ensures Stable(t, a) <==> Stable(t, b)
  {
  }

  /** One run over both rows. */
  lemma {:induction false} BothRows(t: Texts, a: Row, b: Row)
    requires Id(a) != Id(b) && a.packageNo != b.packageNo && a.code == b.code && a.size == b.size && a.color == b.color
    ensures Run(t, EMPTY, [a]).Some? && Run(t, EMPTY, [a]).value.db == First(a) && Run(t, EMPTY, [a, b]).Some?
    ensures Run(t, EMPTY, [a, b]).value.db.sizes == [(0, a.size)] && Run(t, EMPTY, [a, b]).value.db.colors == [(0, a.color)]
  {
    var once := Cache(map[t.fold(a.code) := 0], {(0, t.fold(a.size))}, {(0, t.fold(a.color))});
    FirstRow(t, a);
    RunsOfTwo(t, EMPTY, a, b);
    SecondRow(t, a, b, once);
    hide Run, ImportRow, Load, First, Id;
    assert (0, t.fold(b.size)) in once.sizes && (0, t.fold(b.color)) in once.colors;
    assert [(0, a.size)] + [] == [(0, a.size)] && [(0, a.color)] + [] == [(0, a.color)];
  }

  /** The run after a crash between the rows either fails or adds a size or a color again,
      unless the texts are stable. */
  lemma {:induction false} SecondRun(t: Texts, a: Row, b: Row)
    requires Id(a) != Id(b) && a.packageNo != b.packageNo && a.code == b.code && a.size == b.size && a.color == b.color
    ensures var rerun := Run(t, First(a), [a, b]);
      (rerun.Some? && |rerun.value.db.sizes| == 1 && |rerun.value.db.colors| == 1) ==> Stable(t, a)
  {
    RunsOfTwo(t, First(a), a, b);
    RowKnown(t, Session(First(a), Load(t, First(a))), a);
    LoadOneModel(t, a.code);
    LoadOne(t, 0, a.size);
    LoadOne(t, 0, a.color);
    SecondRow(t, a, b, Load(t, First(a)));
    hide Run, ImportRow, LoadModels, LoadTexts, Id;
  }

  lemma {:induction false} OneCrash(t: Texts, db: Db, rows: seq<Row>)
    requires |rows| >= 1 && Run(t, db, rows[..1]).Some?
    ensures Crashed(t, db, rows, [1]) == Some(Run(t, db, rows[..1]).value.db)
  {
    hide Run;
    var none: seq<nat> := [];
    assert [1][..0] == none;
    assert Crashed(t, db, rows, none) == Some(db);
  }

  // ----- the run -----

  /** How many rows contradict the receipt of their id. */
  function Conflicts(receipts: map<string, string>, rows: seq<Row>): nat
  {
    if rows == [] then 0
    else
      var r := rows[|rows| - 1];
      Conflicts(receipts, rows[..|rows| - 1]) + if Id(r) in receipts && receipts[Id(r)] != r.checksum then 1 else 0
  }

  lemma {:induction false} SameConflicts(receipts: map<string, string>, more: map<string, string>, rows: seq<Row>)
    requires forall i :: 0 <= i < |rows| ==> Id(rows[i]) in receipts && Id(rows[i]) in more && more[Id(rows[i])] == receipts[Id(rows[i])]
    ensures Conflicts(more, rows) == Conflicts(receipts, rows)
  {
    hide Id;
    if rows != [] { SameConflicts(receipts, more, rows[..|rows| - 1]); }
  }

  /** One more row: how the counts of a run grow. */
  lemma {:induction false} CountsNext(t: Texts, s: Session, rows: seq<Row>, i: nat)
    requires i < |rows| && ImportRows(t, s, rows[..i + 1]).Some? && ImportRows(t, s, rows[..i]).Some?
    ensures var now, after := ImportRows(t, s, rows[..i]).value.db.receipts, ImportRows(t, s, rows[..i + 1]).value.db.receipts;
      var id := Id(rows[i]);
      && |after| == |now| + (if id in now then 0 else 1)
      && Conflicts(after, rows[..i + 1]) == Conflicts(now, rows[..i]) + if id in now && now[id] != rows[i].checksum then 1 else 0
  {
    hide ImportRow, Id;
    ImportNext(t, s, rows, i);
    ReceiptsGrow(t, s, rows[..i]);
    var now := ImportRows(t, s, rows[..i]).value;
    ReceiptStep(t, now, rows[i]);
    var after := ImportRows(t, s, rows[..i + 1]).value.db.receipts;
    assert rows[..i + 1][..i] == rows[..i];
    forall j | 0 <= j < i ensures Id(rows[..i][j]) in after && after[Id(rows[..i][j])] == now.db.receipts[Id(rows[..i][j])] {}
    SameConflicts(now.db.receipts, after, rows[..i]);
  }

  datatype Outcome = Done | Crash | Refused(row: nat) | Conflicting | Invalid

  /** The database after an uninterrupted run over these rows. */
  ghost predicate Reached(t: Texts, db: Db, rows: seq<Row>, now: Db) { Run(t, db, rows).Some? && now == Run(t, db, rows).value.db }

  lemma {:induction false} ReachedIs(t: Texts, db: Db, rows: seq<Row>, now: Db)
    requires Reached(t, db, rows, now)
    ensures Run(t, db, rows).Some? && now == Run(t, db, rows).value.db
  {
  }

  lemma {:induction false} ReachedNow(t: Texts, start: Session, rows: seq<Row>, s: Session)
    requires start == Session(start.db, Load(t, start.db)) && ImportRows(t, start, rows) == Some(s)
    ensures Reached(t, start.db, rows, s.db)
  {
    hide ImportRows, Load;
  }

  class Importer {
    var committed: Db

    constructor (db: Db)
      ensures committed == db
    {
      committed := db;
    }

    /** One apply run, committing after every imported row whose number is a multiple of
        `batch` and at the end; `crashAt` is the row during which the
        process dies, if it does. What was committed is always what the first rows give. */
    method RunImport(t: Texts, rows: seq<Row>, batch: nat, crashAt: Option<nat>)
      returns (outcome: Outcome, created: nat, skipped: nat, conflicts: nat, ghost reached: nat)
      requires batch > 0
      modifies this
      ensures outcome.Invalid? <==> !(FullIdsDiffer(rows) && forall i :: 0 <= i < |rows| ==> Acceptable(rows[i]))
      ensures outcome.Conflicting? ==> !Preflight(old(committed), rows)
      ensures outcome.Invalid? || outcome.Conflicting? ==> committed == old(committed)
      ensures reached <= |rows| && Run(t, old(committed), rows[..reached]).Some? && committed == Run(t, old(committed), rows[..reached]).value.db
      ensures outcome.Done? ==> reached == |rows| && created + skipped + conflicts == |rows|
      ensures outcome.Done? ==> created == |committed.receipts| - |old(committed).receipts| && conflicts == Conflicts(committed.receipts, rows)
      ensures outcome.Crash? ==> crashAt.Some? && reached <= crashAt.value
      ensures outcome.Refused? ==> Run(t, old(committed), rows).None?
      ensures crashAt.None? && Run(t, old(committed), rows).None? ==> !outcome.Done?
    {
      hide ImportRow, ImportRows, Id, Acceptable, Load, Preflight, StockSum, AvailableSum, Conflicts, Reached;
      reached, created, skipped, conflicts := 0, 0, 0, 0;
      NothingImported(t, Session(committed, Load(t, committed)), rows);
      ReachedNow(t, Session(committed, Load(t, committed)), rows[..0], Session(committed, Load(t, committed)));
      ReachedIs(t, committed, rows[..0], committed);
      var profile := ProfileRows(rows);
      if profile.None? { outcome := Invalid; return; }
      if !Preflight(committed, rows) { outcome := Conflicting; return; }
      ghost var start := Session(committed, Load(t, committed));
      var session := Session(committed, Load(t, committed));
      for i := 0 to |rows|
        invariant ImportRows(t, start, rows[..i]) == Some(session)
        invariant reached <= i && Reached(t, start.db, rows[..reached], committed)
        invariant start == Session(old(committed), Load(t, old(committed)))
        invariant created + skipped + conflicts == i
        invariant created == |session.db.receipts| - |start.db.receipts| && conflicts == Conflicts(session.db.receipts, rows[..i])
        invariant crashAt.Some? ==> i <= crashAt.value || crashAt.value >= |rows|
      {
        ImportNext(t, start, rows, i);
        ReachedIs(t, start.db, rows[..reached], committed);
        if crashAt == Some(i) { outcome := Crash; return; }
        var r := rows[i];
        if Id(r) in session.db.receipts {
          if session.db.receipts[Id(r)] != r.checksum { conflicts := conflicts + 1; } else { skipped := skipped + 1; }
          RowKnown(t, session, r);
          CountsNext(t, start, rows, i);
        } else {
          var next := ImportRow(t, session, r);
          if next.None? {
            NoWayPast(t, start, rows, i + 1);
            outcome := Refused(i);
            return;
          }
          CountsNext(t, start, rows, i);
          session, created := next.value, created + 1;
          ReachedNow(t, start, rows[..i + 1], session);
          if (i + 1) % batch == 0 { committed, reached := session.db, i + 1; }
        }
      }
      assert rows[..|rows|] == rows;
      ReachedNow(t, start, rows, session);
      committed, reached := session.db, |rows|;
      ReachedIs(t, start.db, rows[..reached], committed);
      outcome := Done;
    }
  }

  lemma {:induction false} NothingImported(t: Texts, s: Session, rows: seq<Row>)
    ensures ImportRows(t, s, rows[..0]) == Some(s) && Conflicts(s.db.receipts, rows[..0]) == 0
  {
  }

  lemma {:induction false} ImportNext(t: Texts, s: Session, rows: seq<Row>, i: nat)
    requires i < |rows| && ImportRows(t, s, rows[..i]).Some?
    ensures ImportRows(t, s, rows[..i + 1]) == ImportRow(t, ImportRows(t, s, rows[..i]).value, rows[i])
  {
    hide ImportRow;
    assert rows[..i + 1][..i] == rows[..i];
  }

  lemma {:induction false} RowKnown(t: Texts, s: Session, r: Row)
    requires Id(r) in s.db.receipts
    ensures ImportRow(t, s, r) == Some(s)
  {
  }

  lemma {:induction false} NoWayPast(t: Texts, s: Session, rows: seq<Row>, c: nat)
    requires c <= |rows| && ImportRows(t, s, rows[..c]).None?
    ensures ImportRows(t, s, rows).None?
  {
    hide ImportRow;
    if ImportRows(t, s, rows).Some? { PrefixSucceeds(t, s, rows, c); }
  }
}
