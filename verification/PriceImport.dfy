/** Matching reviewed catalog prices to ERP models, and applying them. */
module PriceImport {
  import opened Base

  type Id = nat

  /** Normalised model and variant numbers; empty when there is none. */
  datatype Parts = Parts(model: string, variant: string)

  /** One row of the reviewed manifest. */
  datatype Row = Row(model: string, variant: string, price: real, currency: string) {
    function Key(): Parts { Parts(model, variant) }
  }

  datatype Price = Price(amount: Option<real>, currency: string, source: string, request: Option<nat>, updatedAt: nat)

  type Models = map<Id, Parts>
  type Prices = map<Id, Price>

  function PartsOf(models: Models, id: Id): Parts { if id in models then models[id] else Parts("", "") }

  // ----- matching -----

  predicate HasBoth(p: Parts) { p.model != "" && p.variant != "" }

  /** The models of one exact identity, in reading order. */
  function WithKey(ids: seq<Id>, models: Models, key: Parts): (r: seq<Id>)
    ensures forall id :: id in r <==> id in ids && PartsOf(models, id) == key && HasBoth(key)
  {
    if ids == [] then []
    else
      var l := |ids| - 1;
      var rest := WithKey(ids[..l], models, key);
      assert forall id :: id in ids <==> id in ids[..l] || id == ids[l];
      if PartsOf(models, ids[l]) == key && HasBoth(key) then rest + [ids[l]] else rest
  }

  /** The models of one variant number. */
  function WithVariant(ids: seq<Id>, models: Models, variant: string): (r: seq<Id>)
    ensures forall id :: id in r <==> id in ids && PartsOf(models, id).variant == variant && variant != ""
  {
    if ids == [] then []
    else
      var l := |ids| - 1;
      var rest := WithVariant(ids[..l], models, variant);
      assert forall id :: id in ids <==> id in ids[..l] || id == ids[l];
      if PartsOf(models, ids[l]).variant == variant && variant != "" then rest + [ids[l]] else rest
  }

  function VariantCount(rows: seq<Row>, variant: string): nat
  {
    if rows == [] then 0
    else VariantCount(rows[..|rows| - 1], variant) + if rows[|rows| - 1].variant == variant then 1 else 0
  }

  /** The models a row names: those of its exact identity, or else the only model with its
      variant number when no other row has that number. */
  function Candidates(ids: seq<Id>, models: Models, rows: seq<Row>, row: Row): seq<Id>
  {
    var exact := WithKey(ids, models, row.Key());
    var same := WithVariant(ids, models, row.variant);
    if exact != [] then exact
    else if |same| == 1 && VariantCount(rows, row.variant) == 1 then same
    else []
  }

  /** No two rows have the same identity, as in the manifests the exporter writes. */
  ghost predicate UniqueKeys(rows: seq<Row>)
  {
    forall i, j :: 0 <= i < j < |rows| ==> rows[i].Key() != rows[j].Key()
  }

  lemma {:induction false} CountAtLeast(rows: seq<Row>, i: nat, variant: string)
    requires i < |rows| && rows[i].variant == variant
    ensures VariantCount(rows, variant) >= 1
  {
    if i < |rows| - 1 { CountAtLeast(rows[..|rows| - 1], i, variant); }
  }

  lemma {:induction false} CountTwo(rows: seq<Row>, i: nat, j: nat)
    requires i < j < |rows| && rows[i].variant == rows[j].variant
    ensures VariantCount(rows, rows[i].variant) >= 2
  {
    var l := |rows| - 1;
    if j == l {
      CountAtLeast(rows[..l], i, rows[i].variant);
    } else {
      CountTwo(rows[..l], i, j);
    }
  }

  /** Exact matches and unique-variant matches together never give one model to two rows. */
  lemma {:induction false} AtMostOneRow(ids: seq<Id>, models: Models, rows: seq<Row>, i: nat, j: nat, id: Id)
    requires UniqueKeys(rows) && i < j < |rows|
    requires id in Candidates(ids, models, rows, rows[i])
    ensures id !in Candidates(ids, models, rows, rows[j])
  {
    if rows[i].variant == rows[j].variant {
      CountTwo(rows, i, j);
      assert rows[i].Key() != rows[j].Key();
    }
  }

  lemma {:induction false} CandidatesDistinct(ids: seq<Id>, models: Models, rows: seq<Row>, row: Row)
    requires Distinct(ids)
    ensures Distinct(Candidates(ids, models, rows, row))
  {
    KeyDistinct(ids, models, row.Key());
  }

  lemma {:induction false} KeyDistinct(ids: seq<Id>, models: Models, key: Parts)
    requires Distinct(ids)
    ensures Distinct(WithKey(ids, models, key))
  {
    if ids != [] {
      var l := |ids| - 1;
      KeyDistinct(ids[..l], models, key);
      assert ids[l] !in ids[..l];
      DistinctAppend(WithKey(ids[..l], models, key), ids[l]);
    }
  }

  // ----- the updates -----

  predicate Same(p: Price, row: Row) { p.amount == Some(row.price) && p.currency == row.currency }

  datatype Update = Update(id: Id, row: Row)

  predicate Needed(prices: Prices, u: Update) { !(u.id in prices && Same(prices[u.id], u.row)) }

  /** One entry per matched model. */
  function Matches(candidates: seq<Id>, row: Row): (r: seq<Update>)
    ensures |r| == |candidates| && forall i :: 0 <= i < |r| ==> r[i] == Update(candidates[i], row)
  {
    if candidates == [] then [] else Matches(candidates[..|candidates| - 1], row) + [Update(candidates[|candidates| - 1], row)]
  }

  function AllMatches(ids: seq<Id>, models: Models, all: seq<Row>, rows: seq<Row>): seq<Update>
  {
    if rows == [] then []
    else
      var l := |rows| - 1;
      AllMatches(ids, models, all, rows[..l]) + Matches(Candidates(ids, models, all, rows[l]), rows[l])
  }

  /** The matches whose model does not have the price yet. */
  function Pending(prices: Prices, matches: seq<Update>): (r: seq<Update>)
    ensures forall u :: u in r <==> u in matches && Needed(prices, u)
  {
    if matches == [] then []
    else
      var l := |matches| - 1;
      var rest := Pending(prices, matches[..l]);
      assert forall u :: u in matches <==> u in matches[..l] || u == matches[l];
      if Needed(prices, matches[l]) then rest + [matches[l]] else rest
  }

  function Updates(ids: seq<Id>, models: Models, prices: Prices, rows: seq<Row>): seq<Update>
  {
    Pending(prices, AllMatches(ids, models, rows, rows))
  }

  lemma {:induction false} MatchOf(ids: seq<Id>, models: Models, all: seq<Row>, rows: seq<Row>)
    ensures forall u :: u in AllMatches(ids, models, all, rows) <==> u.row in rows && u.id in Candidates(ids, models, all, u.row)
  {
    hide Candidates;
    if rows != [] {
      var l := |rows| - 1;
      MatchOf(ids, models, all, rows[..l]);
      assert forall r :: r in rows <==> r in rows[..l] || r == rows[l];
      var before, last := AllMatches(ids, models, all, rows[..l]), Matches(Candidates(ids, models, all, rows[l]), rows[l]);
      forall u: Update ensures u in before + last <==> u.row in rows && u.id in Candidates(ids, models, all, u.row) {
        assert u in last <==> u.row == rows[l] && u.id in Candidates(ids, models, all, rows[l]) by { InMatches(Candidates(ids, models, all, rows[l]), rows[l], u); }
      }
    }
  }

  lemma {:induction false} InMatches(candidates: seq<Id>, row: Row, u: Update)
    ensures u in Matches(candidates, row) <==> u.row == row && u.id in candidates
  {
    var r := Matches(candidates, row);
    if u.row == row && u.id in candidates {
      var i :| 0 <= i < |candidates| && candidates[i] == u.id;
      assert r[i] == u;
    }
  }

  /** No model is named by two matches. */
  lemma {:induction false} OneMatchPerModel(ids: seq<Id>, models: Models, all: seq<Row>, rows: seq<Row>)
    requires UniqueKeys(all) && Distinct(ids) && rows <= all
    ensures forall i, j :: 0 <= i < j < |AllMatches(ids, models, all, rows)| ==>
      AllMatches(ids, models, all, rows)[i].id != AllMatches(ids, models, all, rows)[j].id
  {
    if rows != [] {
      var l := |rows| - 1;
      OneMatchPerModel(ids, models, all, rows[..l]);
      CandidatesDistinct(ids, models, all, rows[l]);
      hide Candidates;
      var before, last := AllMatches(ids, models, all, rows[..l]), Matches(Candidates(ids, models, all, rows[l]), rows[l]);
      forall i | 0 <= i < |before| ensures before[i].id !in Candidates(ids, models, all, rows[l]) {
        assert before[i] in before;
        MatchOf(ids, models, all, rows[..l]);
        var k :| 0 <= k < l && rows[..l][k] == before[i].row;
        assert all[k] == rows[k] && all[l] == rows[l];
        AtMostOneRow(ids, models, all, k, l, before[i].id);
      }
      Joined(before, last);
    }
  }

  ghost predicate IdsDiffer(us: seq<Update>) { forall i, j :: 0 <= i < j < |us| ==> us[i].id != us[j].id }

  lemma {:induction false} Joined(a: seq<Update>, b: seq<Update>)
    requires IdsDiffer(a) && IdsDiffer(b)
    requires forall i, j :: 0 <= i < |a| && 0 <= j < |b| ==> a[i].id != b[j].id
    ensures IdsDiffer(a + b)
  {
  }

  // ----- what a row names -----

  /** The model has exactly the identity of the row. */
  predicate SameIdentity(models: Models, row: Row, id: Id)
  {
    id in models && models[id] == Parts(row.model, row.variant) && row.model != "" && row.variant != ""
  }

  predicate SameVariant(models: Models, row: Row, id: Id) { id in models && row.variant != "" && models[id].variant == row.variant }

  function VariantIs(models: Models, row: Row): Id -> bool { (id: Id) => SameVariant(models, row, id) }

  function ShareVariant(row: Row): Row -> bool { (r: Row) => r.variant == row.variant }

  /** The row is to price this model: by its identity or, when no model has that identity, by
      a variant number that among the models only this one and among the rows only this one has. */
  ghost predicate Names(ids: seq<Id>, models: Models, rows: seq<Row>, row: Row, id: Id)
  {
    if exists x :: x in ids && SameIdentity(models, row, x) then id in ids && SameIdentity(models, row, id)
    else Only(VariantIs(models, row), ids, id) && Only(ShareVariant(row), rows, row)
  }

  lemma {:induction false} VariantFiltered(ids: seq<Id>, models: Models, row: Row)
    ensures WithVariant(ids, models, row.variant) == Filter(VariantIs(models, row), ids)
  {
    if ids != [] { VariantFiltered(ids[..|ids| - 1], models, row); }
  }

  lemma {:induction false} CountFiltered(rows: seq<Row>, row: Row)
    ensures VariantCount(rows, row.variant) == |Filter(ShareVariant(row), rows)|
  {
    if rows != [] { CountFiltered(rows[..|rows| - 1], row); }
  }

  lemma {:induction false} ExactAre(ids: seq<Id>, models: Models, row: Row, id: Id)
    ensures id in WithKey(ids, models, row.Key()) <==> id in ids && SameIdentity(models, row, id)
  {
  }

  lemma {:induction false} CountOnce(rows: seq<Row>, row: Row)
    requires row in rows
    ensures VariantCount(rows, row.variant) == 1 <==> Only(ShareVariant(row), rows, row)
  {
    CountFiltered(rows, row);
    FilterOnce(ShareVariant(row), rows, row);
    hide VariantCount, Only;
    var found := Filter(ShareVariant(row), rows);
    assert row in found;
    hide Filter;
    if |found| == 1 { assert found == [row]; }
  }

  /** The models found for a row are those it names. */
  lemma {:induction false} CandidatesAre(ids: seq<Id>, models: Models, rows: seq<Row>, row: Row)
    requires row in rows
    ensures forall id :: id in Candidates(ids, models, rows, row) <==> Names(ids, models, rows, row, id)
  {
    var exact, same := WithKey(ids, models, row.Key()), WithVariant(ids, models, row.variant);
    forall id { ExactAre(ids, models, row, id); }
    CountOnce(rows, row);
    VariantFiltered(ids, models, row);
    forall id { FilterOnce(VariantIs(models, row), ids, id); }
    hide WithKey, WithVariant, VariantCount, SameIdentity, Only, Filter;
    if exact != [] { assert exact[0] in exact; }
    if |same| == 1 { assert same == [same[0]]; }
  }

  // ----- planning -----

  /** The plan of the tool: what to update, what is already right, what has no model. */
  method PlanImport(ids: seq<Id>, models: Models, prices: Prices, rows: seq<Row>)
    returns (updates: seq<Update>, settled: seq<Update>, missing: seq<Row>)
    ensures updates == Updates(ids, models, prices, rows)
    ensures |updates| + |settled| == |AllMatches(ids, models, rows, rows)|
    ensures forall u :: u in updates || u in settled <==> u.row in rows && Names(ids, models, rows, u.row, u.id)
    ensures forall u :: u in settled ==> u.id in prices && prices[u.id].amount == Some(u.row.price) && prices[u.id].currency == u.row.currency
    ensures forall u :: u in updates ==> u.id !in prices || prices[u.id].amount != Some(u.row.price) || prices[u.id].currency != u.row.currency
    ensures forall r :: r in missing <==> r in rows && forall id :: !Names(ids, models, rows, r, id)
  {
    updates, settled, missing := FindMatches(ids, models, prices, rows);
    MatchOf(ids, models, rows, rows);
    forall r | r in rows { CandidatesAre(ids, models, rows, r); }
    hide Candidates, AllMatches, Names, Pending;
    forall r | r in rows ensures Candidates(ids, models, rows, r) == [] <==> forall id :: !Names(ids, models, rows, r, id) {
      if Candidates(ids, models, rows, r) != [] { assert Candidates(ids, models, rows, r)[0] in Candidates(ids, models, rows, r); }
    }
  }

  /** The loop over the rows. */
  method FindMatches(ids: seq<Id>, models: Models, prices: Prices, rows: seq<Row>)
    returns (updates: seq<Update>, settled: seq<Update>, missing: seq<Row>)
    ensures updates == Updates(ids, models, prices, rows)
    ensures |updates| + |settled| == |AllMatches(ids, models, rows, rows)|
    ensures forall u :: u in settled <==> u in AllMatches(ids, models, rows, rows) && !Needed(prices, u)
    ensures forall r :: r in missing <==> r in rows && Candidates(ids, models, rows, r) == []
  {
    var byKey, byVariant := IndexModels(ids, models);
    var counts := CountVariants(rows);
    hide Candidates, AllMatches, Matches, Pending, Needed;
    updates, settled, missing := [], [], [];
    ghost var done: seq<Update> := [];
    NothingYet(ids, models, prices, rows);
    for i := 0 to |rows|
      invariant done == AllMatches(ids, models, rows, rows[..i])
      invariant updates == Pending(prices, done) && |updates| + |settled| == |done|
      invariant forall u :: u in settled <==> u in done && !Needed(prices, u)
      invariant forall r :: r in missing <==> r in rows[..i] && Candidates(ids, models, rows, r) == []
    {
      var row := rows[i];
      assert rows[..i + 1][..i] == rows[..i];
      assert forall r :: r in rows[..i + 1] <==> r in rows[..i] || r == row;
      var candidates := Lookup(ids, models, rows, byKey, byVariant, counts, row);
      if candidates == [] { missing := missing + [row]; }
      RowMatches(ids, models, rows, i);
      for j := 0 to |candidates|
        invariant done == AllMatches(ids, models, rows, rows[..i]) + Matches(candidates[..j], row)
        invariant updates == Pending(prices, done) && |updates| + |settled| == |done|
        invariant forall u :: u in settled <==> u in done && !Needed(prices, u)
      {
        var u := Update(candidates[j], row);
        OneMore(prices, ids, models, rows, i, candidates, j, done);
        if u.id in prices && Same(prices[u.id], row) {
          settled := settled + [u];
        } else {
          updates := updates + [u];
        }
        done := done + [u];
      }
      assert candidates[..|candidates|] == candidates;
    }
    assert rows[..|rows|] == rows;
  }

  lemma {:induction false} NothingYet(ids: seq<Id>, models: Models, prices: Prices, rows: seq<Row>)
    ensures AllMatches(ids, models, rows, rows[..0]) == [] && Pending(prices, []) == []
  {
  }

  lemma {:induction false} RowMatches(ids: seq<Id>, models: Models, rows: seq<Row>, i: nat)
    requires i < |rows|
    ensures AllMatches(ids, models, rows, rows[..i + 1]) == AllMatches(ids, models, rows, rows[..i]) + Matches(Candidates(ids, models, rows, rows[i]), rows[i])
    ensures AllMatches(ids, models, rows, rows[..i]) + Matches(Candidates(ids, models, rows, rows[i])[..0], rows[i]) == AllMatches(ids, models, rows, rows[..i])
  {
    assert rows[..i + 1][..i] == rows[..i];
  }

  lemma {:induction false} OneMore(prices: Prices, ids: seq<Id>, models: Models, rows: seq<Row>, i: nat, candidates: seq<Id>, j: nat, done: seq<Update>)
    requires i < |rows| && j < |candidates|
    requires done == AllMatches(ids, models, rows, rows[..i]) + Matches(candidates[..j], rows[i])
    ensures var u := Update(candidates[j], rows[i]);
      && done + [u] == AllMatches(ids, models, rows, rows[..i]) + Matches(candidates[..j + 1], rows[i])
      && Pending(prices, done + [u]) == (if Needed(prices, u) then Pending(prices, done) + [u] else Pending(prices, done))
      && (Needed(prices, u) <==> !(u.id in prices && Same(prices[u.id], u.row)))
  {
    hide Candidates, AllMatches;
    assert candidates[..j + 1][..j] == candidates[..j];
    assert (done + [Update(candidates[j], rows[i])])[..|done|] == done;
  }

  type ByKey = Index<Parts, Id>
  type ByVariant = Index<string, Id>

  lemma {:induction false} KeyNext(ids: seq<Id>, models: Models, i: nat, k: Parts)
    requires i < |ids|
    ensures var parts := PartsOf(models, ids[i]);
      WithKey(ids[..i + 1], models, k) == WithKey(ids[..i], models, k) + if parts == k && HasBoth(k) then [ids[i]] else []
  {
    assert ids[..i + 1][..i] == ids[..i];
  }

  lemma {:induction false} VariantNext(ids: seq<Id>, models: Models, i: nat, v: string)
    requires i < |ids|
    ensures var parts := PartsOf(models, ids[i]);
      WithVariant(ids[..i + 1], models, v) == WithVariant(ids[..i], models, v) + if parts.variant == v && v != "" then [ids[i]] else []
  {
    assert ids[..i + 1][..i] == ids[..i];
  }

  ghost predicate KeysIndexed(ids: seq<Id>, models: Models, byKey: ByKey) { byKey.Valid() && forall k :: byKey.Get(k) == WithKey(ids, models, k) }

  ghost predicate VariantsIndexed(ids: seq<Id>, models: Models, byVariant: ByVariant)
  {
    byVariant.Valid() && forall v :: byVariant.Get(v) == WithVariant(ids, models, v)
  }

  lemma {:induction false} KeyIndexed(ids: seq<Id>, models: Models, i: nat, byKey: ByKey)
    requires i < |ids| && KeysIndexed(ids[..i], models, byKey)
    ensures var parts := PartsOf(models, ids[i]);
      KeysIndexed(ids[..i + 1], models, if HasBoth(parts) then byKey.Add(parts, ids[i]) else byKey)
  {
    hide WithKey, PartsOf, HasBoth;
    forall k { KeyNext(ids, models, i, k); }
  }

  lemma {:induction false} VariantIndexed(ids: seq<Id>, models: Models, i: nat, byVariant: ByVariant)
    requires i < |ids| && VariantsIndexed(ids[..i], models, byVariant)
    ensures var parts := PartsOf(models, ids[i]);
      VariantsIndexed(ids[..i + 1], models, if parts.variant != "" then byVariant.Add(parts.variant, ids[i]) else byVariant)
  {
    hide WithVariant, PartsOf;
    forall v { VariantNext(ids, models, i, v); }
  }

  lemma {:induction false} NothingIndexed(models: Models)
    ensures KeysIndexed([], models, Index([], map[])) && VariantsIndexed([], models, Index([], map[]))
  {
  }

  /** The two dictionaries of models the tool fills. */
  method IndexModels(ids: seq<Id>, models: Models) returns (byKey: ByKey, byVariant: ByVariant)
    ensures KeysIndexed(ids, models, byKey) && VariantsIndexed(ids, models, byVariant)
  {
    hide WithKey, WithVariant, PartsOf, HasBoth;
    byKey, byVariant := Index([], map[]), Index([], map[]);
    NothingIndexed(models);
    assert ids[..0] == [];
    for i := 0 to |ids|
      invariant KeysIndexed(ids[..i], models, byKey) && VariantsIndexed(ids[..i], models, byVariant)
    {
      KeyIndexed(ids, models, i, byKey);
      VariantIndexed(ids, models, i, byVariant);
      var parts := PartsOf(models, ids[i]);
      if HasBoth(parts) { byKey := byKey.Add(parts, ids[i]); }
      if parts.variant != "" { byVariant := byVariant.Add(parts.variant, ids[i]); }
    }
    assert ids[..|ids|] == ids;
  }

  function CountIn(counts: map<string, nat>, v: string): nat { if v in counts then counts[v] else 0 }

  method CountVariants(rows: seq<Row>) returns (counts: map<string, nat>)
    ensures forall v :: CountIn(counts, v) == VariantCount(rows, v)
  {
    counts := map[];
    for i := 0 to |rows|
      invariant forall v :: CountIn(counts, v) == VariantCount(rows[..i], v)
    {
      assert rows[..i + 1][..i] == rows[..i];
      counts := counts[rows[i].variant := CountIn(counts, rows[i].variant) + 1];
    }
    assert rows[..|rows|] == rows;
  }

  method Lookup(ghost ids: seq<Id>, ghost models: Models, ghost rows: seq<Row>, byKey: ByKey, byVariant: ByVariant,
                counts: map<string, nat>, row: Row) returns (candidates: seq<Id>)
    requires forall k :: byKey.Get(k) == WithKey(ids, models, k)
    requires forall v :: byVariant.Get(v) == WithVariant(ids, models, v)
    requires forall v :: CountIn(counts, v) == VariantCount(rows, v)
    ensures candidates == Candidates(ids, models, rows, row)
  {
    candidates := byKey.Get(row.Key());
    if candidates == [] {
      var same := byVariant.Get(row.variant);
      if |same| == 1 && CountIn(counts, row.variant) == 1 { candidates := same; }
    }
  }

  // ----- applying -----

  const SCALE := 10000.0
  const LIMIT := 10000000000.0

  /** What a `Numeric(14, 4)` column keeps of an amount: four decimals, halves away from zero. */
  function Stored(x: real): real
  {
    if x < 0.0 then -((-x * SCALE + 0.5).Floor as real) / SCALE else ((x * SCALE + 0.5).Floor as real) / SCALE
  }

  /** No multiple of the last decimal is closer, and a half goes away from zero. */
  lemma {:induction false} StoredIs(x: real)
    ensures Stored(x) == (Stored(x) * 10000.0).Floor as real / 10000.0
    ensures -0.00005 <= Stored(x) - x <= 0.00005
    ensures Stored(x) - x == 0.00005 ==> x > 0.0
    ensures Stored(x) - x == -0.00005 ==> x < 0.0
  {
    var n := if x < 0.0 then -(-x * SCALE + 0.5).Floor else (x * SCALE + 0.5).Floor;
    assert Stored(x) == n as real / 10000.0;
    hide Stored;
    assert Stored(x) * 10000.0 == n as real;
  }

  /** The columns can hold the amount and the currency. */
  predicate Storable(row: Row) { -LIMIT < Stored(row.price) < LIMIT && |row.currency| <= 3 }

  function Written(row: Row, at: nat): Price { Price(Some(Stored(row.price)), row.currency, "catalog", None, at) }

  function Applied(prices: Prices, us: seq<Update>, at: nat): Prices
  {
    if us == [] then prices
    else
      var u := us[|us| - 1];
      Applied(prices, us[..|us| - 1], at)[u.id := Written(u.row, at)]
  }

  lemma {:induction false} AppliedAt(prices: Prices, us: seq<Update>, at: nat, id: Id)
    requires IdsDiffer(us)
    ensures (forall u :: u in us ==> u.id != id) ==> (id in Applied(prices, us, at) <==> id in prices)
    ensures (forall u :: u in us ==> u.id != id) && id in prices ==> Applied(prices, us, at)[id] == prices[id]
    ensures forall u :: u in us && u.id == id ==> id in Applied(prices, us, at) && Applied(prices, us, at)[id] == Written(u.row, at)
  {
    if us != [] {
      var l := |us| - 1;
      AppliedAt(prices, us[..l], at, id);
      assert forall u :: u in us <==> u in us[..l] || u == us[l];
      forall u | u in us[..l] ensures u.id != us[l].id {
        var k :| 0 <= k < l && us[..l][k] == u;
        assert us[k] == u;
      }
    }
  }

  /** The models of the database with their prices. */
  class Erp {
    var prices: Prices

    /** Writes every planned price in one transaction; an amount or currency that a column
        cannot hold rolls everything back. */
    method Apply(updates: seq<Update>, at: nat) returns (ok: bool)
      modifies this
      ensures ok <==> forall i :: 0 <= i < |updates| ==>
        -10000000000.0 < Stored(updates[i].row.price) < 10000000000.0 && |updates[i].row.currency| <= 3
      ensures prices == if ok then Applied(old(prices), updates, at) else old(prices)
    {
      var start := prices;
      for i := 0 to |updates|
        invariant prices == Applied(start, updates[..i], at)
        invariant forall j :: 0 <= j < i ==> Storable(updates[j].row)
      {
        assert updates[..i + 1][..i] == updates[..i];
        var u := updates[i];
        if !Storable(u.row) { prices := start; return false; }
        prices := prices[u.id := Written(u.row, at)];
      }
      assert updates[..|updates|] == updates;
      ok := true;
    }
  }

  lemma {:induction false} PendingDiffer(prices: Prices, matches: seq<Update>)
    requires IdsDiffer(matches)
    ensures IdsDiffer(Pending(prices, matches))
  {
    hide Needed;
    if matches != [] {
      var l := |matches| - 1;
      PendingDiffer(prices, matches[..l]);
      var rest := Pending(prices, matches[..l]);
      forall i | 0 <= i < |rest| ensures rest[i].id != matches[l].id {
        assert rest[i] in rest;
        var k :| 0 <= k < l && matches[..l][k] == rest[i];
        assert matches[k] == rest[i];
      }
    }
  }

  /** What an applied plan does to one model: the price of its only row, or nothing. */
  lemma {:induction false} EachModelGetsItsPrice(ids: seq<Id>, models: Models, prices: Prices, rows: seq<Row>, at: nat, id: Id)
    requires UniqueKeys(rows) && Distinct(ids)
    ensures var after, matches := Applied(prices, Updates(ids, models, prices, rows), at), AllMatches(ids, models, rows, rows);
      && (forall u :: u in matches && u.id == id ==>
           id in after &&
           if id in prices && prices[id].amount == Some(u.row.price) && prices[id].currency == u.row.currency then after[id] == prices[id]
           else after[id] == Price(Some(Stored(u.row.price)), u.row.currency, "catalog", None, at))
      && ((forall u :: u in matches ==> u.id != id) ==> (id in after <==> id in prices) && (id in prices ==> after[id] == prices[id]))
  {
    var matches := AllMatches(ids, models, rows, rows);
    OneMatchPerModel(ids, models, rows, rows);
    PendingDiffer(prices, matches);
    var us := Updates(ids, models, prices, rows);
    AppliedAt(prices, us, at, id);
    hide AllMatches, Applied, Pending;
    forall u, v | u in matches && v in matches && u.id == v.id ensures u == v {
      OneEntry(matches, u, v);
    }
  }

  lemma {:induction false} OneEntry(us: seq<Update>, u: Update, v: Update)
    requires IdsDiffer(us) && u in us && v in us && u.id == v.id
    ensures u == v
  {
    var i :| 0 <= i < |us| && us[i] == u;
    var j :| 0 <= j < |us| && us[j] == v;
    assert us[i].id == us[j].id;
  }

  /** Planning again after an applied plan finds nothing to update exactly when every price
      it wrote fits the column; otherwise the same rows come up again. */
  lemma {:induction false} ReplanIsEmptyExactly(ids: seq<Id>, models: Models, prices: Prices, rows: seq<Row>, at: nat)
    requires UniqueKeys(rows) && Distinct(ids)
    ensures var us := Updates(ids, models, prices, rows);
      var again := Updates(ids, models, Applied(prices, us, at), rows);
      (forall u :: u in again <==> u in us && Stored(u.row.price) != u.row.price)
      && (again == [] <==> forall u :: u in us ==> Stored(u.row.price) == u.row.price)
  {
    var us := Updates(ids, models, prices, rows);
    var after := Applied(prices, us, at);
    var again := Updates(ids, models, after, rows);
    hide AllMatches, Applied, Stored;
    forall u: Update ensures u in again <==> u in us && Stored(u.row.price) != u.row.price {
      EachModelGetsItsPrice(ids, models, prices, rows, at, u.id);
    }
    hide Pending, Updates;
    if again != [] { assert again[0] in again; }
  }

  lemma {:induction false} OnlyMatch(ids: seq<Id>, models: Models, row: Row)
    requires ids == [7] && models == map[7 as nat := Parts("m1", "v1")] && row.Key() == Parts("m1", "v1")
    ensures Update(7, row) in AllMatches(ids, models, [row], [row])
  {
    var none: seq<Id> := [];
    assert ids[..0] == none;
    assert WithKey(ids, models, row.Key()) == [7];
    hide WithKey, AllMatches;
    MatchOf(ids, models, [row], [row]);
  }

  lemma {:induction false} FifthDecimalLost()
    ensures Stored(0.00001) == 0.0
  {
    assert (0.00001 * SCALE + 0.5).Floor == 0;
  }

  /** A fifth decimal is enough: the same row is planned again after every run. */
  lemma {:induction false} FifthDecimalComesBack(currency: string, at: nat)
    ensures var rows, models, u := [Row("m1", "v1", 0.00001, currency)], map[7 as nat := Parts("m1", "v1")], Update(7, Row("m1", "v1", 0.00001, currency));
      u in Updates([7], models, map[], rows)
      && u in Updates([7], models, Applied(map[], Updates([7], models, map[], rows), at), rows)
  {
    hide Candidates, AllMatches, Stored, Applied, WithKey;
    var row := Row("m1", "v1", 0.00001, currency);
    var ids: seq<Id>, models: Models := [7], map[7 := Parts("m1", "v1")];
    OnlyMatch(ids, models, row);
    FifthDecimalLost();
    ReplanIsEmptyExactly(ids, models, map[], [row], at);
  }
}
