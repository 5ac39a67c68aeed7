/** The correction of one model: its name, its provenance, its missing details. */
module CorrectionPlan {
  import opened Base
  import opened Json
  import opened Sorting
  import opened CorrectionRecords
  import opened CorrectionMerge
  import opened CorrectionFill

  const PROVENANCE := "old_erp_migration"
  const GENERAL := "general"

  datatype Model = Model(code: string, name: string, details: Json, images: seq<string>)

  /** What the reviewed import did for one model. */
  datatype Action = Action(code: string, expectedCode: string, name: Json, productType: Json, provenance: Json)

  datatype Manifest = Manifest(records: map<int, Record>, sha256: string, metadata: Json, complete: bool) {
    ghost predicate Valid() { forall id :: id in records ==> id > 0 && records[id].id == id }
  }

  /** Checks whose code is not modelled: the receipt evidence behind a provenance block
      (`complete_sections` aside), the size and depth limits of a document, the digest. */
  datatype Guards = Guards(provenanceOk: (Action, Fields) -> bool, withinBounds: Json -> bool, digest: Digest)

  // ----- the name -----

  datatype NameStatus = AlreadyCorrect | Update | ManualDrift

  datatype Decision = ProtectedPreexisting
    | ProductConflict(original: string, products: seq<Json>)
    | NoProduct(original: string)
    | Named(status: NameStatus, original: string, target: string, products: seq<Json>)

  const MAX_NAME := 255

  function DecideTarget(currentName: string, original: string, target: string, products: seq<Json>): Option<Decision>
  {
    if |target| > MAX_NAME then None
    else if currentName == target then Some(Named(AlreadyCorrect, original, target, products))
    else if currentName == original then Some(Named(Update, original, target, products))
    else Some(Named(ManualDrift, original, target, products))
  }

  /** `product_name_decision`; None is a refusal. */
  function Decide(created: bool, currentName: string, action: Action, records: seq<Record>): Option<Decision>
  {
    if !created then Some(ProtectedPreexisting)
    else if !action.name.Str? || !(action.productType.Null? || action.productType.Str?) then None
    else
      var products := Values(records, "Product");
      var product := if action.productType.Str? then action.productType.text else "";
      if !Blank(product) then
        if Str(product) !in products then None else DecideTarget(currentName, action.name.text, product, products)
      else if |products| > 1 then Some(ProductConflict(action.name.text, products))
      else if products == [] then Some(NoProduct(action.name.text))
      else if products[0].Str? then DecideTarget(currentName, action.name.text, products[0].text, products)
      else None
  }

  function NewName(d: Decision): Option<string>
  {
    if d.Named? && d.status == Update then Some(d.target) else None
  }

  /** A name is changed only for a model the import created, only from the name it was
      imported with, and only to a product its records state; decided again, it stays. */
  lemma {:induction false} NameDecisionStable(created: bool, name: string, action: Action, records: seq<Record>)
    requires Decide(created, name, action, records).Some?
    ensures var given := NewName(Decide(created, name, action, records).value);
      given.Some? ==>
        (created && action.name == Str(name) && given.value != name && |given.value| <= MAX_NAME && Str(given.value) in Values(records, "Product"))
    ensures var given := NewName(Decide(created, name, action, records).value);
      var after := if given.Some? then given.value else name;
      Decide(created, after, action, records).Some? && NewName(Decide(created, after, action, records).value).None?
  {
    hide Values, Blank;
  }

  /** What the created model should be called: the product the import stated, if its records
      bear it out, or the only product they name when it stated none. */
  ghost predicate IsProduct(action: Action, records: seq<Record>, p: string)
  {
    && (action.productType.Null? || action.productType.Str?)
    && if action.productType.Str? && !Blank(action.productType.text)
       then p == action.productType.text && Str(p) in Values(records, "Product")
       else Values(records, "Product") == [Str(p)]
  }

  /** A model is renamed to `p` if and only if the import created it, it still has the name it
      was imported with, and `p` is its product, fits the column and is another name. */
  lemma {:induction false} RenamedExactly(created: bool, name: string, action: Action, records: seq<Record>, p: string)
    ensures Decide(created, name, action, records).Some? && NewName(Decide(created, name, action, records).value) == Some(p) <==>
      created && action.name == Str(name) && IsProduct(action, records, p) && |p| <= MAX_NAME && p != name
  {
    assert Blank("");
    hide Values, Blank;
    var products := Values(records, "Product");
    assert products == [Str(p)] <==> |products| == 1 && products[0] == Str(p);
  }

  /** The decision is refused if and only if the import created the model and its name or
      product is no text, the stated product is borne out by no record, the only product is no
      text, or the name would not fit the column. */
  lemma {:induction false} DecidesExactly(created: bool, name: string, action: Action, records: seq<Record>)
    ensures Decide(created, name, action, records).Some? <==>
      (created ==>
        var products, stated := Values(records, "Product"), action.productType;
        && action.name.Str? && (stated.Null? || stated.Str?)
        && if stated.Str? && !Blank(stated.text) then Str(stated.text) in products && |stated.text| <= MAX_NAME
           else |products| == 1 ==> products[0].Str? && |products[0].text| <= MAX_NAME)
  {
    assert Blank("");
    hide Values, Blank;
  }

  // ----- the source records of a model -----

  /** The old ids of a list of rows; None when a row is malformed. */
  function RowIds(rows: seq<Json>): Option<seq<int>>
  {
    if rows == [] then Some([])
    else
      var rest, row := RowIds(rows[..|rows| - 1]), rows[|rows| - 1];
      var id := if row.Obj? then RequirePositive(Field(row.fields, "old_model_id")) else None;
      if rest.Some? && id.Some? then Some(rest.value + [id.value]) else None
  }

  function ListedIds(v: Json): Option<seq<int>> { if v.Arr? then RowIds(v.items) else None }

  function IdKey(id: int): Key { Key(id, "", "", "") }

  /** `referenced_old_model_ids`: sorted, without repetition, and never empty. */
  function SourceIds(provenance: Fields): Option<seq<int>>
  {
    var masters, others := ListedIds(Field(provenance, "master_records")), ListedIds(Field(provenance, "metadata_only_records"));
    if masters.None? || others.None? || masters.value + others.value == [] then None
    else Some(Sort(IdKey, Unique(masters.value + others.value)))
  }

  /** Some row of the list names the id, as a number or its text. */
  ghost predicate Lists(v: Json, id: int)
  {
    v.Arr? && exists row :: row in v.items && row.Obj? && RequirePositive(Field(row.fields, "old_model_id")) == Some(id)
  }

  lemma {:induction false} RowIdsAre(rows: seq<Json>)
    requires RowIds(rows).Some?
    ensures forall id :: id in RowIds(rows).value <==> exists row :: row in rows && row.Obj? && RequirePositive(Field(row.fields, "old_model_id")) == Some(id)
  {
    hide RequirePositive;
    if rows != [] {
      var l := |rows| - 1;
      RowIdsAre(rows[..l]);
      assert forall row :: row in rows <==> row in rows[..l] || row == rows[l];
    }
  }

  lemma {:induction false} RowIdsExactly(rows: seq<Json>)
    ensures RowIds(rows).Some? <==> forall row :: row in rows ==> row.Obj? && RequirePositive(Field(row.fields, "old_model_id")).Some?
    ensures RowIds(rows).Some? ==> |RowIds(rows).value| == |rows|
  {
    hide RequirePositive, Field;
    if rows != [] {
      var l := |rows| - 1;
      RowIdsExactly(rows[..l]);
      assert forall row :: row in rows <==> row in rows[..l] || row == rows[l];
    }
  }

  /** The sources can be read exactly when both lists are there, every row names a positive id,
      and there is a row. */
  lemma {:induction false} SourceIdsExactly(provenance: Fields)
    ensures SourceIds(provenance).Some? <==>
      var (masters, others) := (Field(provenance, "master_records"), Field(provenance, "metadata_only_records"));
      && masters.Arr? && others.Arr? && masters.items + others.items != []
      && forall row :: row in masters.items || row in others.items ==> row.Obj? && RequirePositive(Field(row.fields, "old_model_id")).Some?
  {
    var masters, others := Field(provenance, "master_records"), Field(provenance, "metadata_only_records");
    if masters.Arr? { RowIdsExactly(masters.items); }
    if others.Arr? { RowIdsExactly(others.items); }
    hide RowIds, RequirePositive, Sort, Unique;
  }

  /** A model has as sources exactly the ids that its master records or its other records name,
      each once and in ascending order. */
  lemma {:induction false} SourceIdsAre(provenance: Fields)
    requires SourceIds(provenance).Some?
    ensures var ids := SourceIds(provenance).value;
      && ids != [] && (forall i, j :: 0 <= i < j < |ids| ==> ids[i] < ids[j])
      && forall id :: id in ids <==> Lists(Field(provenance, "master_records"), id) || Lists(Field(provenance, "metadata_only_records"), id)
  {
    var masters, others := Field(provenance, "master_records"), Field(provenance, "metadata_only_records");
    RowIdsAre(masters.items);
    RowIdsAre(others.items);
    var all := RowIds(masters.items).value + RowIds(others.items).value;
    AscendingIds(all);
    hide RowIds, RequirePositive, Sort, Unique;
    assert all[0] in all;
  }

  lemma {:induction false} AscendingIds(all: seq<int>)
    ensures var ids := Sort(IdKey, Unique(all));
      (forall id :: id in ids <==> id in all) && (all != [] ==> ids != []) && forall i, j :: 0 <= i < j < |ids| ==> ids[i] < ids[j]
  {
    var once := Unique(all);
    hide Unique;
    assert KeysDiffer(IdKey, once);
    SortMembers(IdKey, once);
    SortSorted(IdKey, once);
    var ids := Sort(IdKey, once);
    hide Sort;
    if all != [] { assert all[0] in ids; }
    forall i, j | 0 <= i < j < |ids| ensures ids[i] < ids[j] { assert KeyLess(IdKey(ids[i]), IdKey(ids[j])); }
  }

  function RecordsOf(records: map<int, Record>, ids: seq<int>): seq<Record>
    requires forall i :: 0 <= i < |ids| ==> ids[i] in records
  {
    if ids == [] then [] else RecordsOf(records, ids[..|ids| - 1]) + [records[ids[|ids| - 1]]]
  }

  predicate AllKnown(records: map<int, Record>, ids: seq<int>) { forall i :: 0 <= i < |ids| ==> ids[i] in records }

  function Rows(records: seq<Record>, f: string): Fields
  {
    if records == [] then map[]
    else
      var r := records[|records| - 1];
      Rows(records[..|records| - 1], f)[Text(r.id) :=
        if f == "general" then Obj(r.general) else if f == "operations" then r.operationRows
        else if f == "recipes" then r.recipes else Obj(r.metadata)]
  }

  function IdsOf(records: seq<Record>): seq<int>
  {
    if records == [] then [] else IdsOf(records[..|records| - 1]) + [records[|records| - 1].id]
  }

  /** `complete_sections_payload` */
  function Payload(records: seq<Record>, manifest: Manifest): Desired
  {
    var ordered := Ordered(records);
    Desired(map["schema_version" := Int(1), "source_manifest_sha256" := Str(manifest.sha256), "source_manifest_metadata" := manifest.metadata],
            IdsOf(ordered),
            map["general" := Rows(ordered, "general"), "operations" := Rows(ordered, "operations"),
                "recipes" := Rows(ordered, "recipes"), "record_metadata" := Rows(ordered, "record_metadata")])
  }

  ghost predicate IdsDiffer(records: seq<Record>) { forall i, j :: 0 <= i < j < |records| ==> records[i].id != records[j].id }

  lemma {:induction false} TextsDiffer(a: int, b: int)
    requires a != b
    ensures Text(a) != Text(b)
  {
    WrittenReads(a);
    WrittenReads(b);
  }

  /** Each section has one row per record, under the text of its id. */
  lemma {:induction false} RowsAre(records: seq<Record>, f: string)
    requires IdsDiffer(records)
    ensures forall k :: k in Rows(records, f) ==> exists r :: r in records && k == Text(r.id)
    ensures forall r :: r in records ==> Text(r.id) in Rows(records, f)
    ensures f == "general" ==> forall r :: r in records ==> Rows(records, f)[Text(r.id)] == Obj(r.general)
    ensures f == "operations" ==> forall r :: r in records ==> Rows(records, f)[Text(r.id)] == r.operationRows
    ensures f == "recipes" ==> forall r :: r in records ==> Rows(records, f)[Text(r.id)] == r.recipes
    ensures f == "record_metadata" ==> forall r :: r in records ==> Rows(records, f)[Text(r.id)] == Obj(r.metadata)
  {
    hide Text;
    if records != [] {
      var l := |records| - 1;
      RowsAre(records[..l], f);
      assert forall r :: r in records <==> r in records[..l] || r == records[l];
      forall r | r in records[..l] ensures Text(r.id) != Text(records[l].id) { TextsDiffer(r.id, records[l].id); }
    }
  }

  lemma {:induction false} IdsAre(records: seq<Record>)
    ensures |IdsOf(records)| == |records| && forall i :: 0 <= i < |records| ==> IdsOf(records)[i] == records[i].id
  {
    if records != [] { IdsAre(records[..|records| - 1]); }
  }

  lemma {:induction false} OrderedAre(records: seq<Record>)
    requires IdsDiffer(records)
    ensures IdsDiffer(Ordered(records)) && forall r :: r in Ordered(records) <==> r in records
    ensures forall i, j :: 0 <= i < j < |Ordered(records)| ==> Ordered(records)[i].id < Ordered(records)[j].id
  {
    SortMembers(RecordKey, records);
    SortSorted(RecordKey, records);
    var sorted := Ordered(records);
    hide Ordered;
    forall i, j | 0 <= i < j < |sorted| ensures sorted[i].id < sorted[j].id { assert KeyLess(RecordKey(sorted[i]), RecordKey(sorted[j])); }
  }

  /** The desired sections hold, for every record, what the record says. */
  lemma {:induction false} PayloadHolds(records: seq<Record>, manifest: Manifest, r: Record)
    requires IdsDiffer(records) && r in records
    ensures var s := Payload(records, manifest).sections;
      && Text(r.id) in s["general"] && s["general"][Text(r.id)] == Obj(r.general)
      && Text(r.id) in s["operations"] && s["operations"][Text(r.id)] == r.operationRows
      && Text(r.id) in s["recipes"] && s["recipes"][Text(r.id)] == r.recipes
      && Text(r.id) in s["record_metadata"] && s["record_metadata"][Text(r.id)] == Obj(r.metadata)
  {
    OrderedAre(records);
    var ordered := Ordered(records);
    PayloadSections(records, manifest);
    RowsAre(ordered, "general");
    RowsAre(ordered, "operations");
    RowsAre(ordered, "recipes");
    RowsAre(ordered, "record_metadata");
    hide Payload, Rows, Ordered, IdsOf, Text, IdsDiffer;
  }

  /** They name the manifest they come from. */
  lemma {:induction false} PayloadNames(records: seq<Record>, manifest: Manifest)
    ensures var scalars := Payload(records, manifest).scalars;
      && "schema_version" in scalars && scalars["schema_version"] == Num(1.0) && "source_manifest_sha256" in scalars
      && scalars["source_manifest_sha256"] == Str(manifest.sha256) && "source_manifest_metadata" in scalars
      && scalars["source_manifest_metadata"] == manifest.metadata && |scalars| == 3
  {
    hide Rows, Ordered, IdsOf;
  }

  lemma {:induction false} PayloadSections(records: seq<Record>, manifest: Manifest)
    ensures var s, ordered := Payload(records, manifest).sections, Ordered(records);
      && "general" in s && s["general"] == Rows(ordered, "general") && "operations" in s && s["operations"] == Rows(ordered, "operations")
      && "recipes" in s && s["recipes"] == Rows(ordered, "recipes") && "record_metadata" in s && s["record_metadata"] == Rows(ordered, "record_metadata")
  {
    hide Rows, Ordered, IdsOf;
  }

  /** They hold nothing else, and name the records in ascending order. */
  lemma {:induction false} PayloadHoldsOnly(records: seq<Record>, manifest: Manifest, f: string, k: string)
    requires IdsDiffer(records)
    ensures f in SECTIONS && k in Payload(records, manifest).sections[f] ==> exists x :: x in records && k == Text(x.id)
    ensures var ids := Payload(records, manifest).ids;
      (forall id :: id in ids <==> exists x :: x in records && x.id == id) && forall i, j :: 0 <= i < j < |ids| ==> ids[i] < ids[j]
  {
    OrderedAre(records);
    var ordered := Ordered(records);
    hide Rows, Ordered, IdsOf, Text, IdsDiffer;
    RowsAre(ordered, f);
    IdsAre(ordered);
    PayloadIds(ordered, IdsOf(ordered));
  }

  lemma {:induction false} PayloadIds(ordered: seq<Record>, ids: seq<int>)
    requires |ids| == |ordered| && forall i :: 0 <= i < |ids| ==> ids[i] == ordered[i].id
    ensures forall id :: id in ids <==> exists x :: x in ordered && x.id == id
  {
    forall id | id in ids ensures exists x :: x in ordered && x.id == id {
      var i :| 0 <= i < |ids| && ids[i] == id;
      assert ordered[i] in ordered;
    }
    forall x | x in ordered ensures x.id in ids {
      var i :| 0 <= i < |ordered| && ordered[i] == x;
      assert ids[i] == x.id;
    }
  }

  lemma {:induction false} IdsPositive(records: seq<Record>)
    requires forall r :: r in records ==> r.id > 0
    ensures forall i :: 0 <= i < |IdsOf(records)| ==> IdsOf(records)[i] > 0
  {
    if records != [] {
      assert records[|records| - 1] in records;
      IdsPositive(records[..|records| - 1]);
    }
  }

  lemma {:induction false} RecordsOfMembers(records: map<int, Record>, ids: seq<int>)
    requires AllKnown(records, ids) && forall id :: id in records ==> id > 0 && records[id].id == id
    ensures forall r :: r in RecordsOf(records, ids) ==> r.id > 0
  {
    if ids != [] { RecordsOfMembers(records, ids[..|ids| - 1]); }
  }

  lemma {:induction false} PayloadValid(records: seq<Record>, manifest: Manifest)
    requires forall r :: r in records ==> r.id > 0
    ensures Payload(records, manifest).Valid()
  {
    SortMembers(RecordKey, records);
    IdsPositive(Ordered(records));
    hide Rows, Ordered, IdsOf;
  }

  // ----- the details -----

  function PaidRows(rows: seq<Paid>): seq<Json>
  {
    if rows == [] then [] else PaidRows(rows[..|rows| - 1]) + [PaidJson(rows[|rows| - 1])]
  }

  ghost predicate PaidWork(digest: Digest, records: seq<Record>)
  {
    NoCollision(digest, AllOperations(records)) && forall op :: op in AllOperations(records) ==> Mapped(op)
  }

  function PaidList(digest: Digest, records: seq<Record>): Json { Arr(PaidRows(PaidOperations(digest, records))) }

  /** The list holds the row of every paid operation, in order. */
  lemma {:induction false} PaidRowsAre(rows: seq<Paid>)
    ensures |PaidRows(rows)| == |rows| && forall i :: 0 <= i < |rows| ==> PaidRows(rows)[i] == PaidJson(rows[i])
  {
    hide PaidJson;
    if rows != [] { PaidRowsAre(rows[..|rows| - 1]); }
  }

  /** None of the three steps refuses. */
  ghost predicate Correctable(details: Fields, records: seq<Record>, d: Desired, digest: Digest)
    requires d.Valid()
  {
    && Field(details, PROVENANCE).Obj?
    && Compatible(Field(Field(details, PROVENANCE).fields, SECTION_KEY), d)
    && (Field(details, GENERAL).Null? || Field(details, GENERAL).Obj?)
    && PaidWork(digest, records)
  }

  function WithSections(details: Fields, d: Desired): Fields
    requires Field(details, PROVENANCE).Obj?
  {
    var p := Field(details, PROVENANCE).fields;
    details[PROVENANCE := Obj(p[SECTION_KEY := Obj(Merged(Field(p, SECTION_KEY), d))])]
  }

  function WithGeneral(details: Fields, records: seq<Record>): Fields
  {
    details[GENERAL := Obj(Filled(GeneralOf(details), Ordered(records), GENERAL_TO_DETAILS).general)]
  }

  /** The corrected document. */
  function Corrected(details: Fields, records: seq<Record>, d: Desired, paid: Json): Fields
    requires Field(details, PROVENANCE).Obj?
  {
    PaidFilled(WithGeneral(WithSections(details, d), records), paid).0
  }

  lemma {:induction false} SameField(m: Fields, k: string, v: Json)
    requires k in m && m[k] == v
    ensures m[k := v] == m
  {
    SameMap(m[k := v], m);
  }

  /** Correcting a corrected document is possible and changes nothing. */
  lemma {:induction false} CorrectionIdempotent(details: Fields, records: seq<Record>, d: Desired, paid: Json, digest: Digest)
    requires d.Valid() && Correctable(details, records, d, digest) && paid.Arr?
    ensures Correctable(Corrected(details, records, d, paid), records, d, digest)
    ensures Corrected(Corrected(details, records, d, paid), records, d, paid) == Corrected(details, records, d, paid)
  {
    var p := Field(details, PROVENANCE).fields;
    var stored := Field(p, SECTION_KEY);
    MergeIdempotent(stored, d);
    GeneralTargetsDiffer();
    var one := WithSections(details, d);
    FillIdempotent(GeneralOf(one), Ordered(records), GENERAL_TO_DETAILS);
    hide Merged, Compatible, Filled, Ordered, PaidWork, GENERAL_TO_DETAILS;
    var merged := Obj(Merged(stored, d));
    var two := WithGeneral(one, records);
    var after := PaidFilled(two, paid).0;
    PaidFillStable(two, paid);
    var q := p[SECTION_KEY := merged];
    assert Field(after, PROVENANCE) == Obj(q);
    SameField(q, SECTION_KEY, merged);
    SameField(after, PROVENANCE, Obj(q));
    assert WithSections(after, d) == after;
    assert Field(after, GENERAL) == Field(two, GENERAL);
    SameField(after, GENERAL, Field(two, GENERAL));
    assert WithGeneral(after, records) == after;
  }

  /** The provenance keeps everything outside its sections, and the sections only gain. */
  ghost predicate ProvenanceGains(a: Json, b: Json)
  {
    b == a || (a.Obj? && b.Obj? && a.fields - {SECTION_KEY} == b.fields - {SECTION_KEY}
               && BlockGains(Field(a.fields, SECTION_KEY), Field(b.fields, SECTION_KEY)))
  }

  /** A null list of paid operations may be filled. */
  predicate PaidGains(a: Json, b: Json) { b == a || (a.Null? && b.Arr?) }

  ghost predicate FieldGains(k: string, a: Json, b: Json)
  {
    if k == PROVENANCE then ProvenanceGains(a, b) else if k == GENERAL then GeneralGains(a, b)
    else if k == PAID then PaidGains(a, b) else b == a
  }

  /** What corrections may do to a document: nothing is removed, only the general block and
      the list of paid operations may be new, and every other entry gains at most. */
  ghost predicate Gains(a: Fields, b: Fields)
  {
    && (forall k :: k in a ==> k in b && FieldGains(k, a[k], b[k]))
    && (forall k :: k in b ==> k in a || k == GENERAL || k == PAID)
  }

  lemma {:induction false} FieldTransitive(k: string, a: Json, b: Json, c: Json)
    requires FieldGains(k, a, b) && FieldGains(k, b, c)
    ensures FieldGains(k, a, c)
  {
    hide BlockGains, GeneralGains;
    if k == PROVENANCE {
      if a.Obj? && b.Obj? && c.Obj? && b != a && c != b {
        BlockTransitive(Field(a.fields, SECTION_KEY), Field(b.fields, SECTION_KEY), Field(c.fields, SECTION_KEY));
      }
    } else if k == GENERAL {
      GeneralTransitive(a, b, c);
    }
  }

  /** What two corrections gain is no more than what one may gain. */
  lemma {:induction false} GainsTransitive(a: Fields, b: Fields, c: Fields)
    requires Gains(a, b) && Gains(b, c)
    ensures Gains(a, c)
  {
    hide FieldGains;
    forall k | k in a ensures k in c && FieldGains(k, a[k], c[k]) { FieldTransitive(k, a[k], b[k], c[k]); }
  }

  ghost predicate DocumentGains(a: Json, b: Json) { b == a || (a.Obj? && b.Obj? && Gains(a.fields, b.fields)) }

  lemma {:induction false} DocumentTransitive(a: Json, b: Json, c: Json)
    requires DocumentGains(a, b) && DocumentGains(b, c)
    ensures DocumentGains(a, c)
  {
    hide Gains;
    if b != a && c != b { GainsTransitive(a.fields, b.fields, c.fields); }
  }

  lemma {:induction false} ProvenanceOnlyGains(details: Fields, records: seq<Record>, d: Desired, digest: Digest)
    requires d.Valid() && Correctable(details, records, d, digest)
    ensures var one := WithSections(details, d); PROVENANCE in details && PROVENANCE in one && ProvenanceGains(details[PROVENANCE], one[PROVENANCE])
  {
    hide PaidWork, Merged, BlockGains, Compatible;
    var p := Field(details, PROVENANCE).fields;
    MergeGains(Field(p, SECTION_KEY), d);
    SameMap(p - {SECTION_KEY}, p[SECTION_KEY := Obj(Merged(Field(p, SECTION_KEY), d))] - {SECTION_KEY});
  }

  lemma {:induction false} GeneralOnlyGains(details: Fields, records: seq<Record>)
    requires Field(details, GENERAL).Null? || Field(details, GENERAL).Obj?
    ensures GENERAL in details ==> GeneralGains(details[GENERAL], WithGeneral(details, records)[GENERAL])
  {
    hide Filled, GeneralGains, Ordered, GENERAL_TO_DETAILS;
    if GENERAL in details { FillGains(details[GENERAL], Ordered(records)); }
  }

  lemma {:induction false} PaidOnlyGains(details: Fields, paid: Json)
    requires paid.Arr?
    ensures var after := PaidFilled(details, paid).0;
      && (forall k :: k in details ==> k in after && (if k == PAID then PaidGains(details[k], after[k]) else after[k] == details[k]))
      && (forall k :: k in after ==> k in details || k == PAID)
  {
  }

  /** The corrected document only gains. */
  lemma {:induction false} CorrectionGains(details: Fields, records: seq<Record>, d: Desired, paid: Json, digest: Digest)
    requires d.Valid() && Correctable(details, records, d, digest) && paid.Arr?
    ensures Gains(details, Corrected(details, records, d, paid))
  {
    ProvenanceOnlyGains(details, records, d, digest);
    hide Merged, Filled, Ordered, GENERAL_TO_DETAILS, PaidWork, Compatible, ProvenanceGains, GeneralGains, PaidGains;
    var one := WithSections(details, d);
    var two := WithGeneral(one, records);
    assert Field(one, GENERAL) == Field(details, GENERAL);
    GeneralOnlyGains(one, records);
    PaidOnlyGains(two, paid);
    hide PaidFilled;
    assert two[PROVENANCE] == one[PROVENANCE];
    var after := Corrected(details, records, d, paid);
    forall k | k in details ensures k in after && FieldGains(k, details[k], after[k]) {
      assert k in one && k in two;
    }
    assert after == PaidFilled(two, paid).0;
    forall k | k in after ensures k in details || k == GENERAL || k == PAID {
      if k != PAID { assert k in two; }
    }
  }

  /** The parts of a corrected document, each made by one of the three steps. */
  lemma {:induction false} CorrectedParts(details: Fields, records: seq<Record>, d: Desired, paid: Json)
    requires Field(details, PROVENANCE).Obj?
    ensures var after, p := Corrected(details, records, d, paid), Field(details, PROVENANCE).fields;
      && Field(after, PROVENANCE) == Obj(p[SECTION_KEY := Obj(Merged(Field(p, SECTION_KEY), d))])
      && GeneralOf(after) == Filled(GeneralOf(details), Ordered(records), GENERAL_TO_DETAILS).general
    ensures Field(Corrected(details, records, d, paid), PAID) ==
      if Field(details, PAID).Null? && (PAID in details || Field(details, PAID_CAMEL).Null?) then paid else Field(details, PAID)
  {
    hide Merged, Filled, Ordered, GENERAL_TO_DETAILS;
    var one := WithSections(details, d);
    var two := WithGeneral(one, records);
    assert GeneralOf(one) == GeneralOf(details);
    PaidField(two, paid);
    hide PaidFilled;
    assert Field(two, PAID) == Field(details, PAID) && (PAID in two <==> PAID in details) && Field(two, PAID_CAMEL) == Field(details, PAID_CAMEL);
  }

  lemma {:induction false} PaidField(details: Fields, paid: Json)
    ensures var after := PaidFilled(details, paid).0;
      && Field(after, PROVENANCE) == Field(details, PROVENANCE) && Field(after, GENERAL) == Field(details, GENERAL)
      && Field(after, PAID) == if Field(details, PAID).Null? && (PAID in details || Field(details, PAID_CAMEL).Null?) then paid else Field(details, PAID)
  {
  }

  /** A corrected document carries the desired sections, every general value the records agree
      on where it had none, and the paid operations if it had no list. */
  lemma {:induction false} CorrectionReaches(details: Fields, records: seq<Record>, d: Desired, paid: Json, i: nat)
    requires d.Valid() && Field(details, PROVENANCE).Obj? && i < |GENERAL_TO_DETAILS|
    ensures var after := Corrected(details, records, d, paid);
      && Field(after, PROVENANCE).Obj? && Field(Field(after, PROVENANCE).fields, SECTION_KEY).Obj?
      && Reaches(Field(Field(after, PROVENANCE).fields, SECTION_KEY).fields, d)
    ensures var after := Corrected(details, records, d, paid);
      var (source, target) := GENERAL_TO_DETAILS[i];
      var values, stored := Values(Ordered(records), source), Field(GeneralOf(details), target);
      Field(GeneralOf(after), target) == if |values| == 1 && Missing(stored) then values[0] else stored
    ensures Field(Corrected(details, records, d, paid), PAID) ==
      if Field(details, PAID).Null? && (PAID in details || Field(details, PAID_CAMEL).Null?) then paid else Field(details, PAID)
  {
    CorrectedParts(details, records, d, paid);
    MergeReachesDesired(Field(Field(details, PROVENANCE).fields, SECTION_KEY), d);
    GeneralTargetsDiffer();
    FilledAt(GeneralOf(details), Ordered(records), GENERAL_TO_DETAILS, i);
    hide Corrected, Merged, Filled, Ordered, GENERAL_TO_DETAILS, Reaches, Values, Missing;
  }

  /** Nothing else of the document is touched, nor anything of the provenance outside its sections. */
  lemma {:induction false} CorrectionTouchesOnly(details: Fields, records: seq<Record>, d: Desired, paid: Json, k: string)
    requires d.Valid() && Field(details, PROVENANCE).Obj?
    ensures var after := Corrected(details, records, d, paid);
      && (k !in [PROVENANCE, GENERAL, PAID] ==> (k in after <==> k in details) && Field(after, k) == Field(details, k))
      && Field(after, PROVENANCE).Obj?
      && (k != SECTION_KEY ==> Field(Field(after, PROVENANCE).fields, k) == Field(Field(details, PROVENANCE).fields, k))
  {
    hide Merged, Filled, Ordered, GENERAL_TO_DETAILS, GeneralOf;
  }

  /** `build_corrected_details` */
  method BuildCorrectedDetails(details: Fields, records: seq<Record>, d: Desired, digest: Digest) returns (r: Option<Fields>)
    requires d.Valid() && Field(details, PROVENANCE).Obj?
    ensures r.Some? <==> Correctable(details, records, d, digest)
    ensures r.Some? ==> r.value == Corrected(details, records, d, PaidList(digest, records))
  {
    hide Merged, Compatible, Filled, Ordered, NoCollision, PaidOperations, PaidRows, GENERAL_TO_DETAILS;
    var document := new Details(details);
    var provenance := new Provenance(details[PROVENANCE].fields);
    var ok, changed := provenance.MergeCompleteSections(d);
    if !ok { return None; }
    document.fields := document.fields[PROVENANCE := Obj(provenance.fields)];
    assert document.fields == WithSections(details, d);
    assert Field(document.fields, GENERAL) == Field(details, GENERAL);
    var fills, conflicts, preserved;
    ok, fills, conflicts, preserved := document.FillMissingGeneral(records);
    if !ok { return None; }
    assert document.fields == WithGeneral(WithSections(details, d), records);
    var rows := CanonicalPaidOperations(digest, records);
    if rows.Err? { return None; }
    var status := document.FillMissingPaidOperations(Arr(PaidRows(rows.value)));
    r := Some(document.fields);
  }
}
