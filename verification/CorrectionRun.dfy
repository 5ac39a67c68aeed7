/** Planning, applying and planning again over a whole catalog. */
module CorrectionRun {
  import opened Base
  import opened Json
  import opened CorrectionRecords
  import opened CorrectionMerge
  import opened CorrectionPlan

  type Models = map<nat, Model>

  /** The rows of every other catalog table. */
  type Counts = map<string, nat>

  /** What a pre-import model must still look like. */
  datatype Protected = Protected(code: string, name: string, images: seq<string>)

  function ProtectedPart(m: Model): Protected { Protected(m.code, m.name, m.images) }

  /** The reviewed import: one action per linked model, in id order. */
  datatype Receipt = Receipt(ids: seq<nat>, actions: map<nat, Action>, created: set<nat>, modelCount: nat,
                             otherCounts: Counts, preimport: map<nat, Protected>) {
    ghost predicate Valid() { forall i :: 0 <= i < |ids| ==> ids[i] in actions }
  }

  /** Everything a plan depends on besides the catalog. `scopeOk` and `evidenceOk` stand for
      the comparison of manifest and receipt, which reads neither. */
  datatype Inputs = Inputs(receipt: Receipt, manifest: Manifest, guards: Guards, scopeOk: bool, evidenceOk: int -> bool) {
    ghost predicate Valid() { receipt.Valid() && manifest.Valid() }
  }

  datatype Planned = Planned(before: Model, sources: seq<int>, decision: Decision, details: Json) {
    function After(): Model
    {
      var name := if NewName(decision).Some? then NewName(decision).value else before.name;
      before.(name := name, details := details)
    }
    predicate Changes() { NewName(decision).Some? || details != before.details }
  }

  datatype Entry = Entry(id: nat, planned: Planned)

  datatype Plan = Plan(ready: bool, actions: seq<Entry>)

  // ----- one model -----

  function ExpectedCode(action: Action, created: bool): string { if created then action.code else action.expectedCode }

  /** The provenance block of a model, accepted by the receipt evidence. */
  function Provenance(g: Guards, action: Action, m: Model): Option<Fields>
  {
    if m.details.Obj? && Field(m.details.fields, PROVENANCE).Obj? then
      var p := Field(m.details.fields, PROVENANCE).fields;
      if g.provenanceOk(action, p - {SECTION_KEY}) then Some(p) else None
    else None
  }

  /** The old ids a model was imported from. */
  function Sources(g: Guards, action: Action, m: Model): Option<seq<int>>
  {
    var p := Provenance(g, action, m);
    if p.None? then None else SourceIds(p.value)
  }

  /** They are read from the provenance block, and only if the receipt evidence accepts what the
      block holds besides its sections. */
  lemma {:induction false} SourcesExactly(g: Guards, action: Action, m: Model, ids: seq<int>)
    ensures Sources(g, action, m) == Some(ids) <==>
      m.details.Obj? && Field(m.details.fields, PROVENANCE).Obj? &&
      var p := Field(m.details.fields, PROVENANCE).fields; g.provenanceOk(action, p - {SECTION_KEY}) && SourceIds(p) == Some(ids)
  {
    hide SourceIds;
  }

  function RecordsFor(manifest: Manifest, ids: seq<int>): seq<Record>
    requires AllKnown(manifest.records, ids)
  {
    RecordsOf(manifest.records, ids)
  }

  ghost function PayloadFor(manifest: Manifest, ids: seq<int>): (d: Desired)
    requires manifest.Valid() && AllKnown(manifest.records, ids)
    ensures d.Valid() && d == Payload(RecordsFor(manifest, ids), manifest)
  {
    RecordsOfMembers(manifest.records, ids);
    PayloadValid(RecordsOf(manifest.records, ids), manifest);
    Payload(RecordsOf(manifest.records, ids), manifest)
  }

  /** The planned correction of one model; None is a refusal. */
  ghost function PlanModel(g: Guards, manifest: Manifest, action: Action, created: bool, m: Model): Option<Planned>
    requires manifest.Valid()
  {
    var sources := Sources(g, action, m);
    if m.code != ExpectedCode(action, created) || sources.None? || !AllKnown(manifest.records, sources.value) then None
    else
      var records, d := RecordsFor(manifest, sources.value), PayloadFor(manifest, sources.value);
      var decision := Decide(created, m.name, action, records);
      if !Correctable(m.details.fields, records, d, g.digest) || decision.None? then None
      else
        var details := Obj(Corrected(m.details.fields, records, d, PaidList(g.digest, records)));
        if details == m.details || g.withinBounds(details) then Some(Planned(m, sources.value, decision.value, details)) else None
  }

  lemma {:induction false} ProvenanceKept(details: Fields, records: seq<Record>, d: Desired, paid: Json) returns (p: Fields, q: Fields)
    requires Field(details, PROVENANCE).Obj?
    ensures Field(details, PROVENANCE) == Obj(p) && Field(Corrected(details, records, d, paid), PROVENANCE) == Obj(q)
    ensures p - {SECTION_KEY} == q - {SECTION_KEY} && SourceIds(p) == SourceIds(q)
  {
    p := Field(details, PROVENANCE).fields;
    hide Merged, CorrectionFill.Filled, Ordered, ListedIds;
    q := p[SECTION_KEY := Obj(Merged(Field(p, SECTION_KEY), d))];
    SameMap(p - {SECTION_KEY}, q - {SECTION_KEY});
  }

  lemma {:induction false} SourcesKept(g: Guards, action: Action, m: Model, after: Model, records: seq<Record>, d: Desired, paid: Json)
    requires Sources(g, action, m).Some? && after.details == Obj(Corrected(m.details.fields, records, d, paid))
    ensures Sources(g, action, after) == Sources(g, action, m)
  {
    var p, q := ProvenanceKept(m.details.fields, records, d, paid);
    hide Corrected, SourceIds;
  }

  /** Once a model is corrected it can be planned again, from the same sources, and there is
      nothing left to do. */
  lemma {:induction false} PlanModelStable(g: Guards, manifest: Manifest, action: Action, created: bool, m: Model)
    requires manifest.Valid()
    ensures PlanModel(g, manifest, action, created, m).Some? ==>
      var after := PlanModel(g, manifest, action, created, m).value.After();
      && Sources(g, action, after) == Sources(g, action, m)
      && PlanModel(g, manifest, action, created, after).Some?
      && !PlanModel(g, manifest, action, created, after).value.Changes()
  {
    hide Sources, Corrected, Correctable, Decide, NewName, RecordsFor, PayloadFor, PaidList;
    if PlanModel(g, manifest, action, created, m).None? { return; }
    var planned := PlanModel(g, manifest, action, created, m).value;
    var after := planned.After();
    var records, d := RecordsFor(manifest, planned.sources), PayloadFor(manifest, planned.sources);
    var paid := PaidList(g.digest, records);
    PaidListIsArray(g.digest, records);
    SourcesNeedObject(g, action, m);
    SourcesKept(g, action, m, after, records, d, paid);
    CorrectableHasProvenance(m.details.fields, records, d, g.digest);
    CorrectionIdempotent(m.details.fields, records, d, paid, g.digest);
    NameDecisionStable(created, m.name, action, records);
  }

  lemma {:induction false} PaidListIsArray(digest: Digest, records: seq<Record>)
    ensures PaidList(digest, records).Arr?
  {
  }

  lemma {:induction false} CorrectableHasProvenance(details: Fields, records: seq<Record>, d: Desired, digest: Digest)
    requires d.Valid() && Correctable(details, records, d, digest)
    ensures Field(details, PROVENANCE).Obj?
  {
  }

  /** What a plan may do to a model: code and images stay, a name changes only from the
      imported one and only when the import created the model, and the document only gains. */
  lemma {:induction false} PlanModelIsSafe(g: Guards, manifest: Manifest, action: Action, created: bool, m: Model)
    requires manifest.Valid()
    ensures PlanModel(g, manifest, action, created, m).Some? ==>
      var after := PlanModel(g, manifest, action, created, m).value.After();
      && after.code == m.code && after.images == m.images
      && (after.name != m.name ==> created && action.name == Str(m.name))
      && DocumentGains(m.details, after.details)
  {
    hide Sources, Corrected, Correctable, Decide, NewName, RecordsFor, PayloadFor, PaidList, Gains;
    if PlanModel(g, manifest, action, created, m).None? { return; }
    var planned := PlanModel(g, manifest, action, created, m).value;
    var records, d := RecordsFor(manifest, planned.sources), PayloadFor(manifest, planned.sources);
    var paid := PaidList(g.digest, records);
    PaidListIsArray(g.digest, records);
    NameDecisionStable(created, m.name, action, records);
    SourcesNeedObject(g, action, m);
    CorrectableHasProvenance(m.details.fields, records, d, g.digest);
    CorrectionGains(m.details.fields, records, d, paid, g.digest);
  }

  lemma {:induction false} RecordsAre(records: map<int, Record>, ids: seq<int>)
    requires AllKnown(records, ids)
    ensures |RecordsOf(records, ids)| == |ids| && forall i :: 0 <= i < |ids| ==> RecordsOf(records, ids)[i] == records[ids[i]]
  {
    if ids != [] { RecordsAre(records, ids[..|ids| - 1]); }
  }

  /** The records a model is planned from: those of its sources, each once. */
  lemma {:induction false} RecordsForAre(manifest: Manifest, ids: seq<int>)
    requires manifest.Valid() && AllKnown(manifest.records, ids) && forall i, j :: 0 <= i < j < |ids| ==> ids[i] < ids[j]
    ensures IdsDiffer(RecordsFor(manifest, ids))
    ensures forall r :: r in RecordsFor(manifest, ids) <==> r.id in ids && manifest.records[r.id] == r
  {
    RecordsAre(manifest.records, ids);
    var records := RecordsFor(manifest, ids);
    hide RecordsFor, RecordsOf;
    forall r ensures r in records <==> r.id in ids && manifest.records[r.id] == r {
      if r in records {
        var i :| 0 <= i < |records| && records[i] == r;
        assert ids[i] in ids;
      }
      if r.id in ids && manifest.records[r.id] == r {
        var i :| 0 <= i < |ids| && ids[i] == r.id;
        assert records[i] == r;
      }
    }
  }

  /** A model has a plan if and only if its code is the reviewed one, its provenance is
      accepted and names known sources, none of the three correction steps refuses, the name
      decision does not, and a changed document is within bounds. */
  lemma {:induction false} PlannedExactly(g: Guards, manifest: Manifest, action: Action, created: bool, m: Model)
    requires manifest.Valid()
    ensures PlanModel(g, manifest, action, created, m).Some? <==>
      && m.code == (if created then action.code else action.expectedCode)
      && Sources(g, action, m).Some? && AllKnown(manifest.records, Sources(g, action, m).value)
      && m.details.Obj?
      && var records := RecordsFor(manifest, Sources(g, action, m).value);
      var d := PayloadFor(manifest, Sources(g, action, m).value);
      && Correctable(m.details.fields, records, d, g.digest) && Decide(created, m.name, action, records).Some?
      && (var details := Obj(Corrected(m.details.fields, records, d, PaidList(g.digest, records)));
          details == m.details || g.withinBounds(details))
  {
    if Sources(g, action, m).Some? { SourcesNeedObject(g, action, m); }
    hide Sources, Corrected, Correctable, Decide, RecordsFor, PayloadFor, PaidList;
  }

  /** A planned model is renamed to `p` if and only if the import created it, it still has the
      name it was imported with, and `p` is the product of its records, fits and differs. */
  lemma {:induction false} PlanRenamesExactly(g: Guards, manifest: Manifest, action: Action, created: bool, m: Model, p: string)
    requires manifest.Valid() && p != m.name
    ensures PlanModel(g, manifest, action, created, m).Some? ==>
      var planned := PlanModel(g, manifest, action, created, m).value;
      && AllKnown(manifest.records, planned.sources)
      && (planned.After().name == p <==>
            created && action.name == Str(m.name) && IsProduct(action, RecordsFor(manifest, planned.sources), p) && |p| <= MAX_NAME)
  {
    if PlanModel(g, manifest, action, created, m).None? { return; }
    PlanParts(g, manifest, action, created, m);
    var planned := PlanModel(g, manifest, action, created, m).value;
    RenamedExactly(created, m.name, action, RecordsFor(manifest, planned.sources), p);
    hide PlanModel, Decide, NewName, RecordsFor, IsProduct;
  }

  lemma {:induction false} PlanParts(g: Guards, manifest: Manifest, action: Action, created: bool, m: Model)
    requires manifest.Valid() && PlanModel(g, manifest, action, created, m).Some?
    ensures var planned := PlanModel(g, manifest, action, created, m).value;
      && planned.before == m && Sources(g, action, m) == Some(planned.sources) && AllKnown(manifest.records, planned.sources)
      && m.details.Obj? && Field(m.details.fields, PROVENANCE).Obj?
      && var records, d := RecordsFor(manifest, planned.sources), PayloadFor(manifest, planned.sources);
      && Decide(created, m.name, action, records) == Some(planned.decision)
      && planned.details == Obj(Corrected(m.details.fields, records, d, PaidList(g.digest, records)))
  {
    SourcesNeedObject(g, action, m);
    hide Sources, Corrected, Correctable, Decide, RecordsFor, PayloadFor, PaidList;
  }

  /** The row of the record in one section. */
  ghost predicate Holds(provenance: Fields, section: string, id: int, row: Json)
  {
    var block := Field(provenance, SECTION_KEY);
    && block.Obj? && Field(block.fields, section).Obj?
    && Text(id) in Field(block.fields, section).fields && Field(block.fields, section).fields[Text(id)] == row
  }

  /** All four sections have what the record says, under its id. */
  ghost predicate HoldsRecord(provenance: Fields, r: Record)
  {
    && Holds(provenance, "general", r.id, Obj(r.general)) && Holds(provenance, "operations", r.id, r.operationRows)
    && Holds(provenance, "recipes", r.id, r.recipes) && Holds(provenance, "record_metadata", r.id, Obj(r.metadata))
  }

  lemma {:induction false} HoldsMeans(provenance: Fields, r: Record)
    requires HoldsRecord(provenance, r)
    ensures var block := Field(provenance, SECTION_KEY);
      block.Obj? && forall x :: x in [("general", Obj(r.general)), ("operations", r.operationRows), ("recipes", r.recipes), ("record_metadata", Obj(r.metadata))] ==>
        Field(block.fields, x.0).Obj? && Field(Field(block.fields, x.0).fields, Text(r.id)) == x.1
  {
    hide Text;
  }

  lemma {:induction false} ReachedRecord(provenance: Fields, records: seq<Record>, manifest: Manifest, r: Record)
    requires IdsDiffer(records) && r in records
    requires Field(provenance, SECTION_KEY).Obj? && Reaches(Field(provenance, SECTION_KEY).fields, Payload(records, manifest))
    ensures HoldsRecord(provenance, r)
  {
    PayloadHolds(records, manifest, r);
    SectionNames(records, manifest);
    var d := Payload(records, manifest);
    hide Payload, Text, IdsDiffer, Holds, Reaches;
    SectionHeld(provenance, d, "general", r.id, Obj(r.general));
    SectionHeld(provenance, d, "operations", r.id, r.operationRows);
    SectionHeld(provenance, d, "recipes", r.id, r.recipes);
    SectionHeld(provenance, d, "record_metadata", r.id, Obj(r.metadata));
  }

  lemma {:induction false} SectionNames(records: seq<Record>, manifest: Manifest)
    ensures var s := Payload(records, manifest).sections; "general" in s && "operations" in s && "recipes" in s && "record_metadata" in s
  {
    hide Rows, Ordered, IdsOf;
  }

  lemma {:induction false} SectionHeld(provenance: Fields, d: Desired, f: string, id: int, row: Json)
    requires Field(provenance, SECTION_KEY).Obj? && Reaches(Field(provenance, SECTION_KEY).fields, d)
    requires f in d.sections && Text(id) in d.sections[f] && d.sections[f][Text(id)] == row
    ensures Holds(provenance, f, id, row)
  {
    hide Text;
  }

  /** What a planned document holds for a source record of the model. */
  lemma {:induction false} PlanReachesRecord(g: Guards, manifest: Manifest, action: Action, created: bool, m: Model, r: Record)
    requires manifest.Valid() && PlanModel(g, manifest, action, created, m).Some?
    requires var sources := PlanModel(g, manifest, action, created, m).value.sources; r.id in sources && manifest.records[r.id] == r
    ensures var after := PlanModel(g, manifest, action, created, m).value.After().details;
      && after.Obj? && Field(after.fields, PROVENANCE).Obj?
      && var block := Field(Field(after.fields, PROVENANCE).fields, SECTION_KEY);
      block.Obj? && forall x :: x in [("general", Obj(r.general)), ("operations", r.operationRows), ("recipes", r.recipes), ("record_metadata", Obj(r.metadata))] ==>
        Field(block.fields, x.0).Obj? && Field(Field(block.fields, x.0).fields, Text(r.id)) == x.1
  {
    PlanParts(g, manifest, action, created, m);
    SourcesAscend(g, action, m);
    hide *;
    var planned := PlanModel(g, manifest, action, created, m).value;
    RecordsForAre(manifest, planned.sources);
    var records, d := RecordsFor(manifest, planned.sources), PayloadFor(manifest, planned.sources);
    SectionsReached(m.details.fields, records, d, PaidList(g.digest, records));
    ReachedRecord(Field(Corrected(m.details.fields, records, d, PaidList(g.digest, records)), PROVENANCE).fields, records, manifest, r);
    HoldsMeans(Field(Corrected(m.details.fields, records, d, PaidList(g.digest, records)), PROVENANCE).fields, r);
    AfterDetails(planned);
  }

  lemma {:induction false} AfterDetails(planned: Planned)
    ensures planned.After().details == planned.details
  {
  }

  lemma {:induction false} SectionsReached(details: Fields, records: seq<Record>, d: Desired, paid: Json)
    requires d.Valid() && Field(details, PROVENANCE).Obj?
    ensures var p := Field(Corrected(details, records, d, paid), PROVENANCE);
      p.Obj? && Field(p.fields, SECTION_KEY).Obj? && Reaches(Field(p.fields, SECTION_KEY).fields, d)
  {
    hide *;
    FirstPair();
    CorrectionReaches(details, records, d, paid, 0);
  }

  lemma {:induction false} FirstPair()
    ensures |CorrectionFill.GENERAL_TO_DETAILS| > 0
  {
  }

  lemma {:induction false} SourcesAscend(g: Guards, action: Action, m: Model)
    requires Sources(g, action, m).Some?
    ensures var ids := Sources(g, action, m).value; forall i, j :: 0 <= i < j < |ids| ==> ids[i] < ids[j]
  {
    SourceIdsAre(Provenance(g, action, m).value);
    hide SourceIds;
  }

  lemma {:induction false} SourcesNeedObject(g: Guards, action: Action, m: Model)
    requires Sources(g, action, m).Some?
    ensures m.details.Obj? && Field(m.details.fields, PROVENANCE).Obj?
  {
  }

  /** `plan_model_correction` */
  method PlanModelCorrection(g: Guards, manifest: Manifest, action: Action, created: bool, m: Model) returns (r: Option<Planned>)
    requires manifest.Valid()
    ensures r == PlanModel(g, manifest, action, created, m)
  {
    hide Corrected, Correctable, Decide, NewName, RecordsFor, PayloadFor, PaidList, Provenance, SourceIds, AllKnown, Payload;
    if m.code != ExpectedCode(action, created) { return None; }
    var sources := Sources(g, action, m);
    if sources.None? || !AllKnown(manifest.records, sources.value) { return None; }
    SourcesNeedObject(g, action, m);
    var records := RecordsFor(manifest, sources.value);
    ghost var desired := PayloadFor(manifest, sources.value);
    var d := Payload(records, manifest);
    var details := BuildCorrectedDetails(m.details.fields, records, d, g.digest);
    if details.None? { return None; }
    var decision := Decide(created, m.name, action, records);
    if decision.None? { return None; }
    if Obj(details.value) != m.details && !g.withinBounds(Obj(details.value)) { return None; }
    r := Some(Planned(m, sources.value, decision.value, Obj(details.value)));
  }
}
