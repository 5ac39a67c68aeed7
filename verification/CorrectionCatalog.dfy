/** Compiling a correction plan for the whole catalog, applying it, compiling again. */
module CorrectionCatalog {
  import opened Base
  import opened Json
  import opened CorrectionRecords
  import opened CorrectionPlan
  import opened CorrectionRun

  // ----- what a plan is -----

  /** A source record that blocks the models imported from it. */
  ghost predicate BadSource(inp: Inputs, s: int)
  {
    s !in inp.manifest.records || !inp.evidenceOk(s) || !PaidWork(inp.guards.digest, [inp.manifest.records[s]])
  }

  ghost predicate Plannable(inp: Inputs, id: nat, m: Model)
    requires id in inp.receipt.actions
  {
    var sources := Sources(inp.guards, inp.receipt.actions[id], m);
    sources.Some? && forall i :: 0 <= i < |sources.value| ==> !BadSource(inp, sources.value[i])
  }

  ghost function PlanFor(inp: Inputs, id: nat, m: Model): Option<Planned>
    requires inp.Valid() && id in inp.receipt.actions
  {
    if Plannable(inp, id, m)
    then PlanModel(inp.guards, inp.manifest, inp.receipt.actions[id], id in inp.receipt.created, m)
    else None
  }

  /** A linked model gets exactly the plan of its own, provided that every source record it
      names is in the manifest, backed by evidence, and free of operations that cannot be listed. */
  lemma {:induction false} LinkedPlanExactly(inp: Inputs, id: nat, m: Model, planned: Planned)
    requires inp.Valid() && id in inp.receipt.actions
    ensures PlanFor(inp, id, m) == Some(planned) <==>
      && PlanModel(inp.guards, inp.manifest, inp.receipt.actions[id], id in inp.receipt.created, m) == Some(planned)
      && forall s :: s in planned.sources ==>
           s in inp.manifest.records && inp.evidenceOk(s) && PaidWork(inp.guards.digest, [inp.manifest.records[s]])
  {
    hide *;
    PlanForIs(inp, id, m, planned);
    PlannableIs(inp, id, m, planned);
  }

  lemma {:induction false} PlanForIs(inp: Inputs, id: nat, m: Model, planned: Planned)
    requires inp.Valid() && id in inp.receipt.actions
    ensures PlanFor(inp, id, m) == Some(planned) <==>
      Plannable(inp, id, m) && PlanModel(inp.guards, inp.manifest, inp.receipt.actions[id], id in inp.receipt.created, m) == Some(planned)
  {
    hide Plannable, PlanModel;
  }

  lemma {:induction false} SourcesOf(g: Guards, manifest: Manifest, action: Action, created: bool, m: Model)
    requires manifest.Valid() && PlanModel(g, manifest, action, created, m).Some?
    ensures Sources(g, action, m) == Some(PlanModel(g, manifest, action, created, m).value.sources)
  {
    PlanParts(g, manifest, action, created, m);
    hide *;
  }

  lemma {:induction false} PlannableIs(inp: Inputs, id: nat, m: Model, planned: Planned)
    requires inp.Valid() && id in inp.receipt.actions
    ensures PlanModel(inp.guards, inp.manifest, inp.receipt.actions[id], id in inp.receipt.created, m) == Some(planned) ==>
      (Plannable(inp, id, m) <==> forall s :: s in planned.sources ==>
         s in inp.manifest.records && inp.evidenceOk(s) && PaidWork(inp.guards.digest, [inp.manifest.records[s]]))
  {
    hide PlanModel, Sources, PaidWork;
    if PlanModel(inp.guards, inp.manifest, inp.receipt.actions[id], id in inp.receipt.created, m) == Some(planned) {
      SourcesOf(inp.guards, inp.manifest, inp.receipt.actions[id], id in inp.receipt.created, m);
      assert forall i :: 0 <= i < |planned.sources| ==> planned.sources[i] in planned.sources;
    }
  }

  /** The entries of the given models that have something to do. */
  ghost function ActionsFor(inp: Inputs, models: Models, ids: seq<nat>): seq<Entry>
    requires inp.Valid() && forall i :: 0 <= i < |ids| ==> ids[i] in inp.receipt.actions && ids[i] in models
  {
    if ids == [] then []
    else
      var id := ids[|ids| - 1];
      var planned := PlanFor(inp, id, models[id]);
      ActionsFor(inp, models, ids[..|ids| - 1]) + if planned.Some? && planned.value.Changes() then [Entry(id, planned.value)] else []
  }

  ghost predicate AllPlanned(inp: Inputs, models: Models, ids: seq<nat>)
    requires inp.Valid() && forall i :: 0 <= i < |ids| ==> ids[i] in inp.receipt.actions && ids[i] in models
  {
    forall i :: 0 <= i < |ids| ==> PlanFor(inp, ids[i], models[ids[i]]).Some?
  }

  function ProtectedParts(receipt: Receipt, models: Models): map<nat, Protected>
  {
    map id | id in models && id !in receipt.created :: ProtectedPart(models[id])
  }

  /** `validate_receipt_database_shape` */
  predicate ShapeOk(receipt: Receipt, models: Models)
  {
    && |models| == receipt.modelCount
    && (forall i :: 0 <= i < |receipt.ids| ==> receipt.ids[i] in models)
    && ProtectedParts(receipt, models) == receipt.preimport
  }

  ghost function Compiled(inp: Inputs, models: Models, others: Counts): Option<Plan>
    requires inp.Valid()
  {
    if !ShapeOk(inp.receipt, models) || others != inp.receipt.otherCounts then None
    else
      Some(Plan(inp.scopeOk && inp.manifest.complete && AllPlanned(inp, models, inp.receipt.ids),
                ActionsFor(inp, models, inp.receipt.ids)))
  }

  // ----- applying -----

  ghost predicate Linked(inp: Inputs, id: nat) { exists i :: 0 <= i < |inp.receipt.ids| && inp.receipt.ids[i] == id }

  /** The catalog with every planned correction made. */
  ghost function Corrections(inp: Inputs, models: Models): Models
    requires inp.Valid()
  {
    map id | id in models ::
      if Linked(inp, id) && PlanFor(inp, id, models[id]).Some? then PlanFor(inp, id, models[id]).value.After() else models[id]
  }

  lemma {:induction false} PlannableKept(inp: Inputs, id: nat, m: Model, after: Model)
    requires id in inp.receipt.actions
    ensures Plannable(inp, id, m) && Sources(inp.guards, inp.receipt.actions[id], after) == Sources(inp.guards, inp.receipt.actions[id], m) ==>
      Plannable(inp, id, after)
  {
    hide Sources, BadSource;
  }

  lemma {:induction false} PlanForStable(inp: Inputs, id: nat, m: Model)
    requires inp.Valid() && id in inp.receipt.actions
    ensures PlanFor(inp, id, m).Some? ==>
      var after := PlanFor(inp, id, m).value.After();
      PlanFor(inp, id, after).Some? && !PlanFor(inp, id, after).value.Changes()
  {
    hide PlanModel, Sources, Plannable, Planned.Changes, Planned.After;
    if PlanFor(inp, id, m).None? { return; }
    var action := inp.receipt.actions[id];
    PlanModelStable(inp.guards, inp.manifest, action, id in inp.receipt.created, m);
    PlannableKept(inp, id, m, PlanFor(inp, id, m).value.After());
  }

  /** Applying a ready plan and compiling again gives a ready plan with nothing to do. */
  lemma {:induction false} ReplanIsEmpty(inp: Inputs, models: Models, others: Counts)
    requires inp.Valid() && Compiled(inp, models, others).Some? && Compiled(inp, models, others).value.ready
    ensures Compiled(inp, Corrections(inp, models), others) == Some(Plan(true, []))
  {
    hide PlanFor;
    var after := Corrections(inp, models);
    var ids := inp.receipt.ids;
    forall i | 0 <= i < |ids|
      ensures PlanFor(inp, ids[i], after[ids[i]]).Some? && !PlanFor(inp, ids[i], after[ids[i]]).value.Changes()
    {
      PlanForStable(inp, ids[i], models[ids[i]]);
    }
    NoActions(inp, after, ids);
    ShapeKept(inp, models);
  }

  lemma {:induction false} NoActions(inp: Inputs, models: Models, ids: seq<nat>)
    requires inp.Valid() && forall i :: 0 <= i < |ids| ==> ids[i] in inp.receipt.actions && ids[i] in models
    requires forall i :: 0 <= i < |ids| ==> PlanFor(inp, ids[i], models[ids[i]]).Some? && !PlanFor(inp, ids[i], models[ids[i]]).value.Changes()
    ensures ActionsFor(inp, models, ids) == []
  {
    hide PlanFor;
    if ids != [] { NoActions(inp, models, ids[..|ids| - 1]); }
  }

  lemma {:induction false} CorrectionsSafe(inp: Inputs, models: Models, id: nat)
    requires inp.Valid() && id in models
    ensures var m, after := models[id], Corrections(inp, models)[id];
      && after.code == m.code && after.images == m.images
      && (after.name != m.name ==> Linked(inp, id) && id in inp.receipt.created && inp.receipt.actions[id].name == Str(m.name))
      && DocumentGains(m.details, after.details)
  {
    hide Gains;
    if Linked(inp, id) && PlanFor(inp, id, models[id]).Some? {
      PlanModelIsSafe(inp.guards, inp.manifest, inp.receipt.actions[id], id in inp.receipt.created, models[id]);
      hide PlanModel;
    }
  }

  lemma {:induction false} ShapeKept(inp: Inputs, models: Models)
    requires inp.Valid() && ShapeOk(inp.receipt, models)
    ensures ShapeOk(inp.receipt, Corrections(inp, models))
  {
    hide PlanFor;
    var after := Corrections(inp, models);
    assert after.Keys == models.Keys;
    assert |after| == |after.Keys| && |models| == |models.Keys|;
    forall id | id in models && id !in inp.receipt.created ensures ProtectedPart(after[id]) == ProtectedPart(models[id]) {
      CorrectionsSafe(inp, models, id);
    }
    SameMap(ProtectedParts(inp.receipt, after), ProtectedParts(inp.receipt, models));
  }

  // ----- the tool -----

  /** Whether a source record blocks its models. */
  method CheckSource(inp: Inputs, s: int) returns (bad: bool)
    ensures bad <==> BadSource(inp, s)
  {
    if s !in inp.manifest.records || !inp.evidenceOk(s) { return true; }
    var rows := CanonicalPaidOperations(inp.guards.digest, [inp.manifest.records[s]]);
    bad := rows.Err?;
  }

  method CheckSources(inp: Inputs, sources: seq<int>) returns (ok: bool)
    ensures ok <==> forall i :: 0 <= i < |sources| ==> !BadSource(inp, sources[i])
  {
    hide BadSource;
    for i := 0 to |sources|
      invariant forall j :: 0 <= j < i ==> !BadSource(inp, sources[j])
    {
      var bad := CheckSource(inp, sources[i]);
      if bad { return false; }
    }
    ok := true;
  }

  /** The plan of one linked model, unless its provenance or a source record blocks it. */
  method PlanLinked(inp: Inputs, id: nat, m: Model) returns (planned: Option<Planned>)
    requires inp.Valid() && id in inp.receipt.actions
    ensures planned == PlanFor(inp, id, m)
  {
    hide Sources, PlanModel, BadSource;
    var action := inp.receipt.actions[id];
    var sources := Sources(inp.guards, action, m);
    if sources.None? { return None; }
    var ok := CheckSources(inp, sources.value);
    if !ok { return None; }
    planned := PlanModelCorrection(inp.guards, inp.manifest, action, id in inp.receipt.created, m);
  }

  class Catalog {
    var models: Models
    var otherCounts: Counts

    /** `compile_correction_plan` */
    method Compile(inp: Inputs) returns (plan: Option<Plan>)
      requires inp.Valid()
      ensures plan == Compiled(inp, models, otherCounts)
      ensures plan.Some? <==>
        |models| == inp.receipt.modelCount && otherCounts == inp.receipt.otherCounts && ProtectedParts(inp.receipt, models) == inp.receipt.preimport
        && forall i :: 0 <= i < |inp.receipt.ids| ==> inp.receipt.ids[i] in models
      ensures plan.Some? ==> (plan.value.ready <==>
        inp.scopeOk && inp.manifest.complete && forall i :: 0 <= i < |inp.receipt.ids| ==> PlanFor(inp, inp.receipt.ids[i], models[inp.receipt.ids[i]]).Some?)
      ensures plan.Some? ==> forall e :: e in plan.value.actions <==> Entered(inp, models, inp.receipt.ids, e) && e.planned.Changes()
    {
      hide PlanFor, Entered, ProtectedParts;
      if !ShapeOk(inp.receipt, models) || otherCounts != inp.receipt.otherCounts { return None; }
      var ids := inp.receipt.ids;
      var planned: bool, actions: seq<Entry> := true, [];
      for k := 0 to |ids|
        invariant planned == AllPlanned(inp, models, ids[..k]) && actions == ActionsFor(inp, models, ids[..k])
      {
        assert ids[..k + 1][..k] == ids[..k];
        var id := ids[k];
        var result := PlanLinked(inp, id, models[id]);
        PlannedStep(inp, models, ids, k);
        if result.None? {
          planned := false;
        } else if result.value.Changes() {
          actions := actions + [Entry(id, result.value)];
        }
      }
      assert ids[..|ids|] == ids;
      ActionsAre(inp, models, ids);
      plan := Some(Plan(inp.scopeOk && inp.manifest.complete && planned, actions));
    }

    /** `apply_correction_plan`: every action is planned again and must come out the same.
        Whatever the plan, code, images, protected names and unlisted models stay; the plan
        just compiled from this catalog, when ready, is applied in full. */
    method Apply(inp: Inputs, plan: Plan) returns (ok: bool)
      requires inp.Valid()
      modifies `models
      ensures models.Keys == old(models).Keys
      ensures forall id :: id in models ==> models[id].code == old(models)[id].code && models[id].images == old(models)[id].images
      ensures forall id :: id in models && models[id].name != old(models)[id].name ==>
        id in inp.receipt.created && id in inp.receipt.actions && inp.receipt.actions[id].name == Str(old(models)[id].name)
      ensures forall id :: id in models ==> DocumentGains(old(models)[id].details, models[id].details)
      ensures ok ==> plan.ready
      ensures Distinct(inp.receipt.ids) && Compiled(inp, old(models), otherCounts) == Some(plan) && plan.ready ==>
        ok && models == Corrections(inp, old(models))
    {
      hide *;
      ghost var start := models;
      ghost var compiled := Distinct(inp.receipt.ids) && Compiled(inp, start, otherCounts) == Some(plan);
      StartApply(inp, start, plan.actions);
      KeptMeans(inp, start, models);
      if !plan.ready { return false; }
      for k := 0 to |plan.actions|
        invariant models.Keys == start.Keys
        invariant forall id :: id in models ==> KeptParts(inp, id, start[id], models[id])
        invariant compiled ==> models == Applied(start, plan.actions[..k])
      {
        var entry := plan.actions[k];
        if compiled { NextApply(inp, start, otherCounts, plan, k); }
        KeptMeans(inp, start, models);
        if entry.id !in models || entry.id !in inp.receipt.actions { return false; }
        var current := PlanLinkedAgain(inp, entry.id, models[entry.id]);
        if current != Some(entry.planned) { return false; }
        if NewName(entry.planned.decision).Some? && entry.id !in inp.receipt.created { return false; }
        KeptStep(inp, entry.id, start[entry.id], models[entry.id], entry.planned);
        models := models[entry.id := entry.planned.After()];
      }
      KeptMeans(inp, start, models);
      if compiled { FinishApply(inp, start, otherCounts, plan); }
      ok := true;
    }
  }

  /** `apply_correction_plan` plans a model again without the checks of its source records. */
  method PlanLinkedAgain(inp: Inputs, id: nat, m: Model) returns (planned: Option<Planned>)
    requires inp.Valid() && id in inp.receipt.actions
    ensures planned == PlanModel(inp.guards, inp.manifest, inp.receipt.actions[id], id in inp.receipt.created, m)
  {
    planned := PlanModelCorrection(inp.guards, inp.manifest, inp.receipt.actions[id], id in inp.receipt.created, m);
  }

  /** A run of the tool may only have done this to a model. */
  ghost predicate KeptParts(inp: Inputs, id: nat, before: Model, now: Model)
  {
    && now.code == before.code && now.images == before.images
    && (now.name != before.name ==> id in inp.receipt.created && id in inp.receipt.actions && inp.receipt.actions[id].name == Str(before.name))
    && DocumentGains(before.details, now.details)
  }

  lemma {:induction false} KeptMeans(inp: Inputs, start: Models, now: Models)
    requires now.Keys == start.Keys && forall id :: id in now ==> KeptParts(inp, id, start[id], now[id])
    ensures forall id :: id in now ==> now[id].code == start[id].code && now[id].images == start[id].images
    ensures forall id :: id in now && now[id].name != start[id].name ==>
      id in inp.receipt.created && id in inp.receipt.actions && inp.receipt.actions[id].name == Str(start[id].name)
    ensures forall id :: id in now ==> DocumentGains(start[id].details, now[id].details)
  {
    hide DocumentGains;
  }

  lemma {:induction false} KeptStep(inp: Inputs, id: nat, before: Model, now: Model, planned: Planned)
    requires inp.Valid() && id in inp.receipt.actions && KeptParts(inp, id, before, now)
    ensures PlanModel(inp.guards, inp.manifest, inp.receipt.actions[id], id in inp.receipt.created, now) == Some(planned) ==>
      KeptParts(inp, id, before, planned.After())
  {
    PlanModelIsSafe(inp.guards, inp.manifest, inp.receipt.actions[id], id in inp.receipt.created, now);
    hide PlanModel, DocumentGains;
    if PlanModel(inp.guards, inp.manifest, inp.receipt.actions[id], id in inp.receipt.created, now) == Some(planned) {
      DocumentTransitive(before.details, now.details, planned.After().details);
    }
  }

  lemma {:induction false} PlannedStep(inp: Inputs, models: Models, ids: seq<nat>, k: nat)
    requires inp.Valid() && forall i :: 0 <= i < |ids| ==> ids[i] in inp.receipt.actions && ids[i] in models
    requires k < |ids|
    ensures var p := PlanFor(inp, ids[k], models[ids[k]]);
      && AllPlanned(inp, models, ids[..k + 1]) == (AllPlanned(inp, models, ids[..k]) && p.Some?)
      && ActionsFor(inp, models, ids[..k + 1]) ==
           ActionsFor(inp, models, ids[..k]) + (if p.Some? && p.value.Changes() then [Entry(ids[k], p.value)] else [])
  {
    hide PlanFor;
    assert ids[..k + 1][..k] == ids[..k];
  }

  // ----- the loop of apply -----

  ghost function Applied(models: Models, entries: seq<Entry>): Models
  {
    if entries == [] then models
    else
      var e := entries[|entries| - 1];
      Applied(models, entries[..|entries| - 1])[e.id := e.planned.After()]
  }

  /** A model that no entry names is as it was. */
  lemma {:induction false} AppliedOther(models: Models, entries: seq<Entry>, id: nat)
    requires forall i :: 0 <= i < |entries| ==> entries[i].id != id
    ensures id in Applied(models, entries) <==> id in models
    ensures id in models ==> Applied(models, entries)[id] == models[id]
  {
    if entries != [] { AppliedOther(models, entries[..|entries| - 1], id); }
  }

  /** The entry is the plan of one of the models. */
  ghost predicate Entered(inp: Inputs, models: Models, ids: seq<nat>, e: Entry)
    requires inp.Valid() && forall i :: 0 <= i < |ids| ==> ids[i] in inp.receipt.actions && ids[i] in models
  {
    exists i :: 0 <= i < |ids| && ids[i] == e.id && PlanFor(inp, ids[i], models[ids[i]]) == Some(e.planned)
  }

  lemma {:induction false} ListedMore(inp: Inputs, models: Models, ids: seq<nat>, e: Entry)
    requires inp.Valid() && forall i :: 0 <= i < |ids| ==> ids[i] in inp.receipt.actions && ids[i] in models
    requires ids != [] && Distinct(ids)
    ensures Entered(inp, models, ids[..|ids| - 1], e) ==> Entered(inp, models, ids, e) && e.id != ids[|ids| - 1]
  {
    hide PlanFor;
    var l := |ids| - 1;
    if !Entered(inp, models, ids[..l], e) { return; }
    var i :| 0 <= i < l && ids[..l][i] == e.id && PlanFor(inp, ids[..l][i], models[ids[..l][i]]) == Some(e.planned);
    assert ids[i] == e.id;
  }

  lemma {:induction false} ListedStep(inp: Inputs, models: Models, ids: seq<nat>, e: Entry)
    requires inp.Valid() && ids != [] && forall i :: 0 <= i < |ids| ==> ids[i] in inp.receipt.actions && ids[i] in models
    ensures var l := |ids| - 1;
      Entered(inp, models, ids, e) <==> Entered(inp, models, ids[..l], e) || (e.id == ids[l] && PlanFor(inp, ids[l], models[ids[l]]) == Some(e.planned))
  {
    hide PlanFor;
    var l := |ids| - 1;
    if Entered(inp, models, ids[..l], e) {
      var i :| 0 <= i < l && ids[..l][i] == e.id && PlanFor(inp, ids[..l][i], models[ids[..l][i]]) == Some(e.planned);
      assert ids[i] == e.id;
    }
    if Entered(inp, models, ids, e) {
      var i :| 0 <= i < |ids| && ids[i] == e.id && PlanFor(inp, ids[i], models[ids[i]]) == Some(e.planned);
      if i < l { assert ids[..l][i] == e.id; }
    }
  }

  /** The entries are the plans of the given models that change something. */
  lemma {:induction false} ActionsAre(inp: Inputs, models: Models, ids: seq<nat>)
    requires inp.Valid() && forall i :: 0 <= i < |ids| ==> ids[i] in inp.receipt.actions && ids[i] in models
    ensures forall e :: e in ActionsFor(inp, models, ids) <==> Entered(inp, models, ids, e) && e.planned.Changes()
  {
    hide PlanFor, Planned.Changes;
    if ids != [] {
      var l := |ids| - 1;
      ActionsAre(inp, models, ids[..l]);
      hide Entered;
      forall e { ListedStep(inp, models, ids, e); }
    }
  }

  /** Every entry is the plan of one of the models, and no model has two. */
  lemma {:induction false} EntriesOf(inp: Inputs, models: Models, ids: seq<nat>)
    requires inp.Valid() && forall i :: 0 <= i < |ids| ==> ids[i] in inp.receipt.actions && ids[i] in models
    requires Distinct(ids)
    ensures forall i :: 0 <= i < |ActionsFor(inp, models, ids)| ==> Entered(inp, models, ids, ActionsFor(inp, models, ids)[i])
    ensures forall i, j :: 0 <= i < j < |ActionsFor(inp, models, ids)| ==>
      ActionsFor(inp, models, ids)[i].id != ActionsFor(inp, models, ids)[j].id
  {
    hide PlanFor, ActionsFor, Entered;
    LastAction(inp, models, ids);
    if ids != [] {
      var l := |ids| - 1;
      EntriesOf(inp, models, ids[..l]);
      var rest, es := ActionsFor(inp, models, ids[..l]), ActionsFor(inp, models, ids);
      forall i | 0 <= i < |rest| ensures Entered(inp, models, ids, rest[i]) && rest[i].id != ids[l] {
        ListedMore(inp, models, ids, rest[i]);
      }
      if es != rest {
        LastListed(inp, models, ids, es[|rest|]);
      }
    }
  }

  lemma {:induction false} LastAction(inp: Inputs, models: Models, ids: seq<nat>)
    requires inp.Valid() && forall i :: 0 <= i < |ids| ==> ids[i] in inp.receipt.actions && ids[i] in models
    ensures ids == [] ==> ActionsFor(inp, models, ids) == []
    ensures ids != [] ==>
      var rest, es, planned := ActionsFor(inp, models, ids[..|ids| - 1]), ActionsFor(inp, models, ids), PlanFor(inp, ids[|ids| - 1], models[ids[|ids| - 1]]);
      es == rest || (planned.Some? && es == rest + [Entry(ids[|ids| - 1], planned.value)])
  {
    hide PlanFor;
  }

  lemma {:induction false} LastListed(inp: Inputs, models: Models, ids: seq<nat>, e: Entry)
    requires inp.Valid() && forall i :: 0 <= i < |ids| ==> ids[i] in inp.receipt.actions && ids[i] in models
    requires ids != [] && e.id == ids[|ids| - 1]
    ensures PlanFor(inp, e.id, models[e.id]) == Some(e.planned) ==> Entered(inp, models, ids, e)
  {
    hide PlanFor;
    assert ids[|ids| - 1] == e.id;
  }

  lemma {:induction false} StartApply(inp: Inputs, models: Models, entries: seq<Entry>)
    ensures forall id :: id in models ==> KeptParts(inp, id, models[id], models[id])
    ensures Applied(models, entries[..0]) == models
  {
  }

  lemma {:induction false} ListedMeans(inp: Inputs, models: Models, ids: seq<nat>, e: Entry)
    requires inp.Valid() && (forall i :: 0 <= i < |ids| ==> ids[i] in inp.receipt.actions && ids[i] in models) && Entered(inp, models, ids, e)
    ensures e.id in inp.receipt.actions && e.id in models
    ensures PlanModel(inp.guards, inp.manifest, inp.receipt.actions[e.id], e.id in inp.receipt.created, models[e.id]) == Some(e.planned)
  {
    hide PlanModel, Plannable;
  }

  lemma {:induction false} NextApply(inp: Inputs, models: Models, others: Counts, plan: Plan, k: nat)
    requires inp.Valid() && Distinct(inp.receipt.ids) && k < |plan.actions|
    ensures Compiled(inp, models, others) == Some(plan) ==>
      var e, now := plan.actions[k], Applied(models, plan.actions[..k]);
      && e.id in now && e.id in inp.receipt.actions
      && PlanModel(inp.guards, inp.manifest, inp.receipt.actions[e.id], e.id in inp.receipt.created, now[e.id]) == Some(e.planned)
      && (NewName(e.planned.decision).Some? ==> e.id in inp.receipt.created)
      && Applied(models, plan.actions[..k + 1]) == now[e.id := e.planned.After()]
  {
    hide PlanModel, ActionsFor, AllPlanned, NewName, PlanFor, Entered, Planned.After, KeptParts;
    if Compiled(inp, models, others) != Some(plan) { return; }
    var entries := plan.actions;
    assert forall i :: 0 <= i < k ==> entries[..k][i] == entries[i];
    var e := plan.actions[k];
    EntriesOf(inp, models, inp.receipt.ids);
    assert Entered(inp, models, inp.receipt.ids, e);
    ListedMeans(inp, models, inp.receipt.ids, e);
    AppliedOther(models, plan.actions[..k], e.id);
    assert plan.actions[..k + 1][..k] == plan.actions[..k];
    OnlyCreatedRenamed(inp.guards, inp.manifest, inp.receipt.actions[e.id], e.id in inp.receipt.created, models[e.id]);
  }

  lemma {:induction false} OnlyCreatedRenamed(g: Guards, manifest: Manifest, action: Action, created: bool, m: Model)
    requires manifest.Valid()
    ensures PlanModel(g, manifest, action, created, m).Some? && NewName(PlanModel(g, manifest, action, created, m).value.decision).Some? ==> created
  {
    hide Sources, Corrected, Correctable, RecordsFor, PayloadFor, PaidList;
  }

  /** Applying the entries corrects every linked model and no other. */
  lemma {:induction false} AppliedIs(inp: Inputs, models: Models, ids: seq<nat>, id: nat)
    requires inp.Valid() && forall i :: 0 <= i < |ids| ==> ids[i] in inp.receipt.actions && ids[i] in models
    requires Distinct(ids)
    ensures var now := Applied(models, ActionsFor(inp, models, ids));
      && (id in now <==> id in models)
      && (id in models && id !in ids ==> now[id] == models[id])
      && (id in ids && PlanFor(inp, id, models[id]).Some? ==> now[id] == PlanFor(inp, id, models[id]).value.After())
  {
    hide PlanFor;
    if ids != [] {
      var l := |ids| - 1;
      var last := ids[l];
      AppliedIs(inp, models, ids[..l], id);
      assert last !in ids[..l] && forall x :: x in ids <==> x in ids[..l] || x == last;
      var rest, planned := ActionsFor(inp, models, ids[..l]), PlanFor(inp, last, models[last]);
      if planned.Some? {
        PlannedBefore(inp, last, models[last]);
        if planned.value.Changes() {
          assert (rest + [Entry(last, planned.value)])[..|rest|] == rest;
        } else {
          assert rest + [] == rest;
        }
      } else {
        assert rest + [] == rest;
      }
    }
  }

  lemma {:induction false} PlannedBefore(inp: Inputs, id: nat, m: Model)
    requires inp.Valid() && id in inp.receipt.actions
    ensures PlanFor(inp, id, m).Some? ==> PlanFor(inp, id, m).value.before == m
  {
    hide Sources, Corrected, Correctable, Decide, RecordsFor, PayloadFor, PaidList, BadSource;
  }

  lemma {:induction false} FinishApply(inp: Inputs, models: Models, others: Counts, plan: Plan)
    requires inp.Valid() && Distinct(inp.receipt.ids) && Compiled(inp, models, others) == Some(plan) && plan.ready
    ensures Applied(models, plan.actions[..|plan.actions|]) == Corrections(inp, models)
  {
    hide PlanFor, Applied, ActionsFor;
    var now, want := Applied(models, plan.actions), Corrections(inp, models);
    assert plan.actions[..|plan.actions|] == plan.actions;
    var ids := inp.receipt.ids;
    forall id ensures (id in now <==> id in models) && (id in models ==> now[id] == want[id]) {
      AppliedIs(inp, models, ids, id);
      assert Linked(inp, id) <==> id in ids;
    }
    SameMap(now, want);
  }
}
