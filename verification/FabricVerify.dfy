/** The audit of an applied plan: the loops over rows, movements, reservations and outcomes. */
module FabricVerify {
  import opened Base
  import opened FabricPlan
  import opened FabricConservation
  import opened FabricProjection
  import opened FabricRolls
  import opened FabricApply
  import opened FabricAudit
  import opened FabricLedger

  // ----- rows -----

  /** The changes by batch; two of one batch are refused. */
  method IndexChanges(changes: seq<Change>, entries: nat) returns (byId: map<Id, Change>, ok: bool)
    ensures ok <==> Distinct(Ids(changes)) && forall c :: c in changes ==> c.index < entries
    ensures ok ==> forall id :: id in byId <==> id in Ids(changes)
    ensures ok ==> forall c :: c in changes ==> c.id in byId && byId[c.id] == c
  {
    byId := map[];
    for i := 0 to |changes|
      invariant Distinct(Ids(changes[..i])) && forall c :: c in changes[..i] ==> c.index < entries
      invariant forall id :: id in byId <==> id in Ids(changes[..i])
      invariant forall c :: c in changes[..i] ==> c.id in byId && byId[c.id] == c
    {
      var c := changes[i];
      assert changes[..i + 1] == changes[..i] + [c];
      OneMoreId(changes[..i], c);
      if c.id in byId || c.index >= entries {
        NoLonger(changes, i + 1, entries);
        return byId, false;
      }
      forall d | d in changes[..i] ensures d.id != c.id { IdListed(changes[..i], d); }
      byId := byId[c.id := c];
    }
    assert changes[..|changes|] == changes;
    ok := true;
  }

  lemma {:induction false} OneMoreId(changes: seq<Change>, c: Change)
    ensures Ids(changes + [c]) == Ids(changes) + [c.id]
    ensures Distinct(Ids(changes + [c])) <==> Distinct(Ids(changes)) && c.id !in Ids(changes)
    ensures forall d :: d in changes + [c] <==> d in changes || d == c
  {
    assert Ids(changes + [c]) == Ids(changes) + [c.id];
    DistinctAppend(Ids(changes), c.id);
  }

  lemma {:induction false} NoLonger(changes: seq<Change>, i: nat, entries: nat)
    requires i <= |changes| && !(Distinct(Ids(changes[..i])) && forall c :: c in changes[..i] ==> c.index < entries)
    ensures !(Distinct(Ids(changes)) && forall c :: c in changes ==> c.index < entries)
  {
    assert Ids(changes)[..i] == Ids(changes[..i]);
    if Distinct(Ids(changes)) {
      assert forall j, k :: 0 <= j < k < i ==> Ids(changes[..i])[j] == Ids(changes)[j] && Ids(changes[..i])[k] == Ids(changes)[k];
    }
  }

  /** An old row against the new one. */
  predicate RowKept(before: Stock, after: Stock, plan: Document, byId: map<Id, Change>, id: Id)
    requires id in before.batches && id in after.batches && (id in byId ==> byId[id].index < |plan.entries|)
  {
    if id in byId then
      var e := plan.entries[byId[id].index];
      e.action.Update? && Protected(before.batches[id], after.batches[id], e)
    else after.batches[id] == before.batches[id]
  }

  method CheckOldRows(before: Stock, after: Stock, plan: Document, byId: map<Id, Change>) returns (ok: bool)
    requires before.batches.Keys <= after.batches.Keys && forall id :: id in byId ==> byId[id].index < |plan.entries|
    ensures ok <==> forall id :: id in before.batches ==> RowKept(before, after, plan, byId, id)
  {
    hide Protected;
    var left := before.batches.Keys;
    while left != {}
      invariant left <= before.batches.Keys
      invariant forall id :: id in before.batches && id !in left ==> RowKept(before, after, plan, byId, id)
    {
      var id := PickOne(left);
      if !RowKept(before, after, plan, byId, id) { return false; }
      left := left - {id};
    }
    ok := true;
  }

  method CheckNewRows(after: Stock, plan: Document, changes: seq<Change>, created: map<string, int>) returns (ok: bool, receipts: nat)
    requires forall c :: c in changes ==> c.index < |plan.entries|
    ensures ok <==> forall c :: c in changes ==> c.id in after.batches && Done(plan.entries[c.index], after.batches[c.id], created)
    ensures ok ==> receipts == Receipts(changes)
  {
    hide Done;
    receipts := 0;
    for i := 0 to |changes|
      invariant forall j :: 0 <= j < i ==> changes[j].id in after.batches && Done(plan.entries[changes[j].index], after.batches[changes[j].id], created)
      invariant receipts == Receipts(changes[..i])
    {
      assert changes[i] in changes && changes[..i + 1][..i] == changes[..i];
      if changes[i].id !in after.batches || !Done(plan.entries[changes[i].index], after.batches[changes[i].id], created) { return false, receipts; }
      if changes[i].receipt { receipts := receipts + 1; }
    }
    assert changes[..|changes|] == changes;
    ok := true;
  }

  method CheckBatches(before: Stock, after: Stock, plan: Document, changes: seq<Change>, created: map<string, int>) returns (ok: bool)
    ensures ok <==> BatchesAudited(before, after, plan, changes, created)
  {
    hide Protected, Done, Distinct, Ids, Receipts;
    var byId, indexed := IndexChanges(changes, |plan.entries|);
    if !indexed || !(before.batches.Keys <= after.batches.Keys) { return false; }
    IndexedAreListed(changes, byId, |plan.entries|);
    var kept := CheckOldRows(before, after, plan, byId);
    RowsKept(before, after, plan, changes, byId);
    var fits, receipts := CheckNewRows(after, plan, changes, created);
    if !kept || !fits { return false; }
    var preserved := CheckPreserved(before, after, plan.preserved);
    ok := preserved && |after.batches| - |before.batches| == receipts;
  }

  method CheckPreserved(before: Stock, after: Stock, ids: seq<Id>) returns (ok: bool)
    requires before.batches.Keys <= after.batches.Keys
    ensures ok <==> forall id :: id in ids ==> id in before.batches && after.batches[id] == before.batches[id]
  {
    for i := 0 to |ids|
      invariant forall j :: 0 <= j < i ==> ids[j] in before.batches && after.batches[ids[j]] == before.batches[ids[j]]
    {
      assert ids[i] in ids;
      if ids[i] !in before.batches || after.batches[ids[i]] != before.batches[ids[i]] { return false; }
    }
    ok := true;
  }

  lemma {:induction false} IndexedAreListed(changes: seq<Change>, byId: map<Id, Change>, entries: nat)
    requires forall id :: id in byId <==> id in Ids(changes)
    requires forall c :: c in changes ==> c.id in byId && byId[c.id] == c && c.index < entries
    ensures forall id :: id in byId ==> byId[id] in changes && byId[id].id == id && byId[id].index < entries
  {
    forall id | id in byId ensures byId[id] in changes && byId[id].id == id {
      var i :| 0 <= i < |changes| && Ids(changes)[i] == id;
      assert changes[i] in changes;
    }
  }

  lemma {:induction false} RowsKept(before: Stock, after: Stock, plan: Document, changes: seq<Change>, byId: map<Id, Change>)
    requires before.batches.Keys <= after.batches.Keys && forall c :: c in changes ==> c.index < |plan.entries|
    requires forall id :: id in byId <==> id in Ids(changes)
    requires forall c :: c in changes ==> c.id in byId && byId[c.id] == c
    requires forall id :: id in byId ==> byId[id] in changes && byId[id].id == id
    ensures (forall id :: id in before.batches ==> RowKept(before, after, plan, byId, id)) <==>
      (forall id :: id in before.batches && id !in Ids(changes) ==> after.batches[id] == before.batches[id])
      && (forall c :: c in changes && c.id in before.batches ==>
            plan.entries[c.index].action.Update? && Protected(before.batches[c.id], after.batches[c.id], plan.entries[c.index]))
  {
    hide Protected, Ids;
  }

  // ----- reservations -----

  predicate ReservationKept(before: Stock, after: Stock, fs: seq<Release>, id: Id)
    requires id in before.reservations && id in after.reservations
  {
    var o, n := before.reservations[id], after.reservations[id];
    if forall i :: 0 <= i < |fs| ==> fs[i].id != id then n == o
    else forall i :: 0 <= i < |fs| && fs[i].id == id ==> n == o.(released := o.released + fs[i].remaining, status := Released)
  }

  method CheckReservations(before: Stock, after: Stock, plan: Document) returns (ok: bool)
    ensures ok <==> ReservationsAudited(before, after, plan)
  {
    hide HeldWithin;
    if !(before.reservations.Keys <= after.reservations.Keys) { return false; }
    var left := before.reservations.Keys;
    while left != {}
      invariant left <= before.reservations.Keys
      invariant forall id :: id in before.reservations && id !in left ==> ReservationKept(before, after, plan.releases, id)
    {
      var id := PickOne(left);
      if !ReservationKept(before, after, plan.releases, id) {
        KeptExactly(before, after, plan.releases, id);
        return false;
      }
      left := left - {id};
    }
    forall id | id in before.reservations { KeptExactly(before, after, plan.releases, id); }
    hide ReservationKept;
    left := after.reservations.Keys;
    while left != {}
      invariant left <= after.reservations.Keys
      invariant forall id :: id in after.reservations && id !in left && after.reservations[id].Live() ==> HeldWithin(after, after.reservations[id])
    {
      var id := PickOne(left);
      if after.reservations[id].Live() && !HeldWithin(after, after.reservations[id]) { return false; }
      left := left - {id};
    }
    ok := true;
  }

  lemma {:induction false} KeptExactly(before: Stock, after: Stock, fs: seq<Release>, id: Id)
    requires id in before.reservations && id in after.reservations
    ensures ReservationKept(before, after, fs, id) <==>
      ((forall f :: f in fs ==> f.id != id) ==> after.reservations[id] == before.reservations[id])
      && forall f :: f in fs && f.id == id ==>
           var o := before.reservations[id]; after.reservations[id] == o.(released := o.released + f.remaining, status := Released)
  {
    assert forall f :: f in fs <==> exists i :: 0 <= i < |fs| && fs[i] == f;
  }

  // ----- outcomes and the total -----

  method CheckTargets(after: Stock, plan: Document) returns (ok: bool)
    ensures ok <==> TargetsAudited(after, plan)
  {
    hide GroupMap, Total, AllCounted;
    for i := 0 to |plan.outcomes|
      invariant forall j :: 0 <= j < i ==> TargetAudited(after, plan.outcomes[j])
    {
      var o := plan.outcomes[i];
      assert o in plan.outcomes;
      if o.sources == [] { return false; }
      var kg, rolls := WeighGroup(after.batches, RowKey(o.sources[0]));
      if kg != o.target || (o.targetRolls >= 0 && AllCounted(after.batches, RowKey(o.sources[0])) && 10000 * rolls != o.targetRolls) { return false; }
    }
    ok := true;
  }

  method TotalKg(batches: map<Id, Batch>) returns (kg: Kg)
    ensures kg == Total(Weights(batches))
  {
    kg := 0;
    var left := batches.Keys;
    ghost var all := Weights(batches);
    assert (map id | id in all && id !in left :: all[id]) == map[];
    while left != {}
      invariant left <= batches.Keys
      invariant kg == Total(map id | id in all && id !in left :: all[id])
    {
      var id := PickOne(left);
      ghost var counted := map k | k in all && k !in left :: all[k];
      TotalInsert(counted, id, all[id]);
      SameMap(counted[id := all[id]], map k | k in all && k !in left - {id} :: all[k]);
      kg := kg + batches[id].quantity;
      left := left - {id};
    }
    SameMap(all, map id | id in all && id !in left :: all[id]);
  }

  method CheckTotal(before: Stock, after: Stock, changes: seq<Change>) returns (ok: bool)
    ensures ok <==> TotalAudited(before, after, changes)
  {
    var was := TotalKg(before.batches);
    var now := TotalKg(after.batches);
    var delta := 0;
    for i := 0 to |changes|
      invariant delta == DeltaSum(changes[..i])
    {
      assert changes[..i + 1][..i] == changes[..i];
      delta := delta + changes[i].Delta();
    }
    assert changes[..|changes|] == changes;
    ok := now - was == delta;
  }

  /** `verify`: it accepts exactly when every check does. */
  method Verify(before: Stock, after: Stock, plan: Document, changes: seq<Change>, created: map<string, int>) returns (ok: bool)
    ensures ok <==> Accepted(before, after, plan, changes, created)
  {
    hide MovementsAudited, ReservationsAudited, TargetsAudited, TotalAudited;
    var rows := CheckBatches(before, after, plan, changes, created);
    if !rows { return false; }
    assert forall c :: c in changes ==> c.index < |plan.entries|;
    hide BatchesAudited, RowsAudited;
    var movements := AuditMovements(before, after, plan, changes);
    if !movements { return false; }
    var reservations := CheckReservations(before, after, plan);
    if !reservations { return false; }
    var targets := CheckTargets(after, plan);
    if !targets { return false; }
    ok := CheckTotal(before, after, changes);
  }
}
