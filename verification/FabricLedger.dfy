/** The executor's loops over the session state, and the counting loop of the audit. */
module FabricLedger {
  import opened Base
  import opened FabricPlan
  import opened FabricApply
  import opened FabricAudit

  /** The rows one database session sees. A handler's own commit is a flush, so it leaves no
      trace beside these fields; FabricAtomic.dfy says when they become durable. */
  class Session {
    var batches: map<Id, Batch>
    var movements: map<Id, Movement>
    var reservations: map<Id, Reservation>
    var ecoOut: set<Id>
    var nextBatch: Id
    var nextMovement: Id

    constructor (st: Stock)
      ensures Now() == st
    {
      batches, movements, reservations := st.batches, st.movements, st.reservations;
      ecoOut, nextBatch, nextMovement := st.ecoOut, st.nextBatch, st.nextMovement;
    }

    function Now(): Stock
      reads this
    {
      Stock(batches, movements, reservations, ecoOut, nextBatch, nextMovement)
    }

    method BookMovement(id: Id, kind: Kind, kg: Kg, restored: bool)
      modifies `movements, `nextMovement
      ensures Now() == Book(old(Now()), id, kind, kg, restored)
    {
      if kg != 0 {
        movements := movements[nextMovement := Movement(Some(id), kind, kg, restored)];
        nextMovement := nextMovement + 1;
      }
    }

    method UpdateBatch(id: Id, v: Values)
      requires id in batches
      modifies this
      ensures Now() == Revise(old(Now()), id, v)
    {
      var b := batches[id];
      var n := Revised(b, v);
      batches := batches[id := n];
      BookMovement(id, if n.quantity < b.quantity then Issue else Adjustment, Abs(n.quantity - b.quantity), false);
    }

    method RestoreBatch(id: Id, v: Values)
      requires id in batches
      modifies this
      ensures Now() == Restore(old(Now()), id, v)
    {
      var b := batches[id];
      var n := Restored(b, v);
      batches := batches[id := n];
      BookMovement(id, Return, Abs(n.quantity - b.quantity), true);
    }

    method ReceiveStock(a: Action, item: int) returns (id: Id)
      requires a.Receive?
      modifies this
      ensures Now() == Accept(old(Now()), a, item) && id == old(nextBatch)
    {
      id := nextBatch;
      batches := batches[id := Arrived(a, id, item)];
      nextBatch := nextBatch + 1;
      BookMovement(id, Receipt, Abs(a.quantity), false);
    }

    method ReleaseReservations(fs: seq<Release>) returns (failure: Option<Failure>)
      modifies this
      ensures match ReleaseRun(old(Now()), fs)
        case Ok(st) => failure == None && Now() == st
        case Err(e) => failure == Some(e)
    {
      for i := 0 to |fs|
        invariant ReleaseRun(old(Now()), fs[..i]) == Ok(Now())
      {
        assert fs[..i + 1][..i] == fs[..i];
        var f := fs[i];
        if f.id !in reservations || !reservations[f.id].Live() || reservations[f.id].batchId != Some(f.batchId) || reservations[f.id].consumed != f.consumed {
          ReleaseRunStops(old(Now()), fs, i + 1);
          return Some(ReservationDrift);
        }
        reservations := reservations[f.id := Free(reservations[f.id])];
      }
      assert fs[..|fs|] == fs;
      return None;
    }

    /** What the live reservations of a batch hold, summed one by one. */
    method ReservedOn(id: Id) returns (kg: Kg)
      ensures kg == Total(Holding(Now(), id))
    {
      kg := 0;
      var left := reservations.Keys;
      ghost var all := Holding(Now(), id);
      assert (map r | r in all && r !in left :: all[r]) == map[];
      while left != {}
        invariant left <= reservations.Keys
        invariant kg == Total(map r | r in all && r !in left :: all[r])
      {
        var r := PickOne(left);
        ghost var counted := map q | q in all && q !in left :: all[q];
        if reservations[r].Live() && reservations[r].batchId == Some(id) {
          TotalInsert(counted, r, all[r]);
          SameMap(counted[r := all[r]], map q | q in all && q !in left - {r} :: all[q]);
          kg := kg + reservations[r].Outstanding();
        } else {
          SameMap(counted, map q | q in all && q !in left - {r} :: all[q]);
        }
        left := left - {r};
      }
      SameMap(all, map r | r in all && r !in left :: all[r]);
    }

    /** One action through its handler, with the weights before and after. */
    method ExecuteEntry(index: nat, e: Entry, created: map<string, int>) returns (change: Change, failure: Option<Failure>)
      modifies this
      ensures match EntryStep(old(Now()), index, e, created)
        case Ok((st, c)) => failure == None && Now() == st && change == c
        case Err(f) => failure == Some(f)
    {
      change := Change(index, 0, false, 0, 0);
      match e.action
      case Update(_, id, v) =>
        if id !in batches { return change, Some(BatchMissing); }
        if !Acceptable(e) { return change, Some(Unacceptable); }
        var held := ReservedOn(id);
        var before, target := batches[id].quantity, LeftKg(batches[id], v);
        if e.restore {
          if before != 0 || !batches[id].archived || v.quantity.None? || v.pieceCount.None? { return change, Some(NotRestorable); }
          if id in ecoOut || target < 0 || target < held { return change, Some(Conflict); }
          RestoreBatch(id, v);
        } else {
          if id in ecoOut || target < 0 || target < held || (batches[id].rollLengths != [] && v.pieceCount.Some? && v.pieceCount.value != batches[id].pieceCount) {
            return change, Some(Conflict);
          }
          UpdateBatch(id, v);
        }
        return Change(index, id, false, before, batches[id].quantity), None;
      case Receive(_, item, _, _, _, _, _, _, _, _) =>
        var target := ItemOf(item, created);
        if target.None? { return change, Some(ItemMissing); }
        if !Acceptable(e) { return change, Some(Unacceptable); }
        var id := ReceiveStock(e.action, target.value);
        return Change(index, id, true, 0, batches[id].quantity), None;
    }

    /** Releases first, then every action in order. */
    method ExecutePlan(plan: Document, created: map<string, int>) returns (changes: seq<Change>, failure: Option<Failure>)
      modifies this
      ensures match Execute(old(Now()), plan, created)
        case Ok((st, cs)) => failure == None && Now() == st && changes == cs
        case Err(e) => failure == Some(e)
    {
      changes := [];
      failure := ReleaseReservations(plan.releases);
      if failure.Some? { return; }
      ghost var start := Now();
      for i := 0 to |plan.entries|
        invariant EntryRun(start, plan.entries[..i], created) == Ok((Now(), changes))
      {
        hide ReleaseRun, EntryStep;
        assert plan.entries[..i + 1][..i] == plan.entries[..i];
        var change, stopped := ExecuteEntry(i, plan.entries[i], created);
        if stopped.Some? {
          EntryRunStops(start, plan.entries, i + 1, created);
          return changes, stopped;
        }
        changes := changes + [change];
      }
      assert plan.entries[..|plan.entries|] == plan.entries;
      failure := None;
    }
  }

  lemma {:induction false} ReleaseRunStops(st: Stock, fs: seq<Release>, i: nat)
    requires i <= |fs| && ReleaseRun(st, fs[..i]).Err?
    ensures ReleaseRun(st, fs) == ReleaseRun(st, fs[..i])
  {
    if i == |fs| {
      assert fs[..i] == fs;
    } else {
      assert fs[..|fs| - 1][..i] == fs[..i];
      ReleaseRunStops(st, fs[..|fs| - 1], i);
    }
  }

  lemma {:induction false} EntryRunStops(st: Stock, es: seq<Entry>, i: nat, created: map<string, int>)
    requires i <= |es| && EntryRun(st, es[..i], created).Err?
    ensures EntryRun(st, es, created) == EntryRun(st, es[..i], created)
  {
    if i == |es| {
      assert es[..i] == es;
    } else {
      assert es[..|es| - 1][..i] == es[..i];
      EntryRunStops(st, es[..|es| - 1], i, created);
    }
  }

  /** The movement part of the audit: a counter of expected movements over all changes. */
  method AuditMovements(before: Stock, after: Stock, plan: Document, changes: seq<Change>) returns (ok: bool)
    requires forall c :: c in changes ==> c.index < |plan.entries|
    ensures ok <==> MovementsAudited(before, after, plan, changes)
  {
    if exists m :: m in before.movements && (m !in after.movements || after.movements[m] != before.movements[m]) {
      return false;
    }
    var added := Added(before, after);
    var expected := 0;
    for i := 0 to |changes|
      invariant expected == Moving(changes[..i])
      invariant forall c :: c in changes[..i] ==> Booked(before, after, c, plan.entries[c.index])
    {
      assert changes[..i + 1][..i] == changes[..i];
      assert changes[i] in changes;
      if !Booked(before, after, changes[i], plan.entries[changes[i].index]) { return false; }
      if changes[i].Delta() != 0 { expected := expected + 1; }
      assert forall c :: c in changes[..i + 1] <==> c in changes[..i] || c == changes[i];
    }
    assert changes[..|changes|] == changes;
    ok := |added| == expected;
  }
}
