/** Executing a plan on the snapshot it was made from always satisfies the audit. */
module FabricExecution {
  import opened Base
  import opened FabricPlan
  import opened FabricConservation
  import opened FabricActions
  import opened FabricProjection
  import opened FabricRolls
  import opened FabricCover
  import opened FabricApply
  import opened FabricAudit

  // ----- one step, as the audit sees it -----

  /** `next` is `mid` with one batch row written, and its movement if the weight differs. */
  ghost predicate OneChange(mid: Stock, next: Stock, c: Change, e: Entry)
  {
    && c.id in next.batches && next.batches == mid.batches[c.id := next.batches[c.id]]
    && c.after == next.batches[c.id].quantity
    && c.before == (if c.id in mid.batches then mid.batches[c.id].quantity else 0)
    && next.reservations == mid.reservations && next.ecoOut == mid.ecoOut
    && next.movements == (if c.Delta() == 0 then mid.movements
         else mid.movements[mid.nextMovement := Movement(Some(c.id), KindFor(c, e), Abs(c.Delta()), e.restore)])
    && next.nextMovement == mid.nextMovement + (if c.Delta() == 0 then 0 else 1)
    && mid.nextBatch <= next.nextBatch
  }

  /** Keys still to be assigned are unused. */
  ghost predicate Counted(st: Stock)
  {
    && (forall id :: id in st.batches ==> id < st.nextBatch && st.batches[id].id == id)
    && (forall m :: m in st.movements ==> m < st.nextMovement)
  }

  lemma {:induction false} EntryIsOneChange(mid: Stock, index: nat, e: Entry, created: map<string, int>)
    requires EntryStep(mid, index, e, created).Ok? && Counted(mid) && (e.restore ==> e.action.Update?)
    ensures var (next, c) := EntryStep(mid, index, e, created).value;
      && OneChange(mid, next, c, e) && Counted(next) && c.index == index && c.receipt == e.action.Receive?
      && (e.action.Update? ==>
            && c.id == e.action.id && c.id in mid.batches
            && (!e.restore ==> next.batches[c.id] == Revised(mid.batches[c.id], e.action.values)))
      && (e.action.Receive? ==>
            && c.id == mid.nextBatch && c.id !in mid.batches
            && BatchKey(next.batches[c.id]) == ReceiveKey(e.action) && next.batches[c.id].quantity == e.action.quantity)
  {
  }

  // ----- the invariant of the run -----

  ghost predicate MovementsSoFar(before: Stock, after: Stock, plan: Document, changes: seq<Change>)
  {
    && OldKept(before, after)
    && AllBooked(before, after, plan, changes)
    && |Added(before, after)| == Moving(changes)
    && (forall m :: m in Added(before, after) ==> Owned(after, changes, m))
  }

  lemma {:induction false} IdsAppend(changes: seq<Change>, c: Change)
    requires Distinct(Ids(changes)) && c.id !in Ids(changes)
    ensures Ids(changes + [c]) == Ids(changes) + [c.id] && Distinct(Ids(changes + [c]))
    ensures Receipts(changes + [c]) == Receipts(changes) + if c.receipt then 1 else 0
    ensures Moving(changes + [c]) == Moving(changes) + if c.Delta() != 0 then 1 else 0
    ensures forall d :: d in changes ==> d.id != c.id
  {
    assert (changes + [c])[..|changes|] == changes;
    assert Ids(changes + [c]) == Ids(changes) + [c.id];
    forall d | d in changes ensures d.id != c.id {
      IdListed(changes, d);
    }
  }

  /** What one written row must satisfy for the audit. */
  ghost predicate RowFits(before: Stock, next: Stock, c: Change, e: Entry, created: map<string, int>)
    requires c.id in next.batches
  {
    && Done(e, next.batches[c.id], created)
    && (c.receipt <==> c.id !in before.batches)
    && (c.id in before.batches ==> e.action.Update? && Protected(before.batches[c.id], next.batches[c.id], e))
  }

  lemma {:induction false} KeysStep(mid: Stock, next: Stock, changes: seq<Change>, c: Change, e: Entry)
    requires OneChange(mid, next, c, e) && (c.receipt <==> c.id !in mid.batches)
    ensures |next.batches| == |mid.batches| + if c.receipt then 1 else 0
  {
    if c.receipt {
      assert next.batches.Keys == mid.batches.Keys + {c.id};
    } else {
      assert next.batches.Keys == mid.batches.Keys;
    }
  }

  lemma {:induction false} BatchesStep(before: Stock, mid: Stock, next: Stock, plan: Document,
                                       changes: seq<Change>, c: Change, created: map<string, int>)
    requires RowsAudited(before, mid, plan, changes, created)
    requires c.index < |plan.entries| && OneChange(mid, next, c, plan.entries[c.index])
    requires c.id !in Ids(changes) && (c.receipt <==> c.id !in mid.batches)
    requires RowFits(before, next, c, plan.entries[c.index], created)
    ensures RowsAudited(before, next, plan, changes + [c], created)
  {
    hide Done, Protected, Distinct, KindFor, Receipts, Ids, OneChange, RowFits;
    IdsAppend(changes, c);
    KeysStep(mid, next, changes, c, plan.entries[c.index]);
    OthersKept(mid, next, c, plan.entries[c.index]);
    forall d | d in changes + [c] ensures d.index < |plan.entries| && d.id in next.batches && RowHolds(before, next, d, plan.entries[d.index], created) {
      if d in changes {
        OldRowHolds(before, mid, next, plan, changes, created, d);
      } else {
        NewRowHolds(before, next, c, plan.entries[c.index], created);
      }
    }
  }

  ghost predicate RowHolds(before: Stock, next: Stock, d: Change, e: Entry, created: map<string, int>)
    requires d.id in next.batches
  {
    Done(e, next.batches[d.id], created) && (d.id in before.batches ==> e.action.Update? && Protected(before.batches[d.id], next.batches[d.id], e))
  }

  lemma {:induction false} NewRowHolds(before: Stock, next: Stock, c: Change, e: Entry, created: map<string, int>)
    requires c.id in next.batches && RowFits(before, next, c, e, created)
    ensures RowHolds(before, next, c, e, created)
  {
  }

  lemma {:induction false} OldRowHolds(before: Stock, mid: Stock, next: Stock, plan: Document, changes: seq<Change>, created: map<string, int>, d: Change)
    requires RowsAudited(before, mid, plan, changes, created) && d in changes
    requires d.id in mid.batches ==> d.id in next.batches && next.batches[d.id] == mid.batches[d.id]
    ensures d.index < |plan.entries| && d.id in next.batches && RowHolds(before, next, d, plan.entries[d.index], created)
  {
    hide Done, Protected, Distinct, Receipts, Ids;
  }

  lemma {:induction false} OthersKept(mid: Stock, next: Stock, c: Change, e: Entry)
    requires OneChange(mid, next, c, e)
    ensures c.id in next.batches
    ensures forall id :: id in mid.batches ==> id in next.batches && (id == c.id || next.batches[id] == mid.batches[id])
  {
    hide KindFor;
  }

  lemma {:induction false} AddedStep(before: Stock, mid: Stock, next: Stock, c: Change, e: Entry)
    requires OneChange(mid, next, c, e) && OldKept(before, mid) && Counted(mid)
    ensures OldKept(before, next)
    ensures Added(before, next) == Added(before, mid) + if c.Delta() == 0 then {} else {mid.nextMovement}
    ensures c.Delta() != 0 ==> mid.nextMovement !in Added(before, mid)
    ensures forall id :: id != c.id ==> AddedTo(before, next, id) == AddedTo(before, mid, id)
    ensures AddedTo(before, next, c.id) == AddedTo(before, mid, c.id) + if c.Delta() == 0 then {} else {mid.nextMovement}
  {
    forall id | id != c.id ensures AddedTo(before, next, id) == AddedTo(before, mid, id) {
      SameSet(AddedTo(before, next, id), AddedTo(before, mid, id));
    }
    var more: set<Id> := if c.Delta() == 0 then {} else {mid.nextMovement};
    assert c.Delta() != 0 ==> mid.nextMovement !in before.movements;
    forall m ensures m in Added(before, next) <==> m in Added(before, mid) + more {
      assert m in next.movements <==> m in mid.movements || m in more;
    }
    SameSet(Added(before, next), Added(before, mid) + more);
    SameSet(AddedTo(before, next, c.id), AddedTo(before, mid, c.id) + more);
  }

  lemma {:induction false} FreshTarget(before: Stock, mid: Stock, plan: Document, changes: seq<Change>, id: Id)
    requires MovementsSoFar(before, mid, plan, changes) && forall d :: d in changes ==> d.id != id
    ensures AddedTo(before, mid, id) == {}
  {
    forall m | m in Added(before, mid) ensures mid.movements[m].batchId != Some(id) {
      assert Owned(mid, changes, m);
    }
    SameSet(AddedTo(before, mid, id), {});
  }

  lemma {:induction false} OwnedStep(before: Stock, mid: Stock, next: Stock, changes: seq<Change>, c: Change, e: Entry)
    requires OneChange(mid, next, c, e) && Counted(mid)
    requires forall m :: m in Added(before, mid) ==> Owned(mid, changes, m)
    ensures forall m :: m in Added(before, next) ==> Owned(next, changes + [c], m)
  {
    forall m | m in Added(before, next) ensures Owned(next, changes + [c], m) {
      if m in Added(before, mid) {
        var d :| d in changes && mid.movements[m].batchId == Some(d.id);
        assert d in changes + [c];
      } else {
        assert c in changes + [c] && next.movements[m].batchId == Some(c.id);
      }
    }
  }

  lemma {:induction false} BookedNow(before: Stock, mid: Stock, next: Stock, c: Change, e: Entry)
    requires OneChange(mid, next, c, e) && OldKept(before, mid) && Counted(mid) && AddedTo(before, mid, c.id) == {}
    ensures Booked(before, next, c, e)
  {
    AddedStep(before, mid, next, c, e);
  }

  lemma {:induction false} BookedStill(before: Stock, mid: Stock, next: Stock, c: Change, e: Entry, d: Change, ed: Entry)
    requires OneChange(mid, next, c, e) && OldKept(before, mid) && Counted(mid) && d.id != c.id && Booked(before, mid, d, ed)
    ensures Booked(before, next, d, ed)
  {
    AddedStep(before, mid, next, c, e);
  }

  lemma {:induction false} MovementsStep(before: Stock, mid: Stock, next: Stock, plan: Document, changes: seq<Change>, c: Change)
    requires MovementsSoFar(before, mid, plan, changes) && Counted(mid)
    requires c.index < |plan.entries| && OneChange(mid, next, c, plan.entries[c.index])
    requires Distinct(Ids(changes)) && c.id !in Ids(changes)
    ensures MovementsSoFar(before, next, plan, changes + [c])
  {
    hide OneChange, Booked, Owned, AddedTo, AllBooked, Counted, Distinct, Added, OldKept;
    var e := plan.entries[c.index];
    IdsAppend(changes, c);
    AddedStep(before, mid, next, c, e);
    FreshTarget(before, mid, plan, changes, c.id);
    OwnedStep(before, mid, next, changes, c, e);
    AllBookedStep(before, mid, next, plan, changes, c);
  }

  lemma {:induction false} AllBookedStep(before: Stock, mid: Stock, next: Stock, plan: Document, changes: seq<Change>, c: Change)
    requires AllBooked(before, mid, plan, changes) && OldKept(before, mid) && Counted(mid)
    requires c.index < |plan.entries| && OneChange(mid, next, c, plan.entries[c.index])
    requires AddedTo(before, mid, c.id) == {} && forall d :: d in changes ==> d.id != c.id
    ensures AllBooked(before, next, plan, changes + [c])
  {
    hide OneChange, Booked, AddedTo, Counted, OldKept;
    BookedNow(before, mid, next, c, plan.entries[c.index]);
    forall d | d in changes ensures Booked(before, next, d, plan.entries[d.index]) {
      BookedStill(before, mid, next, c, plan.entries[c.index], d, plan.entries[d.index]);
    }
  }

  lemma {:induction false} RecordedStep(before: Stock, mid: Stock, next: Stock, plan: Document, changes: seq<Change>, c: Change)
    requires Recorded(before, mid, plan, changes)
    requires c.index < |plan.entries| && OneChange(mid, next, c, plan.entries[c.index])
    requires Distinct(Ids(changes)) && c.id !in Ids(changes) && c.receipt == plan.entries[c.index].action.Receive?
    requires c.id in mid.batches <==> c.id in before.batches
    requires c.id in before.batches ==> mid.batches[c.id] == before.batches[c.id]
    ensures Recorded(before, next, plan, changes + [c])
  {
    IdsAppend(changes, c);
    assert forall d :: d in changes + [c] <==> d in changes || d == c;
  }

  // ----- the whole run -----

  /** The stock is what the snapshot recorded. */
  ghost predicate Captured(s: Snapshot, st: Stock)
  {
    && st.batches == ById(s.batches) && Counted(st) && st.ecoOut == s.ecoOut
    && (forall r :: r in s.reservations ==> r.id in st.reservations && st.reservations[r.id] == r && r.released >= 0)
    && (forall id :: id in st.reservations ==> st.reservations[id] in s.reservations && st.reservations[id].id == id)
  }

  /** The document that carries the planned actions. */
  ghost predicate Carries(plan: Document, p: State)
  {
    && |plan.entries| == |p.actions|
    && (forall i :: 0 <= i < |p.actions| ==> plan.entries[i] == Entry(p.actions[i], false))
  }

  /** The items of all receipts exist, and no weight is more than a request may state. */
  ghost predicate Known(actions: seq<Action>, created: map<string, int>)
  {
    forall a :: a in actions ==> if a.Receive? then ItemOf(a.item, created).Some? && a.quantity <= MAX_KG else UpTo(a.values)
  }

  predicate UpTo(v: Values) { v.quantity.Some? ==> v.quantity.value <= MAX_KG }

  /** Every action will be accepted by its handler. */
  ghost predicate Served(actions: seq<Action>, created: map<string, int>)
  {
    forall a :: a in actions ==> Acceptable(Entry(a, false)) && (a.Receive? ==> ItemOf(a.item, created).Some?)
  }

  /** No update is refused for a reservation, recorded lengths or fabric out. */
  ghost predicate Unopposed(st: Stock, actions: seq<Action>)
  {
    forall a :: a in actions && a.Update? && a.id in st.batches ==> !Conflicts(st, a.id, a.values, false)
  }

  /** Neither weight nor count is negative. */
  predicate Sane(v: Values)
  {
    && (v.quantity.Some? ==> v.quantity.value >= 0)
    && (v.pieceCount.Some? && v.pieceCount.value.Some? ==> v.pieceCount.value.value >= 0)
  }

  ghost predicate SaneUpdates(actions: seq<Action>) { forall a :: a in actions && a.Update? ==> Sane(a.values) }

  ghost predicate SaneJobs(jobs: seq<Job>) { forall i :: 0 <= i < |jobs| ==> Sane(jobs[i].1) }

  lemma {:induction false} UpdateAllSane(s: Snapshot, st: State, ref: nat, jobs: seq<Job>)
    requires SaneUpdates(st.actions) && SaneJobs(jobs) && UpdateAll(s, st, ref, jobs).Ok?
    ensures SaneUpdates(UpdateAll(s, st, ref, jobs).value.actions)
  {
    if jobs != [] { UpdateAllSane(s, st, ref, jobs[..|jobs| - 1]); }
  }

  lemma {:induction false} AssignAllSane(s: Snapshot, st: State, ref: nat, g: GroupKey, segments: Index<SegmentKey, Sourced>, keys: seq<SegmentKey>)
    requires segments.Valid() && SaneUpdates(st.actions)
    requires forall k :: k in keys ==> k in segments.at && SumOf(segments.at[k], PairKg) > 0
    ensures var d := AssignAll(s, st, ref, g, segments, keys); SaneUpdates(d.st.actions) && SaneJobs(d.planned)
  {
    hide AssignStep;
    if keys != [] {
      var l := |keys| - 1;
      AssignAllSane(s, st, ref, g, segments, keys[..l]);
      AssignStepSane(s, AssignAll(s, st, ref, g, segments, keys[..l]), ref, g, keys[l], segments.at[keys[l]]);
    }
  }

  lemma {:induction false} AssignStepSane(s: Snapshot, d: Draft, ref: nat, g: GroupKey, key: SegmentKey, src: seq<Sourced>)
    requires SaneUpdates(d.st.actions) && SaneJobs(d.planned) && SumOf(src, PairKg) > 0
    ensures var n := AssignStep(s, d, ref, g, key, src); SaneUpdates(n.st.actions) && SaneJobs(n.planned)
  {
  }

  lemma {:induction false} ZeroingSane(active: seq<Batch>, used: set<Id>)
    ensures SaneJobs(Zeroing(active, used))
  {
    if active != [] { ZeroingSane(active[..|active| - 1], used); }
  }

  lemma {:induction false} GroupSane(s: Snapshot, st: State, ref: nat, g: GroupKey, src: seq<Row>)
    requires SaneUpdates(st.actions) && GroupStep(s, st, ref, g, src).Ok?
    ensures SaneUpdates(GroupStep(s, st, ref, g, src).value.actions)
  {
    if StopReason(s, g, src).None? {
      var segments := Segments(s, g, src);
      forall k | k in segments.keys ensures k in segments.at && SumOf(segments.at[k], PairKg) > 0 {
        SegmentsPositive(s, g, src, k);
      }
      AssignAllSane(s, st, ref, g, segments, segments.keys);
      var d := AssignAll(s, st, ref, g, segments, segments.keys);
      ZeroingSane(Active(s, g), d.used);
      UpdateAllSane(s, d.st, ref, Zeroing(Active(s, g), d.used));
      UpdateAllSane(s, UpdateAll(s, d.st, ref, Zeroing(Active(s, g), d.used)).value, ref, d.planned);
    }
  }

  /** A plan never asks a handler for a negative weight or count. */
  lemma {:induction false} PlanSane(s: Snapshot, groups: Index<GroupKey, Row>, keys: seq<GroupKey>)
    requires PlanGroups(s, groups, keys).Ok?
    ensures SaneUpdates(PlanGroups(s, groups, keys).value.actions)
  {
    if keys != [] {
      var l := |keys| - 1;
      PlanSane(s, groups, keys[..l]);
      GroupSane(s, PlanGroups(s, groups, keys[..l]).value, l + 1, keys[l], groups.Get(keys[l]));
    }
  }

  lemma {:induction false} AllAcceptable(s: Snapshot, actions: seq<Action>, created: map<string, int>)
    requires Known(actions, created) && SaneUpdates(actions) && Fitting(s, actions)
    ensures Served(actions, created)
  {
  }

  ghost predicate Weighed(s: Snapshot, after: Stock, actions: seq<Action>)
  {
    forall b :: b in s.batches ==> b.id in after.batches && after.batches[b.id].quantity == NewKg(b, actions)
  }

  ghost predicate OwnIds(before: Stock, changes: seq<Change>, actions: seq<Action>)
  {
    forall c :: c in changes ==> if c.receipt then c.id !in before.batches else c.id in UpdatedIds(actions)
  }

  /** What holds after the first `|actions|` entries. */
  ghost predicate RunHolds(s: Snapshot, before: Stock, plan: Document, created: map<string, int>,
                           actions: seq<Action>, after: Stock, changes: seq<Change>)
  {
    && Counted(after) && RowsAudited(before, after, plan, changes, created)
    && MovementsSoFar(before, after, plan, changes) && Recorded(before, after, plan, changes)
    && Weighed(s, after, actions) && OwnIds(before, changes, actions)
    && forall k, w :: Totals(s, after, actions, k, w)
  }

  ghost predicate Totals(s: Snapshot, after: Stock, actions: seq<Action>, k: GroupKey, w: Measure)
  {
    Total(GroupMap(after.batches, k, w)) == GroupSum(s, k, actions, AnyItem(w))
  }

  /** The row an entry writes satisfies the audit. */
  lemma {:induction false} RowOk(s: Snapshot, before: Stock, mid: Stock, index: nat, e: Entry, created: map<string, int>)
    requires Sound(s) && before.batches == ById(s.batches) && before.batches.Keys <= mid.batches.Keys
    requires !e.restore && Counted(mid) && Fitting(s, [e.action]) && EntryStep(mid, index, e, created).Ok?
    requires e.action.Update? && e.action.id in before.batches ==> mid.batches[e.action.id] == before.batches[e.action.id]
    ensures var (next, c) := EntryStep(mid, index, e, created).value;
      c.id in next.batches && RowFits(before, next, c, e, created) && (c.receipt <==> c.id !in mid.batches)
  {
    assert e.action in [e.action];
    ByIdHolds(s.batches);
    EntryIsOneChange(mid, index, e, created);
    hide Total, Holding, Book, ById, OneChange, Counted, Conflicts;
    if e.action.Update? {
      hide EntryStep;
    }
  }

  lemma {:induction false} WeighedStep(s: Snapshot, mid: Stock, next: Stock, actions: seq<Action>, e: Entry, c: Change)
    requires Sound(s) && Weighed(s, mid, actions) && OneChange(mid, next, c, e)
    requires if e.action.Update? then c.id == e.action.id && c.id in mid.batches
               && next.batches[c.id] == Revised(mid.batches[c.id], e.action.values)
             else c.id !in mid.batches
    ensures Weighed(s, next, actions + [e.action])
  {
    assert (actions + [e.action])[..|actions|] == actions;
  }

  lemma {:induction false} UpdatedIdsAppend(actions: seq<Action>, a: Action)
    ensures UpdatedIds(actions + [a]) == UpdatedIds(actions) + if a.Update? then [a.id] else []
  {
    assert (actions + [a])[..|actions|] == actions;
  }

  lemma {:induction false} NotYetChanged(before: Stock, mid: Stock, plan: Document, changes: seq<Change>,
                                         actions: seq<Action>, e: Entry, created: map<string, int>)
    requires RowsAudited(before, mid, plan, changes, created) && OwnIds(before, changes, actions)
    requires e.action.Update? ==> e.action.id in before.batches && e.action.id !in UpdatedIds(actions)
    requires Counted(mid)
    ensures var id := if e.action.Update? then e.action.id else mid.nextBatch;
      id !in Ids(changes) && (id in before.batches ==> id in mid.batches && mid.batches[id] == before.batches[id])
  {
    var id := if e.action.Update? then e.action.id else mid.nextBatch;
    forall i | 0 <= i < |changes| ensures Ids(changes)[i] != id {
      assert changes[i] in changes;
    }
  }

  /** The next entry succeeds, on a batch no earlier entry wrote. */
  lemma {:induction false} NextEntry(s: Snapshot, before: Stock, plan: Document, created: map<string, int>,
                                     actions: seq<Action>, mid: Stock, changes: seq<Change>, a: Action)
    requires Sound(s) && before.batches == ById(s.batches) && Counted(mid)
    requires RowsAudited(before, mid, plan, changes, created) && OwnIds(before, changes, actions)
    requires Fitting(s, [a]) && Distinct(UpdatedIds(actions + [a])) && Served([a], created) && Unopposed(mid, [a])
    ensures EntryStep(mid, |actions|, Entry(a, false), created).Ok?
    ensures var (next, c) := EntryStep(mid, |actions|, Entry(a, false), created).value;
      && c.id !in Ids(changes) && c.id in next.batches && RowFits(before, next, c, Entry(a, false), created)
      && (c.receipt <==> c.id !in mid.batches)
      && (c.id in before.batches ==> c.id in mid.batches && mid.batches[c.id] == before.batches[c.id])
      && (if c.receipt then c.id !in before.batches else c.id in UpdatedIds(actions + [a]))
  {
    assert a in [a];
    ByIdHolds(s.batches);
    UpdatedIdsAppend(actions, a);
    if a.Update? {
      DistinctAppend(UpdatedIds(actions), a.id);
    }
    NotYetChanged(before, mid, plan, changes, actions, Entry(a, false), created);
    RowOk(s, before, mid, |actions|, Entry(a, false), created);
  }

  /** The row an action writes: the revised row of the snapshot, or what was received. */
  ghost predicate RowFollows(s: Snapshot, mid: Stock, next: Stock, a: Action, c: Change)
    requires c.id in next.batches
  {
    if a.Update? then
      && c.id == a.id && c.id in mid.batches && next.batches[c.id] == Revised(mid.batches[c.id], a.values)
      && mid.batches[c.id] in s.batches && mid.batches[c.id].id == a.id
    else
      && c.id !in mid.batches && BatchKey(next.batches[c.id]) == ReceiveKey(a)
      && next.batches[c.id].quantity == a.quantity && next.batches[c.id].pieceCount == a.pieceCount
  }

  lemma {:induction false} TotalStep(s: Snapshot, mid: Stock, next: Stock, actions: seq<Action>, a: Action, c: Change, k: GroupKey, w: Measure)
    requires Sound(s)
    requires c.id in next.batches && next.batches == mid.batches[c.id := next.batches[c.id]]
    requires RowFollows(s, mid, next, a, c) && Totals(s, mid, actions, k, w) && (a.Update? ==> a.id !in UpdatedIds(actions))
    ensures Totals(s, next, actions + [a], k, w)
  {
    hide GroupMap, GroupSum, Total, Existing, NewKg, NewCount, UpdatedIds;
    var all := actions + [a];
    assert all[..|actions|] == actions;
    if a.Update? {
      var b := mid.batches[c.id];
      RewriteTotal(mid.batches, c.id, next.batches[c.id], k, w);
      InExisting(s, k);
      NotUpdated(b, actions);
      LastAction(b, all, w);
      StepSum(s, k, all, w);
    } else {
      ReceiveTotal(mid.batches, c.id, next.batches[c.id], k, w);
      ReceiveSum(s, all, k, w);
    }
  }

  lemma {:induction false} DistinctIds(before: Stock, mid: Stock, plan: Document, changes: seq<Change>, created: map<string, int>)
    requires RowsAudited(before, mid, plan, changes, created)
    ensures Distinct(Ids(changes))
  {
  }

  lemma {:induction false} OwnIdsStep(before: Stock, changes: seq<Change>, c: Change, actions: seq<Action>, a: Action)
    requires OwnIds(before, changes, actions)
    requires if c.receipt then c.id !in before.batches else c.id in UpdatedIds(actions + [a])
    ensures OwnIds(before, changes + [c], actions + [a])
  {
    UpdatedIdsAppend(actions, a);
  }

  /** Everything the next entry keeps, from what its change looks like. */
  lemma {:induction false} StepKeeps(s: Snapshot, before: Stock, plan: Document, created: map<string, int>, actions: seq<Action>,
                                     mid: Stock, changes: seq<Change>, a: Action, next: Stock, c: Change)
    requires RunHolds(s, before, plan, created, actions, mid, changes) && Sound(s)
    requires |actions| < |plan.entries| && plan.entries[|actions|] == Entry(a, false)
    requires c.index == |actions| && OneChange(mid, next, c, Entry(a, false)) && Counted(next) && c.receipt == a.Receive?
    requires c.id !in Ids(changes) && RowFits(before, next, c, Entry(a, false), created)
    requires c.receipt <==> c.id !in mid.batches
    requires c.id in before.batches ==> c.id in mid.batches && mid.batches[c.id] == before.batches[c.id]
    requires if c.receipt then c.id !in before.batches else c.id in UpdatedIds(actions + [a])
    requires RowFollows(s, mid, next, a, c) && Distinct(UpdatedIds(actions + [a]))
    ensures RunHolds(s, before, plan, created, actions + [a], next, changes + [c])
  {
    hide RowsAudited, MovementsSoFar, Recorded, Counted, Weighed, Totals, OwnIds, Distinct, Done, Protected;
    DistinctIds(before, mid, plan, changes, created);
    BatchesStep(before, mid, next, plan, changes, c, created);
    MovementsStep(before, mid, next, plan, changes, c);
    RecordedStep(before, mid, next, plan, changes, c);
    WeighedStep(s, mid, next, actions, Entry(a, false), c);
    UpdatedIdsAppend(actions, a);
    OwnIdsStep(before, changes, c, actions, a);
    if a.Update? {
      DistinctAppend(UpdatedIds(actions), a.id);
    }
    forall k, w ensures Totals(s, next, actions + [a], k, w) {
      TotalStep(s, mid, next, actions, a, c, k, w);
    }
  }

  lemma {:induction false} RunStep(s: Snapshot, before: Stock, plan: Document, created: map<string, int>,
                                   actions: seq<Action>, mid: Stock, changes: seq<Change>, a: Action)
    returns (next: Stock, c: Change)
    requires Sound(s) && before.batches == ById(s.batches)
    requires RunHolds(s, before, plan, created, actions, mid, changes)
    requires |actions| < |plan.entries| && plan.entries[|actions|] == Entry(a, false)
    requires Fitting(s, [a]) && Distinct(UpdatedIds(actions + [a])) && Served([a], created) && Unopposed(mid, [a])
    ensures EntryStep(mid, |actions|, Entry(a, false), created) == Ok((next, c))
    ensures RunHolds(s, before, plan, created, actions + [a], next, changes + [c])
    ensures next.reservations == mid.reservations && next.ecoOut == mid.ecoOut
  {
    NextEntry(s, before, plan, created, actions, mid, changes, a);
    EntryIsOneChange(mid, |actions|, Entry(a, false), created);
    var r := EntryStep(mid, |actions|, Entry(a, false), created).value;
    next, c := r.0, r.1;
    ByIdHolds(s.batches);
    StepKeeps(s, before, plan, created, actions, mid, changes, a, next, c);
  }

  ghost predicate Follows(plan: Document, actions: seq<Action>)
  {
    |actions| <= |plan.entries| && forall i :: 0 <= i < |actions| ==> plan.entries[i] == Entry(actions[i], false)
  }

  /** The stock the entries start from: the snapshot, apart from released reservations. */
  ghost predicate StartsFrom(s: Snapshot, before: Stock, start: Stock)
  {
    && Sound(s) && before.batches == ById(s.batches) && Counted(before)
    && start == before.(reservations := start.reservations)
  }

  lemma {:induction false} RunBegins(s: Snapshot, before: Stock, start: Stock, plan: Document, created: map<string, int>)
    requires StartsFrom(s, before, start)
    ensures RunHolds(s, before, plan, created, [], start, []) && EntryRun(start, [], created) == Ok((start, []))
  {
    RowsBegin(before, start, plan, created);
    MovementsBegin(before, start, plan);
    WeighedBegins(s, start);
    forall k, w ensures Totals(s, start, [], k, w) {
      TotalsBegin(s, start, k, w);
    }
    hide RowsAudited, MovementsSoFar, Recorded, Weighed, Totals, Sound, ById;
  }

  lemma {:induction false} RowsBegin(before: Stock, start: Stock, plan: Document, created: map<string, int>)
    requires start.batches == before.batches
    ensures RowsAudited(before, start, plan, [], created)
  {
    assert Ids([]) == [];
  }

  lemma {:induction false} MovementsBegin(before: Stock, start: Stock, plan: Document)
    requires start.movements == before.movements && start.batches == before.batches
    ensures MovementsSoFar(before, start, plan, []) && Recorded(before, start, plan, [])
  {
    SameSet(Added(before, start), {});
  }

  lemma {:induction false} WeighedBegins(s: Snapshot, start: Stock)
    requires Sound(s) && start.batches == ById(s.batches)
    ensures Weighed(s, start, [])
  {
    ByIdHolds(s.batches);
  }

  lemma {:induction false} TotalsBegin(s: Snapshot, start: Stock, k: GroupKey, w: Measure)
    requires Sound(s) && start.batches == ById(s.batches)
    ensures Totals(s, start, [], k, w)
  {
    StartSum(s, k, w);
  }

  lemma {:induction false} ShorterIds(actions: seq<Action>, l: nat)
    requires l < |actions| && Distinct(UpdatedIds(actions[..l + 1]))
    ensures Distinct(UpdatedIds(actions[..l]))
  {
    assert actions[..l + 1] == actions[..l] + [actions[l]];
    UpdatedIdsAppend(actions[..l], actions[l]);
    if actions[l].Update? {
      DistinctAppend(UpdatedIds(actions[..l]), actions[l].id);
    }
  }

  lemma {:induction false} EntryRunStep(start: Stock, entries: seq<Entry>, l: nat, created: map<string, int>)
    requires l < |entries| && EntryRun(start, entries[..l], created).Ok?
    ensures var (mid, changes) := EntryRun(start, entries[..l], created).value;
      EntryRun(start, entries[..l + 1], created) ==
        match EntryStep(mid, l, entries[l], created)
        case Err(e) => Err(e)
        case Ok((next, c)) => Ok((next, changes + [c]))
  {
    assert entries[..l + 1][..l] == entries[..l];
  }

  lemma {:induction false} NextAction(s: Snapshot, plan: Document, created: map<string, int>, actions: seq<Action>, l: nat)
    requires Follows(plan, actions) && Fitting(s, actions) && Served(actions, created)
    requires l < |actions| && Distinct(UpdatedIds(actions[..l + 1]))
    ensures |plan.entries| > l && plan.entries[l] == Entry(actions[l], false)
    ensures Fitting(s, [actions[l]]) && Served([actions[l]], created)
    ensures actions[..l + 1] == actions[..l] + [actions[l]]
    ensures Distinct(UpdatedIds(actions[..l]))
  {
    ShorterIds(actions, l);
    assert actions[l] in actions;
  }

  lemma {:induction false} StillUnopposed(s: Snapshot, before: Stock, start: Stock, mid: Stock, plan: Document, created: map<string, int>,
                                          changes: seq<Change>, actions: seq<Action>, l: nat)
    requires StartsFrom(s, before, start) && Unopposed(start, actions) && Fitting(s, actions) && l < |actions|
    requires RunHolds(s, before, plan, created, actions[..l], mid, changes) && Distinct(UpdatedIds(actions[..l + 1]))
    requires mid.reservations == start.reservations && mid.ecoOut == start.ecoOut
    ensures Unopposed(mid, [actions[l]])
  {
    hide MovementsSoFar, Recorded, Weighed, Totals, Conflicts, Acceptable;
    assert actions[..l + 1] == actions[..l] + [actions[l]];
    UpdatedIdsAppend(actions[..l], actions[l]);
    ByIdHolds(s.batches);
    var a := actions[l];
    assert a in actions;
    if a.Update? {
      DistinctAppend(UpdatedIds(actions[..l]), a.id);
      hide RowsAudited, OwnIds;
      NotYetChanged(before, mid, plan, changes, actions[..l], Entry(a, false), created);
      SameConflicts(start, mid, a.id, a.values, false);
    }
  }

  lemma {:induction false} SameConflicts(st: Stock, mid: Stock, id: Id, v: Values, restore: bool)
    requires mid.reservations == st.reservations && mid.ecoOut == st.ecoOut
    requires id in st.batches && id in mid.batches && mid.batches[id] == st.batches[id]
    ensures Conflicts(mid, id, v, restore) <==> Conflicts(st, id, v, restore)
  {
    assert Holding(mid, id) == Holding(st, id);
  }

  /** The entries of a plan all succeed and keep everything the audit looks at. */
  lemma {:induction false} Runs(s: Snapshot, before: Stock, start: Stock, plan: Document, created: map<string, int>,
                                actions: seq<Action>, n: nat) returns (after: Stock, changes: seq<Change>)
    requires StartsFrom(s, before, start) && Follows(plan, actions) && n <= |actions| <= |plan.entries|
    requires Sound(s) && before.batches == ById(s.batches)
    requires Fitting(s, actions) && Distinct(UpdatedIds(actions[..n])) && Served(actions, created) && Unopposed(start, actions)
    ensures EntryRun(start, plan.entries[..n], created) == Ok((after, changes))
    ensures RunHolds(s, before, plan, created, actions[..n], after, changes)
    ensures after.reservations == start.reservations && after.ecoOut == start.ecoOut
  {
    hide *;
    if n == 0 {
      RunBegins(s, before, start, plan, created);
      after, changes := start, [];
      assert plan.entries[..0] == [] && actions[..0] == [];
    } else {
      var l := n - 1;
      NextAction(s, plan, created, actions, l);
      var mid, some := Runs(s, before, start, plan, created, actions, l);
      StillUnopposed(s, before, start, mid, plan, created, some, actions, l);
      var next, c := RunStep(s, before, plan, created, actions[..l], mid, some, actions[l]);
      EntryRunStep(start, plan.entries, l, created);
      after, changes := next, some + [c];
    }
  }

  // ----- releases -----

  ghost predicate DistinctReleases(fs: seq<Release>)
  {
    forall i, j :: 0 <= i < j < |fs| ==> fs[i].id != fs[j].id
  }

  lemma {:induction false} ReleasesRun(st: Stock, fs: seq<Release>) returns (next: Stock)
    requires DistinctReleases(fs)
    requires forall f :: f in fs ==> f.id in st.reservations && FreesAll(st.reservations[f.id], f.id, f)
    ensures ReleaseRun(st, fs) == Ok(next) && next == st.(reservations := next.reservations)
    ensures next.reservations.Keys == st.reservations.Keys
    ensures forall f :: f in fs ==> next.reservations[f.id] == Free(st.reservations[f.id])
    ensures forall id :: id in st.reservations && (forall f :: f in fs ==> f.id != id) ==>
      next.reservations[id] == st.reservations[id]
  {
    if fs == [] {
      next := st;
    } else {
      var l := |fs| - 1;
      var mid := ReleasesRun(st, fs[..l]);
      assert forall f :: f in fs <==> f in fs[..l] || f == fs[l];
      assert forall f :: f in fs[..l] ==> f.id != fs[l].id;
      next := mid.(reservations := mid.reservations[fs[l].id := Free(mid.reservations[fs[l].id])]);
    }
  }

  /** The releases of the plan, listed once each. */
  ghost predicate Lists(fs: seq<Release>, releases: map<Id, Release>)
  {
    && DistinctReleases(fs)
    && (forall f :: f in fs ==> f.id in releases && releases[f.id] == f)
    && (forall id :: id in releases ==> exists f :: f in fs && f.id == id)
  }

  lemma {:induction false} MemberBound<A>(xs: seq<A>, f: A -> int, x: A)
    requires x in xs && forall y :: y in xs ==> f(y) >= 0
    ensures f(x) <= SumOf(xs, f)
  {
    var l := |xs| - 1;
    if x in xs[..l] {
      MemberBound(xs[..l], f, x);
    }
    SumNonNegative(xs[..l], f);
  }

  lemma {:induction false} SumNonNegative<A>(xs: seq<A>, f: A -> int)
    requires forall y :: y in xs ==> f(y) >= 0
    ensures SumOf(xs, f) >= 0
  {
    if xs != [] {
      SumNonNegative(xs[..|xs| - 1], f);
    }
  }

  /** No live reservation exceeds what its batch holds afterwards. */
  lemma {:induction false} LiveCovered(s: Snapshot, rows: seq<Row>, r: Reservation, b: Batch)
    requires Sound(s) && UniqueReservations(s) && Plan(s, rows).Ok? && r in s.reservations && b in s.batches
    requires r.batchId == Some(b.id) && r.Live() && r.id !in Plan(s, rows).value.releases && CoveredBefore(s, b)
    ensures r.Outstanding() <= NewKg(b, Plan(s, rows).value.actions)
  {
    var st := Plan(s, rows).value;
    var held := ListedOn(s, b.id);
    StaysCovered(s, rows, b);
    assert forall x :: x in held ==> HeldKept(st.releases)(x) >= 0;
    SumNonNegative(held, HeldKept(st.releases));
    if r.Listed() {
      MemberBound(held, HeldKept(st.releases), r);
    }
  }

  // ----- no handler refuses -----

  /** Every live reservation names a stocked batch, and stock covers what is held on it. */
  ghost predicate Secured(s: Snapshot)
  {
    && (forall r :: r in s.reservations && r.Live() ==> exists b :: b in s.batches && r.batchId == Some(b.id))
    && (forall b :: b in s.batches ==> CoveredBefore(s, b))
  }

  lemma {:induction false} KeptPass(s: Snapshot, rows: seq<Row>, after: Stock, r: Reservation)
    requires Sound(s) && UniqueReservations(s) && Secured(s) && Plan(s, rows).Ok? && r in s.reservations
    requires Weighed(s, after, Plan(s, rows).value.actions) && r.Live() && r.id !in Plan(s, rows).value.releases
    ensures HeldWithin(after, r)
  {
    var b :| b in s.batches && r.batchId == Some(b.id);
    LiveCovered(s, rows, r, b);
  }

  lemma {:induction false} ReleasesFit(s: Snapshot, rows: seq<Row>, before: Stock, fs: seq<Release>)
    requires Sound(s) && UniqueReservations(s) && Captured(s, before) && Plan(s, rows).Ok?
    requires Lists(fs, Plan(s, rows).value.releases)
    ensures forall f :: f in fs ==> f.id in before.reservations && FreesAll(before.reservations[f.id], f.id, f)
  {
    HeldPlan(s, rows, Groups(rows).keys);
    forall f | f in fs ensures f.id in before.reservations && FreesAll(before.reservations[f.id], f.id, f) {
      assert Frees(s, f.id, Plan(s, rows).value.releases[f.id]);
    }
  }

  lemma {:induction false} LivePass(s: Snapshot, rows: seq<Row>, before: Stock, after: Stock, fs: seq<Release>, id: Id)
    requires Sound(s) && UniqueReservations(s) && Secured(s) && Captured(s, before) && Plan(s, rows).Ok?
    requires Lists(fs, Plan(s, rows).value.releases) && Weighed(s, after, Plan(s, rows).value.actions)
    requires after.reservations.Keys == before.reservations.Keys
    requires forall f :: f in fs ==> f.id in before.reservations && after.reservations[f.id] == Free(before.reservations[f.id])
    requires (forall f :: f in fs ==> f.id != id) && id in before.reservations ==> after.reservations[id] == before.reservations[id]
    requires id in after.reservations && after.reservations[id].Live()
    ensures HeldWithin(after, after.reservations[id])
  {
    assert forall f :: f in fs ==> f.id != id;
    KeptPass(s, rows, after, before.reservations[id]);
  }

  lemma {:induction false} ReleasedRows(before: Stock, after: Stock, plan: Document)
    requires forall f :: f in plan.releases ==>
      f.id in before.reservations && FreesAll(before.reservations[f.id], f.id, f) && before.reservations[f.id].released >= 0
    requires after.reservations.Keys == before.reservations.Keys
    requires forall f :: f in plan.releases ==> after.reservations[f.id] == Free(before.reservations[f.id])
    requires forall id :: id in before.reservations && (forall f :: f in plan.releases ==> f.id != id) ==>
      after.reservations[id] == before.reservations[id]
    requires forall id :: id in after.reservations && after.reservations[id].Live() ==> HeldWithin(after, after.reservations[id])
    ensures ReservationsAudited(before, after, plan)
  {
  }

  lemma {:induction false} ReservationsPass(s: Snapshot, rows: seq<Row>, before: Stock, start: Stock, after: Stock, plan: Document)
    requires Sound(s) && UniqueReservations(s) && Secured(s) && Captured(s, before) && Plan(s, rows).Ok?
    requires Lists(plan.releases, Plan(s, rows).value.releases)
    requires Weighed(s, after, Plan(s, rows).value.actions)
    requires ReleaseRun(before, plan.releases) == Ok(start) && after.reservations == start.reservations
    ensures ReservationsAudited(before, after, plan)
  {
    ReleasesFit(s, rows, before, plan.releases);
    var freed := ReleasesRun(before, plan.releases);
    forall id | id in after.reservations && after.reservations[id].Live() ensures HeldWithin(after, after.reservations[id]) {
      LivePass(s, rows, before, after, plan.releases, id);
    }
    ReleasedRows(before, after, plan);
  }

  /** A sum over a map is at most a sum over a list that has every positive entry. */
  lemma {:induction false} ListsTotal(m: map<Id, Kg>, held: seq<Reservation>, f: Reservation -> Kg)
    requires forall r :: r in held ==> f(r) >= 0
    requires forall q, r :: q in held && r in held && q.id == r.id ==> q == r
    requires forall k :: k in m && m[k] > 0 ==> exists r :: r in held && r.id == k && f(r) == m[k]
    ensures Total(m) <= SumOf(held, f)
  {
    if held == [] {
      NothingPositive(m);
    } else {
      var l := |held| - 1;
      var r := held[l];
      assert forall q :: q in held <==> q in held[..l] || q == r;
      if r.id in m {
        TotalRemove(m, r.id);
        ListsTotal(m - {r.id}, held[..l], f);
      } else {
        ListsTotal(m, held[..l], f);
      }
    }
  }

  lemma {:induction false} NothingPositive(m: map<Id, Kg>)
    requires forall k :: k in m ==> m[k] <= 0
    ensures Total(m) <= 0
    decreases |m|
  {
    if m != map[] {
      var k :| k in m;
      TotalRemove(m, k);
      assert (m - {k}).Keys == m.Keys - {k};
      NothingPositive(m - {k});
    }
  }

  /** After the releases of a plan, what is held on a batch is at most what the planner counts. */
  lemma {:induction false} HoldingAtMost(s: Snapshot, rows: seq<Row>, before: Stock, start: Stock, plan: Document, id: Id)
    requires Sound(s) && UniqueReservations(s) && Captured(s, before) && Plan(s, rows).Ok?
    requires Lists(plan.releases, Plan(s, rows).value.releases) && ReleaseRun(before, plan.releases) == Ok(start)
    ensures Total(Holding(start, id)) <= HeldAfter(s, Plan(s, rows).value.releases, id)
  {
    ReleasesFit(s, rows, before, plan.releases);
    var freed := ReleasesRun(before, plan.releases);
    hide Plan, ReleaseRun, FreesAll, Sound;
    HoldingListed(s, before, start, plan.releases, Plan(s, rows).value.releases, id);
    ListsTotal(Holding(start, id), ListedOn(s, id), HeldKept(Plan(s, rows).value.releases));
  }

  lemma {:induction false} HoldingListed(s: Snapshot, before: Stock, start: Stock, fs: seq<Release>, releases: map<Id, Release>, id: Id)
    requires Captured(s, before) && Lists(fs, releases) && start.reservations.Keys == before.reservations.Keys
    requires forall f :: f in fs ==> f.id in before.reservations && start.reservations[f.id] == Free(before.reservations[f.id])
    requires forall k :: k in before.reservations && (forall f :: f in fs ==> f.id != k) ==> start.reservations[k] == before.reservations[k]
    ensures forall k :: k in Holding(start, id) && Holding(start, id)[k] > 0 ==>
      exists r :: r in ListedOn(s, id) && r.id == k && HeldKept(releases)(r) == Holding(start, id)[k]
  {
    hide Counted, ById, DistinctReleases;
    var holding := Holding(start, id);
    forall k | k in holding && holding[k] > 0 ensures exists r :: r in ListedOn(s, id) && r.id == k && HeldKept(releases)(r) == holding[k] {
      assert forall f :: f in fs ==> f.id != k;
      var r := before.reservations[k];
      assert r in ListedOn(s, id) && r.id == k && k !in releases;
    }
  }

  lemma {:induction false} WrittenKg(b: Batch, actions: seq<Action>, a: Action)
    requires a in actions && a.Update? && a.id == b.id && Distinct(UpdatedIds(actions))
    ensures NewKg(b, actions) == LeftKg(b, a.values) && b.id in UpdatedIds(actions)
  {
    var l := |actions| - 1;
    assert actions == actions[..l] + [actions[l]];
    UpdatedIdsAppend(actions[..l], actions[l]);
    if actions[l].Update? { DistinctAppend(UpdatedIds(actions[..l]), actions[l].id); }
    if a in actions[..l] {
      WrittenKg(b, actions[..l], a);
    } else {
      NotUpdated(b, actions[..l]);
    }
  }

  /** The guards of the planner are enough: no handler refuses an update it planned. */
  lemma {:induction false} PlanUnopposed(s: Snapshot, rows: seq<Row>, before: Stock, start: Stock, plan: Document)
    requires Sound(s) && UniqueReservations(s) && Secured(s) && Captured(s, before) && Plan(s, rows).Ok?
    requires Lists(plan.releases, Plan(s, rows).value.releases) && ReleaseRun(before, plan.releases) == Ok(start)
    requires start == before.(reservations := start.reservations) && SaneUpdates(Plan(s, rows).value.actions)
    ensures Unopposed(start, Plan(s, rows).value.actions)
  {
    var actions := Plan(s, rows).value.actions;
    ByIdHolds(s.batches);
    UpdatedOnce(s, rows);
    hide Plan, Sound, UniqueReservations, Lists, ReleaseRun, HeldAfter, Distinct, Total, Holding;
    forall a | a in actions && a.Update? && a.id in start.batches ensures !Conflicts(start, a.id, a.values, false) {
      var b := start.batches[a.id];
      HoldingAtMost(s, rows, before, start, plan, a.id);
      StaysCovered(s, rows, b);
      WrittenKg(b, actions, a);
      PlannedUpdate(s, rows, a, b);
    }
  }

  lemma {:induction false} PlannedUpdate(s: Snapshot, rows: seq<Row>, a: Action, b: Batch)
    requires Sound(s) && Plan(s, rows).Ok? && a in Plan(s, rows).value.actions && a.Update? && b in s.batches && b.id == a.id
    ensures b.id !in s.ecoOut && (a.values.pieceCount.Some? ==> b.rollLengths == []) && (a.values.quantity.None? ==> b.quantity >= 0)
  {
    var g := ActionsGrounded(s, rows, a);
    hide Plan, Grounded, Groups, StopReason;
    GroundedUpdate(s, g, Groups(rows).Get(g), a, b);
  }

  lemma {:induction false} GroundedUpdate(s: Snapshot, g: GroupKey, src: seq<Row>, a: Action, b: Batch)
    requires Sound(s) && a.Update? && Grounded(s, g, src, a) && b in s.batches && b.id == a.id
    ensures b.id !in s.ecoOut && (a.values.pieceCount.Some? ==> b.rollLengths == [])
  {
    hide Writes, Part;
    InExisting(s, g);
    ActiveIn(s, g);
    var c, k :| UpdateOf(s, g, src, k, c, a);
    assert c in Active(s, g);
  }

  // ----- the theorem -----

  lemma {:induction false} TargetsPass(s: Snapshot, rows: seq<Row>, after: Stock, plan: Document)
    requires Sound(s) && Plan(s, rows).Ok? && plan.outcomes == Plan(s, rows).value.outcomes
    requires forall k, w :: Totals(s, after, Plan(s, rows).value.actions, k, w)
    ensures TargetsAudited(after, plan)
  {
    hide Totals, TargetAudited, Plan, Sound;
    forall o | o in plan.outcomes ensures TargetAudited(after, o) {
      OutcomeMet(s, rows, o);
      var k := RowKey(o.sources[0]);
      assert Totals(s, after, Plan(s, rows).value.actions, k, KG) && Totals(s, after, Plan(s, rows).value.actions, k, ROLLS);
      assert Totals(s, after, Plan(s, rows).value.actions, k, UNCOUNTED);
      TargetPasses(s, rows, after, o);
    }
  }

  /** Kg always fits; and when all stock of the group is counted no count was left blank, so
      the rolls fit as well. */
  lemma {:induction false} TargetPasses(s: Snapshot, rows: seq<Row>, after: Stock, o: Outcome)
    requires Sound(s) && Plan(s, rows).Ok? && o in Plan(s, rows).value.outcomes && o.sources != []
    requires var k, actions := RowKey(o.sources[0]), Plan(s, rows).value.actions;
      Totals(s, after, actions, k, KG) && Totals(s, after, actions, k, ROLLS) && Totals(s, after, actions, k, UNCOUNTED)
    ensures TargetAudited(after, o)
  {
    hide Plan, Sound, GroupMap, GroupSum, Total, AllCounted, StopReason, Blank, KG, ROLLS, UNCOUNTED;
    OutcomeMet(s, rows, o);
    OutcomeRolls(s, rows, o);
    var k := RowKey(o.sources[0]);
    if AllCounted(after.batches, k) { CountedIsZero(after.batches, k); }
  }

  lemma {:induction false} PreservedPass(s: Snapshot, before: Stock, after: Stock, plan: Document, created: map<string, int>,
                                         actions: seq<Action>, changes: seq<Change>)
    requires before.batches == ById(s.batches) && Sound(s)
    requires RowsAudited(before, after, plan, changes, created) && OwnIds(before, changes, actions)
    requires forall id :: id in plan.preserved ==> id !in UpdatedIds(actions) && exists b :: b in s.batches && b.id == id
    ensures BatchesAudited(before, after, plan, changes, created)
  {
    ByIdHolds(s.batches);
    forall id | id in plan.preserved ensures id in before.batches && after.batches[id] == before.batches[id] {
      forall i | 0 <= i < |changes| ensures Ids(changes)[i] != id {
        assert changes[i] in changes;
      }
    }
  }

  /** The stock, the plan made from it, and the document that carries the plan. */
  ghost predicate Ready(s: Snapshot, rows: seq<Row>, before: Stock, plan: Document, created: map<string, int>)
  {
    && Sound(s) && UniqueReservations(s) && Secured(s) && Captured(s, before)
    && Plan(s, rows).Ok?
    && Carries(plan, Plan(s, rows).value) && plan.outcomes == Plan(s, rows).value.outcomes
    && Lists(plan.releases, Plan(s, rows).value.releases)
    && (forall id :: id in plan.preserved ==>
          id !in UpdatedIds(Plan(s, rows).value.actions) && exists b :: b in s.batches && b.id == id)
    && Known(Plan(s, rows).value.actions, created)
  }

  /** Executing a plan against the stock it was made from never fails, and every check of the
      audit holds of the result: the planner, the executor and the auditor agree. */
  lemma {:induction false} ExecutionAccepted(s: Snapshot, rows: seq<Row>, before: Stock, plan: Document, created: map<string, int>)
    requires Ready(s, rows, before, plan, created)
    ensures Execute(before, plan, created).Ok?
    ensures var (after, changes) := Execute(before, plan, created).value;
      Accepted(before, after, plan, changes, created) && Recorded(before, after, plan, changes)
  {
    hide *;
    var p, start := Unpacked(s, rows, before, plan, created);
    var after, changes := Runs(s, before, start, plan, created, p.actions, |p.actions|);
    Packed(s, rows, before, start, after, plan, created, changes);
  }

  /** The run's starting point, from what `Ready` promises. */
  lemma {:induction false} Unpacked(s: Snapshot, rows: seq<Row>, before: Stock, plan: Document, created: map<string, int>)
    returns (p: State, start: Stock)
    requires Ready(s, rows, before, plan, created)
    ensures Plan(s, rows) == Ok(p) && ReleaseRun(before, plan.releases) == Ok(start)
    ensures StartsFrom(s, before, start) && Sound(s) && before.batches == ById(s.batches)
    ensures Follows(plan, p.actions) && |p.actions| == |plan.entries| && p.actions[..|p.actions|] == p.actions
    ensures Fitting(s, p.actions) && Distinct(UpdatedIds(p.actions[..|p.actions|])) && Served(p.actions, created) && Unopposed(start, p.actions)
  {
    p := Plan(s, rows).value;
    ReleasesFit(s, rows, before, plan.releases);
    start := ReleasesRun(before, plan.releases);
    PlanFits(s, rows, Groups(rows).keys);
    PlanSane(s, Groups(rows), Groups(rows).keys);
    AllAcceptable(s, p.actions, created);
    PlanUnopposed(s, rows, before, start, plan);
    UpdatedOnce(s, rows);
    assert p.actions[..|p.actions|] == p.actions;
  }

  /** The audit of a finished run. */
  lemma {:induction false} Packed(s: Snapshot, rows: seq<Row>, before: Stock, start: Stock, after: Stock, plan: Document,
                                  created: map<string, int>, changes: seq<Change>)
    requires Ready(s, rows, before, plan, created) && ReleaseRun(before, plan.releases) == Ok(start)
    requires EntryRun(start, plan.entries[..|Plan(s, rows).value.actions|], created) == Ok((after, changes))
    requires RunHolds(s, before, plan, created, Plan(s, rows).value.actions[..|Plan(s, rows).value.actions|], after, changes)
    requires after.reservations == start.reservations
    ensures Execute(before, plan, created) == Ok((after, changes))
    ensures Accepted(before, after, plan, changes, created) && Recorded(before, after, plan, changes)
  {
    hide *;
    ReadyMeans(s, rows, before, plan, created);
    var actions := Plan(s, rows).value.actions;
    assert plan.entries[..|actions|] == plan.entries && actions[..|actions|] == actions;
    RunMeans(s, before, plan, created, actions, after, changes);
    PreservedPass(s, before, after, plan, created, actions, changes);
    ReservationsPass(s, rows, before, start, after, plan);
    TargetsPass(s, rows, after, plan);
    TotalFollows(before, after, plan, changes, created);
    AllPass(before, start, after, plan, changes, created);
  }

  lemma {:induction false} ReadyMeans(s: Snapshot, rows: seq<Row>, before: Stock, plan: Document, created: map<string, int>)
    requires Ready(s, rows, before, plan, created)
    ensures Sound(s) && UniqueReservations(s) && Secured(s) && Captured(s, before) && Plan(s, rows).Ok?
    ensures before.batches == ById(s.batches) && plan.outcomes == Plan(s, rows).value.outcomes
    ensures Lists(plan.releases, Plan(s, rows).value.releases) && |plan.entries| == |Plan(s, rows).value.actions|
    ensures forall id :: id in plan.preserved ==>
      id !in UpdatedIds(Plan(s, rows).value.actions) && exists b :: b in s.batches && b.id == id
  {
  }

  lemma {:induction false} RunMeans(s: Snapshot, before: Stock, plan: Document, created: map<string, int>,
                                    actions: seq<Action>, after: Stock, changes: seq<Change>)
    requires RunHolds(s, before, plan, created, actions, after, changes)
    ensures RowsAudited(before, after, plan, changes, created) && MovementsSoFar(before, after, plan, changes)
    ensures Recorded(before, after, plan, changes) && Weighed(s, after, actions) && OwnIds(before, changes, actions)
    ensures forall k, w :: Totals(s, after, actions, k, w)
  {
  }

  lemma {:induction false} AllPass(before: Stock, start: Stock, after: Stock, plan: Document, changes: seq<Change>, created: map<string, int>)
    requires ReleaseRun(before, plan.releases) == Ok(start) && EntryRun(start, plan.entries, created) == Ok((after, changes))
    requires BatchesAudited(before, after, plan, changes, created) && MovementsSoFar(before, after, plan, changes)
    requires ReservationsAudited(before, after, plan) && TargetsAudited(after, plan) && TotalAudited(before, after, changes)
    ensures Execute(before, plan, created) == Ok((after, changes)) && Accepted(before, after, plan, changes, created)
  {
  }

  // ----- the ledger, whatever the document -----

  /** One written row, restorations included. */
  lemma {:induction false} EntryWrites(mid: Stock, index: nat, e: Entry, created: map<string, int>)
    requires EntryStep(mid, index, e, created).Ok?
    ensures var (next, c) := EntryStep(mid, index, e, created).value;
      && Additive(c, e) && c.index == index && c.receipt == e.action.Receive?
      && c.id in next.batches && next.batches == mid.batches[c.id := next.batches[c.id]]
      && c.after == next.batches[c.id].quantity && mid.nextBatch <= next.nextBatch
      && c.id == (if c.receipt then mid.nextBatch else e.action.id) && (c.receipt ==> mid.nextBatch < next.nextBatch)
      && (!c.receipt ==> c.id in mid.batches && c.before == mid.batches[c.id].quantity) && (c.receipt ==> c.before == 0)
  {
  }

  /** Request types let only positive receipts and restorations through, and a restoration
      starts from nothing: every recorded change has a movement of the right sign. */
  lemma {:induction false} ExecutedAdditive(start: Stock, entries: seq<Entry>, created: map<string, int>)
    requires EntryRun(start, entries, created).Ok?
    ensures forall c :: c in EntryRun(start, entries, created).value.1 ==> c.index < |entries| && Additive(c, entries[c.index])
  {
    hide EntryStep, Additive;
    if entries != [] {
      var l := |entries| - 1;
      ExecutedAdditive(start, entries[..l], created);
      var (mid, some) := EntryRun(start, entries[..l], created).value;
      EntryWrites(mid, l, entries[l], created);
      var c := EntryStep(mid, l, entries[l], created).value.1;
      assert forall d :: d in some + [c] <==> d in some || d == c;
    }
  }

  /** Ids of batches are below the next one. */
  ghost predicate Numbered(st: Stock) { forall id :: id in st.batches ==> id < st.nextBatch }

  /** What is noted of a batch that is changed once is its weight before and after the run. */
  ghost predicate Noted(start: Stock, now: Stock, entries: seq<Entry>, changes: seq<Change>)
  {
    && (forall id :: id in start.batches ==> id in now.batches)
    && (forall id :: id in start.batches && id !in Ids(changes) ==> now.batches[id] == start.batches[id])
    && (forall id :: id in now.batches && id !in start.batches ==> id in Ids(changes))
    && (forall c :: c in changes ==> NotedChange(start, now, entries, c))
  }

  ghost predicate NotedChange(start: Stock, now: Stock, entries: seq<Entry>, c: Change)
  {
    && c.index < |entries| && c.id in now.batches && c.receipt == entries[c.index].action.Receive?
    && c.before == (if c.id in start.batches then start.batches[c.id].quantity else 0)
    && c.after == now.batches[c.id].quantity
  }

  lemma {:induction false} ExecutedNoted(start: Stock, entries: seq<Entry>, created: map<string, int>)
    requires EntryRun(start, entries, created).Ok? && Numbered(start)
    ensures var (now, changes) := EntryRun(start, entries, created).value;
      Numbered(now) && start.nextBatch <= now.nextBatch && (Distinct(Ids(changes)) ==> Noted(start, now, entries, changes))
  {
    hide EntryStep, Noted, Distinct, Ids;
    if entries == [] {
      NothingNoted(start);
    } else {
      var l := |entries| - 1;
      ExecutedNoted(start, entries[..l], created);
      var (mid, some) := EntryRun(start, entries[..l], created).value;
      EntryWrites(mid, l, entries[l], created);
      var (next, c) := EntryStep(mid, l, entries[l], created).value;
      if Distinct(Ids(some + [c])) {
        IdsOnce(some, c);
        NotedStep(start, mid, next, entries, some, c);
      }
    }
  }

  lemma {:induction false} NothingNoted(start: Stock)
    ensures Noted(start, start, [], [])
  {
    assert Ids([]) == [];
  }

  lemma {:induction false} IdsOnce(changes: seq<Change>, c: Change)
    requires Distinct(Ids(changes + [c]))
    ensures Distinct(Ids(changes)) && c.id !in Ids(changes)
    ensures forall id :: id in Ids(changes + [c]) <==> id in Ids(changes) || id == c.id
    ensures forall d :: d in changes ==> d.id != c.id
  {
    assert Ids(changes + [c]) == Ids(changes) + [c.id];
    DistinctAppend(Ids(changes), c.id);
    forall d | d in changes ensures d.id != c.id { IdListed(changes, d); }
  }

  lemma {:induction false} NotedStep(start: Stock, mid: Stock, next: Stock, entries: seq<Entry>, some: seq<Change>, c: Change)
    requires entries != [] && Noted(start, mid, entries[..|entries| - 1], some)
    requires c.index == |entries| - 1 && c.receipt == entries[c.index].action.Receive?
    requires c.id in next.batches && next.batches == mid.batches[c.id := next.batches[c.id]] && c.after == next.batches[c.id].quantity
    requires if c.receipt then c.id !in mid.batches && c.before == 0 else c.id in mid.batches && c.before == mid.batches[c.id].quantity
    requires c.id !in Ids(some) && forall d :: d in some ==> d.id != c.id
    requires forall id :: id in Ids(some + [c]) <==> id in Ids(some) || id == c.id
    ensures Noted(start, next, entries, some + [c])
  {
    hide Ids;
    forall d | d in some + [c] ensures NotedChange(start, next, entries, d) {
      if d in some { assert NotedChange(start, mid, entries[..|entries| - 1], d); }
    }
  }

  lemma {:induction false} ReleasesKeepRows(st: Stock, fs: seq<Release>)
    requires ReleaseRun(st, fs).Ok?
    ensures ReleaseRun(st, fs).value == st.(reservations := ReleaseRun(st, fs).value.reservations)
  {
    if fs != [] { ReleasesKeepRows(st, fs[..|fs| - 1]); }
  }

  /** What execution records is true of the two snapshots, if no batch is changed twice. */
  lemma {:induction false} ExecutedRecorded(before: Stock, plan: Document, created: map<string, int>)
    requires Execute(before, plan, created).Ok? && Numbered(before) && Distinct(Ids(Execute(before, plan, created).value.1))
    ensures Recorded(before, Execute(before, plan, created).value.0, plan, Execute(before, plan, created).value.1)
  {
    ReleasesKeepRows(before, plan.releases);
    var start := ReleaseRun(before, plan.releases).value;
    hide ReleaseRun, EntryRun;
    ExecutedNoted(start, plan.entries, created);
  }

  /** Whatever the document, restorations included: when its execution passes the audit, a
      stock whose batches match their signed movements still does. */
  lemma {:induction false} ExecutionKeepsLedger(before: Stock, plan: Document, created: map<string, int>)
    requires Numbered(before) && Linked(before) && forall id :: id in before.batches ==> Balanced(before, id)
    requires Execute(before, plan, created).Ok?
    requires var (after, changes) := Execute(before, plan, created).value; Accepted(before, after, plan, changes, created)
    ensures var after := Execute(before, plan, created).value.0; forall id :: id in after.batches ==> Balanced(after, id)
  {
    var (after, changes) := Execute(before, plan, created).value;
    ExecutedAdditive(ReleaseRun(before, plan.releases).value, plan.entries, created);
    ExecutedRecorded(before, plan, created);
    hide Execute, Balanced, Additive;
    LedgerBalanced(before, after, plan, changes, created);
  }

  /** So applying any plan to the stock it was made from keeps the ledger balanced. */
  lemma {:induction false} PlanKeepsLedger(s: Snapshot, rows: seq<Row>, before: Stock, plan: Document, created: map<string, int>)
    requires Ready(s, rows, before, plan, created) && Linked(before)
    requires forall id :: id in before.batches ==> Balanced(before, id)
    ensures Execute(before, plan, created).Ok?
    ensures var after := Execute(before, plan, created).value.0;
      forall id :: id in after.batches ==> Balanced(after, id)
  {
    ExecutionAccepted(s, rows, before, plan, created);
    assert Numbered(before);
    hide *;
    ExecutionKeepsLedger(before, plan, created);
  }
}
