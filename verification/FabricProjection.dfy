/** Projecting a plan onto the snapshot before anything is applied. */
module FabricProjection {
  import opened Base
  import opened FabricPlan
  import opened FabricConservation
  import opened FabricCover

  function MeasureOf(w: Measure): Batch -> int { (b: Batch) => w(b.quantity, b.pieceCount) }

  function Written(b: Batch, v: Values): Batch
  {
    b.(quantity := if v.quantity.Some? then v.quantity.value else b.quantity,
       pieceCount := if v.pieceCount.Some? then v.pieceCount.value else b.pieceCount,
       color := if v.color.Some? then v.color else b.color,
       colorCode := if v.colorCode.Some? then v.colorCode else b.colorCode)
  }

  function Received(a: Action): Batch
    requires a.Receive?
  {
    Batch(0, 0, a.supplier, a.batchNo, a.quantity, a.pieceCount, a.color, a.colorCode, false, 1, "kg", [], a.cost)
  }

  function ById(batches: seq<Batch>): map<int, Batch>
  {
    if batches == [] then map[] else ById(batches[..|batches| - 1])[batches[|batches| - 1].id := batches[|batches| - 1]]
  }

  /** The dictionary after the first `|actions|` actions; receipt i is filed under -i-1. */
  function Project(s: Snapshot, actions: seq<Action>): map<int, Batch>
  {
    if actions == [] then ById(s.batches)
    else
      var l := |actions| - 1;
      var p := Project(s, actions[..l]);
      match actions[l]
      case Update(_, id, v) => if id in p then p[id := Written(p[id], v)] else p
      case Receive(_, _, _, _, _, _, _, _, _, _) => p[-l - 1 := Received(actions[l])]
  }

  ghost function GroupMap(p: map<int, Batch>, k: GroupKey, w: Measure): map<int, int>
  {
    map id | id in p && BatchKey(p[id]) == k :: w(p[id].quantity, p[id].pieceCount)
  }

  lemma {:induction false} ByIdHolds(batches: seq<Batch>)
    requires forall i, j :: 0 <= i < j < |batches| ==> batches[i].id != batches[j].id
    ensures forall b :: b in batches ==> b.id in ById(batches) && ById(batches)[b.id] == b
    ensures forall id :: id in ById(batches) ==> ById(batches)[id] in batches && ById(batches)[id].id == id
  {
    if batches != [] {
      var l := |batches| - 1;
      ByIdHolds(batches[..l]);
      assert forall b :: b in batches <==> b in batches[..l] || b == batches[l];
    }
  }

  lemma {:induction false} ReceiveTotal(p: map<int, Batch>, id: int, b: Batch, k: GroupKey, w: Measure)
    requires id !in p
    ensures Total(GroupMap(p[id := b], k, w)) == Total(GroupMap(p, k, w)) + if BatchKey(b) == k then w(b.quantity, b.pieceCount) else 0
  {
    if BatchKey(b) == k {
      assert GroupMap(p[id := b], k, w) == GroupMap(p, k, w)[id := w(b.quantity, b.pieceCount)];
      TotalInsert(GroupMap(p, k, w), id, w(b.quantity, b.pieceCount));
    } else {
      assert GroupMap(p[id := b], k, w) == GroupMap(p, k, w);
    }
  }

  lemma {:induction false} StartTotal(batches: seq<Batch>, k: GroupKey, w: Measure)
    requires forall i, j :: 0 <= i < j < |batches| ==> batches[i].id != batches[j].id
    ensures Total(GroupMap(ById(batches), k, w)) == SumOf(IndexBy(batches, BatchKey).Get(k), MeasureOf(w))
  {
    if batches == [] {
      assert GroupMap(ById(batches), k, w) == map[];
    } else {
      var l := |batches| - 1;
      ByIdHolds(batches[..l]);
      StartTotal(batches[..l], k, w);
      ReceiveTotal(ById(batches[..l]), batches[l].id, batches[l], k, w);
      SumAppend(IndexBy(batches[..l], BatchKey).Get(k), batches[l], MeasureOf(w));
    }
  }

  /** Each snapshot batch keeps its identity and holds its latest weight and roll count; other
      keys are receipts. */
  lemma {:induction false} ProjectHolds(s: Snapshot, actions: seq<Action>)
    requires Sound(s)
    ensures var p := Project(s, actions);
      forall b :: b in s.batches ==>
        b.id in p && BatchKey(p[b.id]) == BatchKey(b) && p[b.id].quantity == NewKg(b, actions) && p[b.id].pieceCount == NewCount(b, actions)
  {
    if actions == [] {
      ByIdHolds(s.batches);
      assert forall id :: id in ById(s.batches) ==> ById(s.batches)[id].id == id;
    } else {
      ProjectHolds(s, actions[..|actions| - 1]);
    }
  }

  lemma {:induction false} ReceiptKeyIsNew(s: Snapshot, actions: seq<Action>)
    requires Sound(s)
    ensures forall id :: id in Project(s, actions) ==> -|actions| <= id
  {
    if actions == [] {
      ByIdHolds(s.batches);
      forall id | id in ById(s.batches) ensures 0 <= id {
        assert ById(s.batches)[id] in s.batches;
      }
    } else {
      ReceiptKeyIsNew(s, actions[..|actions| - 1]);
    }
  }

  // ----- what a plan's actions look like -----

  /** Updates name stocked batches of the snapshot; receipts bring something. */
  ghost predicate Fitting(s: Snapshot, actions: seq<Action>)
  {
    forall a :: a in actions ==>
      if a.Update? then exists b :: b in s.batches && b.id == a.id && b.quantity > 0 else a.quantity > 0
  }

  lemma {:induction false} SegmentsPositive(s: Snapshot, g: GroupKey, src: seq<Row>, k: SegmentKey)
    requires StopReason(s, g, src).None? && k in Segments(s, g, src).at
    ensures SumOf(Segments(s, g, src).at[k], PairKg) > 0
  {
    var pairs := Resolve(s, g, Positive(src)).value;
    var part := Segments(s, g, src).at[k];
    forall p | p in part ensures PairKg(p) > 0 {
      IndexMembers(pairs, SegKey, k);
      assert p in Segments(s, g, src).Get(k);
      ResolvedRow(s, g, Positive(src), p);
    }
    SumPositive(part, PairKg);
  }

  lemma {:induction false} AssignFits(s: Snapshot, st: State, ref: nat, g: GroupKey,
                                      segments: Index<SegmentKey, Sourced>, keys: seq<SegmentKey>)
    requires segments.Valid() && Fitting(s, st.actions)
    requires forall k :: k in keys ==> k in segments.at && SumOf(segments.at[k], PairKg) > 0
    ensures Fitting(s, AssignAll(s, st, ref, g, segments, keys).st.actions)
  {
    if keys != [] {
      AssignFits(s, st, ref, g, segments, keys[..|keys| - 1]);
    }
  }

  lemma {:induction false} UpdatesFit(s: Snapshot, a0: seq<Action>, a1: seq<Action>, g: GroupKey)
    requires Sound(s) && Fitting(s, a0) && Grows(a0, a1, ActiveIds(s, g), None)
    ensures Fitting(s, a1)
  {
    ActiveIn(s, g);
    InExisting(s, g);
    forall a | a in a1
      ensures if a.Update? then exists b :: b in s.batches && b.id == a.id && b.quantity > 0 else a.quantity > 0
    {
      var i :| 0 <= i < |a1| && a1[i] == a;
      if i < |a0| {
        assert a in a0;
      } else {
        var b :| b in Active(s, g) && b.id == a.id;
      }
    }
  }

  lemma {:induction false} PlanFits(s: Snapshot, rows: seq<Row>, keys: seq<GroupKey>)
    requires Sound(s) && Distinct(keys) && PlanGroups(s, Groups(rows), keys).Ok?
    ensures Fitting(s, PlanGroups(s, Groups(rows), keys).value.actions)
  {
    if keys != [] {
      var l := |keys| - 1;
      var g := keys[l];
      PlanFits(s, rows, keys[..l]);
      PlanInvariant(s, rows, keys[..l], g, AnyItem(KG));
      assert g !in keys[..l];
      GroupFits(s, PlanGroups(s, Groups(rows), keys[..l]).value, l + 1, g, Groups(rows).Get(g), rows);
    }
  }

  lemma {:induction false} GroupFits(s: Snapshot, st: State, ref: nat, g: GroupKey, src: seq<Row>, rows: seq<Row>)
    requires Sound(s) && Fitting(s, st.actions) && Untouched(s, g, st.actions)
    requires src == Groups(rows).Get(g) && GroupStep(s, st, ref, g, src).Ok?
    ensures Fitting(s, GroupStep(s, st, ref, g, src).value.actions)
  {
    if StopReason(s, g, src).None? {
      IndexMembers(rows, RowKey, g);
      var segments := Segments(s, g, src);
      SegmentsConserve(s, g, src);
      forall k | k in segments.keys ensures SumOf(segments.at[k], PairKg) > 0 {
        SegmentsPositive(s, g, src, k);
      }
      AssignFits(s, st, ref, g, segments, segments.keys);
      AssignAllEffect(s, st, ref, g, segments, segments.keys, AnyItem(KG));
      var d := AssignAll(s, st, ref, g, segments, segments.keys);
      var mid := UpdateAll(s, d.st, ref, Zeroing(Active(s, g), d.used)).value;
      UntouchedMeans(s, g, st.actions);
      GrowsFrame(st.actions, d.st.actions, {}, Some(g));
      ActiveIn(s, g);
      GroupUpdates(s, ref, g, d, mid, UpdateAll(s, mid, ref, d.planned).value);
      UpdatesFit(s, d.st.actions, UpdateAll(s, mid, ref, d.planned).value.actions, g);
    }
  }

  // ----- totals of the projection -----

  lemma {:induction false} RewriteTotal(p: map<int, Batch>, id: int, n: Batch, k: GroupKey, w: Measure)
    requires id in p && BatchKey(n) == BatchKey(p[id])
    ensures Total(GroupMap(p[id := n], k, w)) == Total(GroupMap(p, k, w)) +
      if BatchKey(n) == k then w(n.quantity, n.pieceCount) - w(p[id].quantity, p[id].pieceCount) else 0
  {
    var m, after := GroupMap(p, k, w), GroupMap(p[id := n], k, w);
    if BatchKey(n) == k {
      TotalRemove(m, id);
      TotalRemove(after, id);
      assert m - {id} == after - {id};
    } else {
      assert m == after;
    }
  }

  /** What the last action makes of the weight and the roll count of a batch. */
  lemma {:induction false} LastAction(b: Batch, actions: seq<Action>, w: Measure)
    requires actions != []
    ensures var l := |actions| - 1;
      if actions[l].Update? && actions[l].id == b.id then
        && NewKg(b, actions) == (if actions[l].values.quantity.Some? then actions[l].values.quantity.value else NewKg(b, actions[..l]))
        && NewCount(b, actions) == (if actions[l].values.pieceCount.Some? then actions[l].values.pieceCount.value else NewCount(b, actions[..l]))
      else Measured(actions, AnyItem(w))(b) == Measured(actions[..l], AnyItem(w))(b)
  {
    var l := |actions| - 1;
    if !(actions[l].Update? && actions[l].id == b.id) {
      assert NewKg(b, actions) == NewKg(b, actions[..l]) && NewCount(b, actions) == NewCount(b, actions[..l]);
    }
  }

  lemma {:induction false} StepSum(s: Snapshot, k: GroupKey, actions: seq<Action>, w: Measure)
    requires Sound(s) && actions != [] && actions[|actions| - 1].Update?
    ensures var l := |actions| - 1;
      var id, v := actions[l].id, actions[l].values;
      var delta := GroupSum(s, k, actions, AnyItem(w)) - GroupSum(s, k, actions[..l], AnyItem(w));
      && (forall b :: b in Existing(s, k) && b.id == id ==> delta == Measured(actions, AnyItem(w))(b) - Measured(actions[..l], AnyItem(w))(b))
      && ((forall b :: b in Existing(s, k) ==> b.id != id) ==> delta == 0)
  {
    var l := |actions| - 1;
    var f, g := Measured(actions, AnyItem(w)), Measured(actions[..l], AnyItem(w));
    InExisting(s, k);
    hide Existing, Measured, Distinct, NewKg, NewCount, ReceivedSum;
    SameReceived(k, actions, w);
    forall b | b in Existing(s, k) && b.id != actions[l].id ensures f(b) == g(b) { LastAction(b, actions, w); }
    if b :| b in Existing(s, k) && b.id == actions[l].id {
      SumDiffersAt(Existing(s, k), f, g, b);
    } else {
      SumSame(Existing(s, k), f, g);
    }
  }

  lemma {:induction false} SameReceived(k: GroupKey, actions: seq<Action>, w: Measure)
    requires actions != []
    ensures var a := actions[|actions| - 1];
      ReceivedSum(k, actions, AnyItem(w)) == ReceivedSum(k, actions[..|actions| - 1], AnyItem(w)) + if a.Receive? && ReceiveKey(a) == k then w(a.quantity, a.pieceCount) else 0
  {
  }

  lemma {:induction false} UpdateAgrees(s: Snapshot, actions: seq<Action>, k: GroupKey, w: Measure)
    requires Sound(s) && actions != [] && actions[|actions| - 1].Update?
    requires Total(GroupMap(Project(s, actions[..|actions| - 1]), k, w)) == GroupSum(s, k, actions[..|actions| - 1], AnyItem(w))
    requires exists b :: b in s.batches && b.id == actions[|actions| - 1].id
    ensures Total(GroupMap(Project(s, actions), k, w)) == GroupSum(s, k, actions, AnyItem(w))
  {
    var l := |actions| - 1;
    var p, a := Project(s, actions[..l]), actions[l];
    var b :| b in s.batches && b.id == a.id;
    ProjectHolds(s, actions[..l]);
    InExisting(s, k);
    assert Project(s, actions) == p[a.id := Written(p[a.id], a.values)];
    hide Existing, Distinct, NewKg, NewCount, GroupSum, GroupMap, Project;
    RewriteTotal(p, a.id, Written(p[a.id], a.values), k, w);
    LastAction(b, actions, w);
    StepSum(s, k, actions, w);
  }

  lemma {:induction false} ReceiveSum(s: Snapshot, actions: seq<Action>, k: GroupKey, w: Measure)
    requires actions != [] && actions[|actions| - 1].Receive?
    ensures var a := actions[|actions| - 1];
      GroupSum(s, k, actions, AnyItem(w)) == GroupSum(s, k, actions[..|actions| - 1], AnyItem(w)) + if ReceiveKey(a) == k then w(a.quantity, a.pieceCount) else 0
  {
    hide Existing, Measured, NewKg, NewCount, ReceivedSum;
    SameReceived(k, actions, w);
    forall b | b in Existing(s, k) ensures Measured(actions, AnyItem(w))(b) == Measured(actions[..|actions| - 1], AnyItem(w))(b) { LastAction(b, actions, w); }
    SumSame(Existing(s, k), Measured(actions, AnyItem(w)), Measured(actions[..|actions| - 1], AnyItem(w)));
  }

  lemma {:induction false} ReceiveAgrees(s: Snapshot, actions: seq<Action>, k: GroupKey, w: Measure)
    requires Sound(s) && actions != [] && actions[|actions| - 1].Receive?
    ensures Total(GroupMap(Project(s, actions), k, w)) - Total(GroupMap(Project(s, actions[..|actions| - 1]), k, w))
         == GroupSum(s, k, actions, AnyItem(w)) - GroupSum(s, k, actions[..|actions| - 1], AnyItem(w))
  {
    var l := |actions| - 1;
    var p := Project(s, actions[..l]);
    ReceiveSum(s, actions, k, w);
    ReceiptKeyIsNew(s, actions[..l]);
    ReceiveTotal(p, -l - 1, Received(actions[l]), k, w);
    assert Project(s, actions) == p[-l - 1 := Received(actions[l])];
  }

  lemma {:induction false} StartSum(s: Snapshot, k: GroupKey, w: Measure)
    requires Sound(s)
    ensures Total(GroupMap(ById(s.batches), k, w)) == GroupSum(s, k, [], AnyItem(w))
  {
    StartTotal(s.batches, k, w);
    hide GroupMap, ById;
    forall b: Batch ensures Measured([], AnyItem(w))(b) == MeasureOf(w)(b) { assert NewKg(b, []) == b.quantity && NewCount(b, []) == b.pieceCount; }
    SumSame(Existing(s, k), Measured([], AnyItem(w)), MeasureOf(w));
  }

  /** The projected dictionary measures, per group, what the plan says it measures. */
  lemma {:induction false} ProjectTotal(s: Snapshot, actions: seq<Action>, k: GroupKey, w: Measure)
    requires Sound(s) && Fitting(s, actions)
    ensures Total(GroupMap(Project(s, actions), k, w)) == GroupSum(s, k, actions, AnyItem(w))
  {
    if actions == [] {
      StartSum(s, k, w);
    } else {
      hide GroupSum, GroupMap, Project;
      var l := |actions| - 1;
      assert actions[l] in actions && forall a :: a in actions[..l] ==> a in actions;
      ProjectTotal(s, actions[..l], k, w);
      if actions[l].Update? {
        UpdateAgrees(s, actions, k, w);
      } else {
        ReceiveAgrees(s, actions, k, w);
      }
    }
  }

  /** Projecting a plan onto its own snapshot gives every outcome exactly its target. */
  lemma {:induction false} ProjectionMeetsTargets(s: Snapshot, rows: seq<Row>, o: Outcome)
    requires Sound(s) && Plan(s, rows).Ok? && o in Plan(s, rows).value.outcomes
    ensures o.sources != []
    ensures Total(GroupMap(Project(s, Plan(s, rows).value.actions), RowKey(o.sources[0]), KG)) == o.target
  {
    OutcomeMet(s, rows, o);
    PlanFits(s, rows, Groups(rows).keys);
    ProjectTotal(s, Plan(s, rows).value.actions, RowKey(o.sources[0]), KG);
  }

  // ----- the loops of the `prepare` step -----

  lemma {:induction false} MeasureStep(left: map<int, Batch>, k: GroupKey, id: int, w: Measure)
    requires id in left
    ensures Total(GroupMap(left, k, w)) == Total(GroupMap(left - {id}, k, w)) + if BatchKey(left[id]) == k then w(left[id].quantity, left[id].pieceCount) else 0
  {
    hide BatchKey, Total;
    if BatchKey(left[id]) == k {
      TotalRemove(GroupMap(left, k, w), id);
      SameMap(GroupMap(left, k, w) - {id}, GroupMap(left - {id}, k, w));
    } else {
      SameMap(GroupMap(left, k, w), GroupMap(left - {id}, k, w));
    }
  }

  lemma {:induction false} NothingToMeasure(left: map<int, Batch>, k: GroupKey, w: Measure)
    requires left.Keys == {}
    ensures Total(GroupMap(left, k, w)) == 0
  {
    assert GroupMap(left, k, w) == map[];
  }

  /** The rolls of a batch that has stock; an unknown count is none. */
  const ROLLS: Measure := (kg: Kg, count: Option<int>) => if kg > 0 && count.Some? then count.value else 0

  lemma {:induction false} MeasuresOf(b: Batch)
    ensures KG(b.quantity, b.pieceCount) == b.quantity
    ensures ROLLS(b.quantity, b.pieceCount) == if b.quantity > 0 && b.pieceCount.Some? then b.pieceCount.value else 0
  {
  }

  /** Kilograms and live rolls over the dictionary values of one supplier and batch number. */
  method WeighGroup(p: map<int, Batch>, k: GroupKey) returns (kg: Kg, rolls: int)
    ensures kg == Total(GroupMap(p, k, KG)) && rolls == Total(GroupMap(p, k, ROLLS))
  {
    hide BatchKey, GroupMap, Total, KG, ROLLS;
    kg, rolls := 0, 0;
    var ids := p.Keys;
    ghost var left := p;
    while ids != {}
      invariant left.Keys == ids
      invariant forall id :: id in ids ==> id in p && left[id] == p[id]
      invariant kg + Total(GroupMap(left, k, KG)) == Total(GroupMap(p, k, KG))
      invariant rolls + Total(GroupMap(left, k, ROLLS)) == Total(GroupMap(p, k, ROLLS))
      decreases ids
    {
      var id := PickOne(ids);
      MeasureStep(left, k, id, KG);
      MeasureStep(left, k, id, ROLLS);
      MeasuresOf(p[id]);
      if BatchKey(p[id]) == k {
        kg := kg + p[id].quantity;
        if p[id].quantity > 0 && p[id].pieceCount.Some? { rolls := rolls + p[id].pieceCount.value; }
      }
      left, ids := left - {id}, ids - {id};
    }
    NothingToMeasure(left, k, KG);
    NothingToMeasure(left, k, ROLLS);
  }

  /** The projected group of an outcome weighs its target and has its rolls. */
  ghost predicate Prepared(p: map<int, Batch>, o: Outcome)
    requires o.sources != []
  {
    var k := RowKey(o.sources[0]);
    Total(GroupMap(p, k, KG)) == o.target && 10000 * Total(GroupMap(p, k, ROLLS)) == o.targetRolls
  }

  /** Builds the projection and compares every outcome with its targets. */
  method Prepare(s: Snapshot, actions: seq<Action>, outcomes: seq<Outcome>) returns (projected: map<int, Batch>, ok: bool)
    requires Fitting(s, actions) && forall o :: o in outcomes ==> o.sources != []
    ensures projected == Project(s, actions)
    ensures ok <==> forall o :: o in outcomes ==> Prepared(projected, o)
  {
    projected := map[];
    for i := 0 to |s.batches|
      invariant projected == ById(s.batches[..i])
    {
      assert s.batches[..i + 1][..i] == s.batches[..i];
      projected := projected[s.batches[i].id := s.batches[i]];
    }
    assert s.batches[..|s.batches|] == s.batches;
    assert actions[..0] == [];
    for i := 0 to |actions|
      invariant projected == Project(s, actions[..i])
    {
      assert actions[..i + 1][..i] == actions[..i];
      match actions[i]
      case Update(_, id, v) =>
        if id in projected {
          projected := projected[id := Written(projected[id], v)];
        }
      case Receive(_, _, _, _, _, _, _, _, _, _) =>
        projected := projected[-i - 1 := Received(actions[i])];
    }
    assert actions[..|actions|] == actions;
    ok := CheckOutcomes(projected, outcomes);
  }

  /** The assertions on weights and rolls. */
  method CheckOutcomes(p: map<int, Batch>, outcomes: seq<Outcome>) returns (ok: bool)
    requires forall o :: o in outcomes ==> o.sources != []
    ensures ok <==> forall o :: o in outcomes ==> Prepared(p, o)
  {
    hide GroupMap, Total;
    for i := 0 to |outcomes|
      invariant forall j :: 0 <= j < i ==> Prepared(p, outcomes[j])
    {
      var kg, rolls := WeighGroup(p, RowKey(outcomes[i].sources[0]));
      if kg != outcomes[i].target || 10000 * rolls != outcomes[i].targetRolls {
        assert outcomes[i] in outcomes && !Prepared(p, outcomes[i]);
        return false;
      }
    }
    ok := true;
  }
}
