/** Applying a fabric plan through the inventory handlers, and auditing the result.
    An update writes the listed fields and books one movement of the weight difference,
    an empty batch is archived, a receipt creates a batch, a restoration brings one back;
    the handlers refuse whatever would break a reservation, recorded lengths or fabric out. */
module FabricApply {
  import opened Base
  import opened FabricConservation
  import opened FabricPlan
  import opened FabricProjection
  import opened FabricRolls

  datatype Kind = Receipt | Produce | Return | Adjustment | Issue | Consume | Waste | Shipment | Transfer

  /** `restored`: the movement refers to a batch restoration. */
  datatype Movement = Movement(batchId: Option<Id>, kind: Kind, quantity: Kg, restored: bool) {
    /** Effect on the batch it belongs to. */
    function Signed(): Kg {
      match kind
      case Receipt | Produce | Return | Adjustment => quantity
      case Issue | Consume | Waste | Shipment => -quantity
      case Transfer => 0
    }
  }

  datatype Stock = Stock(batches: map<Id, Batch>, movements: map<Id, Movement>,
                         reservations: map<Id, Reservation>, ecoOut: set<Id>, nextBatch: Id, nextMovement: Id)

  /** An action, and whether it restores an archived batch. */
  datatype Entry = Entry(action: Action, restore: bool)

  datatype Document = Document(entries: seq<Entry>, outcomes: seq<Outcome>,
                               releases: seq<Release>, preserved: seq<Id>)

  datatype Change = Change(index: nat, id: Id, receipt: bool, before: Kg, after: Kg) {
    function Delta(): Kg { after - before }
  }

  datatype Failure = BatchMissing | NotRestorable | ItemMissing | ReservationDrift | Unacceptable | Conflict

  function Abs(x: int): int { if x < 0 then -x else x }

  // ----- handlers -----

  function Book(st: Stock, id: Id, kind: Kind, kg: Kg, restored: bool): Stock
  {
    if kg == 0 then st
    else st.(movements := st.movements[st.nextMovement := Movement(Some(id), kind, kg, restored)],
             nextMovement := st.nextMovement + 1)
  }

  function Revised(b: Batch, v: Values): Batch
  {
    var w := Written(b, v);
    w.(archived := b.archived || w.quantity == 0)
  }

  function Revise(st: Stock, id: Id, v: Values): Stock
    requires id in st.batches
  {
    var b := st.batches[id];
    var n := Revised(b, v);
    Book(st.(batches := st.batches[id := n]), id,
         if n.quantity < b.quantity then Issue else Adjustment, Abs(n.quantity - b.quantity), false)
  }

  function Restored(b: Batch, v: Values): Batch
  {
    b.(quantity := if v.quantity.Some? then v.quantity.value else b.quantity,
       pieceCount := if v.pieceCount.Some? then v.pieceCount.value else b.pieceCount, archived := false, rollLengths := [])
  }

  function Restore(st: Stock, id: Id, v: Values): Stock
    requires id in st.batches
  {
    var b := st.batches[id];
    var n := Restored(b, v);
    Book(st.(batches := st.batches[id := n]), id, Return, Abs(n.quantity - b.quantity), true)
  }

  function Arrived(a: Action, id: Id, item: int): Batch
    requires a.Receive?
  {
    Received(a).(id := id, itemId := item)
  }

  function Accept(st: Stock, a: Action, item: int): Stock
    requires a.Receive?
  {
    Book(st.(batches := st.batches[st.nextBatch := Arrived(a, st.nextBatch, item)], nextBatch := st.nextBatch + 1),
         st.nextBatch, Receipt, Abs(a.quantity), false)
  }

  /** What is outstanding is released; with nothing consumed or released it ends as consumed. */
  function Free(r: Reservation): Reservation
  {
    var released := if r.Outstanding() > 0 then r.released + r.Outstanding() else r.released;
    r.(released := released, status := if released > 0 then Released else Consumed)
  }

  // ----- execute -----

  /** The item a receipt goes to; items for new fabrics were created beforehand. */
  function ItemOf(item: ItemRef, created: map<string, int>): Option<int>
  {
    match item
    case Item(id) => Some(id)
    case NewItem(f) => if f in created then Some(created[f]) else None
  }

  function ReleaseStep(st: Stock, f: Release): Result<Stock, Failure>
  {
    if f.id in st.reservations && st.reservations[f.id].Live() && st.reservations[f.id].batchId == Some(f.batchId)
       && st.reservations[f.id].consumed == f.consumed
    then Ok(st.(reservations := st.reservations[f.id := Free(st.reservations[f.id])]))
    else Err(ReservationDrift)
  }

  function ReleaseRun(st: Stock, releases: seq<Release>): Result<Stock, Failure>
  {
    if releases == [] then Ok(st)
    else
      match ReleaseRun(st, releases[..|releases| - 1])
      case Err(e) => Err(e)
      case Ok(mid) => ReleaseStep(mid, releases[|releases| - 1])
  }

  /** The largest weight a request may state. */
  const MAX_KG := 99_999_999_999_999

  predicate Within(kg: Kg) { 0 <= kg <= MAX_KG }

  /** What the request types of the handlers accept: receipts and restorations bring something,
      corrected weights and counts are not negative. */
  predicate Acceptable(e: Entry)
  {
    match e.action
    case Update(_, _, v) =>
      && (v.quantity.Some? ==> Within(v.quantity.value))
      && (e.restore && v.quantity.Some? ==> v.quantity.value > 0)
      && (v.pieceCount.Some? && v.pieceCount.value.Some? ==> v.pieceCount.value.value >= 0)
    case Receive(_, _, quantity, _, _, _, _, _, _, _) => quantity > 0 && Within(quantity)
  }

  /** What the live reservations of a batch hold. */
  ghost function Holding(st: Stock, id: Id): map<Id, Kg>
  {
    map r | r in st.reservations && st.reservations[r].Live() && st.reservations[r].batchId == Some(id) :: st.reservations[r].Outstanding()
  }

  /** The weight the batch would be left with. */
  function LeftKg(b: Batch, v: Values): Kg { if v.quantity.Some? then v.quantity.value else b.quantity }

  /** The handlers refuse a weight below what is held, another count against recorded lengths,
      and any change while fabric is out; a restoration drops the lengths. */
  ghost predicate Conflicts(st: Stock, id: Id, v: Values, restore: bool)
    requires id in st.batches
  {
    var b := st.batches[id];
    id in st.ecoOut || LeftKg(b, v) < 0 || LeftKg(b, v) < Total(Holding(st, id)) ||
    (!restore && b.rollLengths != [] && v.pieceCount.Some? && v.pieceCount.value != b.pieceCount)
  }

  ghost function EntryStep(st: Stock, index: nat, e: Entry, created: map<string, int>): Result<(Stock, Change), Failure>
  {
    match e.action
    case Update(_, id, v) =>
      if id !in st.batches then Err(BatchMissing)
      else if !Acceptable(e) then Err(Unacceptable)
      else if e.restore then
        if st.batches[id].quantity != 0 || !st.batches[id].archived || v.quantity.None? || v.pieceCount.None? then Err(NotRestorable)
        else if Conflicts(st, id, v, true) then Err(Conflict)
        else
          var next := Restore(st, id, v);
          Ok((next, Change(index, id, false, st.batches[id].quantity, next.batches[id].quantity)))
      else if Conflicts(st, id, v, false) then Err(Conflict)
      else
        var next := Revise(st, id, v);
        Ok((next, Change(index, id, false, st.batches[id].quantity, next.batches[id].quantity)))
    case Receive(_, item, _, _, _, _, _, _, _, _) =>
      match ItemOf(item, created)
      case None => Err(ItemMissing)
      case Some(i) =>
        if !Acceptable(e) then Err(Unacceptable)
        else Ok((Accept(st, e.action, i), Change(index, st.nextBatch, true, 0, e.action.quantity)))
  }

  ghost function EntryRun(st: Stock, entries: seq<Entry>, created: map<string, int>): Result<(Stock, seq<Change>), Failure>
  {
    if entries == [] then Ok((st, []))
    else
      var l := |entries| - 1;
      match EntryRun(st, entries[..l], created)
      case Err(e) => Err(e)
      case Ok((mid, changes)) =>
        match EntryStep(mid, l, entries[l], created)
        case Err(e) => Err(e)
        case Ok((next, c)) => Ok((next, changes + [c]))
  }

  ghost function Execute(st: Stock, plan: Document, created: map<string, int>): Result<(Stock, seq<Change>), Failure>
  {
    match ReleaseRun(st, plan.releases)
    case Err(e) => Err(e)
    case Ok(mid) => EntryRun(mid, plan.entries, created)
  }

  // ----- verify -----

  /** Only the listed fields may differ from the old row. */
  predicate Protected(o: Batch, n: Batch, e: Entry)
    requires e.action.Update?
  {
    var v := e.action.values;
    n == o.(quantity := if v.quantity.Some? then n.quantity else o.quantity,
            pieceCount := if v.pieceCount.Some? then n.pieceCount else o.pieceCount,
            color := if v.color.Some? then n.color else o.color,
            colorCode := if v.colorCode.Some? then n.colorCode else o.colorCode,
            archived := if v.quantity == Some(0) || e.restore then n.archived else o.archived,
            rollLengths := if e.restore then n.rollLengths else o.rollLengths)
  }

  /** The row holds what the action asked for. */
  predicate Done(e: Entry, n: Batch, created: map<string, int>)
  {
    && (match e.action
        case Update(_, _, v) =>
          && (v.quantity.Some? ==> n.quantity == v.quantity.value)
          && (v.pieceCount.Some? ==> n.pieceCount == v.pieceCount.value)
          && (v.color.Some? ==> n.color == v.color)
          && (v.colorCode.Some? ==> n.colorCode == v.colorCode)
          && (e.restore ==> !n.archived)
        case Receive(_, item, quantity, pieceCount, supplier, batchNo, color, colorCode, _, cost) =>
          && n.quantity == quantity && n.pieceCount == pieceCount
          && n.supplier == supplier && n.batchNo == batchNo
          && Some(n.itemId) == ItemOf(item, created) && n.cost == cost
          && n.color == color && n.colorCode == colorCode && n.rollLengths == [])
    && (n.quantity == 0 ==> n.archived)
  }

  function Added(before: Stock, after: Stock): set<Id> { after.movements.Keys - before.movements.Keys }

  function AddedTo(before: Stock, after: Stock, id: Id): set<Id>
  {
    set m | m in Added(before, after) && after.movements[m].batchId == Some(id)
  }

  function KindFor(c: Change, e: Entry): Kind
  {
    if e.restore then Return else if c.receipt then Receipt else if c.Delta() < 0 then Issue else Adjustment
  }

  /** One movement of the weight difference for a change that has one, none otherwise. */
  predicate Booked(before: Stock, after: Stock, c: Change, e: Entry)
  {
    var ms := AddedTo(before, after, c.id);
    if c.Delta() == 0 then ms == {}
    else |ms| == 1 && forall m :: m in ms ==>
      && after.movements[m].quantity == Abs(c.Delta())
      && after.movements[m].kind == KindFor(c, e)
      && (e.restore ==> after.movements[m].restored)
  }

  function Moving(changes: seq<Change>): nat
  {
    if changes == [] then 0
    else Moving(changes[..|changes| - 1]) + if changes[|changes| - 1].Delta() != 0 then 1 else 0
  }

  function Receipts(changes: seq<Change>): nat
  {
    if changes == [] then 0
    else Receipts(changes[..|changes| - 1]) + if changes[|changes| - 1].receipt then 1 else 0
  }

  function DeltaSum(changes: seq<Change>): Kg
  {
    if changes == [] then 0 else DeltaSum(changes[..|changes| - 1]) + changes[|changes| - 1].Delta()
  }

  ghost function Weights(batches: map<Id, Batch>): map<Id, Kg> { map id | id in batches :: batches[id].quantity }

  function Ids(changes: seq<Change>): (r: seq<Id>)
    ensures |r| == |changes| && forall i :: 0 <= i < |r| ==> r[i] == changes[i].id
  {
    seq(|changes|, i requires 0 <= i < |changes| => changes[i].id)
  }

  ghost predicate RowsAudited(before: Stock, after: Stock, plan: Document, changes: seq<Change>, created: map<string, int>)
  {
    && Distinct(Ids(changes))
    && before.batches.Keys <= after.batches.Keys
    && (forall c :: c in changes ==> c.index < |plan.entries| && c.id in after.batches)
    && (forall id :: id in before.batches && id !in Ids(changes) ==> after.batches[id] == before.batches[id])
    && (forall c :: c in changes && c.id in before.batches ==>
          plan.entries[c.index].action.Update? && Protected(before.batches[c.id], after.batches[c.id], plan.entries[c.index]))
    && (forall c :: c in changes ==> Done(plan.entries[c.index], after.batches[c.id], created))
    && |after.batches| - |before.batches| == Receipts(changes)
  }

  ghost predicate BatchesAudited(before: Stock, after: Stock, plan: Document, changes: seq<Change>, created: map<string, int>)
  {
    && RowsAudited(before, after, plan, changes, created)
    && (forall id :: id in plan.preserved ==> id in before.batches && after.batches[id] == before.batches[id])
  }

  ghost predicate MovementsAudited(before: Stock, after: Stock, plan: Document, changes: seq<Change>)
    requires forall c :: c in changes ==> c.index < |plan.entries|
  {
    && (forall m :: m in before.movements ==> m in after.movements && after.movements[m] == before.movements[m])
    && (forall c :: c in changes ==> Booked(before, after, c, plan.entries[c.index]))
    && |Added(before, after)| == Moving(changes)
  }

  ghost predicate ReservationsAudited(before: Stock, after: Stock, plan: Document)
  {
    && before.reservations.Keys <= after.reservations.Keys
    && (forall id :: id in before.reservations && (forall f :: f in plan.releases ==> f.id != id) ==>
          after.reservations[id] == before.reservations[id])
    && (forall f :: f in plan.releases && f.id in before.reservations ==>
          var o := before.reservations[f.id];
          after.reservations[f.id] == o.(released := o.released + f.remaining, status := Released))
    && (forall id :: id in after.reservations && after.reservations[id].Live() ==> HeldWithin(after, after.reservations[id]))
  }

  /** The batch a reservation holds stock of has at least the outstanding weight. */
  predicate HeldWithin(st: Stock, r: Reservation)
  {
    r.batchId.Some? && r.batchId.value in st.batches && r.Outstanding() <= st.batches[r.batchId.value].quantity
  }

  /** The group weighs its target; its rolls are only compared when every one is counted. */
  ghost predicate TargetAudited(after: Stock, o: Outcome)
  {
    o.sources != [] &&
    var k := RowKey(o.sources[0]);
    && Total(GroupMap(after.batches, k, KG)) == o.target
    && (o.targetRolls >= 0 && AllCounted(after.batches, k) ==> 10000 * Total(GroupMap(after.batches, k, ROLLS)) == o.targetRolls)
  }

  ghost predicate TargetsAudited(after: Stock, plan: Document) { forall o :: o in plan.outcomes ==> TargetAudited(after, o) }

  ghost predicate TotalAudited(before: Stock, after: Stock, changes: seq<Change>)
  {
    Total(Weights(after.batches)) - Total(Weights(before.batches)) == DeltaSum(changes)
  }

  /** Every check of the audit. */
  ghost predicate Accepted(before: Stock, after: Stock, plan: Document, changes: seq<Change>, created: map<string, int>)
  {
    && BatchesAudited(before, after, plan, changes, created)
    && MovementsAudited(before, after, plan, changes)
    && ReservationsAudited(before, after, plan)
    && TargetsAudited(after, plan)
    && TotalAudited(before, after, changes)
  }
}
