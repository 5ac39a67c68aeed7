/** Planning of the fabric reconciliation: workbook rows and a stock snapshot
    become batch updates, receipts and reservation releases.
    Functions give the meaning of each loop; class `Planner` (FabricPlanner.dfy)
    runs the loops. */
module FabricPlan {
  import opened Base

  /** Kilograms, and roll counts, in ten-thousandths. */
  type Kg = int

  /** Primary keys. */
  type Id = nat

  datatype Batch = Batch(
    id: Id, itemId: int, supplier: Option<int>, batchNo: string,
    quantity: Kg, pieceCount: Option<int>, color: Option<string>, colorCode: Option<string>,
    archived: bool, warehouse: int, unit: string, rollLengths: seq<int>, cost: Kg)

  datatype Status = Reserved | PartlyConsumed | Consumed | Released | Cancelled

  datatype Reservation = Reservation(
    id: Id, batchId: Option<Id>, reserved: Kg, consumed: Kg, released: Kg, status: Status) {

    function Outstanding(): Kg { reserved - consumed - released }

    predicate Live() { status == Reserved || status == PartlyConsumed }

    predicate Listed() { Live() && reserved > consumed + released }
  }

  datatype Row = Row(
    supplier: Option<int>, batchNo: string, fabric: string, itemId: Option<int>,
    color: string, colorCode: string, date: Option<string>,
    kg: Kg, rolls: Kg, missing: bool)

  /** `ecoOut`: batches with fabric still out at an Eco contractor. */
  datatype Snapshot = Snapshot(
    batches: seq<Batch>, reservations: seq<Reservation>, ecoOut: set<Id>, names: map<string, int>)

  /** An existing item, or the item to be created for an unknown fabric name. */
  datatype ItemRef = Item(id: int) | NewItem(fabric: string)

  datatype Values = Values(
    quantity: Option<Kg>, pieceCount: Option<Option<int>>, color: Option<string>, colorCode: Option<string>)

  datatype Action =
    | Update(ref: nat, id: Id, values: Values)
    | Receive(ref: nat, item: ItemRef, quantity: Kg, pieceCount: Option<int>, supplier: Option<int>,
              batchNo: string, color: Option<string>, colorCode: Option<string>, date: Option<string>, cost: Kg)

  datatype Outcome = Outcome(ref: nat, target: Kg, targetRolls: Kg, sources: seq<Row>)

  datatype Release = Release(id: Id, batchId: Id, ref: nat, remaining: Kg, consumed: Kg)

  datatype Reason = MissingOrNegativeKg | MissingBatchNo | MissingMaterial | InvalidRollCount

  datatype Error = ForeignBatch | BelowReservation | RecordedLengths | EcoFabricOut | RepeatedUpdate

  datatype State = State(
    actions: seq<Action>, outcomes: seq<Outcome>, exceptions: seq<(nat, Reason)>, releases: map<Id, Release>)

  type GroupKey = (Option<int>, string)
  type SegmentKey = (ItemRef, string, string)
  type Sourced = (Row, ItemRef)

  // ----- normalisers -----

  function Upper(c: char): char { if 'a' <= c <= 'z' then c - 'a' + 'A' else c }

  /** Upper case without any white space. */
  function Key(s: string): string
  {
    if s == "" then ""
    else if IsSpace(s[0]) then Key(s[1..])
    else [Upper(s[0])] + Key(s[1..])
  }

  /** Character by character: white space goes, the rest is put in upper case. */
  lemma {:induction false} KeyJoins(a: string, b: string)
    ensures Key(a + b) == Key(a) + Key(b)
    ensures |b| == 1 ==> Key(b) == if IsSpace(b[0]) then "" else [Upper(b[0])]
  {
    hide IsSpace, Upper;
    if a == "" {
      assert a + b == b;
    } else {
      KeyJoins(a[1..], b);
      assert (a + b)[1..] == a[1..] + b;
    }
    if |b| == 1 { assert Key(b[1..]) == ""; }
  }

  function OptKey(s: Option<string>): string { if s.Some? then Key(s.value) else "" }

  function RowKey(r: Row): GroupKey { (r.supplier, Key(r.batchNo)) }

  function BatchKey(b: Batch): GroupKey { (b.supplier, Key(b.batchNo)) }

  function ReceiveKey(a: Action): GroupKey requires a.Receive? { (a.supplier, Key(a.batchNo)) }

  function SegKey(p: Sourced): SegmentKey { (p.1, Key(p.0.color), Key(p.0.colorCode)) }

  predicate HasKg(r: Row) { r.kg > 0 }
  predicate Stocked(b: Batch) { b.quantity > 0 }

  function RowKg(r: Row): Kg { r.kg }
  function RowRolls(r: Row): Kg { r.rolls }
  function PairKg(p: Sourced): Kg { p.0.kg }
  function PairRolls(p: Sourced): Kg { p.0.rolls }
  function HeldKg(r: Reservation): Kg { r.Outstanding() }

  // ----- the parts of one group -----

  function Existing(s: Snapshot, k: GroupKey): seq<Batch> { IndexBy(s.batches, BatchKey).Get(k) }

  function Active(s: Snapshot, k: GroupKey): seq<Batch> { Filter(Stocked, Existing(s, k)) }

  function ListedOn(s: Snapshot, id: Id): seq<Reservation>
  {
    Filter((r: Reservation) => r.Listed() && r.batchId == Some(id), s.reservations)
  }

  function NeedsIdentity(r: Row): bool { r.fabric == "" || Key(r.fabric) == ",,," || Key(r.fabric) == "BEYAZKASAR" }

  /** The single item shared by all the given batches, if there is exactly one. */
  function SoleItem(batches: seq<Batch>): Option<ItemRef>
  {
    if batches != [] && forall b :: b in batches ==> b.itemId == batches[0].itemId
    then Some(Item(batches[0].itemId)) else None
  }

  function ResolveRow(s: Snapshot, k: GroupKey, r: Row): Option<ItemRef>
  {
    if NeedsIdentity(r) then
      SoleItem(if Active(s, k) != [] then Active(s, k) else Existing(s, k))
    else if r.itemId.Some? && r.itemId.value != 0 then Some(Item(r.itemId.value))
    else if Key(r.fabric) in s.names then Some(Item(s.names[Key(r.fabric)]))
    else Some(NewItem(r.fabric))
  }

  /** All rows with their items, or nothing when one of them has none. */
  function Resolve(s: Snapshot, k: GroupKey, rows: seq<Row>): Option<seq<Sourced>>
  {
    if rows == [] then Some([])
    else
      var l := |rows| - 1;
      match (Resolve(s, k, rows[..l]), ResolveRow(s, k, rows[l]))
      case (Some(pairs), Some(item)) => Some(pairs + [(rows[l], item)])
      case _ => None
  }

  function Positive(rows: seq<Row>): seq<Row> { Filter(HasKg, rows) }

  // ----- one batch update -----

  const NoValues := Values(None, None, None, None)

  /** Only the values that differ from what the batch already holds. */
  function Changed(b: Batch, v: Values): Values
  {
    Values(if v.quantity == Some(b.quantity) then None else v.quantity,
           if v.pieceCount == Some(b.pieceCount) then None else v.pieceCount,
           if v.color == b.color then None else v.color,
           if v.colorCode == b.colorCode then None else v.colorCode)
  }

  function ReleaseAll(releases: map<Id, Release>, held: seq<Reservation>, ref: nat, id: Id): map<Id, Release>
  {
    if held == [] then releases
    else
      var r := held[|held| - 1];
      ReleaseAll(releases, held[..|held| - 1], ref, id)[r.id := Release(r.id, id, ref, r.Outstanding(), r.consumed)]
  }

  function UpdateStep(s: Snapshot, st: State, ref: nat, b: Batch, wanted: Values): Result<State, Error>
  {
    var v := Changed(b, wanted);
    var held := ListedOn(s, b.id);
    var below := v.quantity.Some? && v.quantity.value < SumOf(held, HeldKg);
    if v == NoValues then Ok(st)
    else if b.warehouse != 1 || b.unit != "kg" then Err(ForeignBatch)
    else if below && v.quantity.value != 0 then Err(BelowReservation)
    else if v.pieceCount.Some? && b.rollLengths != [] then Err(RecordedLengths)
    else if b.id in s.ecoOut then Err(EcoFabricOut)
    else Ok(st.(actions := st.actions + [Update(ref, b.id, v)],
                releases := if below then ReleaseAll(st.releases, held, ref, b.id) else st.releases))
  }

  type Job = (Batch, Values)

  function UpdateAll(s: Snapshot, st: State, ref: nat, jobs: seq<Job>): Result<State, Error>
  {
    if jobs == [] then Ok(st)
    else
      var l := |jobs| - 1;
      match UpdateAll(s, st, ref, jobs[..l])
      case Err(e) => Err(e)
      case Ok(mid) => UpdateStep(s, mid, ref, jobs[l].0, jobs[l].1)
  }

  // ----- distributing the segments of a group over its batches -----

  function WholeRolls(rolls: Kg): Option<int>
  {
    if rolls >= 0 && rolls % 10000 == 0 then Some(rolls / 10000) else None
  }

  predicate Candidate(b: Batch, used: set<Id>, item: ItemRef)
  {
    b.id !in used && Item(b.itemId) == item && !b.archived
  }

  predicate SameColour(b: Batch, k: SegmentKey) { OptKey(b.color) == k.1 && OptKey(b.colorCode) == k.2 }

  /** `a` sorts before `b`: same colour first, then the exact weight, then the newest batch. */
  predicate Preferred(a: Batch, b: Batch, k: SegmentKey, qty: Kg)
  {
    if SameColour(a, k) != SameColour(b, k) then SameColour(a, k)
    else if (a.quantity == qty) != (b.quantity == qty) then a.quantity == qty
    else a.id > b.id
  }

  /** The best candidate among `active`, if any. */
  function Choose(active: seq<Batch>, used: set<Id>, k: SegmentKey, qty: Kg): Option<Batch>
  {
    if active == [] then None
    else
      var l := |active| - 1;
      var best := Choose(active[..l], used, k, qty);
      if Candidate(active[l], used, k.0) && (best.None? || Preferred(active[l], best.value, k, qty))
      then Some(active[l]) else best
  }

  datatype Draft = Draft(st: State, used: set<Id>, planned: seq<Job>)

  function NonEmpty(s: string): Option<string> { if s == "" then None else Some(s) }

  function AssignStep(s: Snapshot, d: Draft, ref: nat, g: GroupKey, k: SegmentKey, src: seq<Sourced>): Draft
    requires src != []
  {
    var active := Active(s, g);
    var qty, count, first := SumOf(src, PairKg), WholeRolls(SumOf(src, PairRolls)), src[0].0;
    var st := if count.None? then d.st.(exceptions := d.st.exceptions + [(ref, InvalidRollCount)]) else d.st;
    match Choose(active, d.used, k, qty)
    case Some(b) =>
      Draft(st, d.used + {b.id},
            d.planned + [(b, Values(Some(qty), Some(count), NonEmpty(first.color), NonEmpty(first.colorCode)))])
    case None =>
      var cost := if |active| == 1 then active[0].cost else 0;
      d.(st := st.(actions := st.actions + [Receive(ref, k.0, qty, count, g.0, first.batchNo,
           NonEmpty(first.color), NonEmpty(first.colorCode), first.date, cost)]))
  }

  function AssignAll(s: Snapshot, st: State, ref: nat, g: GroupKey,
                     segments: Index<SegmentKey, Sourced>, keys: seq<SegmentKey>): Draft
    requires segments.Valid() && forall k :: k in keys ==> k in segments.at
  {
    if keys == [] then Draft(st, {}, [])
    else
      var l := |keys| - 1;
      AssignStep(s, AssignAll(s, st, ref, g, segments, keys[..l]), ref, g, keys[l], segments.at[keys[l]])
  }

  // ----- one supplier/batch group, and the whole plan -----

  function Zeroing(active: seq<Batch>, used: set<Id>): seq<Job>
  {
    if active == [] then []
    else
      var l := |active| - 1;
      var rest := Zeroing(active[..l], used);
      if active[l].id in used then rest else rest + [(active[l], Values(Some(0), Some(Some(0)), None, None))]
  }

  predicate BadKg(src: seq<Row>) { SumOf(src, RowKg) < 0 || exists r :: r in src && (r.missing || r.kg < 0) }

  /** Why a group is left alone, if it is. */
  function StopReason(s: Snapshot, g: GroupKey, src: seq<Row>): Option<Reason>
  {
    if BadKg(src) then Some(MissingOrNegativeKg)
    else if g.1 == "" && SumOf(src, RowKg) > 0 then Some(MissingBatchNo)
    else if Resolve(s, g, Positive(src)).None? then Some(MissingMaterial)
    else None
  }

  function Segments(s: Snapshot, g: GroupKey, src: seq<Row>): Index<SegmentKey, Sourced>
    requires Resolve(s, g, Positive(src)).Some?
  {
    IndexBy(Resolve(s, g, Positive(src)).value, SegKey)
  }

  function GroupStep(s: Snapshot, st: State, ref: nat, g: GroupKey, src: seq<Row>): Result<State, Error>
  {
    match StopReason(s, g, src)
    case Some(reason) => Ok(st.(exceptions := st.exceptions + [(ref, reason)]))
    case None =>
      var segments := Segments(s, g, src);
      var draft := AssignAll(s, st, ref, g, segments, segments.keys);
      match UpdateAll(s, draft.st, ref, Zeroing(Active(s, g), draft.used))
      case Err(e) => Err(e)
      case Ok(mid) =>
        match UpdateAll(s, mid, ref, draft.planned)
        case Err(e) => Err(e)
        case Ok(done) =>
          Ok(done.(outcomes := done.outcomes +
            [Outcome(ref, SumOf(src, RowKg), SumOf(Positive(src), RowRolls), src)]))
  }

  const Start := State([], [], [], map[])

  function PlanGroups(s: Snapshot, groups: Index<GroupKey, Row>, keys: seq<GroupKey>): Result<State, Error>
  {
    if keys == [] then Ok(Start)
    else
      var l := |keys| - 1;
      match PlanGroups(s, groups, keys[..l])
      case Err(e) => Err(e)
      case Ok(st) => GroupStep(s, st, l + 1, keys[l], groups.Get(keys[l]))
  }

  function Groups(rows: seq<Row>): Index<GroupKey, Row> { IndexBy(rows, RowKey) }

  function Plan(s: Snapshot, rows: seq<Row>): Result<State, Error> { PlanGroups(s, Groups(rows), Groups(rows).keys) }
}
