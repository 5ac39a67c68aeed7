/** What a plan does with each row: the item its kilograms go to, the receipts and updates that
    carry them, and when planning fails. */
module FabricActions {
  import opened Base
  import opened FabricPlan
  import opened FabricConservation

  // ----- the item a row names -----

  /** A stocked batch of the group, or any of its batches when none has stock. */
  ghost predicate Serves(s: Snapshot, g: GroupKey, b: Batch)
  {
    b in s.batches && BatchKey(b) == g && (b.quantity > 0 || forall c :: c in s.batches && BatchKey(c) == g ==> c.quantity <= 0)
  }

  /** A row names its item id, else the item of its fabric name, else an item to be created;
      a row without a fabric name means the one item of the serving batches. */
  ghost predicate NamesItem(s: Snapshot, g: GroupKey, r: Row, item: ItemRef)
  {
    if r.fabric == "" || Key(r.fabric) == ",,," || Key(r.fabric) == "BEYAZKASAR" then
      (exists b :: Serves(s, g, b)) && forall b :: Serves(s, g, b) ==> item == Item(b.itemId)
    else if r.itemId.Some? && r.itemId.value != 0 then item == Item(r.itemId.value)
    else if Key(r.fabric) in s.names then item == Item(s.names[Key(r.fabric)])
    else item == NewItem(r.fabric)
  }

  lemma {:induction false} ServingAre(s: Snapshot, g: GroupKey)
    ensures var serving := if Active(s, g) != [] then Active(s, g) else Existing(s, g);
      forall b :: b in serving <==> Serves(s, g, b)
  {
    IndexMembers(s.batches, BatchKey, g);
    var active, existing := Active(s, g), Existing(s, g);
    assert forall b :: b in active <==> b in existing && b.quantity > 0;
    hide Active, Existing;
    if active != [] {
      assert active[0] in active;
    } else {
      forall b | b in existing ensures b.quantity <= 0 { assert b !in active; }
    }
  }

  lemma {:induction false} SoleItemIs(batches: seq<Batch>, item: ItemRef)
    ensures SoleItem(batches) == Some(item) <==> batches != [] && forall b :: b in batches ==> item == Item(b.itemId)
  {
    if batches != [] { assert batches[0] in batches; }
  }

  lemma {:induction false} ResolvesTo(s: Snapshot, g: GroupKey, r: Row, item: ItemRef)
    ensures ResolveRow(s, g, r) == Some(item) <==> NamesItem(s, g, r, item)
  {
    var serving := if Active(s, g) != [] then Active(s, g) else Existing(s, g);
    ServingAre(s, g);
    SoleItemIs(serving, item);
    hide Serves, SoleItem, Active, Existing, Key;
    if serving != [] { assert Serves(s, g, serving[0]); }
    assert NeedsIdentity(r) ==> ResolveRow(s, g, r) == SoleItem(serving);
  }

  lemma {:induction false} ResolvedAll(s: Snapshot, g: GroupKey, rows: seq<Row>)
    ensures Resolve(s, g, rows).Some? <==> forall r :: r in rows ==> ResolveRow(s, g, r).Some?
  {
    hide ResolveRow;
    if rows != [] {
      ResolvedAll(s, g, rows[..|rows| - 1]);
      assert forall r :: r in rows <==> r in rows[..|rows| - 1] || r == rows[|rows| - 1];
    }
  }

  lemma {:induction false} NamesSome(s: Snapshot, g: GroupKey, r: Row)
    ensures ResolveRow(s, g, r).Some? <==> exists item :: NamesItem(s, g, r, item)
  {
    forall item { ResolvesTo(s, g, r, item); }
    hide ResolveRow, NamesItem;
    if ResolveRow(s, g, r).Some? { assert NamesItem(s, g, r, ResolveRow(s, g, r).value); }
  }

  /** A group is stopped for a missing or negative weight of a row or in total; else for stock
      without a batch number; else for a row with stock that names no item; and for nothing else. */
  lemma {:induction false} StopsExactly(s: Snapshot, g: GroupKey, src: seq<Row>)
    ensures var badKg := SumOf(src, RowKg) < 0 || exists r :: r in src && (r.missing || r.kg < 0);
      var noBatch := g.1 == "" && SumOf(src, RowKg) > 0;
      var noItem := exists r :: r in src && r.kg > 0 && forall item :: !NamesItem(s, g, r, item);
      && (StopReason(s, g, src).Some? <==> badKg || noBatch || noItem)
      && (StopReason(s, g, src) == Some(MissingOrNegativeKg) <==> badKg)
      && (StopReason(s, g, src) == Some(MissingBatchNo) <==> !badKg && noBatch)
  {
    ResolvedAll(s, g, Positive(src));
    assert forall r :: r in Positive(src) <==> r in src && r.kg > 0;
    hide Resolve, Positive, NamesItem, ResolveRow, SumOf;
    forall r { NamesSome(s, g, r); }
  }

  // ----- the batch a segment takes -----

  /** The batch chosen for a segment is free, of its item and not archived; it has the colour
      and colour code of the segment if any such batch has, among equals the exact weight if
      any has, and then the greatest id. */
  lemma {:induction false} ChosenIs(active: seq<Batch>, used: set<Id>, k: SegmentKey, qty: Kg, c: Batch, b: Batch)
    requires Choose(active, used, k, qty) == Some(c)
    requires b in active && b.id !in used && Item(b.itemId) == k.0 && !b.archived
    ensures c in active && c.id !in used && Item(c.itemId) == k.0 && !c.archived
    ensures var alike, cAlike := OptKey(b.color) == k.1 && OptKey(b.colorCode) == k.2, OptKey(c.color) == k.1 && OptKey(c.colorCode) == k.2;
      && (alike ==> cAlike)
      && (alike == cAlike && b.quantity == qty ==> c.quantity == qty)
      && (alike == cAlike && (b.quantity == qty <==> c.quantity == qty) ==> b.id <= c.id)
  {
    ChooseBest(active, used, k, qty);
    hide Choose, OptKey;
  }

  lemma {:induction false} NoneChosen(active: seq<Batch>, used: set<Id>, k: SegmentKey, qty: Kg)
    ensures Choose(active, used, k, qty).None? <==> forall b :: b in active ==> b.id in used || Item(b.itemId) != k.0 || b.archived
  {
    ChooseBest(active, used, k, qty);
    hide Choose, Preferred;
  }

  // ----- the rows of a segment -----

  /** The rows with stock that name the item and have the colour and the colour code. */
  ghost function PartOf(s: Snapshot, g: GroupKey, k: SegmentKey): Row -> bool
  {
    (r: Row) => r.kg > 0 && NamesItem(s, g, r, k.0) && Key(r.color) == k.1 && Key(r.colorCode) == k.2
  }

  ghost function Part(s: Snapshot, g: GroupKey, src: seq<Row>, k: SegmentKey): seq<Row> { Filter(PartOf(s, g, k), src) }

  function RowsOf(pairs: seq<Sourced>): (r: seq<Row>)
    ensures |r| == |pairs| && forall i :: 0 <= i < |r| ==> r[i] == pairs[i].0
  {
    seq(|pairs|, i requires 0 <= i < |pairs| => pairs[i].0)
  }

  lemma {:induction false} RowSums(pairs: seq<Sourced>)
    ensures SumOf(pairs, PairKg) == SumOf(RowsOf(pairs), RowKg) && SumOf(pairs, PairRolls) == SumOf(RowsOf(pairs), RowRolls)
  {
    if pairs != [] {
      var l := |pairs| - 1;
      RowSums(pairs[..l]);
      assert RowsOf(pairs)[..l] == RowsOf(pairs[..l]);
    }
  }

  function IsSegment(k: SegmentKey): Sourced -> bool { (p: Sourced) => SegKey(p) == k }

  lemma {:induction false} PositiveAppend(rows: seq<Row>, r: Row)
    ensures Positive(rows + [r]) == Positive(rows) + if r.kg > 0 then [r] else []
  {
    FilterAppend(HasKg, rows, r);
    assert Positive(rows) + [] == Positive(rows);
  }

  lemma {:induction false} ResolveAppend(s: Snapshot, g: GroupKey, rows: seq<Row>, r: Row)
    ensures Resolve(s, g, rows + [r]).Some? <==> Resolve(s, g, rows).Some? && ResolveRow(s, g, r).Some?
    ensures Resolve(s, g, rows + [r]).Some? ==> Resolve(s, g, rows + [r]).value == Resolve(s, g, rows).value + [(r, ResolveRow(s, g, r).value)]
  {
    hide ResolveRow;
    assert (rows + [r])[..|rows|] == rows;
  }

  /** The resolved rows of one segment, in order, are the part of the input with its key. */
  lemma {:induction false} FilteredPart(s: Snapshot, g: GroupKey, src: seq<Row>, k: SegmentKey)
    requires Resolve(s, g, Positive(src)).Some?
    ensures RowsOf(Filter(IsSegment(k), Resolve(s, g, Positive(src)).value)) == Part(s, g, src, k)
  {
    if src == [] {
      assert Positive(src) == [];
    } else {
      var l := |src| - 1;
      var r := src[l];
      assert src == src[..l] + [r];
      PositiveAppend(src[..l], r);
      ResolveAppend(s, g, Positive(src[..l]), r);
      FilterAppend(PartOf(s, g, k), src[..l], r);
      hide Positive, Resolve, ResolveRow, NamesItem, Filter, Key;
      if r.kg > 0 {
        var before, pair := Resolve(s, g, Positive(src[..l])).value, (r, ResolveRow(s, g, r).value);
        FilteredPart(s, g, src[..l], k);
        FilterAppend(IsSegment(k), before, pair);
        NamesOne(s, g, r, pair.1, k.0);
        RowsAppend(Filter(IsSegment(k), before), pair);
      } else {
        FilteredPart(s, g, src[..l], k);
        assert Positive(src[..l]) + [] == Positive(src[..l]);
      }
    }
  }

  lemma {:induction false} RowsAppend(pairs: seq<Sourced>, p: Sourced)
    ensures RowsOf(pairs + [p]) == RowsOf(pairs) + [p.0]
  {
  }

  lemma {:induction false} NamesOne(s: Snapshot, g: GroupKey, r: Row, item: ItemRef, other: ItemRef)
    requires ResolveRow(s, g, r) == Some(item)
    ensures NamesItem(s, g, r, other) <==> item == other
  {
    ResolvesTo(s, g, r, item);
    ResolvesTo(s, g, r, other);
    hide ResolveRow, NamesItem;
  }

  lemma {:induction false} SegmentIs(s: Snapshot, g: GroupKey, src: seq<Row>, k: SegmentKey)
    requires StopReason(s, g, src).None? && k in Segments(s, g, src).at
    ensures var part := Part(s, g, src, k);
      && part != [] && RowsOf(Segments(s, g, src).at[k]) == part
      && SumOf(Segments(s, g, src).at[k], PairKg) == SumOf(part, RowKg) && SumOf(Segments(s, g, src).at[k], PairRolls) == SumOf(part, RowRolls)
  {
    var pairs := Resolve(s, g, Positive(src)).value;
    IndexHolds(pairs, SegKey, k, IsSegment(k));
    FilteredPart(s, g, src, k);
    RowSums(Segments(s, g, src).at[k]);
  }

  // ----- kilograms per item -----

  function ItemKg(item: ItemRef): ItemMeasure { (i: ItemRef, kg: Kg, count: Option<int>) => if i == item then kg else 0 }

  function PairItemKg(item: ItemRef): Sourced -> int { (p: Sourced) => if p.1 == item then p.0.kg else 0 }

  /** The kilograms of the rows with stock that name the item. */
  ghost function NamedKg(s: Snapshot, g: GroupKey, item: ItemRef): Row -> int
  {
    (r: Row) => if r.kg > 0 && NamesItem(s, g, r, item) then r.kg else 0
  }

  lemma {:induction false} OneSegment(src: seq<Sourced>, k: SegmentKey, item: ItemRef)
    requires forall p :: p in src ==> SegKey(p) == k
    ensures SumOf(src, PairItemKg(item)) == if k.0 == item then SumOf(src, PairKg) else 0
  {
    if k.0 == item { SumSame(src, PairItemKg(item), PairKg); } else { SumZero(src, PairItemKg(item)); }
  }

  lemma {:induction false} SegmentItemKg(segments: Index<SegmentKey, Sourced>, keys: seq<SegmentKey>, item: ItemRef)
    requires forall k :: k in keys ==> k in segments.at && forall p :: p in segments.at[k] ==> SegKey(p) == k
    ensures SegmentSum(segments, keys, ItemKg(item)) == GroupTotal(keys, segments.at, PairItemKg(item))
  {
    hide SumOf, WholeRolls;
    if keys != [] {
      var l := |keys| - 1;
      SegmentItemKg(segments, keys[..l], item);
      OneSegment(segments.at[keys[l]], keys[l], item);
    }
  }

  lemma {:induction false} ResolvedItemKg(s: Snapshot, g: GroupKey, src: seq<Row>, item: ItemRef)
    requires Resolve(s, g, Positive(src)).Some?
    ensures SumOf(Resolve(s, g, Positive(src)).value, PairItemKg(item)) == SumOf(src, NamedKg(s, g, item))
  {
    if src == [] {
      assert Positive(src) == [];
    } else {
      var l := |src| - 1;
      var r := src[l];
      assert src == src[..l] + [r];
      PositiveAppend(src[..l], r);
      ResolveAppend(s, g, Positive(src[..l]), r);
      SumAppend(src[..l], r, NamedKg(s, g, item));
      hide Positive, Resolve, ResolveRow, NamesItem, SumOf;
      assert Positive(src[..l]) + [] == Positive(src[..l]);
      ResolvedItemKg(s, g, src[..l], item);
      if r.kg > 0 {
        var before, pair := Resolve(s, g, Positive(src[..l])).value, (r, ResolveRow(s, g, r).value);
        SumAppend(before, pair, PairItemKg(item));
        NamesOne(s, g, r, pair.1, item);
      }
    }
  }

  lemma {:induction false} TargetItemKg(s: Snapshot, g: GroupKey, src: seq<Row>, item: ItemRef)
    requires StopReason(s, g, src).None?
    ensures GroupTarget(s, g, src, ItemKg(item)) == SumOf(src, NamedKg(s, g, item))
  {
    var pairs, segments := Resolve(s, g, Positive(src)).value, Segments(s, g, src);
    IndexConserves(pairs, SegKey, PairItemKg(item));
    forall k | k in segments.keys ensures k in segments.at && forall p :: p in segments.at[k] ==> SegKey(p) == k {
      IndexMembers(pairs, SegKey, k);
      assert segments.at[k] == segments.Get(k);
    }
    SegmentItemKg(segments, segments.keys, item);
    ResolvedItemKg(s, g, src, item);
  }

  /** Kg conservation per item: in a group that is not stopped, the batches and receipts of an
      item, existing or to be created, end with exactly the kg of the rows that name it. */
  lemma {:induction false} ItemKgConserved(s: Snapshot, rows: seq<Row>, g: GroupKey, item: ItemRef)
    requires Sound(s) && Plan(s, rows).Ok?
    requires Groups(rows).Get(g) != [] && StopReason(s, g, Groups(rows).Get(g)).None?
    ensures GroupSum(s, g, Plan(s, rows).value.actions, ItemKg(item)) == SumOf(Groups(rows).Get(g), NamedKg(s, g, item))
  {
    SegmentsCarriedOut(s, rows, g, ItemKg(item));
    TargetItemKg(s, g, Groups(rows).Get(g), item);
  }

  // ----- the actions -----

  /** What a batch is to be given, without what it already has. */
  ghost predicate Writes(b: Batch, kg: Kg, count: Option<int>, color: string, colorCode: string, v: Values)
  {
    && v.quantity == (if b.quantity == kg then None else Some(kg))
    && v.pieceCount == (if b.pieceCount == count then None else Some(count))
    && v.color == (if color == "" || b.color == Some(color) then None else Some(color))
    && v.colorCode == (if colorCode == "" || b.colorCode == Some(colorCode) then None else Some(colorCode))
  }

  /** The receipt of a segment: its item, its kg and rolls, the supplier of the group, the
      remaining texts of its first row, and the cost of the only stocked batch, if just one is. */
  ghost predicate ReceiptOf(s: Snapshot, g: GroupKey, part: seq<Row>, k: SegmentKey, a: Action)
  {
    && part != [] && a.Receive? && a.item == k.0 && a.quantity == SumOf(part, RowKg) && a.pieceCount == WholeRolls(SumOf(part, RowRolls))
    && a.supplier == g.0 && a.batchNo == part[0].batchNo && a.date == part[0].date
    && a.color == NonEmpty(part[0].color) && a.colorCode == NonEmpty(part[0].colorCode)
    && a.cost == if |Active(s, g)| == 1 then Active(s, g)[0].cost else 0
  }

  /** The update of a stocked batch: it takes a segment of its item, or goes to zero. */
  ghost predicate UpdateOf(s: Snapshot, g: GroupKey, src: seq<Row>, k: Option<SegmentKey>, b: Batch, a: Action)
  {
    && a.Update? && b in Active(s, g) && b.id == a.id && a.values != NoValues
    && b.warehouse == 1 && b.unit == "kg" && b.id !in s.ecoOut && (a.values.pieceCount.Some? ==> b.rollLengths == [])
    && if k.None? then Writes(b, 0, Some(0), "", "", a.values)
       else
         var part := Part(s, g, src, k.value);
         && part != [] && Item(b.itemId) == k.value.0 && !b.archived
         && Writes(b, SumOf(part, RowKg), WholeRolls(SumOf(part, RowRolls)), part[0].color, part[0].colorCode, a.values)
  }

  /** No guard of an update refuses. */
  predicate Allowed(s: Snapshot, j: Job)
  {
    var (b, wanted) := j;
    var v := Changed(b, wanted);
    v == NoValues ||
    (b.warehouse == 1 && b.unit == "kg" && b.id !in s.ecoOut && (v.pieceCount.Some? ==> b.rollLengths == [])
     && (v.quantity.Some? && v.quantity.value != 0 ==> v.quantity.value >= SumOf(ListedOn(s, b.id), HeldKg)))
  }

  lemma {:induction false} StepAllowed(s: Snapshot, st: State, ref: nat, j: Job)
    ensures UpdateStep(s, st, ref, j.0, j.1).Ok? <==> Allowed(s, j)
    ensures UpdateStep(s, st, ref, j.0, j.1).Ok? ==>
      var v := Changed(j.0, j.1);
      UpdateStep(s, st, ref, j.0, j.1).value.actions == if v == NoValues then st.actions else st.actions + [Update(ref, j.0.id, v)]
  {
    hide ListedOn, ReleaseAll, SumOf, Changed;
  }

  /** Updates fail exactly when one of them is refused; otherwise each job that changes
      something is an action, and nothing else is added. */
  lemma {:induction false} AllAllowed(s: Snapshot, st: State, ref: nat, jobs: seq<Job>)
    ensures UpdateAll(s, st, ref, jobs).Ok? <==> forall j :: j in jobs ==> Allowed(s, j)
    ensures UpdateAll(s, st, ref, jobs).Ok? ==>
      forall a :: a in UpdateAll(s, st, ref, jobs).value.actions <==>
        a in st.actions || exists j :: j in jobs && Changed(j.0, j.1) != NoValues && a == Update(ref, j.0.id, Changed(j.0, j.1))
  {
    hide Allowed, Changed, UpdateStep;
    if jobs != [] {
      var l := |jobs| - 1;
      AllAllowed(s, st, ref, jobs[..l]);
      assert forall j :: j in jobs <==> j in jobs[..l] || j == jobs[l];
      if UpdateAll(s, st, ref, jobs[..l]).Ok? { StepAllowed(s, UpdateAll(s, st, ref, jobs[..l]).value, ref, jobs[l]); }
    }
  }

  /** The receipt a segment becomes when it finds no batch. */
  function Receipt(s: Snapshot, ref: nat, g: GroupKey, k: SegmentKey, src: seq<Sourced>): Action
    requires src != []
  {
    var active := Active(s, g);
    Receive(ref, k.0, SumOf(src, PairKg), WholeRolls(SumOf(src, PairRolls)), g.0, src[0].0.batchNo,
            NonEmpty(src[0].0.color), NonEmpty(src[0].0.colorCode), src[0].0.date, if |active| == 1 then active[0].cost else 0)
  }

  ghost predicate JobOf(s: Snapshot, g: GroupKey, k: SegmentKey, src: seq<Sourced>, j: Job)
  {
    && src != [] && j.0 in Active(s, g) && Candidate(j.0, {}, k.0)
    && j.1 == Values(Some(SumOf(src, PairKg)), Some(WholeRolls(SumOf(src, PairRolls))), NonEmpty(src[0].0.color), NonEmpty(src[0].0.colorCode))
  }

  lemma {:induction false} AssignedOne(s: Snapshot, d: Draft, ref: nat, g: GroupKey, k: SegmentKey, src: seq<Sourced>)
    requires src != []
    ensures var n := AssignStep(s, d, ref, g, k, src);
      && (n.st.actions == d.st.actions || n.st.actions == d.st.actions + [Receipt(s, ref, g, k, src)])
      && (n.planned == d.planned || (|n.planned| == |d.planned| + 1 && n.planned[..|d.planned|] == d.planned && JobOf(s, g, k, src, n.planned[|d.planned|])))
  {
    ChooseBest(Active(s, g), d.used, k, SumOf(src, PairKg));
    hide Active, SumOf, WholeRolls, Choose;
  }

  ghost predicate JobIn(s: Snapshot, g: GroupKey, segments: Index<SegmentKey, Sourced>, keys: seq<SegmentKey>, j: Job)
    requires forall k :: k in keys ==> k in segments.at
  {
    exists k :: k in keys && JobOf(s, g, k, segments.at[k], j)
  }

  ghost predicate ReceiptIn(s: Snapshot, ref: nat, g: GroupKey, segments: Index<SegmentKey, Sourced>, keys: seq<SegmentKey>, a: Action)
    requires segments.Valid() && forall k :: k in keys ==> k in segments.at
  {
    exists k :: k in keys && a == Receipt(s, ref, g, k, segments.at[k])
  }

  lemma {:induction false} InMore(s: Snapshot, ref: nat, g: GroupKey, segments: Index<SegmentKey, Sourced>, keys: seq<SegmentKey>)
    requires segments.Valid() && keys != [] && forall k :: k in keys ==> k in segments.at
    ensures forall j :: JobIn(s, g, segments, keys[..|keys| - 1], j) || JobOf(s, g, keys[|keys| - 1], segments.at[keys[|keys| - 1]], j) ==> JobIn(s, g, segments, keys, j)
    ensures forall a :: ReceiptIn(s, ref, g, segments, keys[..|keys| - 1], a) ==> ReceiptIn(s, ref, g, segments, keys, a)
    ensures ReceiptIn(s, ref, g, segments, keys, Receipt(s, ref, g, keys[|keys| - 1], segments.at[keys[|keys| - 1]]))
  {
    hide JobOf, Receipt;
    assert forall k :: k in keys[..|keys| - 1] ==> k in keys;
  }

  /** What distributing the segments adds: receipts, and jobs for batches of the segment's item. */
  lemma {:induction false} Assigned(s: Snapshot, st: State, ref: nat, g: GroupKey, segments: Index<SegmentKey, Sourced>, keys: seq<SegmentKey>)
    requires segments.Valid() && forall k :: k in keys ==> k in segments.at
    ensures var d := AssignAll(s, st, ref, g, segments, keys);
      && (forall a :: a in d.st.actions ==> a in st.actions || ReceiptIn(s, ref, g, segments, keys, a))
      && (forall j :: j in d.planned ==> JobIn(s, g, segments, keys, j))
  {
    if keys != [] {
      hide AssignStep, JobOf, Receipt, JobIn, ReceiptIn;
      var l := |keys| - 1;
      Assigned(s, st, ref, g, segments, keys[..l]);
      InMore(s, ref, g, segments, keys);
      var d, n := AssignAll(s, st, ref, g, segments, keys[..l]), AssignAll(s, st, ref, g, segments, keys);
      AssignedOne(s, d, ref, g, keys[l], segments.at[keys[l]]);
      forall j | j in n.planned ensures JobIn(s, g, segments, keys, j) {
        if j !in d.planned { assert n.planned == d.planned + [n.planned[|d.planned|]]; }
      }
    }
  }

  /** The jobs do not depend on what was planned before. */
  lemma {:induction false} SameJobs(s: Snapshot, st: State, ref: nat, g: GroupKey, segments: Index<SegmentKey, Sourced>, keys: seq<SegmentKey>)
    requires segments.Valid() && forall k :: k in keys ==> k in segments.at
    ensures var d, e := AssignAll(s, st, ref, g, segments, keys), AssignAll(s, Start, 0, g, segments, keys);
      d.planned == e.planned && d.used == e.used
  {
    hide Active, SumOf, WholeRolls, Choose;
    if keys != [] { SameJobs(s, st, ref, g, segments, keys[..|keys| - 1]); }
  }

  /** All updates a group asks for: what no segment claims goes to zero, the rest is written. */
  function Jobs(s: Snapshot, g: GroupKey, src: seq<Row>): seq<Job>
    requires StopReason(s, g, src).None?
  {
    var d := AssignAll(s, Start, 0, g, Segments(s, g, src), Segments(s, g, src).keys);
    Zeroing(Active(s, g), d.used) + d.planned
  }

  lemma {:induction false} GroupAllowed(s: Snapshot, st: State, ref: nat, g: GroupKey, src: seq<Row>)
    ensures GroupStep(s, st, ref, g, src).Ok? <==> (StopReason(s, g, src).None? ==> forall j :: j in Jobs(s, g, src) ==> Allowed(s, j))
  {
    if StopReason(s, g, src).None? {
      var segments := Segments(s, g, src);
      SameJobs(s, st, ref, g, segments, segments.keys);
      hide StopReason, AssignAll, Zeroing, Allowed, Segments, UpdateAll;
      var d := AssignAll(s, st, ref, g, segments, segments.keys);
      var zero := Zeroing(Active(s, g), d.used);
      AllAllowed(s, d.st, ref, zero);
      if UpdateAll(s, d.st, ref, zero).Ok? { AllAllowed(s, UpdateAll(s, d.st, ref, zero).value, ref, d.planned); }
      assert forall j :: j in zero + d.planned <==> j in zero || j in d.planned;
    }
  }

  /** A plan is refused if and only if some group that is not stopped asks for an update that a
      guard refuses: a foreign warehouse or unit, a weight below what is reserved that is not
      zero, a new count against recorded lengths, or fabric still out. */
  lemma {:induction false} PlanFailsExactly(s: Snapshot, rows: seq<Row>)
    ensures Plan(s, rows).Err? <==>
      exists g, j :: g in Groups(rows).keys && StopReason(s, g, Groups(rows).Get(g)).None? && j in Jobs(s, g, Groups(rows).Get(g)) && !Allowed(s, j)
  {
    GroupsAllowed(s, rows, Groups(rows).keys);
    hide Allowed, StopReason, Jobs, PlanGroups;
  }

  /** No update that the group asks for is refused. */
  ghost predicate GroupAllows(s: Snapshot, g: GroupKey, src: seq<Row>)
  {
    StopReason(s, g, src).None? ==> forall j :: j in Jobs(s, g, src) ==> Allowed(s, j)
  }

  lemma {:induction false} GroupsAllowed(s: Snapshot, rows: seq<Row>, keys: seq<GroupKey>)
    ensures PlanGroups(s, Groups(rows), keys).Ok? <==> forall g :: g in keys ==> GroupAllows(s, g, Groups(rows).Get(g))
  {
    hide GroupAllows, GroupStep, Groups;
    if keys != [] {
      var l := |keys| - 1;
      GroupsAllowed(s, rows, keys[..l]);
      assert forall g :: g in keys <==> g in keys[..l] || g == keys[l];
      if PlanGroups(s, Groups(rows), keys[..l]).Ok? {
        GroupAllowed(s, PlanGroups(s, Groups(rows), keys[..l]).value, l + 1, keys[l], Groups(rows).Get(keys[l]));
        AllowsIs(s, keys[l], Groups(rows).Get(keys[l]));
      }
    }
  }

  lemma {:induction false} AllowsIs(s: Snapshot, g: GroupKey, src: seq<Row>)
    ensures GroupAllows(s, g, src) <==> (StopReason(s, g, src).None? ==> forall j :: j in Jobs(s, g, src) ==> Allowed(s, j))
  {
  }

  // ----- every action of a plan -----

  /** The action is the receipt of a segment of the group, or the update of one of its batches. */
  ghost predicate Grounded(s: Snapshot, g: GroupKey, src: seq<Row>, a: Action)
  {
    if a.Receive? then exists k :: ReceiptOf(s, g, Part(s, g, src, k), k, a)
    else exists b, k :: UpdateOf(s, g, src, k, b, a)
  }

  lemma {:induction false} ReceiptGrounded(s: Snapshot, ref: nat, g: GroupKey, src: seq<Row>, a: Action)
    requires StopReason(s, g, src).None? && ReceiptIn(s, ref, g, Segments(s, g, src), Segments(s, g, src).keys, a)
    ensures Grounded(s, g, src, a)
  {
    var segments := Segments(s, g, src);
    var k :| k in segments.keys && a == Receipt(s, ref, g, k, segments.at[k]);
    SegmentIs(s, g, src, k);
    hide StopReason, Segments, Active, Part, SumOf, WholeRolls;
    assert ReceiptOf(s, g, Part(s, g, src, k), k, a);
  }

  lemma {:induction false} ChangedWrites(b: Batch, kg: Kg, count: Option<int>, color: string, colorCode: string)
    ensures Writes(b, kg, count, color, colorCode, Changed(b, Values(Some(kg), Some(count), NonEmpty(color), NonEmpty(colorCode))))
    ensures Writes(b, 0, Some(0), "", "", Changed(b, Values(Some(0), Some(Some(0)), None, None)))
  {
  }

  lemma {:induction false} UpdateGrounded(s: Snapshot, ref: nat, g: GroupKey, src: seq<Row>, j: Job)
    requires StopReason(s, g, src).None? && JobIn(s, g, Segments(s, g, src), Segments(s, g, src).keys, j) && Allowed(s, j) && Changed(j.0, j.1) != NoValues
    ensures Grounded(s, g, src, Update(ref, j.0.id, Changed(j.0, j.1)))
  {
    var segments := Segments(s, g, src);
    var k :| k in segments.keys && JobOf(s, g, k, segments.at[k], j);
    SegmentIs(s, g, src, k);
    var part := Part(s, g, src, k);
    ChangedWrites(j.0, SumOf(part, RowKg), WholeRolls(SumOf(part, RowRolls)), part[0].color, part[0].colorCode);
    hide StopReason, Segments, Active, Part, SumOf, WholeRolls, Changed, Writes, ListedOn;
    assert UpdateOf(s, g, src, Some(k), j.0, Update(ref, j.0.id, Changed(j.0, j.1)));
  }

  lemma {:induction false} ZeroGrounded(s: Snapshot, ref: nat, g: GroupKey, src: seq<Row>, b: Batch)
    requires b in Active(s, g)
    ensures var j := (b, Values(Some(0), Some(Some(0)), None, None));
      Allowed(s, j) && Changed(b, j.1) != NoValues ==> Grounded(s, g, src, Update(ref, b.id, Changed(b, j.1)))
  {
    var j := (b, Values(Some(0), Some(Some(0)), None, None));
    ChangedWrites(b, 0, None, "", "");
    hide Active, Part, SumOf, WholeRolls, Changed, Writes, ListedOn;
    if Allowed(s, j) && Changed(b, j.1) != NoValues { assert UpdateOf(s, g, src, None, b, Update(ref, b.id, Changed(b, j.1))); }
  }

  lemma {:induction false} ZeroingIs(active: seq<Batch>, used: set<Id>)
    ensures forall j :: j in Zeroing(active, used) ==> j.0 in active && j.1 == Values(Some(0), Some(Some(0)), None, None)
  {
    if active != [] { ZeroingIs(active[..|active| - 1], used); }
  }

  lemma {:induction false} GroupGrounded(s: Snapshot, st: State, ref: nat, g: GroupKey, src: seq<Row>)
    requires GroupStep(s, st, ref, g, src).Ok?
    ensures forall a :: a in GroupStep(s, st, ref, g, src).value.actions ==> a in st.actions || (StopReason(s, g, src).None? && Grounded(s, g, src, a) && a.ref == ref)
  {
    if StopReason(s, g, src).None? {
      var segments := Segments(s, g, src);
      Assigned(s, st, ref, g, segments, segments.keys);
      var d := AssignAll(s, st, ref, g, segments, segments.keys);
      hide StopReason, AssignAll, Allowed, Segments, UpdateAll, Grounded, Changed, JobIn, ReceiptIn;
      var zero := Zeroing(Active(s, g), d.used);
      ZeroingIs(Active(s, g), d.used);
      hide Zeroing, Active;
      AllAllowed(s, d.st, ref, zero);
      var mid := UpdateAll(s, d.st, ref, zero).value;
      AllAllowed(s, mid, ref, d.planned);
      forall a | ReceiptIn(s, ref, g, segments, segments.keys, a) ensures Grounded(s, g, src, a) && a.ref == ref { ReceiptGrounded(s, ref, g, src, a); }
      forall j | j in d.planned && Changed(j.0, j.1) != NoValues ensures Grounded(s, g, src, Update(ref, j.0.id, Changed(j.0, j.1))) {
        UpdateGrounded(s, ref, g, src, j);
      }
      forall j | j in zero && Changed(j.0, j.1) != NoValues ensures Grounded(s, g, src, Update(ref, j.0.id, Changed(j.0, j.1))) {
        ZeroGrounded(s, ref, g, src, j.0);
      }
    }
  }

  lemma {:induction false} GroupsGrounded(s: Snapshot, rows: seq<Row>, keys: seq<GroupKey>, a: Action) returns (g: GroupKey)
    requires PlanGroups(s, Groups(rows), keys).Ok? && a in PlanGroups(s, Groups(rows), keys).value.actions
    ensures 0 < a.ref <= |keys| && g == keys[a.ref - 1] && StopReason(s, g, Groups(rows).Get(g)).None? && Grounded(s, g, Groups(rows).Get(g), a)
  {
    hide StopReason, Grounded, GroupStep;
    var l := |keys| - 1;
    var st := PlanGroups(s, Groups(rows), keys[..l]).value;
    GroupGrounded(s, st, l + 1, keys[l], Groups(rows).Get(keys[l]));
    if a in st.actions {
      g := GroupsGrounded(s, rows, keys[..l], a);
    } else {
      g := keys[l];
    }
  }

  /** Every action of a plan bears the number of a group that is not stopped, and is either the receipt
      of one of its segments, with the texts of the segment's first row, or the update of one
      of its stocked batches, which takes a segment of its own item or goes to zero. */
  lemma {:induction false} ActionsGrounded(s: Snapshot, rows: seq<Row>, a: Action) returns (g: GroupKey)
    requires Plan(s, rows).Ok? && a in Plan(s, rows).value.actions
    ensures 0 < a.ref <= |Groups(rows).keys| && g == Groups(rows).keys[a.ref - 1]
    ensures StopReason(s, g, Groups(rows).Get(g)).None? && Grounded(s, g, Groups(rows).Get(g), a)
  {
    g := GroupsGrounded(s, rows, Groups(rows).keys, a);
  }
}
