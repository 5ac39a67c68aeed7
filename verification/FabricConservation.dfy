/** Conservation and single application of a fabric plan. */
module FabricConservation {
  import opened Base
  import opened FabricPlan

  /** What the database guarantees of a snapshot: primary keys and stock that is not negative. */
  ghost predicate Sound(s: Snapshot)
  {
    && (forall i, j :: 0 <= i < j < |s.batches| ==> s.batches[i].id != s.batches[j].id)
    && (forall b :: b in s.batches ==> b.quantity >= 0)
  }

  function UpdatedIds(actions: seq<Action>): seq<Id>
  {
    if actions == [] then []
    else
      var rest, a := UpdatedIds(actions[..|actions| - 1]), actions[|actions| - 1];
      if a.Update? then rest + [a.id] else rest
  }

  /** The quantity a batch ends with: the last one written, else its own. */
  function NewKg(b: Batch, actions: seq<Action>): Kg
  {
    if actions == [] then b.quantity
    else
      var a := actions[|actions| - 1];
      if a.Update? && a.id == b.id && a.values.quantity.Some? then a.values.quantity.value
      else NewKg(b, actions[..|actions| - 1])
  }

  /** The roll count a batch ends with. */
  function NewCount(b: Batch, actions: seq<Action>): Option<int>
  {
    if actions == [] then b.pieceCount
    else
      var a := actions[|actions| - 1];
      if a.Update? && a.id == b.id && a.values.pieceCount.Some? then a.values.pieceCount.value
      else NewCount(b, actions[..|actions| - 1])
  }

  /** Something to be summed over batches, from their weight and their roll count. */
  type Measure = (Kg, Option<int>) -> int

  /** The same, from their item as well. */
  type ItemMeasure = (ItemRef, Kg, Option<int>) -> int

  function AnyItem(w: Measure): ItemMeasure { (item: ItemRef, kg: Kg, count: Option<int>) => w(kg, count) }

  const KG: Measure := (kg: Kg, count: Option<int>) => kg

  /** A batch without weight counts for nothing. */
  ghost predicate Vanishing(w: ItemMeasure) { forall item, count :: w(item, 0, count) == 0 }

  function Measured(actions: seq<Action>, w: ItemMeasure): Batch -> int { (b: Batch) => w(Item(b.itemId), NewKg(b, actions), NewCount(b, actions)) }

  function ReceivedSum(k: GroupKey, actions: seq<Action>, w: ItemMeasure): int
  {
    if actions == [] then 0
    else
      var a := actions[|actions| - 1];
      ReceivedSum(k, actions[..|actions| - 1], w) + if a.Receive? && ReceiveKey(a) == k then w(a.item, a.quantity, a.pieceCount) else 0
  }

  /** What a supplier/batch group measures once the actions are carried out. */
  function GroupSum(s: Snapshot, k: GroupKey, actions: seq<Action>, w: ItemMeasure): int
  {
    SumOf(Existing(s, k), Measured(actions, w)) + ReceivedSum(k, actions, w)
  }

  /** Its physical kg. */
  function GroupKg(s: Snapshot, k: GroupKey, actions: seq<Action>): Kg { GroupSum(s, k, actions, AnyItem(KG)) }

  /** `a` neither updates a batch of group `k` nor receives into it. */
  ghost predicate Avoids(s: Snapshot, k: GroupKey, a: Action)
  {
    match a
    case Update(_, id, _) => forall b :: b in Existing(s, k) ==> b.id != id
    case Receive(_, _, _, _, _, _, _, _, _, _) => ReceiveKey(a) != k
  }

  ghost predicate Untouched(s: Snapshot, k: GroupKey, actions: seq<Action>)
  {
    forall a :: a in actions ==> Avoids(s, k, a)
  }

  // ----- lists -----

  lemma {:induction false} SumSame<A>(xs: seq<A>, f: A -> int, g: A -> int)
    requires forall x :: x in xs ==> f(x) == g(x)
    ensures SumOf(xs, f) == SumOf(xs, g)
  {
    if xs != [] {
      SumSame(xs[..|xs| - 1], f, g);
    }
  }

  lemma {:induction false} SumDiffersAt<A>(xs: seq<A>, f: A -> int, g: A -> int, a: A)
    requires Distinct(xs) && a in xs
    requires forall x :: x in xs && x != a ==> f(x) == g(x)
    ensures SumOf(xs, f) == SumOf(xs, g) + f(a) - g(a)
  {
    var l := |xs| - 1;
    if xs[l] == a {
      assert a !in xs[..l];
      SumSame(xs[..l], f, g);
    } else {
      assert a in xs[..l];
      SumDiffersAt(xs[..l], f, g, a);
    }
  }

  lemma {:induction false} SumZero<A>(xs: seq<A>, f: A -> int)
    requires forall x :: x in xs ==> f(x) == 0
    ensures SumOf(xs, f) == 0
  {
    if xs != [] {
      SumZero(xs[..|xs| - 1], f);
    }
  }

  lemma {:induction false} InExisting(s: Snapshot, k: GroupKey)
    ensures forall b :: b in Existing(s, k) <==> b in s.batches && BatchKey(b) == k
    ensures Sound(s) ==> Distinct(Existing(s, k))
    ensures Sound(s) ==> forall b, c :: b in s.batches && c in s.batches && b.id == c.id ==> b == c
  {
    IndexMembers(s.batches, BatchKey, k);
  }

  // ----- what a longer list of actions leaves alone -----

  /** `a1` extends `a0` by updates of `ids` and receipts of group `k`. */
  ghost predicate Grows(a0: seq<Action>, a1: seq<Action>, ids: set<Id>, k: Option<GroupKey>)
  {
    && a0 <= a1
    && forall i :: |a0| <= i < |a1| ==>
         if a1[i].Update? then a1[i].id in ids else k == Some(ReceiveKey(a1[i]))
  }

  lemma {:induction false} GrowsFrame(a0: seq<Action>, a1: seq<Action>, ids: set<Id>, k: Option<GroupKey>)
    requires Grows(a0, a1, ids, k)
    ensures forall b: Batch :: b.id !in ids ==> NewKg(b, a1) == NewKg(b, a0)
    ensures forall b: Batch :: b.id !in ids ==> NewCount(b, a1) == NewCount(b, a0)
    ensures forall k2, w :: k != Some(k2) ==> ReceivedSum(k2, a1, w) == ReceivedSum(k2, a0, w)
    ensures forall id :: id !in ids ==> (id in UpdatedIds(a1) <==> id in UpdatedIds(a0))
    ensures ids == {} ==> UpdatedIds(a1) == UpdatedIds(a0)
    decreases |a1|
  {
    if |a1| == |a0| {
      assert a1 == a0;
    } else {
      var l := |a1| - 1;
      GrowsFrame(a0, a1[..l], ids, k);
    }
  }

  lemma {:induction false} NotUpdated(b: Batch, actions: seq<Action>)
    requires b.id !in UpdatedIds(actions)
    ensures NewKg(b, actions) == b.quantity && NewCount(b, actions) == b.pieceCount
  {
    if actions != [] {
      NotUpdated(b, actions[..|actions| - 1]);
    }
  }

  // ----- updates -----

  function JobKg(j: Job): Kg { if j.1.quantity.Some? then j.1.quantity.value else 0 }

  function JobCount(j: Job): Option<int> { if j.1.pieceCount.Some? then j.1.pieceCount.value else None }

  function JobMeasure(w: ItemMeasure): Job -> int { (j: Job) => w(Item(j.0.itemId), JobKg(j), JobCount(j)) }

  function JobIds(jobs: seq<Job>): set<Id> { set j | j in jobs :: j.0.id }

  ghost predicate Orderly(jobs: seq<Job>)
  {
    && (forall i, j :: 0 <= i < j < |jobs| ==> jobs[i].0.id != jobs[j].0.id)
    && (forall j :: j in jobs ==> j.1.quantity.Some? && j.1.pieceCount.Some?)
  }

  lemma {:induction false} AppendedUpdate(actions: seq<Action>, ref: nat, b: Batch, v: Values)
    requires b.id !in UpdatedIds(actions)
    ensures var longer := actions + [Update(ref, b.id, v)];
      && Grows(actions, longer, {b.id}, None)
      && NewKg(b, longer) == (if v.quantity.Some? then v.quantity.value else b.quantity)
      && NewCount(b, longer) == (if v.pieceCount.Some? then v.pieceCount.value else b.pieceCount)
      && (Distinct(UpdatedIds(actions)) ==> Distinct(UpdatedIds(longer)))
  {
    NotUpdated(b, actions);
    assert (actions + [Update(ref, b.id, v)])[..|actions|] == actions;
  }

  lemma {:induction false} UpdateStepEffect(s: Snapshot, st: State, ref: nat, b: Batch, wanted: Values)
    requires UpdateStep(s, st, ref, b, wanted).Ok?
    requires wanted.quantity.Some? && b.id !in UpdatedIds(st.actions)
    ensures var r := UpdateStep(s, st, ref, b, wanted).value;
      && r.outcomes == st.outcomes && r.exceptions == st.exceptions
      && Grows(st.actions, r.actions, {b.id}, None)
      && NewKg(b, r.actions) == wanted.quantity.value
      && NewCount(b, r.actions) == (if wanted.pieceCount.Some? then wanted.pieceCount.value else b.pieceCount)
      && (Distinct(UpdatedIds(st.actions)) ==> Distinct(UpdatedIds(r.actions)))
  {
    hide NewKg, NewCount, UpdatedIds, ListedOn, ReleaseAll, HeldKg, Distinct;
    NotUpdated(b, st.actions);
    AppendedUpdate(st.actions, ref, b, Changed(b, wanted));
  }

  lemma {:induction false} UpdateAllEffect(s: Snapshot, st: State, ref: nat, jobs: seq<Job>)
    requires UpdateAll(s, st, ref, jobs).Ok?
    requires Orderly(jobs) && forall j :: j in jobs ==> j.0.id !in UpdatedIds(st.actions)
    ensures var r := UpdateAll(s, st, ref, jobs).value;
      && r.outcomes == st.outcomes && r.exceptions == st.exceptions
      && Grows(st.actions, r.actions, JobIds(jobs), None)
      && (forall j :: j in jobs ==> NewKg(j.0, r.actions) == JobKg(j) && NewCount(j.0, r.actions) == JobCount(j))
      && (Distinct(UpdatedIds(st.actions)) ==> Distinct(UpdatedIds(r.actions)))
  {
    if jobs != [] {
      var l := |jobs| - 1;
      var (b, v) := jobs[l];
      assert forall j :: j in jobs <==> j in jobs[..l] || j == jobs[l];
      UpdateAllEffect(s, st, ref, jobs[..l]);
      var mid := UpdateAll(s, st, ref, jobs[..l]).value;
      assert b.id !in JobIds(jobs[..l]);
      GrowsFrame(st.actions, mid.actions, JobIds(jobs[..l]), None);
      UpdateStepEffect(s, mid, ref, b, v);
      var r := UpdateStep(s, mid, ref, b, v).value;
      GrowsFrame(mid.actions, r.actions, {b.id}, None);
      assert JobIds(jobs) == JobIds(jobs[..l]) + {b.id};
    }
  }

  // ----- choosing batches for segments -----

  /** The chosen batch is a candidate that no other candidate beats. */
  lemma {:induction false} ChooseBest(active: seq<Batch>, used: set<Id>, k: SegmentKey, qty: Kg)
    ensures var c := Choose(active, used, k, qty);
      if c.Some? then
        && c.value in active && Candidate(c.value, used, k.0)
        && forall b :: b in active && Candidate(b, used, k.0) ==> !Preferred(b, c.value, k, qty)
      else forall b :: b in active ==> !Candidate(b, used, k.0)
  {
    if active != [] {
      var l := |active| - 1;
      ChooseBest(active[..l], used, k, qty);
      assert forall b :: b in active <==> b in active[..l] || b == active[l];
    }
  }

  ghost predicate InGroup(segments: Index<SegmentKey, Sourced>, g: GroupKey)
  {
    segments.Valid() && forall k, p :: k in segments.at && p in segments.at[k] ==> RowKey(p.0) == g
  }

  ghost predicate Drafted(s: Snapshot, st: State, g: GroupKey, d: Draft)
  {
    && Grows(st.actions, d.st.actions, {}, Some(g))
    && d.st.outcomes == st.outcomes && d.st.releases == st.releases
    && Orderly(d.planned) && d.used == JobIds(d.planned)
    && forall j :: j in d.planned ==> j.0 in Active(s, g)
  }

  function Shared(st: State, g: GroupKey, d: Draft, w: ItemMeasure): int
  {
    SumOf(d.planned, JobMeasure(w)) + ReceivedSum(g, d.st.actions, w) - ReceivedSum(g, st.actions, w)
  }

  /** What one batch per segment measures. */
  function SegmentSum(segments: Index<SegmentKey, Sourced>, keys: seq<SegmentKey>, w: ItemMeasure): int
    requires forall k :: k in keys ==> k in segments.at
  {
    if keys == [] then 0
    else
      var src := segments.at[keys[|keys| - 1]];
      SegmentSum(segments, keys[..|keys| - 1], w) + w(keys[|keys| - 1].0, SumOf(src, PairKg), WholeRolls(SumOf(src, PairRolls)))
  }

  lemma {:induction false} Planned(d: seq<Job>, j: Job, w: ItemMeasure)
    requires Orderly(d) && j.0.id !in JobIds(d) && j.1.quantity.Some? && j.1.pieceCount.Some?
    ensures Orderly(d + [j]) && JobIds(d + [j]) == JobIds(d) + {j.0.id}
    ensures SumOf(d + [j], JobMeasure(w)) == SumOf(d, JobMeasure(w)) + w(Item(j.0.itemId), JobKg(j), JobCount(j))
  {
    SumAppend(d, j, JobMeasure(w));
    assert forall i :: 0 <= i < |d| ==> d[i] in d;
  }

  lemma {:induction false} AssignStepEffect(s: Snapshot, st: State, d: Draft, ref: nat, g: GroupKey, k: SegmentKey, src: seq<Sourced>, w: ItemMeasure)
    requires src != [] && RowKey(src[0].0) == g && Drafted(s, st, g, d)
    ensures Drafted(s, st, g, AssignStep(s, d, ref, g, k, src))
    ensures Shared(st, g, AssignStep(s, d, ref, g, k, src), w) == Shared(st, g, d, w) + w(k.0, SumOf(src, PairKg), WholeRolls(SumOf(src, PairRolls)))
  {
    var qty := SumOf(src, PairKg);
    var r := AssignStep(s, d, ref, g, k, src);
    ChooseBest(Active(s, g), d.used, k, qty);
    if Choose(Active(s, g), d.used, k, qty).Some? {
      Planned(d.planned, r.planned[|d.planned|], w);
    } else {
      assert r.st.actions[..|d.st.actions|] == d.st.actions;
    }
  }

  lemma {:induction false} AssignAllEffect(s: Snapshot, st: State, ref: nat, g: GroupKey,
                                           segments: Index<SegmentKey, Sourced>, keys: seq<SegmentKey>, w: ItemMeasure)
    requires InGroup(segments, g) && forall k :: k in keys ==> k in segments.at
    ensures var d := AssignAll(s, st, ref, g, segments, keys);
      Drafted(s, st, g, d) && Shared(st, g, d, w) == SegmentSum(segments, keys, w)
  {
    if keys == [] {
      assert JobIds([]) == {} && SumOf([], JobMeasure(w)) == 0;
    } else {
      hide AssignStep, Drafted, Shared, WholeRolls, SumOf;
      var l := |keys| - 1;
      AssignAllEffect(s, st, ref, g, segments, keys[..l], w);
      var src := segments.at[keys[l]];
      assert src[0] in src;
      AssignStepEffect(s, st, AssignAll(s, st, ref, g, segments, keys[..l]), ref, g, keys[l], src, w);
    }
  }

  lemma {:induction false} ZeroingEffect(active: seq<Batch>, used: set<Id>)
    requires forall i, j :: 0 <= i < j < |active| ==> active[i].id != active[j].id
    ensures Orderly(Zeroing(active, used))
    ensures forall j :: j in Zeroing(active, used) ==> j.0 in active && j.0.id !in used && JobKg(j) == 0
    ensures forall b :: b in active && b.id !in used ==> exists j :: j in Zeroing(active, used) && j.0 == b
  {
    if active != [] {
      var l := |active| - 1;
      ZeroingEffect(active[..l], used);
      var rest, all := Zeroing(active[..l], used), Zeroing(active, used);
      if active[l].id !in used {
        var last := all[|rest|];
        assert all == rest + [last];
        forall i | 0 <= i < |rest| ensures rest[i].0.id != last.0.id {
          assert rest[i] in rest;
        }
      }
      forall b | b in active && b.id !in used ensures exists j :: j in all && j.0 == b {
        if b in active[..l] {
          var j :| j in rest && j.0 == b;
          assert j in all;
        } else {
          assert b == active[l] && all[|rest|] in all;
        }
      }
    }
  }

  // ----- one group -----

  lemma {:induction false} ResolvedKg(s: Snapshot, k: GroupKey, rows: seq<Row>)
    requires Resolve(s, k, rows).Some?
    ensures SumOf(Resolve(s, k, rows).value, PairKg) == SumOf(rows, RowKg)
  {
    if rows != [] {
      var l := |rows| - 1;
      ResolvedKg(s, k, rows[..l]);
      SumAppend(Resolve(s, k, rows[..l]).value, (rows[l], ResolveRow(s, k, rows[l]).value), PairKg);
    }
  }

  /** Resolving keeps the rows and gives each the item `ResolveRow` names. */
  lemma {:induction false} ResolvedRow(s: Snapshot, k: GroupKey, rows: seq<Row>, p: Sourced)
    requires Resolve(s, k, rows).Some? && p in Resolve(s, k, rows).value
    ensures p.0 in rows && ResolveRow(s, k, p.0) == Some(p.1)
  {
    var l := |rows| - 1;
    if p in Resolve(s, k, rows[..l]).value {
      ResolvedRow(s, k, rows[..l], p);
    }
  }

  lemma {:induction false} PositiveKg(rows: seq<Row>)
    requires forall r :: r in rows ==> r.kg >= 0
    ensures SumOf(Positive(rows), RowKg) == SumOf(rows, RowKg)
  {
    if rows != [] {
      hide Filter, SumOf;
      var l := |rows| - 1;
      PositiveKg(rows[..l]);
      FilterAppend(HasKg, rows[..l], rows[l]);
      SumAppend(rows[..l], rows[l], RowKg);
      assert rows == rows[..l] + [rows[l]];
      if rows[l].kg > 0 {
        SumAppend(Positive(rows[..l]), rows[l], RowKg);
      }
    }
  }

  lemma {:induction false} SegmentsConserve(s: Snapshot, g: GroupKey, src: seq<Row>)
    requires StopReason(s, g, src).None? && forall r :: r in src ==> RowKey(r) == g
    ensures InGroup(Segments(s, g, src), g)
    ensures GroupTotal(Segments(s, g, src).keys, Segments(s, g, src).at, PairKg) == SumOf(src, RowKg)
  {
    var pairs := Resolve(s, g, Positive(src)).value;
    ResolvedKg(s, g, Positive(src));
    PositiveKg(src);
    IndexConserves(pairs, SegKey, PairKg);
    forall k, p | k in Segments(s, g, src).at && p in Segments(s, g, src).at[k] ensures RowKey(p.0) == g {
      IndexMembers(pairs, SegKey, k);
      ResolvedRow(s, g, Positive(src), p);
    }
  }

  /** Distinct batches given what is planned for them, all others nothing: the sum is what was planned. */
  lemma {:induction false} PlannedSum(xs: seq<Batch>, jobs: seq<Job>, f: Batch -> int, h: Job -> int)
    requires Distinct(xs) && Orderly(jobs)
    requires forall j :: j in jobs ==> j.0 in xs && f(j.0) == h(j)
    requires forall b :: b in xs && b.id !in JobIds(jobs) ==> f(b) == 0
    requires forall b, c :: b in xs && c in xs && b.id == c.id ==> b == c
    ensures SumOf(xs, f) == SumOf(jobs, h)
    decreases |jobs|
  {
    if jobs == [] {
      SumZero(xs, f);
    } else {
      var l := |jobs| - 1;
      var (b, v) := jobs[l];
      var g := (x: Batch) => if x == b then 0 else f(x);
      SumDiffersAt(xs, f, g, b);
      forall j | j in jobs[..l] ensures j.0 in xs && g(j.0) == h(j) {
        assert j in jobs;
      }
      assert JobIds(jobs) == JobIds(jobs[..l]) + {b.id} by {
        assert jobs == jobs[..l] + [jobs[l]];
      }
      PlannedSum(xs, jobs[..l], g, h);
    }
  }

  lemma {:induction false} ActiveIn(s: Snapshot, g: GroupKey)
    requires Sound(s)
    ensures forall b :: b in Active(s, g) <==> b in Existing(s, g) && b.quantity > 0
    ensures forall i, j :: 0 <= i < j < |Active(s, g)| ==> Active(s, g)[i].id != Active(s, g)[j].id
  {
    InExisting(s, g);
    FilterDistinct(Stocked, Existing(s, g));
    var active := Active(s, g);
    forall i, j | 0 <= i < j < |active| ensures active[i].id != active[j].id {
      assert active[i] in active && active[j] in active;
    }
  }

  lemma {:induction false} UntouchedMeans(s: Snapshot, k: GroupKey, actions: seq<Action>)
    requires Untouched(s, k, actions)
    ensures forall w :: ReceivedSum(k, actions, w) == 0
    ensures forall b :: b in Existing(s, k) ==> b.id !in UpdatedIds(actions)
  {
    if actions != [] {
      var l := |actions| - 1;
      assert actions[l] in actions && forall a :: a in actions[..l] ==> a in actions;
      UntouchedMeans(s, k, actions[..l]);
    }
  }

  /** Zeroing what no segment claimed, then writing the planned batches. */
  lemma {:induction false} GroupUpdates(s: Snapshot, ref: nat, g: GroupKey, d: Draft, mid: State, done: State)
    requires Sound(s) && Orderly(d.planned) && d.used == JobIds(d.planned)
    requires forall b :: b in Active(s, g) ==> b.id !in UpdatedIds(d.st.actions)
    requires forall j :: j in d.planned ==> j.0 in Active(s, g)
    requires UpdateAll(s, d.st, ref, Zeroing(Active(s, g), d.used)) == Ok(mid)
    requires UpdateAll(s, mid, ref, d.planned) == Ok(done)
    ensures forall j :: j in d.planned ==> NewKg(j.0, done.actions) == JobKg(j) && NewCount(j.0, done.actions) == JobCount(j)
    ensures forall b :: b in Active(s, g) && b.id !in d.used ==> NewKg(b, done.actions) == 0
    ensures done.outcomes == d.st.outcomes
    ensures Grows(d.st.actions, done.actions, ActiveIds(s, g), None)
    ensures Distinct(UpdatedIds(d.st.actions)) ==> Distinct(UpdatedIds(done.actions))
  {
    var zero := Zeroing(Active(s, g), d.used);
    ActiveIn(s, g);
    ZeroingEffect(Active(s, g), d.used);
    UpdateAllEffect(s, d.st, ref, zero);
    GrowsFrame(d.st.actions, mid.actions, JobIds(zero), None);
    assert JobIds(zero) !! d.used;
    UpdateAllEffect(s, mid, ref, d.planned);
    GrowsFrame(mid.actions, done.actions, JobIds(d.planned), None);
    forall b | b in Active(s, g) && b.id !in d.used ensures NewKg(b, done.actions) == 0 {
      var j :| j in zero && j.0 == b;
    }
  }

  function ActiveIds(s: Snapshot, g: GroupKey): set<Id> { set b | b in Active(s, g) :: b.id }

  /** The weights of all batches of a group that is carried out. */
  lemma {:induction false} GroupWeights(s: Snapshot, st: State, ref: nat, g: GroupKey, d: Draft, mid: State, done: State)
    requires Sound(s) && Untouched(s, g, st.actions) && Drafted(s, st, g, d)
    requires UpdateAll(s, d.st, ref, Zeroing(Active(s, g), d.used)) == Ok(mid)
    requires UpdateAll(s, mid, ref, d.planned) == Ok(done)
    ensures forall j :: j in d.planned ==> NewKg(j.0, done.actions) == JobKg(j) && NewCount(j.0, done.actions) == JobCount(j)
    ensures forall b :: b in Existing(s, g) && b.id !in d.used ==> NewKg(b, done.actions) == 0
    ensures forall w :: ReceivedSum(g, done.actions, w) == ReceivedSum(g, d.st.actions, w)
    ensures done.outcomes == st.outcomes
    ensures Grows(st.actions, done.actions, ActiveIds(s, g), Some(g))
    ensures Distinct(UpdatedIds(st.actions)) ==> Distinct(UpdatedIds(done.actions))
  {
    hide UpdateAll, Existing, Active, Zeroing, Distinct, NewKg, NewCount, ReceivedSum, UpdatedIds, Avoids;
    InExisting(s, g);
    ActiveIn(s, g);
    UntouchedMeans(s, g, st.actions);
    GrowsFrame(st.actions, d.st.actions, {}, Some(g));
    GroupUpdates(s, ref, g, d, mid, done);
    GrowsFrame(d.st.actions, done.actions, ActiveIds(s, g), None);
    forall b | b in Existing(s, g) && b.quantity <= 0 ensures NewKg(b, done.actions) == 0 {
      assert b.id !in ActiveIds(s, g);
      NotUpdated(b, st.actions);
    }
  }

  lemma {:induction false} GroupMeetsTarget(s: Snapshot, st: State, g: GroupKey, d: Draft, done: State, w: ItemMeasure)
    requires Sound(s) && Untouched(s, g, st.actions) && Drafted(s, st, g, d) && Vanishing(w)
    requires forall j :: j in d.planned ==> NewKg(j.0, done.actions) == JobKg(j) && NewCount(j.0, done.actions) == JobCount(j)
    requires forall b :: b in Existing(s, g) && b.id !in d.used ==> NewKg(b, done.actions) == 0
    requires ReceivedSum(g, done.actions, w) == ReceivedSum(g, d.st.actions, w)
    ensures GroupSum(s, g, done.actions, w) == Shared(st, g, d, w)
  {
    InExisting(s, g);
    ActiveIn(s, g);
    UntouchedMeans(s, g, st.actions);
    hide NewKg, NewCount, Existing, ReceivedSum, Distinct;
    forall b | b in Existing(s, g) && b.id !in JobIds(d.planned) ensures Measured(done.actions, w)(b) == 0 {
      assert w(Item(b.itemId), 0, NewCount(b, done.actions)) == 0;
    }
    PlannedSum(Existing(s, g), d.planned, Measured(done.actions, w), JobMeasure(w));
  }

  /** What a group that is carried out is to measure: one batch per segment. */
  function GroupTarget(s: Snapshot, g: GroupKey, src: seq<Row>, w: ItemMeasure): int
    requires StopReason(s, g, src).None?
  {
    SegmentSum(Segments(s, g, src), Segments(s, g, src).keys, w)
  }

  lemma {:induction false} GroupStepEffect(s: Snapshot, st: State, ref: nat, g: GroupKey, src: seq<Row>, w: ItemMeasure)
    requires Vanishing(w) && Sound(s) && Untouched(s, g, st.actions) && forall r :: r in src ==> RowKey(r) == g
    requires GroupStep(s, st, ref, g, src).Ok?
    ensures var r := GroupStep(s, st, ref, g, src).value;
      && Grows(st.actions, r.actions, ActiveIds(s, g), Some(g))
      && (Distinct(UpdatedIds(st.actions)) ==> Distinct(UpdatedIds(r.actions)))
      && (StopReason(s, g, src).Some? ==> r.actions == st.actions && r.outcomes == st.outcomes)
      && (StopReason(s, g, src).None? ==>
            && GroupSum(s, g, r.actions, w) == GroupTarget(s, g, src, w)
            && r.outcomes == st.outcomes + [Outcome(ref, SumOf(src, RowKg), SumOf(Positive(src), RowRolls), src)])
  {
    if StopReason(s, g, src).None? {
      var segments := Segments(s, g, src);
      SegmentsConserve(s, g, src);
      AssignAllEffect(s, st, ref, g, segments, segments.keys, w);
      var d := AssignAll(s, st, ref, g, segments, segments.keys);
      var mid := UpdateAll(s, d.st, ref, Zeroing(Active(s, g), d.used)).value;
      var done := UpdateAll(s, mid, ref, d.planned).value;
      GroupWeights(s, st, ref, g, d, mid, done);
      GroupMeetsTarget(s, st, g, d, done, w);
    }
  }

  // ----- all groups -----

  /** The outcomes a plan reports: one for every group that is not stopped. */
  function OutcomesOf(s: Snapshot, groups: Index<GroupKey, Row>, keys: seq<GroupKey>): seq<Outcome>
  {
    if keys == [] then []
    else
      var l := |keys| - 1;
      var src := groups.Get(keys[l]);
      OutcomesOf(s, groups, keys[..l]) +
      if StopReason(s, keys[l], src).Some? then []
      else [Outcome(l + 1, SumOf(src, RowKg), SumOf(Positive(src), RowRolls), src)]
  }

  ghost predicate Settled(s: Snapshot, groups: Index<GroupKey, Row>, keys: seq<GroupKey>, st: State, k: GroupKey, w: ItemMeasure)
  {
    if k in keys && StopReason(s, k, groups.Get(k)).None?
    then GroupSum(s, k, st.actions, w) == GroupTarget(s, k, groups.Get(k), w)
    else Untouched(s, k, st.actions)
  }

  lemma {:induction false} OtherGroup(s: Snapshot, a0: seq<Action>, a1: seq<Action>, g: GroupKey, k: GroupKey, w: ItemMeasure)
    requires Sound(s) && k != g && Grows(a0, a1, ActiveIds(s, g), Some(g))
    ensures GroupSum(s, k, a1, w) == GroupSum(s, k, a0, w)
    ensures Untouched(s, k, a0) ==> Untouched(s, k, a1)
  {
    var ids := ActiveIds(s, g);
    InExisting(s, g);
    InExisting(s, k);
    ActiveIn(s, g);
    assert forall b :: b in Existing(s, k) ==> b.id !in ids;
    GrowsFrame(a0, a1, ids, Some(g));
    SumSame(Existing(s, k), Measured(a1, w), Measured(a0, w));
    if Untouched(s, k, a0) {
      forall a | a in a1 ensures Avoids(s, k, a) {
        var i :| 0 <= i < |a1| && a1[i] == a;
        if i < |a0| {
          assert a in a0;
        }
      }
    }
  }

  lemma {:induction false} SettledStep(s: Snapshot, groups: Index<GroupKey, Row>, keys: seq<GroupKey>,
                                       st: State, next: State, k: GroupKey, w: ItemMeasure)
    requires Vanishing(w) && Sound(s) && Distinct(keys) && keys != []
    requires var g := keys[|keys| - 1];
      && (forall r :: r in groups.Get(g) ==> RowKey(r) == g)
      && Untouched(s, g, st.actions) && Settled(s, groups, keys[..|keys| - 1], st, k, w)
      && GroupStep(s, st, |keys|, g, groups.Get(g)) == Ok(next)
    ensures Settled(s, groups, keys, next, k, w)
  {
    var l := |keys| - 1;
    GroupStepEffect(s, st, |keys|, keys[l], groups.Get(keys[l]), w);
    if k != keys[l] {
      OtherGroup(s, st.actions, next.actions, keys[l], k, w);
      assert k in keys <==> k in keys[..l];
    }
  }

  lemma {:induction false} PlanInvariant(s: Snapshot, rows: seq<Row>, keys: seq<GroupKey>, k: GroupKey, w: ItemMeasure)
    requires Vanishing(w) && Sound(s) && Distinct(keys) && PlanGroups(s, Groups(rows), keys).Ok?
    ensures var st := PlanGroups(s, Groups(rows), keys).value;
      && Distinct(UpdatedIds(st.actions))
      && st.outcomes == OutcomesOf(s, Groups(rows), keys)
      && Settled(s, Groups(rows), keys, st, k, w)
  {
    if keys != [] {
      var l := |keys| - 1;
      var g, groups := keys[l], Groups(rows);
      PlanInvariant(s, rows, keys[..l], k, w);
      PlanInvariant(s, rows, keys[..l], g, w);
      IndexMembers(rows, RowKey, g);
      var st := PlanGroups(s, groups, keys[..l]).value;
      assert g !in keys[..l];
      GroupStepEffect(s, st, l + 1, g, groups.Get(g), w);
      SettledStep(s, groups, keys, st, PlanGroups(s, groups, keys).value, k, w);
    }
  }

  lemma {:induction false} SegmentKg(segments: Index<SegmentKey, Sourced>, keys: seq<SegmentKey>)
    requires forall k :: k in keys ==> k in segments.at
    ensures SegmentSum(segments, keys, AnyItem(KG)) == GroupTotal(keys, segments.at, PairKg)
  {
    if keys != [] { SegmentKg(segments, keys[..|keys| - 1]); }
  }

  lemma {:induction false} TargetKg(s: Snapshot, g: GroupKey, src: seq<Row>)
    requires StopReason(s, g, src).None? && forall r :: r in src ==> RowKey(r) == g
    ensures GroupTarget(s, g, src, AnyItem(KG)) == SumOf(src, RowKg)
  {
    SegmentsConserve(s, g, src);
    SegmentKg(Segments(s, g, src), Segments(s, g, src).keys);
  }

  /** Whatever is summed over batches with stock: a group that is not stopped ends up as one
      batch per segment, with its weight and its roll count, and every other group of batches
      is left alone. */
  lemma {:induction false} SegmentsCarriedOut(s: Snapshot, rows: seq<Row>, k: GroupKey, w: ItemMeasure)
    requires Sound(s) && Plan(s, rows).Ok? && Vanishing(w)
    ensures var src, actions := Groups(rows).Get(k), Plan(s, rows).value.actions;
      if src != [] && StopReason(s, k, src).None? then GroupSum(s, k, actions, w) == GroupTarget(s, k, src, w)
      else Untouched(s, k, actions)
  {
    PlanInvariant(s, rows, Groups(rows).keys, k, w);
  }

  /** Kg conservation: every group that is not stopped ends with exactly the kg
      its workbook rows state, and every other group of batches is left alone. */
  lemma {:induction false} KgConserved(s: Snapshot, rows: seq<Row>, k: GroupKey)
    requires Sound(s) && Plan(s, rows).Ok?
    ensures var src, actions := Groups(rows).Get(k), Plan(s, rows).value.actions;
      if src != [] && StopReason(s, k, src).None? then GroupKg(s, k, actions) == SumOf(src, RowKg)
      else Untouched(s, k, actions)
  {
    SegmentsCarriedOut(s, rows, k, AnyItem(KG));
    var src := Groups(rows).Get(k);
    if src != [] && StopReason(s, k, src).None? {
      IndexMembers(rows, RowKey, k);
      TargetKg(s, k, src);
    }
  }

  /** Every reported outcome belongs to a group that was carried out, states the kg
      of exactly that group's rows, and the projected group weighs exactly that. */
  lemma {:induction false} OutcomeMet(s: Snapshot, rows: seq<Row>, o: Outcome)
    requires Sound(s) && Plan(s, rows).Ok? && o in Plan(s, rows).value.outcomes
    ensures o.sources != []
    ensures var k := RowKey(o.sources[0]);
      && o.sources == Groups(rows).Get(k) && (forall r :: r in o.sources <==> r in rows && RowKey(r) == k)
      && o.targetRolls == SumOf(Positive(o.sources), RowRolls)
      && o.target == SumOf(o.sources, RowKg) == GroupKg(s, k, Plan(s, rows).value.actions)
      && StopReason(s, k, o.sources).None?
  {
    var groups := Groups(rows);
    PlanInvariant(s, rows, groups.keys, (None, ""), AnyItem(KG));
    var k := OutcomeKey(s, groups, groups.keys, o);
    IndexMembers(rows, RowKey, k);
    assert o.sources[0] in groups.Get(k);
    KgConserved(s, rows, k);
  }

  lemma {:induction false} OutcomeKey(s: Snapshot, groups: Index<GroupKey, Row>, keys: seq<GroupKey>, o: Outcome)
    returns (k: GroupKey)
    requires o in OutcomesOf(s, groups, keys)
    ensures k in keys && StopReason(s, k, groups.Get(k)).None?
    ensures o.sources == groups.Get(k) && o.target == SumOf(o.sources, RowKg) && o.targetRolls == SumOf(Positive(o.sources), RowRolls)
  {
    var l := |keys| - 1;
    if o in OutcomesOf(s, groups, keys[..l]) {
      k := OutcomeKey(s, groups, keys[..l], o);
    } else {
      k := keys[l];
    }
  }

  /** No batch is updated twice, so the check on repeated ids cannot fail. */
  lemma {:induction false} UpdatedOnce(s: Snapshot, rows: seq<Row>)
    requires Sound(s) && Plan(s, rows).Ok?
    ensures Distinct(UpdatedIds(Plan(s, rows).value.actions))
  {
    PlanInvariant(s, rows, Groups(rows).keys, (None, ""), AnyItem(KG));
  }
}
