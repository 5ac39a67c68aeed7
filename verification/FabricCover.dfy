/** Reservations stay covered: a plan frees a reservation exactly when its batch
    goes to zero, and otherwise leaves enough stock for everything still held. */
module FabricCover {
  import opened Base
  import opened FabricPlan
  import opened FabricConservation

  function HeldKept(releases: map<Id, Release>): Reservation -> Kg
  {
    (r: Reservation) => if r.id in releases then 0 else r.Outstanding()
  }

  /** Kg still held on a batch once the given reservations are released. */
  function HeldAfter(s: Snapshot, releases: map<Id, Release>, id: Id): Kg
  {
    SumOf(ListedOn(s, id), HeldKept(releases))
  }

  ghost predicate UniqueReservations(s: Snapshot)
  {
    forall q, r :: q in s.reservations && r in s.reservations && q.id == r.id ==> q == r
  }

  ghost predicate CoveredBefore(s: Snapshot, b: Batch) { SumOf(ListedOn(s, b.id), HeldKg) <= b.quantity }

  /** Every batch that covered its reservations still does. */
  ghost predicate Covered(s: Snapshot, st: State)
  {
    forall b :: b in s.batches && CoveredBefore(s, b) ==> HeldAfter(s, st.releases, b.id) <= NewKg(b, st.actions)
  }

  /** `r` holds stock of a batch that an update has taken to zero. */
  ghost predicate Emptied(s: Snapshot, st: State, r: Reservation)
  {
    exists b :: b in s.batches && r.batchId == Some(b.id) && b.id in UpdatedIds(st.actions) && NewKg(b, st.actions) == 0
  }

  predicate FreesAll(r: Reservation, id: Id, f: Release)
  {
    r.id == id && r.Listed() && r.batchId == Some(f.batchId) && f == Release(id, f.batchId, f.ref, r.Outstanding(), r.consumed)
  }

  ghost predicate Frees(s: Snapshot, id: Id, f: Release)
  {
    exists r :: r in s.reservations && FreesAll(r, id, f)
  }

  /** Exactly the listed reservations of emptied batches are released, each in full. */
  ghost predicate ReleasesExact(s: Snapshot, st: State)
  {
    && (forall r :: r in s.reservations ==> (r.id in st.releases <==> r.Listed() && Emptied(s, st, r)))
    && (forall id :: id in st.releases ==> Frees(s, id, st.releases[id]))
  }

  lemma {:induction false} SumAtMost<A>(xs: seq<A>, f: A -> int, g: A -> int)
    requires forall x :: x in xs ==> f(x) <= g(x)
    ensures SumOf(xs, f) <= SumOf(xs, g)
  {
    if xs != [] {
      SumAtMost(xs[..|xs| - 1], f, g);
    }
  }

  lemma {:induction false} SumPositive<A>(xs: seq<A>, f: A -> int)
    requires forall x :: x in xs ==> f(x) > 0
    ensures SumOf(xs, f) >= 0 && (xs != [] ==> SumOf(xs, f) > 0)
  {
    if xs != [] {
      SumPositive(xs[..|xs| - 1], f);
    }
  }

  lemma {:induction false} ReleaseAllHolds(s: Snapshot, before: map<Id, Release>, held: seq<Reservation>, ref: nat, id: Id)
    requires forall r :: r in held ==> r in s.reservations && r.Listed() && r.batchId == Some(id)
    requires forall k :: k in before ==> Frees(s, k, before[k])
    ensures var m := ReleaseAll(before, held, ref, id);
      && (forall k :: k in m <==> k in before || exists r :: r in held && r.id == k)
      && (forall k :: k in m ==> Frees(s, k, m[k]))
  {
    if held != [] {
      var l := |held| - 1;
      assert forall r :: r in held <==> r in held[..l] || r == held[l];
      ReleaseAllHolds(s, before, held[..l], ref, id);
    }
  }

  lemma {:induction false} HeldShrinks(s: Snapshot, a: map<Id, Release>, b: map<Id, Release>, id: Id)
    requires a.Keys <= b.Keys
    ensures HeldAfter(s, b, id) <= HeldAfter(s, a, id) <= SumOf(ListedOn(s, id), HeldKg)
  {
    SumAtMost(ListedOn(s, id), HeldKept(b), HeldKept(a));
    SumAtMost(ListedOn(s, id), HeldKept(a), HeldKg);
  }

  /** The list of updated ids and the weights of the other batches after one update. */
  lemma {:induction false} StepShape(s: Snapshot, st: State, ref: nat, b: Batch, wanted: Values)
    requires UpdateStep(s, st, ref, b, wanted).Ok? && b.id !in UpdatedIds(st.actions) && wanted.quantity.Some?
    ensures var r := UpdateStep(s, st, ref, b, wanted).value;
      && NewKg(b, r.actions) == wanted.quantity.value
      && (forall c: Batch :: c.id != b.id ==> NewKg(c, r.actions) == NewKg(c, st.actions))
      && (forall id :: id != b.id ==> (id in UpdatedIds(r.actions) <==> id in UpdatedIds(st.actions)))
      && (wanted.quantity != Some(b.quantity) ==> b.id in UpdatedIds(r.actions))
  {
    UpdateStepEffect(s, st, ref, b, wanted);
    GrowsFrame(st.actions, UpdateStep(s, st, ref, b, wanted).value.actions, {b.id}, None);
  }

  lemma {:induction false} StepReleases(s: Snapshot, st: State, ref: nat, b: Batch, wanted: Values)
    requires UpdateStep(s, st, ref, b, wanted).Ok? && wanted.quantity.Some? && b.quantity > 0
    requires forall id :: id in st.releases ==> Frees(s, id, st.releases[id])
    ensures var m, q := UpdateStep(s, st, ref, b, wanted).value.releases, wanted.quantity.value;
      && (forall id :: id in m ==> Frees(s, id, m[id]))
      && (forall id :: id in m <==> id in st.releases || (q == 0 && exists r :: r in ListedOn(s, b.id) && r.id == id))
      && (q != b.quantity && q != 0 ==> SumOf(ListedOn(s, b.id), HeldKg) <= q)
  {
    var held := ListedOn(s, b.id);
    SumPositive(held, HeldKg);
    ReleaseAllHolds(s, st.releases, held, ref, b.id);
  }

  lemma {:induction false} CoverStep(s: Snapshot, st: State, ref: nat, b: Batch, wanted: Values)
    requires UpdateStep(s, st, ref, b, wanted).Ok? && wanted.quantity.Some? && b.quantity > 0
    requires Sound(s) && b in s.batches && b.id !in UpdatedIds(st.actions)
    requires Covered(s, st) && forall id :: id in st.releases ==> Frees(s, id, st.releases[id])
    ensures Covered(s, UpdateStep(s, st, ref, b, wanted).value)
  {
    var next, q := UpdateStep(s, st, ref, b, wanted).value, wanted.quantity.value;
    StepShape(s, st, ref, b, wanted);
    StepReleases(s, st, ref, b, wanted);
    forall c | c in s.batches && CoveredBefore(s, c) ensures HeldAfter(s, next.releases, c.id) <= NewKg(c, next.actions) {
      HeldShrinks(s, st.releases, next.releases, c.id);
      if c.id == b.id {
        assert c == b by { InExisting(s, BatchKey(b)); }
        if q == 0 {
          SumAtMost(ListedOn(s, b.id), HeldKept(next.releases), Nothing);
          SumZero(ListedOn(s, b.id), Nothing);
        }
      }
    }
  }

  function Nothing(r: Reservation): Kg { 0 }

  lemma {:induction false} ExactStep(s: Snapshot, st: State, ref: nat, b: Batch, wanted: Values)
    requires UpdateStep(s, st, ref, b, wanted).Ok? && wanted.quantity.Some? && b.quantity > 0
    requires Sound(s) && UniqueReservations(s) && b in s.batches && b.id !in UpdatedIds(st.actions)
    requires ReleasesExact(s, st)
    ensures ReleasesExact(s, UpdateStep(s, st, ref, b, wanted).value)
  {
    var next, q := UpdateStep(s, st, ref, b, wanted).value, wanted.quantity.value;
    StepShape(s, st, ref, b, wanted);
    StepReleases(s, st, ref, b, wanted);
    InExisting(s, BatchKey(b));
    forall r | r in s.reservations ensures r.id in next.releases <==> r.Listed() && Emptied(s, next, r) {
      if r.batchId == Some(b.id) {
        assert !Emptied(s, st, r);
        assert Emptied(s, next, r) <==> q == 0;
        assert r.Listed() <==> r in ListedOn(s, b.id);
      } else {
        assert Emptied(s, next, r) <==> Emptied(s, st, r);
        assert r !in ListedOn(s, b.id);
      }
    }
  }

  ghost predicate Held(s: Snapshot, st: State) { Covered(s, st) && ReleasesExact(s, st) }

  lemma {:induction false} HeldJobs(s: Snapshot, st: State, ref: nat, jobs: seq<Job>)
    requires UpdateAll(s, st, ref, jobs).Ok? && Sound(s) && UniqueReservations(s) && Held(s, st)
    requires Orderly(jobs) && forall j :: j in jobs ==> j.0.id !in UpdatedIds(st.actions)
    requires forall j :: j in jobs ==> j.0 in s.batches && j.0.quantity > 0
    ensures Held(s, UpdateAll(s, st, ref, jobs).value)
  {
    if jobs != [] {
      var l := |jobs| - 1;
      assert forall j :: j in jobs[..l] ==> j in jobs;
      var mid := UpdateAll(s, st, ref, jobs[..l]).value;
      HeldJobs(s, st, ref, jobs[..l]);
      UpdateAllEffect(s, st, ref, jobs[..l]);
      GrowsFrame(st.actions, mid.actions, JobIds(jobs[..l]), None);
      assert jobs[l] in jobs && jobs[l].0.id !in JobIds(jobs[..l]);
      CoverStep(s, mid, ref, jobs[l].0, jobs[l].1);
      ExactStep(s, mid, ref, jobs[l].0, jobs[l].1);
    }
  }

  lemma {:induction false} HeldFrame(s: Snapshot, st: State, next: State, g: GroupKey)
    requires Held(s, st) && next.releases == st.releases && Grows(st.actions, next.actions, {}, Some(g))
    ensures Held(s, next)
  {
    GrowsFrame(st.actions, next.actions, {}, Some(g));
    forall r | r in s.reservations ensures Emptied(s, next, r) <==> Emptied(s, st, r) {}
  }

  lemma {:induction false} HeldGroup(s: Snapshot, st: State, ref: nat, g: GroupKey, src: seq<Row>)
    requires Sound(s) && UniqueReservations(s) && Held(s, st)
    requires Untouched(s, g, st.actions) && forall r :: r in src ==> RowKey(r) == g
    requires GroupStep(s, st, ref, g, src).Ok?
    ensures Held(s, GroupStep(s, st, ref, g, src).value)
  {
    if StopReason(s, g, src).None? {
      var segments := Segments(s, g, src);
      SegmentsConserve(s, g, src);
      AssignAllEffect(s, st, ref, g, segments, segments.keys, AnyItem(KG));
      var d := AssignAll(s, st, ref, g, segments, segments.keys);
      HeldFrame(s, st, d.st, g);
      GrowsFrame(st.actions, d.st.actions, {}, Some(g));
      HeldUpdates(s, st, ref, g, d);
      HeldFrame(s, UpdateAll(s, UpdateAll(s, d.st, ref, Zeroing(Active(s, g), d.used)).value, ref, d.planned).value,
                GroupStep(s, st, ref, g, src).value, g);
    }
  }

  lemma {:induction false} HeldUpdates(s: Snapshot, st: State, ref: nat, g: GroupKey, d: Draft)
    requires Sound(s) && UniqueReservations(s) && Held(s, d.st) && Untouched(s, g, st.actions) && Drafted(s, st, g, d)
    requires UpdatedIds(d.st.actions) == UpdatedIds(st.actions)
    requires UpdateAll(s, d.st, ref, Zeroing(Active(s, g), d.used)).Ok?
    requires UpdateAll(s, UpdateAll(s, d.st, ref, Zeroing(Active(s, g), d.used)).value, ref, d.planned).Ok?
    ensures Held(s, UpdateAll(s, UpdateAll(s, d.st, ref, Zeroing(Active(s, g), d.used)).value, ref, d.planned).value)
  {
    var zero := Zeroing(Active(s, g), d.used);
    var mid := UpdateAll(s, d.st, ref, zero).value;
    InExisting(s, g);
    ActiveIn(s, g);
    UntouchedMeans(s, g, st.actions);
    ZeroingEffect(Active(s, g), d.used);
    HeldJobs(s, d.st, ref, zero);
    UpdateAllEffect(s, d.st, ref, zero);
    GrowsFrame(d.st.actions, mid.actions, JobIds(zero), None);
    assert JobIds(zero) !! d.used;
    HeldJobs(s, mid, ref, d.planned);
  }

  lemma {:induction false} HeldPlan(s: Snapshot, rows: seq<Row>, keys: seq<GroupKey>)
    requires Sound(s) && UniqueReservations(s) && Distinct(keys) && PlanGroups(s, Groups(rows), keys).Ok?
    ensures Held(s, PlanGroups(s, Groups(rows), keys).value)
  {
    if keys == [] {
      forall b | b in s.batches ensures HeldAfter(s, map[], b.id) == SumOf(ListedOn(s, b.id), HeldKg) {
        SumSame(ListedOn(s, b.id), HeldKept(map[]), HeldKg);
      }
      assert forall r :: !Emptied(s, Start, r);
    } else {
      var l := |keys| - 1;
      HeldPlan(s, rows, keys[..l]);
      PlanInvariant(s, rows, keys[..l], keys[l], AnyItem(KG));
      IndexMembers(rows, RowKey, keys[l]);
      assert keys[l] !in keys[..l];
      HeldGroup(s, PlanGroups(s, Groups(rows), keys[..l]).value, l + 1, keys[l], Groups(rows).Get(keys[l]));
    }
  }

  /** Cover: a batch that held enough for its reservations still does after the plan. */
  lemma {:induction false} StaysCovered(s: Snapshot, rows: seq<Row>, b: Batch)
    requires Sound(s) && UniqueReservations(s) && Plan(s, rows).Ok?
    requires b in s.batches && CoveredBefore(s, b)
    ensures var st := Plan(s, rows).value;
      HeldAfter(s, st.releases, b.id) <= NewKg(b, st.actions)
  {
    HeldPlan(s, rows, Groups(rows).keys);
  }

  /** A reservation is released if and only if it is live with something outstanding and
      its batch is updated to zero; what is released is all that was outstanding. */
  lemma {:induction false} ReleasedIffEmptied(s: Snapshot, rows: seq<Row>, r: Reservation)
    requires Sound(s) && UniqueReservations(s) && Plan(s, rows).Ok? && r in s.reservations
    ensures var st := Plan(s, rows).value;
      && (r.id in st.releases <==> r.Listed() && Emptied(s, st, r))
      && (r.id in st.releases ==>
            st.releases[r.id].remaining == r.Outstanding() && Some(st.releases[r.id].batchId) == r.batchId)
  {
    HeldPlan(s, rows, Groups(rows).keys);
  }
}
