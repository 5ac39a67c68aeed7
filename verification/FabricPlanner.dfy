/** The planning loops themselves, over the lists and dictionaries they grow. */
module FabricPlanner {
  import opened Base
  import opened FabricPlan
  import opened FabricConservation

  class Planner {
    const snapshot: Snapshot
    var actions: seq<Action>
    var outcomes: seq<Outcome>
    var exceptions: seq<(nat, Reason)>
    var releases: map<Id, Release>

    constructor (s: Snapshot)
      ensures snapshot == s && Now() == Start
    {
      snapshot := s;
      actions, outcomes, exceptions, releases := [], [], [], map[];
    }

    function Now(): State
      reads this
    {
      State(actions, outcomes, exceptions, releases)
    }

    /** Writes the differing values of one batch, releasing its reservations when it goes to zero. */
    method UpdateBatch(ref: nat, b: Batch, wanted: Values) returns (error: Option<Error>)
      modifies this
      ensures match UpdateStep(snapshot, old(Now()), ref, b, wanted)
        case Ok(st) => error == None && Now() == st
        case Err(e) => error == Some(e)
    {
      var v := Changed(b, wanted);
      if v == NoValues { return None; }
      if b.warehouse != 1 || b.unit != "kg" { return Some(ForeignBatch); }
      var held := ListedOn(snapshot, b.id);
      var outstanding := 0;
      for i := 0 to |held|
        invariant outstanding == SumOf(held[..i], HeldKg)
      {
        assert held[..i + 1][..i] == held[..i];
        outstanding := outstanding + held[i].Outstanding();
      }
      assert held[..|held|] == held;
      var freed := releases;
      if v.quantity.Some? && v.quantity.value < outstanding {
        if v.quantity.value != 0 { return Some(BelowReservation); }
        for i := 0 to |held|
          invariant freed == ReleaseAll(old(releases), held[..i], ref, b.id)
        {
          assert held[..i + 1][..i] == held[..i];
          var r := held[i];
          freed := freed[r.id := Release(r.id, b.id, ref, r.Outstanding(), r.consumed)];
        }
      }
      if v.pieceCount.Some? && b.rollLengths != [] { return Some(RecordedLengths); }
      if b.id in snapshot.ecoOut { return Some(EcoFabricOut); }
      releases := freed;
      actions := actions + [Update(ref, b.id, v)];
      return None;
    }

    method UpdateJobs(ref: nat, jobs: seq<Job>) returns (error: Option<Error>)
      modifies this
      ensures match UpdateAll(snapshot, old(Now()), ref, jobs)
        case Ok(st) => error == None && Now() == st
        case Err(e) => error == Some(e)
    {
      for i := 0 to |jobs|
        invariant UpdateAll(snapshot, old(Now()), ref, jobs[..i]) == Ok(Now())
      {
        assert jobs[..i + 1][..i] == jobs[..i];
        error := UpdateBatch(ref, jobs[i].0, jobs[i].1);
        if error.Some? {
          UpdateAllStops(snapshot, old(Now()), ref, jobs, i + 1);
          return;
        }
      }
      assert jobs[..|jobs|] == jobs;
      return None;
    }

    /** Gives one segment its best candidate; what finds no batch becomes a receipt. */
    method AssignSegment(ref: nat, g: GroupKey, active: seq<Batch>, k: SegmentKey, src: seq<Sourced>,
                         used: set<Id>, planned: seq<Job>) returns (used': set<Id>, planned': seq<Job>)
      requires src != [] && active == Active(snapshot, g)
      modifies this
      ensures AssignStep(snapshot, Draft(old(Now()), used, planned), ref, g, k, src) == Draft(Now(), used', planned')
    {
      used', planned' := used, planned;
      var qty, count, first := SumOf(src, PairKg), WholeRolls(SumOf(src, PairRolls)), src[0].0;
      if count.None? {
        exceptions := exceptions + [(ref, InvalidRollCount)];
      }
      var chosen := PickCandidate(active, used, k, qty);
      if chosen.Some? {
        used' := used + {chosen.value.id};
        planned' := planned +
          [(chosen.value, Values(Some(qty), Some(count), NonEmpty(first.color), NonEmpty(first.colorCode)))];
      } else {
        var cost := if |active| == 1 then active[0].cost else 0;
        actions := actions + [Receive(ref, k.0, qty, count, g.0, first.batchNo,
                                      NonEmpty(first.color), NonEmpty(first.colorCode), first.date, cost)];
      }
    }

    /** Distributes the segments of one group over its batches, in their order of appearance. */
    method AssignSegments(ref: nat, g: GroupKey, segments: Index<SegmentKey, Sourced>)
      returns (used: set<Id>, planned: seq<Job>)
      requires segments.Valid()
      modifies this
      ensures AssignAll(snapshot, old(Now()), ref, g, segments, segments.keys) == Draft(Now(), used, planned)
    {
      used, planned := {}, [];
      var active := Active(snapshot, g);
      for i := 0 to |segments.keys|
        invariant forall k :: k in segments.keys[..i] ==> k in segments.at
        invariant AssignAll(snapshot, old(Now()), ref, g, segments, segments.keys[..i]) == Draft(Now(), used, planned)
      {
        var k := segments.keys[i];
        assert segments.keys[..i + 1][..i] == segments.keys[..i];
        used, planned := AssignSegment(ref, g, active, k, segments.at[k], used, planned);
      }
      assert segments.keys[..|segments.keys|] == segments.keys;
    }

    method PlanGroup(ref: nat, g: GroupKey, src: seq<Row>) returns (error: Option<Error>)
      modifies this
      ensures match GroupStep(snapshot, old(Now()), ref, g, src)
        case Ok(st) => error == None && Now() == st
        case Err(e) => error == Some(e)
    {
      var stop := StopReason(snapshot, g, src);
      if stop.Some? {
        exceptions := exceptions + [(ref, stop.value)];
        return None;
      }
      var used, planned := AssignSegments(ref, g, Segments(snapshot, g, src));
      error := UpdateJobs(ref, Zeroing(Active(snapshot, g), used));
      if error.Some? { return; }
      error := UpdateJobs(ref, planned);
      if error.Some? { return; }
      outcomes := outcomes + [Outcome(ref, SumOf(src, RowKg), SumOf(Positive(src), RowRolls), src)];
      return None;
    }
  }

  method PickCandidate(active: seq<Batch>, used: set<Id>, k: SegmentKey, qty: Kg) returns (best: Option<Batch>)
    ensures best == Choose(active, used, k, qty)
  {
    best := None;
    for i := 0 to |active|
      invariant best == Choose(active[..i], used, k, qty)
    {
      assert active[..i + 1][..i] == active[..i];
      if Candidate(active[i], used, k.0) && (best.None? || Preferred(active[i], best.value, k, qty)) {
        best := Some(active[i]);
      }
    }
    assert active[..|active|] == active;
  }

  lemma {:induction false} UpdateAllStops(s: Snapshot, st: State, ref: nat, jobs: seq<Job>, i: nat)
    requires i <= |jobs| && UpdateAll(s, st, ref, jobs[..i]).Err?
    ensures UpdateAll(s, st, ref, jobs) == UpdateAll(s, st, ref, jobs[..i])
  {
    if i == |jobs| {
      assert jobs[..i] == jobs;
    } else {
      var l := |jobs| - 1;
      assert jobs[..l][..i] == jobs[..i];
      UpdateAllStops(s, st, ref, jobs[..l], i);
    }
  }

  lemma {:induction false} PlanStops(s: Snapshot, groups: Index<GroupKey, Row>, keys: seq<GroupKey>, i: nat)
    requires i <= |keys| && PlanGroups(s, groups, keys[..i]).Err?
    ensures PlanGroups(s, groups, keys) == PlanGroups(s, groups, keys[..i])
  {
    if i == |keys| {
      assert keys[..i] == keys;
    } else {
      var l := |keys| - 1;
      assert keys[..l][..i] == keys[..i];
      PlanStops(s, groups, keys[..l], i);
    }
  }

  method GroupRows(rows: seq<Row>) returns (grouped: Index<GroupKey, Row>)
    ensures grouped == Groups(rows)
  {
    grouped := Index([], map[]);
    for i := 0 to |rows|
      invariant grouped == IndexBy(rows[..i], RowKey)
    {
      assert rows[..i + 1][..i] == rows[..i];
      grouped := grouped.Add(RowKey(rows[i]), rows[i]);
    }
    assert rows[..|rows|] == rows;
  }

  /** The ids of all updates, and whether one of them repeats. */
  method ChangedIds(actions: seq<Action>) returns (changed: set<Id>, repeated: bool)
    ensures changed == set id | id in UpdatedIds(actions)
    ensures repeated <==> !Distinct(UpdatedIds(actions))
  {
    changed, repeated := {}, false;
    for i := 0 to |actions|
      invariant changed == set id | id in UpdatedIds(actions[..i])
      invariant repeated <==> !Distinct(UpdatedIds(actions[..i]))
    {
      assert actions[..i + 1][..i] == actions[..i];
      if actions[i].Update? {
        var before := UpdatedIds(actions[..i]);
        DistinctAppend(before, actions[i].id);
        repeated := repeated || actions[i].id in changed;
        changed := changed + {actions[i].id};
        assert UpdatedIds(actions[..i + 1]) == before + [actions[i].id];
      }
    }
    assert actions[..|actions|] == actions;
  }

  /** The whole plan. The repeated-update error is written where the source asserts; it never comes. */
  method Build(s: Snapshot, rows: seq<Row>) returns (plan: Result<State, Error>, preserved: seq<Batch>)
    requires Sound(s)
    ensures plan == Plan(s, rows)
    ensures plan.Ok? ==> forall b :: b in preserved <==> b in s.batches && b.id !in UpdatedIds(plan.value.actions)
  {
    hide GroupStep, UpdatedIds;
    preserved := [];
    var grouped := GroupRows(rows);
    var planner := new Planner(s);
    for i := 0 to |grouped.keys|
      invariant planner.snapshot == s
      invariant PlanGroups(s, grouped, grouped.keys[..i]) == Ok(planner.Now())
    {
      assert grouped.keys[..i + 1][..i] == grouped.keys[..i];
      var error := planner.PlanGroup(i + 1, grouped.keys[i], grouped.Get(grouped.keys[i]));
      if error.Some? {
        PlanStops(s, grouped, grouped.keys, i + 1);
        return Err(error.value), [];
      }
    }
    assert grouped.keys[..|grouped.keys|] == grouped.keys;
    var changed, repeated := ChangedIds(planner.actions);
    UpdatedOnce(s, rows);
    if repeated { return Err(RepeatedUpdate), []; }
    preserved := Filter((b: Batch) => b.id !in changed, s.batches);
    plan := Ok(planner.Now());
  }
}
