/** Roll counts of a plan. A segment whose rolls are negative or not whole is written without
    a count; only then can the rolls of a group miss their target. */
module FabricRolls {
  import opened Base
  import opened FabricPlan
  import opened FabricConservation
  import opened FabricProjection

  /** How many batches with stock have no count. */
  const UNCOUNTED: Measure := (kg: Kg, count: Option<int>) => if kg > 0 && count.None? then 1 else 0

  /** The rolls of the segments whose count is left blank. */
  function BlankRolls(segments: Index<SegmentKey, Sourced>, keys: seq<SegmentKey>): Kg
    requires forall k :: k in keys ==> k in segments.at
  {
    if keys == [] then 0
    else
      var rolls := SumOf(segments.at[keys[|keys| - 1]], PairRolls);
      BlankRolls(segments, keys[..|keys| - 1]) + if WholeRolls(rolls).None? then rolls else 0
  }

  function Blank(s: Snapshot, g: GroupKey, src: seq<Row>): Kg
    requires StopReason(s, g, src).None?
  {
    BlankRolls(Segments(s, g, src), Segments(s, g, src).keys)
  }

  lemma {:induction false} OneSegment(kg: Kg, rolls: Kg)
    requires kg > 0
    ensures 10000 * ROLLS(kg, WholeRolls(rolls)) == if WholeRolls(rolls).None? then 0 else rolls
    ensures UNCOUNTED(kg, WholeRolls(rolls)) == if WholeRolls(rolls).None? then 1 else 0
  {
  }

  lemma {:induction false} SegmentRolls(segments: Index<SegmentKey, Sourced>, keys: seq<SegmentKey>)
    requires forall k :: k in keys ==> k in segments.at && SumOf(segments.at[k], PairKg) > 0
    ensures 10000 * SegmentSum(segments, keys, AnyItem(ROLLS)) == GroupTotal(keys, segments.at, PairRolls) - BlankRolls(segments, keys)
    ensures SegmentSum(segments, keys, AnyItem(UNCOUNTED)) >= 0
    ensures SegmentSum(segments, keys, AnyItem(UNCOUNTED)) == 0 ==> BlankRolls(segments, keys) == 0
  {
    hide ROLLS, UNCOUNTED, WholeRolls, SumOf;
    if keys != [] {
      var l := |keys| - 1;
      var src := segments.at[keys[l]];
      SegmentRolls(segments, keys[..l]);
      OneSegment(SumOf(src, PairKg), SumOf(src, PairRolls));
    }
  }

  lemma {:induction false} ResolvedRolls(s: Snapshot, k: GroupKey, rows: seq<Row>)
    requires Resolve(s, k, rows).Some?
    ensures SumOf(Resolve(s, k, rows).value, PairRolls) == SumOf(rows, RowRolls)
  {
    if rows != [] {
      var l := |rows| - 1;
      ResolvedRolls(s, k, rows[..l]);
      SumAppend(Resolve(s, k, rows[..l]).value, (rows[l], ResolveRow(s, k, rows[l]).value), PairRolls);
    }
  }

  lemma {:induction false} TargetRolls(s: Snapshot, g: GroupKey, src: seq<Row>)
    requires StopReason(s, g, src).None?
    ensures 10000 * GroupTarget(s, g, src, AnyItem(ROLLS)) == SumOf(Positive(src), RowRolls) - Blank(s, g, src)
    ensures GroupTarget(s, g, src, AnyItem(UNCOUNTED)) == 0 ==> Blank(s, g, src) == 0
  {
    var pairs := Resolve(s, g, Positive(src)).value;
    var segments := Segments(s, g, src);
    ResolvedRolls(s, g, Positive(src));
    IndexConserves(pairs, SegKey, PairRolls);
    forall k | k in segments.keys ensures k in segments.at && SumOf(segments.at[k], PairKg) > 0 { SegmentsPositive(s, g, src, k); }
    SegmentRolls(segments, segments.keys);
  }

  lemma {:induction false} MeasuresVanish()
    ensures Vanishing(AnyItem(ROLLS)) && Vanishing(AnyItem(UNCOUNTED))
  {
  }

  /** A carried-out group ends with the rolls of its rows, but for those left blank, and if
      all its stock is counted nothing was left blank. */
  lemma {:induction false} OutcomeRolls(s: Snapshot, rows: seq<Row>, o: Outcome)
    requires Sound(s) && Plan(s, rows).Ok? && o in Plan(s, rows).value.outcomes
    ensures o.sources != []
    ensures var k, actions := RowKey(o.sources[0]), Plan(s, rows).value.actions;
      && StopReason(s, k, o.sources).None?
      && 10000 * GroupSum(s, k, actions, AnyItem(ROLLS)) == o.targetRolls - Blank(s, k, o.sources)
      && (GroupSum(s, k, actions, AnyItem(UNCOUNTED)) == 0 ==> Blank(s, k, o.sources) == 0)
  {
    hide Plan, StopReason, GroupSum, GroupTarget, Groups, Vanishing, Blank, ROLLS, UNCOUNTED;
    OutcomeMet(s, rows, o);
    var k := RowKey(o.sources[0]);
    MeasuresVanish();
    SegmentsCarriedOut(s, rows, k, AnyItem(ROLLS));
    SegmentsCarriedOut(s, rows, k, AnyItem(UNCOUNTED));
    TargetRolls(s, k, o.sources);
  }

  /** The projection of a plan meets all targets of an outcome if and only if the rolls left
      blank add up to nothing; the weight always fits. */
  lemma {:induction false} PreparedExactly(s: Snapshot, rows: seq<Row>, o: Outcome)
    requires Sound(s) && Plan(s, rows).Ok? && o in Plan(s, rows).value.outcomes
    ensures o.sources != [] && StopReason(s, RowKey(o.sources[0]), o.sources).None?
    ensures Prepared(Project(s, Plan(s, rows).value.actions), o) <==> Blank(s, RowKey(o.sources[0]), o.sources) == 0
  {
    hide Plan, StopReason, GroupSum, GroupMap, Groups, Blank, Project, ROLLS, KG;
    OutcomeRolls(s, rows, o);
    ProjectionMeetsTargets(s, rows, o);
    PlanIsFitting(s, rows);
    ProjectTotal(s, Plan(s, rows).value.actions, RowKey(o.sources[0]), ROLLS);
  }

  lemma {:induction false} PlanIsFitting(s: Snapshot, rows: seq<Row>)
    requires Sound(s) && Plan(s, rows).Ok?
    ensures Fitting(s, Plan(s, rows).value.actions)
  {
    PlanFits(s, rows, Groups(rows).keys);
  }

  /** For instance a group with a single row of two and a half rolls. */
  lemma {:induction false} HalfRollStopsThePlan(s: Snapshot, rows: seq<Row>, o: Outcome, r: Row)
    requires Sound(s) && Plan(s, rows).Ok? && o in Plan(s, rows).value.outcomes
    requires o.sources == [r] && r.kg > 0 && r.rolls == 25000
    ensures !Prepared(Project(s, Plan(s, rows).value.actions), o)
  {
    PreparedExactly(s, rows, o);
    hide Plan, Prepared, Project;
    SingleRowBlank(s, RowKey(r), r);
  }

  lemma {:induction false} SingleRowBlank(s: Snapshot, g: GroupKey, r: Row)
    requires StopReason(s, g, [r]).None? && r.kg > 0 && WholeRolls(r.rolls).None?
    ensures Blank(s, g, [r]) == r.rolls
  {
    SinglePositive(r);
    var p := SingleResolved(s, g, r);
    SinglePair(p);
    hide Positive, Resolve, WholeRolls, SumOf, BlankRolls;
  }

  lemma {:induction false} SinglePositive(r: Row)
    requires r.kg > 0
    ensures Positive([r]) == [r]
  {
    var none: seq<Row> := [];
    assert [r][..0] == none && Positive(none) == none;
  }

  lemma {:induction false} SingleResolved(s: Snapshot, g: GroupKey, r: Row) returns (p: Sourced)
    ensures Resolve(s, g, [r]).Some? ==> Resolve(s, g, [r]) == Some([p]) && p.0 == r
  {
    hide ResolveRow;
    var none: seq<Row>, noPairs: seq<Sourced> := [], [];
    assert [r][..0] == none && Resolve(s, g, none) == Some(noPairs);
    var item := ResolveRow(s, g, r);
    p := (r, if item.Some? then item.value else NewItem(""));
    assert noPairs + [p] == [p];
  }

  lemma {:induction false} SinglePair(p: Sourced)
    ensures var segments := IndexBy([p], SegKey);
      segments.keys == [SegKey(p)] && SegKey(p) in segments.at && segments.at[SegKey(p)] == [p]
    ensures SumOf([p], PairRolls) == p.0.rolls
    ensures BlankRolls(IndexBy([p], SegKey), IndexBy([p], SegKey).keys) == if WholeRolls(p.0.rolls).None? then p.0.rolls else 0
  {
    var none: seq<Sourced> := [];
    assert [p][..0] == none && IndexBy(none, SegKey) == Index([], map[]) && SumOf(none, PairRolls) == 0;
    var noKeys: seq<SegmentKey> := [];
    assert [SegKey(p)][..0] == noKeys;
    assert BlankRolls(IndexBy([p], SegKey), noKeys) == 0;
  }

  // ----- the audit -----

  /** Every batch of the group that has stock has a count. */
  predicate AllCounted(p: map<int, Batch>, k: GroupKey)
  {
    forall id :: id in p && BatchKey(p[id]) == k && p[id].quantity > 0 ==> p[id].pieceCount.Some?
  }

  lemma {:induction false} CountedIsZero(p: map<int, Batch>, k: GroupKey)
    requires AllCounted(p, k)
    ensures Total(GroupMap(p, k, UNCOUNTED)) == 0
  {
    var m := GroupMap(p, k, UNCOUNTED);
    forall id | id in m ensures m[id] == 0 {}
    TotalZero(m);
  }
}
