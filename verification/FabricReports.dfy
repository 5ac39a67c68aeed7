/** What a plan reports: one outcome per group carried out, one exception per group stopped and
    per blank roll count, each under the number of its group. */
module FabricReports {
  import opened Base
  import opened FabricPlan
  import opened FabricConservation
  import opened FabricActions

  /** The segment's rolls do not add up to a whole number of them. */
  ghost predicate LeftBlank(s: Snapshot, g: GroupKey, src: seq<Row>, k: SegmentKey)
  {
    var part := Part(s, g, src, k);
    part != [] && (SumOf(part, RowRolls) < 0 || SumOf(part, RowRolls) % 10000 != 0)
  }

  ghost predicate OutcomeOf(s: Snapshot, g: GroupKey, src: seq<Row>, ref: nat, o: Outcome)
  {
    StopReason(s, g, src).None? && o == Outcome(ref, SumOf(src, RowKg), SumOf(Positive(src), RowRolls), src)
  }

  ghost predicate ExceptionOf(s: Snapshot, g: GroupKey, src: seq<Row>, ref: nat, x: (nat, Reason))
  {
    x.0 == ref && match StopReason(s, g, src)
      case Some(reason) => x.1 == reason
      case None => x.1 == InvalidRollCount && exists k :: LeftBlank(s, g, src, k)
  }

  lemma {:induction false} SegmentThere(s: Snapshot, g: GroupKey, src: seq<Row>, k: SegmentKey)
    requires StopReason(s, g, src).None?
    ensures k in Segments(s, g, src).at <==> Part(s, g, src, k) != []
  {
    if k in Segments(s, g, src).at {
      SegmentIs(s, g, src, k);
    } else {
      var pairs := Resolve(s, g, Positive(src)).value;
      IndexHolds(pairs, SegKey, k, IsSegment(k));
      FilteredPart(s, g, src, k);
    }
  }

  lemma {:induction false} BlankExactly(s: Snapshot, g: GroupKey, src: seq<Row>)
    requires StopReason(s, g, src).None?
    ensures var segments := Segments(s, g, src);
      (exists k :: k in segments.keys && WholeRolls(SumOf(segments.at[k], PairRolls)).None?) <==> exists k :: LeftBlank(s, g, src, k)
  {
    var segments := Segments(s, g, src);
    forall k ensures (k in segments.keys && WholeRolls(SumOf(segments.at[k], PairRolls)).None?) <==> LeftBlank(s, g, src, k) {
      SegmentThere(s, g, src, k);
      if k in segments.keys { SegmentIs(s, g, src, k); }
    }
    hide Segments, LeftBlank, SumOf, WholeRolls, StopReason;
  }

  lemma {:induction false} AssignedReports(s: Snapshot, st: State, ref: nat, g: GroupKey, segments: Index<SegmentKey, Sourced>, keys: seq<SegmentKey>)
    requires segments.Valid() && forall k :: k in keys ==> k in segments.at
    ensures var d := AssignAll(s, st, ref, g, segments, keys);
      && d.st.outcomes == st.outcomes
      && (forall x :: x in d.st.exceptions <==>
            x in st.exceptions || (x == (ref, InvalidRollCount) && exists k :: k in keys && WholeRolls(SumOf(segments.at[k], PairRolls)).None?))
  {
    if keys != [] {
      var l := |keys| - 1;
      AssignedReports(s, st, ref, g, segments, keys[..l]);
      assert forall k :: k in keys <==> k in keys[..l] || k == keys[l];
      hide Active, Choose, SumOf, WholeRolls;
    }
  }

  lemma {:induction false} UpdatesReportNothing(s: Snapshot, st: State, ref: nat, jobs: seq<Job>)
    requires UpdateAll(s, st, ref, jobs).Ok?
    ensures var r := UpdateAll(s, st, ref, jobs).value; r.outcomes == st.outcomes && r.exceptions == st.exceptions
  {
    hide Changed, ListedOn, ReleaseAll;
    if jobs != [] { UpdatesReportNothing(s, st, ref, jobs[..|jobs| - 1]); }
  }

  lemma {:induction false} GroupReports(s: Snapshot, st: State, ref: nat, g: GroupKey, src: seq<Row>)
    requires GroupStep(s, st, ref, g, src).Ok?
    ensures var n := GroupStep(s, st, ref, g, src).value;
      && n.outcomes == st.outcomes + (if StopReason(s, g, src).None? then [Outcome(ref, SumOf(src, RowKg), SumOf(Positive(src), RowRolls), src)] else [])
      && (forall x :: x in n.exceptions <==> x in st.exceptions || ExceptionOf(s, g, src, ref, x))
  {
    if StopReason(s, g, src).None? {
      var segments := Segments(s, g, src);
      AssignedReports(s, st, ref, g, segments, segments.keys);
      BlankExactly(s, g, src);
      var d := AssignAll(s, st, ref, g, segments, segments.keys);
      hide StopReason, AssignAll, Segments, UpdateAll, LeftBlank, SumOf;
      var zero := Zeroing(Active(s, g), d.used);
      UpdatesReportNothing(s, d.st, ref, zero);
      UpdatesReportNothing(s, UpdateAll(s, d.st, ref, zero).value, ref, d.planned);
    }
  }

  ghost predicate Ascending(outcomes: seq<Outcome>, top: nat)
  {
    && (forall i, j :: 0 <= i < j < |outcomes| ==> outcomes[i].ref < outcomes[j].ref)
    && (forall i :: 0 <= i < |outcomes| ==> outcomes[i].ref <= top)
  }

  ghost predicate SomeOutcome(s: Snapshot, rows: seq<Row>, keys: seq<GroupKey>, o: Outcome)
  {
    exists i :: 0 <= i < |keys| && OutcomeOf(s, keys[i], Groups(rows).Get(keys[i]), i + 1, o)
  }

  ghost predicate SomeException(s: Snapshot, rows: seq<Row>, keys: seq<GroupKey>, x: (nat, Reason))
  {
    exists i :: 0 <= i < |keys| && ExceptionOf(s, keys[i], Groups(rows).Get(keys[i]), i + 1, x)
  }

  ghost predicate Reported(s: Snapshot, rows: seq<Row>, keys: seq<GroupKey>, st: State)
  {
    && (forall o :: o in st.outcomes <==> SomeOutcome(s, rows, keys, o))
    && (forall x :: x in st.exceptions <==> SomeException(s, rows, keys, x))
    && Ascending(st.outcomes, |keys|)
  }

  lemma {:induction false} ReportedStep(s: Snapshot, rows: seq<Row>, keys: seq<GroupKey>, st: State, n: State)
    requires keys != [] && Reported(s, rows, keys[..|keys| - 1], st)
    requires var l := |keys| - 1;
      var src := Groups(rows).Get(keys[l]);
      && n.outcomes == st.outcomes + (if StopReason(s, keys[l], src).None? then [Outcome(l + 1, SumOf(src, RowKg), SumOf(Positive(src), RowRolls), src)] else [])
      && (forall x :: x in n.exceptions <==> x in st.exceptions || ExceptionOf(s, keys[l], src, l + 1, x))
    ensures Reported(s, rows, keys, n)
  {
    hide StopReason, ExceptionOf, SumOf, Positive, Groups;
    var l := |keys| - 1;
    assert forall i :: 0 <= i < l ==> keys[..l][i] == keys[i];
    forall o ensures o in n.outcomes <==> o in st.outcomes || OutcomeOf(s, keys[l], Groups(rows).Get(keys[l]), l + 1, o) {}
    hide OutcomeOf;
    forall o ensures SomeOutcome(s, rows, keys, o) <==>
      SomeOutcome(s, rows, keys[..l], o) || OutcomeOf(s, keys[l], Groups(rows).Get(keys[l]), l + 1, o) {}
    forall x ensures SomeException(s, rows, keys, x) <==>
      SomeException(s, rows, keys[..l], x) || ExceptionOf(s, keys[l], Groups(rows).Get(keys[l]), l + 1, x) {}
  }

  lemma {:induction false} GroupsReport(s: Snapshot, rows: seq<Row>, keys: seq<GroupKey>)
    requires PlanGroups(s, Groups(rows), keys).Ok?
    ensures Reported(s, rows, keys, PlanGroups(s, Groups(rows), keys).value)
  {
    hide StopReason, GroupStep, OutcomeOf, ExceptionOf;
    if keys != [] {
      var l := |keys| - 1;
      GroupsReport(s, rows, keys[..l]);
      var st := PlanGroups(s, Groups(rows), keys[..l]).value;
      GroupReports(s, st, l + 1, keys[l], Groups(rows).Get(keys[l]));
      hide Reported;
      ReportedStep(s, rows, keys, st, PlanGroups(s, Groups(rows), keys).value);
    }
  }

  /** The outcomes are those of the groups carried out, in order, with the kg and the rolls of
      their rows; the exceptions are the stopped groups with their reasons and the groups in
      which a roll count was left blank. Every group stands under its number. */
  lemma {:induction false} ReportedExactly(s: Snapshot, rows: seq<Row>)
    requires Plan(s, rows).Ok?
    ensures Reported(s, rows, Groups(rows).keys, Plan(s, rows).value)
  {
    GroupsReport(s, rows, Groups(rows).keys);
  }
}
