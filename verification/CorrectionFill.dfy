/** Filling the missing details of a model from its source records, never replacing a value. */
module CorrectionFill {
  import opened Base
  import opened Json
  import opened CorrectionRecords

  const GENERAL_TO_DETAILS: seq<(string, string)> := [
    ("Company", "legacy_company"), ("Date", "legacy_source_date"), ("Description", "legacy_description"),
    ("Embroidery", "legacy_master_embroidery"), ("Name", "legacy_sew_model_name"),
    ("Parent Sew Model", "legacy_parent_sew_model"), ("Planning Type", "legacy_planning_type"),
    ("Product", "legacy_product"), ("Sew Model Code", "legacy_sew_model_code"), ("Style", "legacy_style"),
    ("Thermal Print", "legacy_master_thermal_print"), ("Variant", "legacy_model_variant")]

  predicate Present(v: Json) { v.Bool? || v.Num? || v.Arr? || v.Obj? || (v.Str? && !Blank(v.text)) }

  predicate Missing(v: Json) { v.Null? || (v.Str? && Blank(v.text)) }

  /** The values the records give one field. */
  function Given(records: seq<Record>, source: string): seq<Json>
  {
    if records == [] then []
    else
      var l := |records| - 1;
      var v := Field(records[l].general, source);
      if Present(v) then Given(records[..l], source) + [v] else Given(records[..l], source)
  }

  /** What the source says about one field, once each. */
  function Values(records: seq<Record>, source: string): seq<Json> { Unique(Given(records, source)) }

  /** They are the values that some record states and that are not blank. */
  lemma {:induction false} ValuesAre(records: seq<Record>, source: string)
    ensures Distinct(Values(records, source))
    ensures forall v :: v in Values(records, source) <==> Present(v) && exists r :: r in records && source in r.general && r.general[source] == v
  {
    GivenAre(records, source);
  }

  lemma {:induction false} GivenAre(records: seq<Record>, source: string)
    ensures forall v :: v in Given(records, source) <==> Present(v) && exists r :: r in records && source in r.general && r.general[source] == v
  {
    hide Present;
    if records != [] {
      var l := |records| - 1;
      GivenAre(records[..l], source);
      assert forall r :: r in records <==> r in records[..l] || r == records[l];
      assert !Present(Null) by { NullIsAbsent(); }
    }
  }

  lemma {:induction false} NullIsAbsent()
    ensures !Present(Null)
  {
  }

  predicate Fills(values: seq<Json>, current: Json) { |values| == 1 && Missing(current) }

  predicate Differs(values: seq<Json>, current: Json) { |values| == 1 && !Missing(current) && current != values[0] }

  /** The general block and what was noted about it. */
  datatype Outcome = Outcome(general: Fields, fills: Fields, conflicts: map<string, seq<Json>>, preserved: Fields)

  function Step(o: Outcome, records: seq<Record>, pair: (string, string)): Outcome
  {
    var values, target := Values(records, pair.0), pair.1;
    var current := Field(o.general, target);
    if |values| > 1 then o.(conflicts := o.conflicts[target := values])
    else if Fills(values, current) then
      o.(general := o.general[target := values[0]], fills := o.fills[target := values[0]])
    else if Differs(values, current) then o.(preserved := o.preserved[target := current])
    else o
  }

  function Filled(general: Fields, records: seq<Record>, pairs: seq<(string, string)>): Outcome
  {
    if pairs == [] then Outcome(general, map[], map[], map[])
    else Step(Filled(general, records, pairs[..|pairs| - 1]), records, pairs[|pairs| - 1])
  }

  /** No two source fields go to the same place. */
  ghost predicate TargetsDiffer(pairs: seq<(string, string)>)
  {
    forall i, j :: 0 <= i < j < |pairs| ==> pairs[i].1 != pairs[j].1
  }

  lemma {:induction false} GeneralTargetsDiffer()
    ensures TargetsDiffer(GENERAL_TO_DETAILS)
  {
  }

  /** A place that no source field goes to is left alone. */
  lemma {:induction false} OthersUntouched(general: Fields, records: seq<Record>, pairs: seq<(string, string)>, t: string)
    requires forall i :: 0 <= i < |pairs| ==> pairs[i].1 != t
    ensures var o := Filled(general, records, pairs);
      (t in o.general <==> t in general) && Field(o.general, t) == Field(general, t)
      && t !in o.fills && t !in o.conflicts && t !in o.preserved
  {
    if pairs != [] {
      OthersUntouched(general, records, pairs[..|pairs| - 1], t);
    }
  }

  /** Nothing is stored, or only white space. */
  ghost predicate IsEmpty(v: Json) { v == Null || exists text :: v == Str(text) && Blank(text) }

  /** The same, without the vocabulary of the loop: the one agreed value goes to an empty place,
      and a place that is not empty keeps what it has. */
  lemma {:induction false} FilledExactly(general: Fields, records: seq<Record>, pairs: seq<(string, string)>, i: nat, v: Json)
    requires i < |pairs| && TargetsDiffer(pairs)
    ensures var o, t, values := Filled(general, records, pairs), pairs[i].1, Values(records, pairs[i].0);
      && (t in o.fills && o.fills[t] == v <==> IsEmpty(Field(general, t)) && values == [v])
      && (IsEmpty(Field(general, t)) && values == [v] ==> t in o.general && o.general[t] == v)
      && (!IsEmpty(Field(general, t)) ==> Field(o.general, t) == Field(general, t))
      && (t in o.preserved && o.preserved[t] == v <==> !IsEmpty(Field(general, t)) && Field(general, t) == v && |values| == 1 && values[0] != v)
  {
    FilledAt(general, records, pairs, i);
    FillsGiven(general, records, pairs, i);
    EmptyIs(Field(general, pairs[i].1));
    hide Filled, Values, TargetsDiffer, Missing, IsEmpty;
  }

  lemma {:induction false} EmptyIs(v: Json)
    ensures IsEmpty(v) <==> Missing(v)
  {
  }

  lemma {:induction false} FillsGiven(general: Fields, records: seq<Record>, pairs: seq<(string, string)>, i: nat)
    requires i < |pairs| && TargetsDiffer(pairs)
    ensures var o, t := Filled(general, records, pairs), pairs[i].1;
      t in o.fills ==> t in o.general && o.fills[t] == o.general[t]
  {
    hide Values, Missing;
    var l := |pairs| - 1;
    if i < l { FillsGiven(general, records, pairs[..l], i); }
    else { OthersUntouched(general, records, pairs[..l], pairs[i].1); }
  }

  /** A field is filled exactly when the records agree on one value and the place is empty;
      several values are reported as a conflict, another stored value as preserved. */
  lemma {:induction false} FilledAt(general: Fields, records: seq<Record>, pairs: seq<(string, string)>, i: nat)
    requires i < |pairs| && TargetsDiffer(pairs)
    ensures var o, t, values := Filled(general, records, pairs), pairs[i].1, Values(records, pairs[i].0);
      && Field(o.general, t) == (if Fills(values, Field(general, t)) then values[0] else Field(general, t))
      && (t in o.general <==> t in general || Fills(values, Field(general, t)))
      && (t in o.fills <==> Fills(values, Field(general, t)))
      && (t in o.conflicts <==> |values| > 1) && (t in o.conflicts ==> o.conflicts[t] == values)
      && (t in o.preserved <==> Differs(values, Field(general, t)))
      && (t in o.preserved ==> o.preserved[t] == Field(general, t))
  {
    hide Values, Field, Missing;
    var l := |pairs| - 1;
    if i == l {
      OthersUntouched(general, records, pairs[..l], pairs[i].1);
      StepHere(Filled(general, records, pairs[..l]), records, pairs[l]);
    } else {
      FilledAt(general, records, pairs[..l], i);
      StepElsewhere(Filled(general, records, pairs[..l]), records, pairs[l], pairs[i].1);
    }
  }

  lemma {:induction false} StepHere(o: Outcome, records: seq<Record>, pair: (string, string))
    requires pair.1 !in o.fills && pair.1 !in o.conflicts && pair.1 !in o.preserved
    ensures var n, t, values := Step(o, records, pair), pair.1, Values(records, pair.0);
      && Field(n.general, t) == (if Fills(values, Field(o.general, t)) then values[0] else Field(o.general, t))
      && (t in n.general <==> t in o.general || Fills(values, Field(o.general, t)))
      && (t in n.fills <==> Fills(values, Field(o.general, t)))
      && (t in n.conflicts <==> |values| > 1) && (t in n.conflicts ==> n.conflicts[t] == values)
      && (t in n.preserved <==> Differs(values, Field(o.general, t)))
      && (t in n.preserved ==> n.preserved[t] == Field(o.general, t))
  {
    hide Values, Missing;
  }

  lemma {:induction false} StepElsewhere(o: Outcome, records: seq<Record>, pair: (string, string), t: string)
    requires pair.1 != t
    ensures var n := Step(o, records, pair);
      && (t in n.general <==> t in o.general) && Field(n.general, t) == Field(o.general, t)
      && (t in n.fills <==> t in o.fills) && (t in n.conflicts <==> t in o.conflicts) && (t in n.preserved <==> t in o.preserved)
      && (t in o.conflicts ==> n.conflicts[t] == o.conflicts[t]) && (t in o.preserved ==> n.preserved[t] == o.preserved[t])
  {
  }

  lemma {:induction false} GivenPresent(records: seq<Record>, source: string)
    ensures forall v :: v in Given(records, source) ==> Present(v)
  {
    if records != [] { GivenPresent(records[..|records| - 1], source); }
  }

  lemma {:induction false} PresentIsNotMissing(records: seq<Record>, source: string)
    requires |Values(records, source)| == 1
    ensures !Missing(Values(records, source)[0])
  {
    GivenPresent(records, source);
    assert Values(records, source)[0] in Values(records, source);
  }

  /** Every stored value that is not blank stays, and nothing is removed. */
  lemma {:induction false} FillAddsOnly(general: Fields, records: seq<Record>, t: string)
    ensures var after := Filled(general, records, GENERAL_TO_DETAILS).general;
      (t in general ==> t in after) && (!Missing(Field(general, t)) ==> Field(after, t) == Field(general, t))
  {
    GeneralTargetsDiffer();
    var pairs := GENERAL_TO_DETAILS;
    hide GENERAL_TO_DETAILS, Filled, Values;
    if i: nat :| i < |pairs| && pairs[i].1 == t {
      FilledAt(general, records, pairs, i);
    } else {
      OthersUntouched(general, records, pairs, t);
    }
  }

  /** The general block keeps every value that is not blank. */
  ghost predicate GeneralGains(a: Json, b: Json)
  {
    b == a || a.Null? || (a.Obj? && b.Obj? && forall t :: t in a.fields ==> t in b.fields && (Missing(a.fields[t]) || b.fields[t] == a.fields[t]))
  }

  lemma {:induction false} GeneralTransitive(a: Json, b: Json, c: Json)
    requires GeneralGains(a, b) && GeneralGains(b, c)
    ensures GeneralGains(a, c)
  {
    hide Missing;
  }

  lemma {:induction false} FillGains(v: Json, records: seq<Record>)
    requires v.Null? || v.Obj?
    ensures GeneralGains(v, Obj(Filled(if v.Obj? then v.fields else map[], records, GENERAL_TO_DETAILS).general))
  {
    hide Filled, GENERAL_TO_DETAILS, Missing;
    if v.Obj? {
      forall t | t in v.fields { FillAddsOnly(v.fields, records, t); }
    }
  }

  /** Filling again finds nothing to fill and changes nothing; conflicts and preserved values
      are reported as before. */
  lemma {:induction false} FillIdempotent(general: Fields, records: seq<Record>, pairs: seq<(string, string)>)
    requires TargetsDiffer(pairs)
    ensures var o := Filled(general, records, pairs);
      Filled(o.general, records, pairs) == Outcome(o.general, map[], o.conflicts, o.preserved)
  {
    FillAgain(general, records, pairs, pairs);
  }

  lemma {:induction false} FillAgain(general: Fields, records: seq<Record>, pairs: seq<(string, string)>, part: seq<(string, string)>)
    requires TargetsDiffer(pairs) && part <= pairs
    ensures var o := Filled(general, records, pairs);
      Filled(o.general, records, part) == Outcome(o.general, map[], Filled(general, records, part).conflicts, Filled(general, records, part).preserved)
  {
    if part != [] {
      var l := |part| - 1;
      FillAgain(general, records, pairs, part[..l]);
      FilledAt(general, records, pairs, l);
      FilledAt(general, records, part, l);
      if |Values(records, part[l].0)| == 1 { PresentIsNotMissing(records, part[l].0); }
      OthersUntouched(general, records, part[..l], part[l].1);
    }
  }

  // ----- paid operations -----

  datatype PaidStatus = FilledRows | FilledEmpty | AlreadyExact | PreservedRows | PreservedCamelCase

  const PAID := "paid_operations"
  const PAID_CAMEL := "paidOperations"

  /** Only a missing list is filled: absent (and not kept under the other name), or null. */
  function PaidFilled(details: Fields, rows: Json): (Fields, PaidStatus)
  {
    var done := if rows == Arr([]) then FilledEmpty else FilledRows;
    if PAID in details then
      if details[PAID].Null? then (details[PAID := rows], done)
      else (details, if details[PAID] == rows then AlreadyExact else PreservedRows)
    else if !Field(details, PAID_CAMEL).Null? then (details, PreservedCamelCase)
    else (details[PAID := rows], done)
  }

  /** The list is filled if and only if the document has none under either name, a null
      counting as none; the status says which of the cases it was. */
  lemma {:induction false} PaidFilledExactly(details: Fields, rows: Json)
    requires !rows.Null?
    ensures var (after, status) := PaidFilled(details, rows);
      var missing := Field(details, PAID).Null? && (PAID in details || Field(details, PAID_CAMEL).Null?);
      && after == (if missing then details[PAID := rows] else details)
      && (missing <==> status.FilledRows? || status.FilledEmpty?) && (status.FilledEmpty? ==> rows == Arr([]))
      && (status.FilledRows? ==> rows != Arr([])) && (status.AlreadyExact? <==> Field(details, PAID) == rows)
      && (status.PreservedRows? <==> Field(details, PAID) != rows && !Field(details, PAID).Null?)
  {
  }

  /** A second fill changes nothing, and a stored list is never replaced. */
  lemma {:induction false} PaidFillStable(details: Fields, rows: Json)
    requires !rows.Null?
    ensures PaidFilled(PaidFilled(details, rows).0, rows).0 == PaidFilled(details, rows).0
    ensures forall k :: k in details ==>
      k in PaidFilled(details, rows).0 && (PaidFilled(details, rows).0[k] == details[k] || (k == PAID && details[k].Null?))
  {
  }

  /** The details of one model, updated in place. */
  class Details {
    var fields: Fields

    constructor (fields: Fields)
      ensures this.fields == fields
    {
      this.fields := fields;
    }

    method FillMissingGeneral(records: seq<Record>) returns (ok: bool, fills: Fields, conflicts: map<string, seq<Json>>, preserved: Fields)
      modifies this
      ensures ok <==> Field(old(fields), "general").Null? || Field(old(fields), "general").Obj?
      ensures !ok ==> fields == old(fields)
      ensures ok ==> Outcome(GeneralOf(fields), fills, conflicts, preserved) == Filled(GeneralOf(old(fields)), Ordered(records), GENERAL_TO_DETAILS)
      ensures ok ==> fields == old(fields)["general" := Obj(GeneralOf(fields))]
    {
      hide Step, Values, Ordered;
      var stored := Field(fields, "general");
      if !(stored.Null? || stored.Obj?) { return false, map[], map[], map[]; }
      var general: Fields := if stored.Obj? then stored.fields else map[];
      var start := general;
      fills, conflicts, preserved := map[], map[], map[];
      var ordered := Ordered(records);
      for i := 0 to |GENERAL_TO_DETAILS|
        invariant fields == old(fields)
        invariant Outcome(general, fills, conflicts, preserved) == Filled(start, ordered, GENERAL_TO_DETAILS[..i])
      {
        var pair := GENERAL_TO_DETAILS[i];
        assert GENERAL_TO_DETAILS[..i + 1][..i] == GENERAL_TO_DETAILS[..i];
        StepIs(Outcome(general, fills, conflicts, preserved), ordered, pair);
        var values := Values(ordered, pair.0);
        if |values| > 1 {
          conflicts := conflicts[pair.1 := values];
          continue;
        }
        if values == [] { continue; }
        var current := Field(general, pair.1);
        if Missing(current) {
          general, fills := general[pair.1 := values[0]], fills[pair.1 := values[0]];
        } else if current != values[0] {
          preserved := preserved[pair.1 := current];
        }
      }
      assert GENERAL_TO_DETAILS[..|GENERAL_TO_DETAILS|] == GENERAL_TO_DETAILS;
      fields, ok := fields["general" := Obj(general)], true;
    }

    method FillMissingPaidOperations(rows: Json) returns (status: PaidStatus)
      modifies this
      ensures (fields, status) == PaidFilled(old(fields), rows)
    {
      if PAID in fields {
        if fields[PAID].Null? {
          fields := fields[PAID := rows];
          return if rows == Arr([]) then FilledEmpty else FilledRows;
        }
        if fields[PAID] == rows { return AlreadyExact; }
        return PreservedRows;
      }
      if PAID_CAMEL in fields && !fields[PAID_CAMEL].Null? { return PreservedCamelCase; }
      fields := fields[PAID := rows];
      status := if rows == Arr([]) then FilledEmpty else FilledRows;
    }
  }

  function GeneralOf(details: Fields): Fields
  {
    if Field(details, "general").Obj? then Field(details, "general").fields else map[]
  }

  lemma {:induction false} StepIs(o: Outcome, records: seq<Record>, pair: (string, string))
    ensures var values, t, current := Values(records, pair.0), pair.1, Field(o.general, pair.1);
      Step(o, records, pair) ==
        if |values| > 1 then o.(conflicts := o.conflicts[t := values])
        else if values == [] then o
        else if Missing(current) then o.(general := o.general[t := values[0]], fills := o.fills[t := values[0]])
        else if current != values[0] then o.(preserved := o.preserved[t := current])
        else o
  {
    hide Values, Field;
  }
}
