/** Adding the reviewed source sections to the provenance of a model without replacing
    anything that is already stored there. */
module CorrectionMerge {
  import opened Base
  import opened Json

  const SECTION_KEY := "complete_sections"
  const IDS := "source_record_ids"
  const SCALARS := ["schema_version", "source_manifest_sha256", "source_manifest_metadata"]
  const SECTIONS := ["general", "operations", "recipes", "record_metadata"]

  /** The sections a model should carry. */
  datatype Desired = Desired(scalars: Fields, ids: seq<int>, sections: map<string, Fields>) {
    ghost predicate Valid() {
      && (forall f :: f in scalars <==> f in SCALARS)
      && (forall f :: f in sections <==> f in SECTIONS)
      && (forall i :: 0 <= i < |ids| ==> ids[i] > 0)
    }
  }

  function Known(d: Desired): set<string> { d.scalars.Keys + {IDS} + d.sections.Keys }

  lemma {:induction false} FieldNames(f: string)
    ensures IDS !in SCALARS && IDS !in SECTIONS
    ensures f in SCALARS ==> f !in SECTIONS
  {
  }

  function Ints(ids: seq<int>): seq<Json>
  {
    if ids == [] then [] else Ints(ids[..|ids| - 1]) + [Int(ids[|ids| - 1])]
  }

  function ReadItems(items: seq<Json>): Option<seq<int>>
  {
    if items == [] then Some([])
    else
      var rest, last := ReadItems(items[..|items| - 1]), RequirePositive(items[|items| - 1]);
      if rest.Some? && last.Some? then Some(rest.value + [last.value]) else None
  }

  /** A stored id list, numbers or their text. */
  function ReadIds(v: Json): Option<seq<int>> { if v.Arr? then ReadItems(v.items) else None }

  lemma {:induction false} PositiveReadsBack(n: int)
    requires n > 0
    ensures RequirePositive(Int(n)) == Some(n)
  {
    IntReadsBack(n);
  }

  lemma {:induction false} IntsReadBack(ids: seq<int>)
    requires forall i :: 0 <= i < |ids| ==> ids[i] > 0
    ensures ReadItems(Ints(ids)) == Some(ids)
  {
    hide RequirePositive;
    if ids != [] {
      var l := |ids| - 1;
      IntsReadBack(ids[..l]);
      PositiveReadsBack(ids[l]);
      var items := Ints(ids);
      IntsLength(ids[..l]);
      assert items[..|items| - 1] == Ints(ids[..l]) && items[|items| - 1] == Int(ids[l]);
      assert ids == ids[..l] + [ids[l]];
    }
  }

  lemma {:induction false} IntsLength(ids: seq<int>)
    ensures |Ints(ids)| == |ids|
  {
    if ids != [] { IntsLength(ids[..|ids| - 1]); }
  }

  predicate AllOf(xs: seq<int>, ys: seq<int>) { forall i :: 0 <= i < |xs| ==> xs[i] in ys }

  /** The stored field does not contradict the desired one. */
  ghost predicate FieldFits(c: Fields, d: Desired, f: string)
    requires d.Valid()
  {
    if f in d.scalars then f in c ==> c[f] == d.scalars[f]
    else if f in d.sections then Field(c, f).Null? || (c[f].Obj? && RowsFit(c[f].fields, d.sections[f]))
    else IDS in c ==> ReadIds(c[IDS]).Some? && AllOf(ReadIds(c[IDS]).value, d.ids)
  }

  ghost predicate RowsFit(rows: Fields, desired: Fields)
  {
    forall k :: k in rows ==> k in desired && rows[k] == desired[k]
  }

  /** The stored sections are a part of the desired ones. */
  ghost predicate Compatible(v: Json, d: Desired)
    requires d.Valid()
  {
    v.Null? || (v.Obj? && forall f :: f in Known(d) ==> FieldFits(v.fields, d, f))
  }

  function DesiredField(c: Fields, d: Desired, f: string): Json
  {
    if f in d.scalars then d.scalars[f]
    else if f in d.sections then Obj(d.sections[f])
    else if IDS in c && ReadIds(c[IDS]) == Some(d.ids) then c[IDS]
    else Arr(Ints(d.ids))
  }

  /** The stored object with some fields brought to their desired value. */
  function Patched(c: Fields, d: Desired, fields: set<string>): Fields
  {
    c + map f | f in fields :: DesiredField(c, d, f)
  }

  function Merged(v: Json, d: Desired): Fields
  {
    Patched(if v.Obj? then v.fields else map[], d, Known(d))
  }

  lemma {:induction false} PatchStep(c: Fields, d: Desired, done: set<string>, f: string)
    requires f !in done
    ensures f in Patched(c, d, done) <==> f in c
    ensures f in c ==> Patched(c, d, done)[f] == c[f]
    ensures Patched(c, d, done + {f}) == Patched(c, d, done)[f := DesiredField(c, d, f)]
    ensures f in c && c[f] == DesiredField(c, d, f) ==> Patched(c, d, done + {f}) == Patched(c, d, done)
    ensures Patched(c, d, done + {f}) == c <==> Patched(c, d, done) == c && f in c && c[f] == DesiredField(c, d, f)
  {
    hide DesiredField;
    var before, after := Patched(c, d, done), Patched(c, d, done + {f});
    SameMap(after, before[f := DesiredField(c, d, f)]);
    if f in c && c[f] == DesiredField(c, d, f) { SameMap(after, before); }
    if after == c {
      forall k | k in before ensures k in c && before[k] == c[k] { assert k in after; }
      SameMap(before, c);
    }
  }

  lemma {:induction false} PatchNothing(c: Fields, d: Desired)
    ensures Patched(c, d, {}) == c
  {
    SameMap(Patched(c, d, {}), c);
  }

  /** Merging again changes nothing. */
  lemma {:induction false} MergeIdempotent(v: Json, d: Desired)
    requires d.Valid() && Compatible(v, d)
    ensures Compatible(Obj(Merged(v, d)), d) && Merged(Obj(Merged(v, d)), d) == Merged(v, d)
  {
    var c := if v.Obj? then v.fields else map[];
    var m := Merged(v, d);
    IntsReadBack(d.ids);
    FieldNames(IDS);
    assert m[IDS] == DesiredField(c, d, IDS);
    assert ReadIds(m[IDS]) == Some(d.ids);
    forall f | f in Known(d) ensures FieldFits(m, d, f) && DesiredField(m, d, f) == m[f] {
      FieldNames(f);
      assert m[f] == DesiredField(c, d, f);
    }
    SameMap(Merged(Obj(m), d), m);
  }

  /** The sections agree with the desired ones on every known field, ids read as integers. */
  ghost predicate Reaches(block: Fields, d: Desired)
  {
    && (forall f :: f in d.scalars ==> f in block && block[f] == d.scalars[f])
    && (forall f :: f in d.sections ==> f in block && block[f] == Obj(d.sections[f]))
    && IDS in block && ReadIds(block[IDS]) == Some(d.ids)
  }

  lemma {:induction false} MergedField(v: Json, d: Desired, f: string)
    requires f in Known(d)
    ensures f in Merged(v, d) && Merged(v, d)[f] == DesiredField(if v.Obj? then v.fields else map[], d, f)
  {
    hide DesiredField;
  }

  lemma {:induction false} DesiredIds(c: Fields, d: Desired)
    requires d.Valid()
    ensures ReadIds(DesiredField(c, d, IDS)) == Some(d.ids)
  {
    FieldNames(IDS);
    IntsReadBack(d.ids);
    hide ReadItems, Ints;
  }

  /** The merged object agrees with the desired one. */
  lemma {:induction false} MergeReachesDesired(v: Json, d: Desired)
    requires d.Valid()
    ensures Reaches(Merged(v, d), d)
    ensures var m := Merged(v, d);
      && (forall f :: f in d.scalars ==> f in m && m[f] == d.scalars[f])
      && (forall f :: f in d.sections ==> f in m && m[f] == Obj(d.sections[f]))
      && IDS in m && ReadIds(m[IDS]) == Some(d.ids)
  {
    hide Merged, ReadIds;
    MergedField(v, d, IDS);
    DesiredIds(if v.Obj? then v.fields else map[], d);
    forall f | f in d.scalars { MergedField(v, d, f); }
    forall f | f in d.sections ensures f in Merged(v, d) && Merged(v, d)[f] == Obj(d.sections[f]) {
      MergedField(v, d, f);
      FieldNames(f);
    }
  }

  /** An id list that reads as the desired ids is kept as it is written; any other is written anew. */
  lemma {:induction false} MergeIdsExactly(v: Json, d: Desired)
    requires d.Valid()
    ensures IDS in Merged(v, d)
    ensures Merged(v, d)[IDS] == if v.Obj? && IDS in v.fields && ReadIds(v.fields[IDS]) == Some(d.ids) then v.fields[IDS] else Arr(Ints(d.ids))
  {
    FieldNames(IDS);
    MergedField(v, d, IDS);
    hide Merged, ReadIds, Ints;
  }

  /** A section keeps its rows and may gain more; a stored null is replaced. */
  ghost predicate SectionGains(a: Json, b: Json) { b == a || a.Null? || (a.Obj? && b.Obj? && RowsFit(a.fields, b.fields)) }

  /** The id list may be written anew when it still names every id it named. */
  ghost predicate IdsGain(a: Json, b: Json)
  {
    b == a || (ReadIds(a).Some? && ReadIds(b).Some? && AllOf(ReadIds(a).value, ReadIds(b).value))
  }

  ghost predicate EntryGains(k: string, a: Json, b: Json)
  {
    if k == IDS then IdsGain(a, b) else if k in SECTIONS then SectionGains(a, b) else b == a
  }

  ghost predicate EntriesGain(a: Fields, b: Fields) { forall k :: k in a ==> k in b && EntryGains(k, a[k], b[k]) }

  /** The sections of a document only gain. */
  ghost predicate BlockGains(a: Json, b: Json) { b == a || a.Null? || (a.Obj? && b.Obj? && EntriesGain(a.fields, b.fields)) }

  lemma {:induction false} RowsFitTransitive(a: Fields, b: Fields, c: Fields)
    requires RowsFit(a, b) && RowsFit(b, c)
    ensures RowsFit(a, c)
  {
  }

  lemma {:induction false} EntryTransitive(k: string, a: Json, b: Json, c: Json)
    requires EntryGains(k, a, b) && EntryGains(k, b, c)
    ensures EntryGains(k, a, c)
  {
    hide RowsFit, ReadIds;
    if k != IDS && a.Obj? && b.Obj? && c.Obj? && RowsFit(a.fields, b.fields) && RowsFit(b.fields, c.fields) {
      RowsFitTransitive(a.fields, b.fields, c.fields);
    }
  }

  lemma {:induction false} BlockTransitive(a: Json, b: Json, c: Json)
    requires BlockGains(a, b) && BlockGains(b, c)
    ensures BlockGains(a, c)
  {
    hide EntryGains;
    if a.Obj? && b.Obj? && c.Obj? && b != a && c != b {
      forall k | k in a.fields ensures k in c.fields && EntryGains(k, a.fields[k], c.fields[k]) {
        EntryTransitive(k, a.fields[k], b.fields[k], c.fields[k]);
      }
    }
  }

  /** Of compatible sections any value but the id list stays or only gains rows, if and only
      if it is not a section stored as null. */
  lemma {:induction false} MergeReplacesExactly(c: Fields, d: Desired, k: string)
    requires d.Valid() && Compatible(Obj(c), d) && k in c && k != IDS
    ensures k in Merged(Obj(c), d)
    ensures var m := Merged(Obj(c), d)[k];
      (m == c[k] || (c[k].Obj? && m.Obj? && RowsFit(c[k].fields, m.fields))) <==> !(k in SECTIONS && c[k].Null?)
    ensures k !in SECTIONS ==> Merged(Obj(c), d)[k] == c[k]
  {
    if k in Known(d) {
      FieldNames(k);
      assert FieldFits(c, d, k);
    }
  }

  /** A section stored as null is compatible with every desired one and gets replaced. */
  lemma {:induction false} NullSectionReplaced(d: Desired)
    requires d.Valid()
    ensures Compatible(Obj(map["general" := Null]), d)
    ensures Merged(Obj(map["general" := Null]), d)["general"] == Obj(d.sections["general"])
  {
    hide RowsFit, ReadIds;
    var c: Fields := map["general" := Null];
    FieldNames("general");
    assert "general" in SECTIONS;
    forall f | f in Known(d) ensures FieldFits(c, d, f) { FieldNames(f); }
  }

  /** Whatever is merged, the stored sections only gain. */
  lemma {:induction false} MergeGains(v: Json, d: Desired)
    requires d.Valid() && Compatible(v, d)
    ensures BlockGains(v, Obj(Merged(v, d)))
  {
    if v.Obj? {
      MergeReachesDesired(v, d);
      hide Merged, RowsFit, ReadIds;
      forall k | k in v.fields ensures k in Merged(v, d) && EntryGains(k, v.fields[k], Merged(v, d)[k]) {
        if k == IDS {
          FieldNames(IDS);
          assert FieldFits(v.fields, d, IDS);
        } else {
          MergeReplacesExactly(v.fields, d, k);
        }
      }
    }
  }

  /** The rows of one section. */
  method MergeRows(current: Fields, desired: Fields) returns (rows: Fields, ok: bool, changed: bool)
    ensures ok <==> RowsFit(current, desired)
    ensures ok <==> forall k :: k in current ==> k in desired && current[k] == desired[k]
    ensures ok ==> rows == desired && (changed <==> current != desired)
  {
    rows, changed := current, false;
    if exists k :: k in current && k !in desired { return rows, false, false; }
    var keys := desired.Keys;
    while keys != {}
      invariant keys <= desired.Keys
      invariant forall k :: k in rows <==> k in current || (k in desired && k !in keys)
      invariant forall k :: k in rows && k in current ==> rows[k] == current[k]
      invariant forall k :: k in desired && k !in keys ==> rows[k] == desired[k]
      invariant changed <==> exists k :: k in rows && k !in current
      decreases |keys|
    {
      var key := PickOne(keys);
      if key !in rows {
        rows, changed := rows[key := desired[key]], true;
        assert key in rows && key !in current;
      } else if rows[key] != desired[key] {
        assert key in current && key in desired;
        return rows, false, false;
      }
      keys := keys - {key};
    }
    SameMap(rows, desired);
    if !changed { SameMap(rows, current); }
    ok := true;
  }

  /** One stored JSON object, updated in place. */
  class Provenance {
    var fields: Fields

    constructor (fields: Fields)
      ensures this.fields == fields
    {
      this.fields := fields;
    }

    /** Brings the stored sections to the desired ones. It succeeds exactly when the stored
        sections are a part of the desired ones, and says whether anything changed. */
    method MergeCompleteSections(d: Desired) returns (ok: bool, changed: bool)
      requires d.Valid()
      modifies this
      ensures ok <==> Compatible(Field(old(fields), SECTION_KEY), d)
      ensures ok ==> fields == old(fields)[SECTION_KEY := Obj(Merged(Field(old(fields), SECTION_KEY), d))]
      ensures ok ==> (changed <==> fields != old(fields))
    {
      var current := Field(fields, SECTION_KEY);
      if current.Null? {
        fields := fields[SECTION_KEY := Obj(Merged(Null, d))];
        return true, true;
      }
      if !current.Obj? { return false, false; }
      var c;
      c, ok, changed := MergeFields(current.fields, d);
      if ok {
        fields := fields[SECTION_KEY := Obj(c)];
        if !changed { SameMap(fields, old(fields)); }
      }
    }
  }

  method MergeFields(c0: Fields, d: Desired) returns (c: Fields, ok: bool, changed: bool)
    requires d.Valid()
    ensures ok <==> forall f :: f in Known(d) ==> FieldFits(c0, d, f)
    ensures ok ==> c == Patched(c0, d, Known(d)) && (changed <==> c != c0)
  {
    c, ok, changed := MergeScalars(c0, d);
    if !ok { return; }
    FieldNames(IDS);
    ghost var done := d.scalars.Keys;
    PatchStep(c0, d, done, IDS);
    if IDS !in c {
      c, changed := c[IDS := Arr(Ints(d.ids))], true;
    } else {
      var ids := ReadIds(c[IDS]);
      if ids.None? || !AllOf(ids.value, d.ids) {
        assert IDS !in d.scalars && IDS !in d.sections && IDS in c0 && ReadIds(c0[IDS]) == ids;
        assert !FieldFits(c0, d, IDS);
        return c, false, false;
      }
      assert FieldFits(c0, d, IDS);
      if ids.value != d.ids {
        c, changed := c[IDS := Arr(Ints(d.ids))], true;
        IntsReadBack(d.ids);
      }
    }
    assert FieldFits(c0, d, IDS);
    var more;
    c, ok, more := MergeSections(c0, c, d);
    changed := changed || more;
  }

  method MergeScalars(c0: Fields, d: Desired) returns (c: Fields, ok: bool, changed: bool)
    requires d.Valid()
    ensures ok <==> forall f :: f in d.scalars ==> FieldFits(c0, d, f)
    ensures ok ==> c == Patched(c0, d, d.scalars.Keys) && (changed <==> c != c0)
  {
    c, changed := c0, false;
    PatchNothing(c0, d);
    ghost var done: set<string> := {};
    for i := 0 to |SCALARS|
      invariant forall f :: f in done <==> f in SCALARS[..i]
      invariant forall f :: f in done ==> FieldFits(c0, d, f)
      invariant c == Patched(c0, d, done) && (changed <==> c != c0)
    {
      var f := SCALARS[i];
      assert f !in SCALARS[..i];
      PatchStep(c0, d, done, f);
      if f !in c {
        c, changed := c[f := d.scalars[f]], true;
      } else if c[f] != d.scalars[f] {
        return c, false, changed;
      }
      done := done + {f};
    }
    SameSet(done, d.scalars.Keys);
    ok := true;
  }

  /** One section of rows. */
  method MergeSection(c: Fields, d: Desired, f: string) returns (value: Json, ok: bool, changed: bool)
    requires d.Valid() && f in d.sections
    ensures ok <==> FieldFits(c, d, f)
    ensures ok ==> value == Obj(d.sections[f])
    ensures ok ==> (changed <==> !(f in c && c[f] == value))
  {
    FieldNames(f);
    var current := Field(c, f);
    if current.Null? { return Obj(d.sections[f]), true, true; }
    if !current.Obj? { return current, false, false; }
    var rows;
    rows, ok, changed := MergeRows(current.fields, d.sections[f]);
    value := Obj(rows);
  }

  lemma {:induction false} SectionStep(c0: Fields, d: Desired, done: set<string>, f: string, c: Fields)
    requires d.Valid() && f in d.sections && f !in done && c == Patched(c0, d, done)
    ensures FieldFits(c, d, f) <==> FieldFits(c0, d, f)
    ensures c[f := Obj(d.sections[f])] == Patched(c0, d, done + {f})
    ensures c[f := Obj(d.sections[f])] == c0 <==> c == c0 && f in c && c[f] == Obj(d.sections[f])
  {
    FieldNames(f);
    PatchStep(c0, d, done, f);
  }

  method MergeSections(c0: Fields, start: Fields, d: Desired) returns (c: Fields, ok: bool, changed: bool)
    requires d.Valid() && start == Patched(c0, d, d.scalars.Keys + {IDS})
    ensures ok <==> forall f :: f in d.sections ==> FieldFits(c0, d, f)
    ensures ok ==> c == Patched(c0, d, Known(d)) && (changed || start != c0 <==> c != c0)
  {
    hide FieldFits, Patched, DesiredField;
    c, changed := start, false;
    ghost var base := d.scalars.Keys + {IDS};
    ghost var done := base;
    for i := 0 to |SECTIONS|
      invariant forall f :: f in done <==> f in base || f in SECTIONS[..i]
      invariant forall f :: f in SECTIONS[..i] ==> FieldFits(c0, d, f)
      invariant c == Patched(c0, d, done) && (changed || start != c0 <==> c != c0)
    {
      var f := SECTIONS[i];
      FieldNames(f);
      assert f in d.sections && f !in done;
      SectionStep(c0, d, done, f, c);
      var value, fits, more := MergeSection(c, d, f);
      if !fits { return c, false, changed; }
      c, changed, done := c[f := value], changed || more, done + {f};
    }
    assert SECTIONS[..|SECTIONS|] == SECTIONS;
    SameSet(done, Known(d));
    ok := true;
  }
}
