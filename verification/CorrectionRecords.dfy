/** The complete source records of the correction, and the paid operations they imply. */
module CorrectionRecords {
  import opened Base
  import opened Json
  import opened Sorting

  /** One validated operation row; `written` is how its source order was written. */
  datatype Operation = Operation(order: int, written: Json, name: string, duration: string, price: string,
                                 currency: string, stage: string, direction: string, final: bool)

  /** One validated record of the complete-details manifest; `operationRows` are the rows
      behind `operations`. */
  datatype Record = Record(id: int, general: Fields, operations: seq<Operation>,
                           operationRows: Json, recipes: Json, metadata: Fields)

  function RecordKey(r: Record): Key { Key(r.id, "", "", "") }

  function Ordered(records: seq<Record>): seq<Record> { Sort(RecordKey, records) }

  function AllOperations(records: seq<Record>): (ops: seq<Operation>)
    ensures forall op :: op in ops <==> exists r :: r in records && op in r.operations
  {
    if records == [] then []
    else
      var l := |records| - 1;
      assert forall r :: r in records <==> r in records[..l] || r == records[l];
      AllOperations(records[..l]) + records[l].operations
  }

  // ----- one operation -----

  /** Only the stages that have a section on the new side are known. */
  function SectionOf(stage: string): Option<string>
  {
    if stage == "Tikuv" then Some("sewing")
    else if stage == "\U{041A}\U{043D}\U{043E}\U{043F}\U{043A}\U{0438}" then Some("sewing")
    else if stage == "\U{0423}\U{043F}\U{0430}\U{043A}\U{043E}\U{0432}\U{043A}\U{0430}" then Some("packaging")
    else if stage == "\U{0421}\U{043A}\U{043B}\U{0430}\U{0434}" then Some("packaging")
    else if stage == "\U{0427}\U{0438}\U{0441}\U{0442}\U{043A}\U{0430}" then Some("pressing")
    else if stage == "\U{041A}\U{043E}\U{043D}\U{0442}\U{0440}\U{043E}\U{043B}\U{044C}" then Some("sewing")
    else None
  }

  function CodePrefix(section: string): string
  {
    if section == "sewing" then "SEW" else if section == "pressing" then "PRS" else "PKG"
  }

  /** SHA-256 over the source fields of an operation; only equality of digests matters. */
  type Digest = Operation -> string

  /** A row as the planning screen stores it; the quantity settings are constants. */
  datatype Paid = Paid(id: string, section: string, code: string, name: string, rate: string, order: int,
                       duration: string, currency: string, stage: string, direction: string, final: bool)

  function Prefix(s: string, n: nat): string { if |s| <= n then s else s[..n] }

  function Upper(s: string): string
  {
    if s == "" then ""
    else Upper(s[..|s| - 1]) + [if 'a' <= s[|s| - 1] <= 'z' then s[|s| - 1] - 'a' + 'A' else s[|s| - 1]]
  }

  /** At least three characters, sign included. */
  function Padded(n: int): string
  {
    var digits := Decimal(if n < 0 then -n else n);
    var zeros := if n < 0 then (if |digits| == 1 then "0" else "") else if |digits| == 1 then "00" else if |digits| == 2 then "0" else "";
    (if n < 0 then "-" else "") + zeros + digits
  }

  predicate Mapped(op: Operation) { SectionOf(op.stage).Some? }

  function PaidOf(digest: Digest, op: Operation): Paid
  {
    var section := if Mapped(op) then SectionOf(op.stage).value else "";
    var d := digest(op);
    Paid("old-erp-op-" + Prefix(d, 24), section, "OERP-" + CodePrefix(section) + "-" + Padded(op.order) + "-" + Upper(Prefix(d, 16)),
         op.name, op.price, op.order, op.duration, op.currency, op.stage, op.direction, op.final)
  }

  function PaidJson(p: Paid): Json
  {
    Obj(map["id" := Str(p.id), "selected" := Bool(true), "section" := Str(p.section), "code" := Str(p.code), "name" := Str(p.name),
            "rate" := Str(p.rate), "sourceOrder" := Int(p.order), "duration" := Str(p.duration), "currency" := Str(p.currency),
            "sourceStage" := Str(p.stage), "changeDirection" := Str(p.direction), "finalOperation" := Bool(p.final),
            "quantityMode" := Str("batch"), "customQuantity" := Int(0), "copies" := Int(1), "splitMode" := Str("none"),
            "splitQuantities" := Arr([])])
  }

  /** The source operation a stored row says it was made from. */
  function SourceOf(row: Fields): Option<Operation>
  {
    var order, final := RequireInt(Field(row, "sourceOrder")), Field(row, "finalOperation");
    var name, duration, price := Field(row, "name"), Field(row, "duration"), Field(row, "rate");
    var currency, stage, direction := Field(row, "currency"), Field(row, "sourceStage"), Field(row, "changeDirection");
    if order.Some? && final.Bool? && name.Str? && duration.Str? && price.Str? && currency.Str? && stage.Str? && direction.Str?
    then Some(Operation(order.value, Int(order.value), name.text, duration.text, price.text, currency.text, stage.text, direction.text, final.flag))
    else None
  }

  /** A stored row loses nothing of its operation but how the order was written, goes to the
      section of its stage, and is named after the digest. */
  lemma {:induction false} RowTellsOperation(digest: Digest, op: Operation)
    ensures var row := PaidJson(PaidOf(digest, op)).fields;
      && SourceOf(row) == Some(op.(written := Int(op.order)))
      && (Mapped(op) ==> Field(row, "section") == Str(SectionOf(op.stage).value))
      && Field(row, "id") == Str("old-erp-op-" + Prefix(digest(op), 24))
  {
    IntReadsBack(op.order);
    hide RequireInt, Prefix, Upper, Padded, CodePrefix, SectionOf;
  }

  /** The stages that are known, with the section and the code they get. */
  const STAGES: map<string, (string, string)> := map[
    "Tikuv" := ("sewing", "SEW"), "\U{041A}\U{043D}\U{043E}\U{043F}\U{043A}\U{0438}" := ("sewing", "SEW"),
    "\U{041A}\U{043E}\U{043D}\U{0442}\U{0440}\U{043E}\U{043B}\U{044C}" := ("sewing", "SEW"),
    "\U{0427}\U{0438}\U{0441}\U{0442}\U{043A}\U{0430}" := ("pressing", "PRS"),
    "\U{0423}\U{043F}\U{0430}\U{043A}\U{043E}\U{0432}\U{043A}\U{0430}" := ("packaging", "PKG"), "\U{0421}\U{043A}\U{043B}\U{0430}\U{0434}" := ("packaging", "PKG")]

  lemma {:induction false} StagesAre(stage: string)
    ensures SectionOf(stage) == if stage in STAGES then Some(STAGES[stage].0) else None
    ensures stage in STAGES ==> CodePrefix(STAGES[stage].0) == STAGES[stage].1
  {
  }

  lemma {:induction false} PrefixIs(s: string, n: nat)
    ensures Prefix(s, n) <= s && |Prefix(s, n)| == if |s| < n then |s| else n
  {
  }

  lemma {:induction false} UpperIs(s: string)
    ensures |Upper(s)| == |s| && forall i :: 0 <= i < |s| ==> Upper(s)[i] == if 'a' <= s[i] <= 'z' then (s[i] as int - 32) as char else s[i]
  {
    if s != "" { UpperIs(s[..|s| - 1]); }
  }

  /** Zeros are put after the sign until there are three characters. */
  lemma {:induction false} PaddedIs(n: int) returns (zeros: string)
    ensures Padded(n) == (if n < 0 then "-" else "") + zeros + Decimal(if n < 0 then -n else n)
    ensures |Padded(n)| >= 3 && (zeros != "" ==> |Padded(n)| == 3) && forall i :: 0 <= i < |zeros| ==> zeros[i] == '0'
  {
    var digits := Decimal(if n < 0 then -n else n);
    var width := 3 - (if n < 0 then 1 else 0);
    zeros := if |digits| >= width then "" else if |digits| == width - 1 then "0" else "00";
    assert |digits| >= 1;
  }

  /** The code of a row: section, padded order, and the beginning of the digest. */
  lemma {:induction false} RowCode(digest: Digest, op: Operation)
    requires op.stage in STAGES
    ensures PaidOf(digest, op).code == "OERP-" + STAGES[op.stage].1 + "-" + Padded(op.order) + "-" + Upper(Prefix(digest(op), 16))
  {
    StagesAre(op.stage);
    hide Padded, Upper, Prefix, STAGES, SectionOf, CodePrefix;
  }

  /** Every row is selected, for the whole batch, once, and not split. */
  lemma {:induction false} RowDefaults(p: Paid)
    ensures var row := PaidJson(p).fields;
      && Field(row, "selected") == Bool(true) && Field(row, "quantityMode") == Str("batch") && Field(row, "customQuantity") == Int(0)
      && Field(row, "copies") == Int(1) && Field(row, "splitMode") == Str("none") && Field(row, "splitQuantities") == Arr([])
  {
  }

  // ----- all operations -----

  /** The order of the stored list; ids make the keys differ. */
  function PaidKey(p: Paid): Key { Key(p.order, p.section, p.name, p.id) }

  /** How operations become rows. */
  function Paying(digest: Digest): Operation -> Paid { op => PaidOf(digest, op) }

  function MapPaid(f: Operation -> Paid, ops: seq<Operation>): (r: seq<Paid>)
    ensures forall p :: p in r <==> exists op :: op in ops && f(op) == p
  {
    if ops == [] then []
    else
      var l := |ops| - 1;
      assert forall op :: op in ops <==> op in ops[..l] || op == ops[l];
      MapPaid(f, ops[..l]) + [f(ops[l])]
  }

  ghost predicate NoClash(f: Operation -> Paid, ops: seq<Operation>)
  {
    forall a, b :: a in ops && b in ops && f(a).id == f(b).id ==> f(a) == f(b)
  }

  /** Two different rows never share an id. */
  ghost predicate NoCollision(digest: Digest, ops: seq<Operation>) { NoClash(Paying(digest), ops) }

  /** The sorted rows without repetition. */
  function PaidOperations(digest: Digest, records: seq<Record>): seq<Paid>
  {
    Sort(PaidKey, Unique(MapPaid(Paying(digest), AllOperations(records))))
  }

  /** The operations agree in everything but how their source order is written. */
  predicate SameContent(a: Operation, b: Operation) { a.(written := b.written) == b }

  /** Operations with one id prefix are the same, but for how their order is written. */
  ghost predicate DigestsTellApart(digest: Digest, ops: seq<Operation>)
  {
    forall a, b :: a in ops && b in ops && Prefix(digest(a), 24) == Prefix(digest(b), 24) ==> SameContent(a, b)
  }

  /** The first characters of the first characters. */
  lemma {:induction false} ShorterPrefix(s: string, t: string)
    requires Prefix(s, 24) == Prefix(t, 24)
    ensures Prefix(s, 16) == Prefix(t, 16)
  {
    assert Prefix(s, 16) == Prefix(Prefix(s, 24), 16) && Prefix(t, 16) == Prefix(Prefix(t, 24), 16);
  }

  lemma {:induction false} SameRowExactly(digest: Digest, a: Operation, b: Operation)
    requires Prefix(digest(a), 24) == Prefix(digest(b), 24)
    ensures PaidOf(digest, a) == PaidOf(digest, b) <==> SameContent(a, b)
  {
    ShorterPrefix(digest(a), digest(b));
    hide Prefix, Upper, Padded, CodePrefix;
  }

  lemma {:induction false} IdIsPrefix(digest: Digest, a: Operation)
    ensures PaidOf(digest, a).id == "old-erp-op-" + Prefix(digest(a), 24)
  {
  }

  lemma {:induction false} SameIdExactly(digest: Digest, a: Operation, b: Operation)
    ensures PaidOf(digest, a).id == PaidOf(digest, b).id <==> Prefix(digest(a), 24) == Prefix(digest(b), 24)
  {
    IdIsPrefix(digest, a);
    IdIsPrefix(digest, b);
    var x, y := Prefix(digest(a), 24), Prefix(digest(b), 24);
    hide PaidOf, Prefix;
    assert ("old-erp-op-" + x)[11..] == x && ("old-erp-op-" + y)[11..] == y;
  }

  /** The collision error fires exactly when the id prefixes of the digests do not tell the
      operations apart. */
  lemma {:induction false} CollisionExactly(digest: Digest, ops: seq<Operation>)
    ensures NoCollision(digest, ops) <==> DigestsTellApart(digest, ops)
  {
    hide PaidOf, Prefix, SameContent;
    var f := Paying(digest);
    assert forall op :: f(op) == PaidOf(digest, op);
    forall a, b | a in ops && b in ops
      ensures (f(a).id == f(b).id ==> f(a) == f(b)) <==> (Prefix(digest(a), 24) == Prefix(digest(b), 24) ==> SameContent(a, b))
    {
      SameIdExactly(digest, a, b);
      if Prefix(digest(a), 24) == Prefix(digest(b), 24) { SameRowExactly(digest, a, b); }
    }
  }

  lemma {:induction false} PaidKeysDiffer(f: Operation -> Paid, ops: seq<Operation>)
    requires NoClash(f, ops)
    ensures KeysDiffer(PaidKey, Unique(MapPaid(f, ops)))
  {
    var rows := Unique(MapPaid(f, ops));
    forall i, j | 0 <= i < j < |rows| ensures PaidKey(rows[i]) != PaidKey(rows[j]) {
      assert rows[i] in rows && rows[j] in rows;
      var a :| a in ops && f(a) == rows[i];
      var b :| b in ops && f(b) == rows[j];
      assert rows[i] != rows[j];
    }
  }

  /** The stored list is sorted, holds the row of every operation, and nothing else. */
  lemma {:induction false} PaidOperationsAre(digest: Digest, records: seq<Record>)
    requires NoCollision(digest, AllOperations(records))
    ensures Sorted(PaidKey, PaidOperations(digest, records))
    ensures forall p :: p in PaidOperations(digest, records) <==> exists op :: op in AllOperations(records) && PaidOf(digest, op) == p
  {
    hide PaidOf;
    var rows := Unique(MapPaid(Paying(digest), AllOperations(records)));
    PaidKeysDiffer(Paying(digest), AllOperations(records));
    SortSorted(PaidKey, rows);
    SortMembers(PaidKey, rows);
  }

  /** Neither the order of the records nor repeated operations matter. */
  lemma {:induction false} PaidOperationsUnique(digest: Digest, a: seq<Record>, b: seq<Record>)
    requires NoCollision(digest, AllOperations(a))
    requires forall op :: op in AllOperations(a) <==> op in AllOperations(b)
    ensures PaidOperations(digest, a) == PaidOperations(digest, b)
  {
    hide PaidOf, PaidOperations;
    PaidOperationsAre(digest, a);
    PaidOperationsAre(digest, b);
    SortedUnique(PaidKey, PaidOperations(digest, a), PaidOperations(digest, b));
  }

  datatype Problem = UnsupportedStage(stage: string) | IdCollision(id: string)

  /** What the dictionary by id holds after some operations. */
  ghost predicate RowsOf(f: Operation -> Paid, ops: seq<Operation>, rows: seq<Paid>, byId: map<string, Paid>)
  {
    && rows == Unique(MapPaid(f, ops))
    && (forall p :: p in rows ==> p.id in byId && byId[p.id] == p)
    && (forall id :: id in byId ==> byId[id] in rows && byId[id].id == id)
  }

  /** Collects one row per distinct operation and sorts them. */
  method CanonicalPaidOperations(digest: Digest, records: seq<Record>) returns (r: Result<seq<Paid>, Problem>)
    ensures r.Ok? <==> NoCollision(digest, AllOperations(records)) && forall op :: op in AllOperations(records) ==> Mapped(op)
    ensures r.Ok? ==> r.value == PaidOperations(digest, records)
  {
    hide *;
    var ordered := Ordered(records);
    SameOperations(records);
    var ops := AllOperations(ordered);
    ghost var f := Paying(digest);
    var rows: seq<Paid>, byId: map<string, Paid> := [], map[];
    NoRows(f, ops);
    for i := 0 to |ops|
      invariant RowsOf(f, ops[..i], rows, byId) && NoClash(f, ops[..i])
      invariant forall j :: 0 <= j < i ==> Mapped(ops[j])
    {
      var op := ops[i];
      if !Mapped(op) { return Err(UnsupportedStage(op.stage)); }
      var paid := PaidOf(digest, op);
      PayingIs(digest, op);
      if paid.id in byId {
        if byId[paid.id] != paid {
          Collides(f, ops, i, rows, byId, paid);
          CollisionMembers(f, ops, AllOperations(records));
          CollisionIs(digest, AllOperations(records));
          return Err(IdCollision(paid.id));
        }
        KnownRow(f, ops, i, rows, byId, paid);
      } else {
        NewRow(f, ops, i, rows, byId, paid);
        rows, byId := rows + [paid], byId[paid.id := paid];
      }
    }
    Collected(digest, records, ops, rows, byId);
    r := Ok(Sort(PaidKey, rows));
  }

  lemma {:induction false} PayingIs(digest: Digest, op: Operation)
    ensures Paying(digest)(op) == PaidOf(digest, op)
  {
    hide PaidOf;
  }

  lemma {:induction false} CollisionIs(digest: Digest, ops: seq<Operation>)
    ensures NoCollision(digest, ops) <==> NoClash(Paying(digest), ops)
  {
    hide PaidOf, NoClash;
  }

  lemma {:induction false} NoRows(f: Operation -> Paid, ops: seq<Operation>)
    ensures RowsOf(f, ops[..0], [], map[]) && NoClash(f, ops[..0])
  {
  }

  lemma {:induction false} SameOperations(records: seq<Record>)
    ensures forall op :: op in AllOperations(Ordered(records)) <==> op in AllOperations(records)
  {
    SortMembers(RecordKey, records);
  }

  lemma {:induction false} UniqueStep(f: Operation -> Paid, ops: seq<Operation>, i: nat)
    requires i < |ops|
    ensures var rows, p := Unique(MapPaid(f, ops[..i])), f(ops[i]);
      Unique(MapPaid(f, ops[..i + 1])) == if p in rows then rows else rows + [p]
  {
    assert ops[..i + 1][..i] == ops[..i];
    var all := MapPaid(f, ops[..i + 1]);
    assert all[..|all| - 1] == MapPaid(f, ops[..i]);
  }

  lemma {:induction false} Listed(f: Operation -> Paid, ops: seq<Operation>, a: Operation)
    requires a in ops
    ensures f(a) in Unique(MapPaid(f, ops))
  {
  }

  lemma {:induction false} NewRow(f: Operation -> Paid, ops: seq<Operation>, i: nat, rows: seq<Paid>, byId: map<string, Paid>, p: Paid)
    requires i < |ops| && RowsOf(f, ops[..i], rows, byId) && NoClash(f, ops[..i])
    requires p == f(ops[i]) && p.id !in byId
    ensures RowsOf(f, ops[..i + 1], rows + [p], byId[p.id := p]) && NoClash(f, ops[..i + 1])
  {
    hide Unique, MapPaid, NoClash;
    UniqueStep(f, ops, i);
    assert p !in rows;
    forall a | a in ops[..i] ensures f(a).id != p.id {
      Listed(f, ops[..i], a);
    }
    Widen(f, ops, i);
  }

  lemma {:induction false} KnownRow(f: Operation -> Paid, ops: seq<Operation>, i: nat, rows: seq<Paid>, byId: map<string, Paid>, p: Paid)
    requires i < |ops| && RowsOf(f, ops[..i], rows, byId) && NoClash(f, ops[..i])
    requires p == f(ops[i]) && p.id in byId && byId[p.id] == p
    ensures RowsOf(f, ops[..i + 1], rows, byId) && NoClash(f, ops[..i + 1])
  {
    hide Unique, MapPaid;
    UniqueStep(f, ops, i);
    forall a | a in ops[..i] ensures f(a).id == p.id ==> f(a) == p {
      Listed(f, ops[..i], a);
    }
    Widen(f, ops, i);
  }

  lemma {:induction false} Widen(f: Operation -> Paid, ops: seq<Operation>, i: nat)
    requires i < |ops| && NoClash(f, ops[..i])
    requires forall a :: a in ops[..i] && f(a).id == f(ops[i]).id ==> f(a) == f(ops[i])
    ensures NoClash(f, ops[..i + 1])
  {
    assert forall op :: op in ops[..i + 1] <==> op in ops[..i] || op == ops[i];
  }

  lemma {:induction false} Collides(f: Operation -> Paid, ops: seq<Operation>, i: nat, rows: seq<Paid>, byId: map<string, Paid>, p: Paid)
    requires i < |ops| && RowsOf(f, ops[..i], rows, byId)
    requires p == f(ops[i]) && p.id in byId && byId[p.id] != p
    ensures !NoClash(f, ops)
  {
    var a :| a in ops[..i] && f(a) == byId[p.id];
    assert a in ops && ops[i] in ops;
  }

  lemma {:induction false} CollisionMembers(f: Operation -> Paid, a: seq<Operation>, b: seq<Operation>)
    requires forall op :: op in a <==> op in b
    ensures NoClash(f, a) <==> NoClash(f, b)
  {
  }

  lemma {:induction false} Collected(digest: Digest, records: seq<Record>, ops: seq<Operation>, rows: seq<Paid>, byId: map<string, Paid>)
    requires forall op :: op in ops <==> op in AllOperations(records)
    requires ops == AllOperations(Ordered(records))
    ensures RowsOf(Paying(digest), ops[..|ops|], rows, byId) && NoClash(Paying(digest), ops[..|ops|]) ==>
      NoCollision(digest, AllOperations(records)) && Sort(PaidKey, rows) == PaidOperations(digest, records)
  {
    hide PaidOf;
    if !(RowsOf(Paying(digest), ops[..|ops|], rows, byId) && NoClash(Paying(digest), ops[..|ops|])) { return; }
    assert ops[..|ops|] == ops;
    PaidOperationsUnique(digest, Ordered(records), records);
  }
}
