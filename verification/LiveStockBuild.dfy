/** Building the package manifest from the live stock audit, and what the importer demands
    of its quantities. */
module LiveStockBuild {
  import opened Base
  import opened Sorting

  // ----- size distributions -----

  datatype Size = Size(name: string, quantity: int)

  function RawTotal(values: seq<Size>): int
  {
    if values == [] then 0 else RawTotal(values[..|values| - 1]) + values[|values| - 1].quantity
  }

  /** The share of one size is a whole number of pieces. */
  predicate Whole(v: Size, target: int, raw: int)
    requires raw > 0
  {
    (v.quantity * target) % raw == 0
  }

  datatype Normalized = Sizes(values: seq<Size>) | Empty | Fractional | Mismatch

  /** `normalize_size_rows`: scales a distribution to a package total. */
  method NormalizeSizeRows(values: seq<Size>, target: int) returns (r: Normalized)
    ensures r.Empty? <==> RawTotal(values) <= 0
    ensures r.Fractional? <==> RawTotal(values) > 0 && exists i :: 0 <= i < |values| && !Whole(values[i], target, RawTotal(values))
    ensures r.Mismatch? <==>
      RawTotal(values) > 0 && (forall i :: 0 <= i < |values| ==> Whole(values[i], target, RawTotal(values)))
      && exists i :: 0 <= i < |values| && values[i].quantity * target <= 0
    ensures r.Sizes? ==> Proportional(values, target, r.values) && RawTotal(r.values) == target && forall i :: 0 <= i < |r.values| ==> r.values[i].quantity > 0
  {
    var raw := RawTotal(values);
    if raw <= 0 { return Empty; }
    if exists i :: 0 <= i < |values| && !Whole(values[i], target, raw) { return Fractional; }
    var result: seq<Size> := [];
    for i := 0 to |values|
      invariant |result| == i
      invariant forall k :: 0 <= k < i ==> result[k].name == values[k].name && result[k].quantity * raw == values[k].quantity * target
    {
      Share(values[i].quantity * target, raw);
      result := result + [Size(values[i].name, (values[i].quantity * target) / raw)];
    }
    ScaledTotal(values, target, raw, result);
    forall i | 0 <= i < |values| ensures result[i].quantity <= 0 <==> values[i].quantity * target <= 0 {
      SameSign(result[i].quantity, raw, values[i].quantity * target);
    }
    if RawTotal(result) != target || exists i :: 0 <= i < |result| && result[i].quantity <= 0 { return Mismatch; }
    r := Sizes(result);
  }

  /** Every quantity is its exact share of the target. */
  ghost predicate Proportional(values: seq<Size>, target: int, result: seq<Size>)
  {
    && |result| == |values|
    && forall k :: 0 <= k < |values| ==> result[k].name == values[k].name && result[k].quantity * RawTotal(values) == values[k].quantity * target
  }

  lemma {:induction false} Share(n: int, raw: int)
    requires raw > 0 && n % raw == 0
    ensures (n / raw) * raw == n
  {
  }

  lemma {:induction false} SameSign(q: int, raw: int, n: int)
    requires raw > 0 && q * raw == n
    ensures q <= 0 <==> n <= 0
  {
  }

  lemma {:induction false} ScaledSum(values: seq<Size>, target: int, raw: int, result: seq<Size>)
    requires |result| == |values| && forall k :: 0 <= k < |values| ==> result[k].quantity * raw == values[k].quantity * target
    ensures RawTotal(result) * raw == RawTotal(values) * target
  {
    if values != [] {
      var l := |values| - 1;
      ScaledSum(values[..l], target, raw, result[..l]);
      Distribute(RawTotal(result[..l]), result[l].quantity, raw);
      Distribute(RawTotal(values[..l]), values[l].quantity, target);
    }
  }

  lemma {:induction false} Distribute(a: int, b: int, c: int)
    ensures (a + b) * c == a * c + b * c
  {
  }

  /** Whole shares always add up to the target. */
  lemma {:induction false} ScaledTotal(values: seq<Size>, target: int, raw: int, result: seq<Size>)
    requires raw == RawTotal(values) && raw > 0
    requires |result| == |values| && forall k :: 0 <= k < |values| ==> result[k].quantity * raw == values[k].quantity * target
    ensures RawTotal(result) == target
  {
    ScaledSum(values, target, raw, result);
    Cancel(RawTotal(result), target, raw);
  }

  lemma {:induction false} Cancel(a: int, b: int, raw: int)
    requires raw > 0 && a * raw == raw * b
    ensures a == b
  {
    assert (a - b) * raw == 0;
  }

  // ----- items -----

  datatype ItemKey = ItemKey(model: string, variant: string, size: string)

  datatype Source = Source(key: ItemKey, quantity: int)

  /** Where an item goes: a catalog model, or a hidden one made for the warehouse. */
  datatype Target = Catalog(id: nat, code: string) | Hidden

  datatype Item = Item(key: ItemKey, quantity: int, target: Target)

  function SourceTotal(src: seq<Source>): int
  {
    if src == [] then 0 else SourceTotal(src[..|src| - 1]) + src[|src| - 1].quantity
  }

  function ItemTotal(items: seq<Item>): int
  {
    if items == [] then 0 else ItemTotal(items[..|items| - 1]) + items[|items| - 1].quantity
  }

  /** The pieces of one model, variant and size. */
  function PiecesOf(src: seq<Source>, key: ItemKey): int
  {
    if src == [] then 0
    else PiecesOf(src[..|src| - 1], key) + if src[|src| - 1].key == key then src[|src| - 1].quantity else 0
  }

  function ItemKeys(src: seq<Source>): seq<ItemKey> { seq(|src|, i requires 0 <= i < |src| => src[i].key) }

  lemma {:induction false} ItemKeysStep(src: seq<Source>)
    requires src != []
    ensures ItemKeys(src) == ItemKeys(src[..|src| - 1]) + [src[|src| - 1].key]
  {
  }

  function KeysOf(src: seq<Source>): (keys: seq<ItemKey>)
    ensures Distinct(keys) && forall k :: k in keys <==> k in ItemKeys(src)
  {
    if src == [] then []
    else
      var l := |src| - 1;
      var rest := KeysOf(src[..l]);
      DistinctAppend(rest, src[l].key);
      ItemKeysStep(src);
      if src[l].key in rest then rest else rest + [src[l].key]
  }

  function PiecesOver(src: seq<Source>, keys: seq<ItemKey>): int
  {
    if keys == [] then 0 else PiecesOver(src, keys[..|keys| - 1]) + PiecesOf(src, keys[|keys| - 1])
  }

  lemma {:induction false} PiecesStep(src: seq<Source>, keys: seq<ItemKey>)
    requires Distinct(keys) && src != []
    ensures PiecesOver(src, keys) ==
      PiecesOver(src[..|src| - 1], keys) + if src[|src| - 1].key in keys then src[|src| - 1].quantity else 0
  {
    if keys != [] {
      var l := |keys| - 1;
      PiecesStep(src, keys[..l]);
      assert keys[l] !in keys[..l] && forall k :: k in keys <==> k in keys[..l] || k == keys[l];
    }
  }

  lemma {:induction false} NoPieces(keys: seq<ItemKey>)
    ensures PiecesOver([], keys) == 0
  {
    if keys != [] { NoPieces(keys[..|keys| - 1]); }
  }

  /** Aggregation loses and invents nothing. */
  lemma {:induction false} PiecesConserved(src: seq<Source>, keys: seq<ItemKey>)
    requires Distinct(keys) && forall i :: 0 <= i < |src| ==> src[i].key in keys
    ensures PiecesOver(src, keys) == SourceTotal(src)
  {
    if src == [] {
      NoPieces(keys);
    } else {
      var l := |src| - 1;
      PiecesStep(src, keys);
      assert forall i :: 0 <= i < l ==> src[..l][i].key in keys by { assert forall i :: 0 <= i < l ==> src[..l][i] == src[i]; }
      PiecesConserved(src[..l], keys);
    }
  }

  function OrderOf(k: ItemKey): Key { Key(0, k.model, k.variant, k.size) }

  function SortedKeys(src: seq<Source>): seq<ItemKey> { Sort(OrderOf, KeysOf(src)) }

  lemma {:induction false} SortedKeysAre(src: seq<Source>)
    ensures Distinct(SortedKeys(src)) && forall i :: 0 <= i < |src| ==> src[i].key in SortedKeys(src)
    ensures forall k :: k in SortedKeys(src) <==> k in ItemKeys(src)
    ensures src != [] ==> SortedKeys(src) != []
  {
    var keys := KeysOf(src);
    hide KeysOf;
    assert KeysDiffer(OrderOf, keys);
    SortSorted(OrderOf, keys);
    SortMembers(OrderOf, keys);
    DistinctKeys(SortedKeys(src));
    forall i | 0 <= i < |src| ensures src[i].key in SortedKeys(src) { assert ItemKeys(src)[i] in ItemKeys(src); }
    if src != [] { assert src[0].key in SortedKeys(src); }
  }

  lemma {:induction false} DistinctKeys(keys: seq<ItemKey>)
    requires Sorted(OrderOf, keys)
    ensures Distinct(keys)
  {
    hide KeyLess;
    forall i, j | 0 <= i < j < |keys| ensures keys[i] != keys[j] {
      KeyOrder(OrderOf(keys[i]), OrderOf(keys[j]));
      KeyOrder(OrderOf(keys[i]), OrderOf(keys[i]));
    }
  }

  type Identity = ItemKey -> string

  /** One item per key; None when an identity is not in the plan. */
  function ItemsFor(src: seq<Source>, identity: Identity, targets: map<string, Target>, keys: seq<ItemKey>): Option<seq<Item>>
  {
    if keys == [] then Some([])
    else
      var rest, k := ItemsFor(src, identity, targets, keys[..|keys| - 1]), keys[|keys| - 1];
      if rest.Some? && identity(k) in targets then Some(rest.value + [Item(k, PiecesOf(src, k), targets[identity(k)])]) else None
  }

  lemma {:induction false} ItemsAre(src: seq<Source>, identity: Identity, targets: map<string, Target>, keys: seq<ItemKey>)
    requires ItemsFor(src, identity, targets, keys).Some?
    ensures var items := ItemsFor(src, identity, targets, keys).value;
      |items| == |keys| && ItemTotal(items) == PiecesOver(src, keys)
      && (forall i :: 0 <= i < |items| ==> items[i].key == keys[i] && items[i].quantity == PiecesOf(src, keys[i]))
      && (forall i :: 0 <= i < |items| ==> identity(keys[i]) in targets && items[i].target == targets[identity(keys[i])])
  {
    if keys != [] {
      var l := |keys| - 1;
      ItemsAre(src, identity, targets, keys[..l]);
      var items := ItemsFor(src, identity, targets, keys).value;
      assert items[..l] == ItemsFor(src, identity, targets, keys[..l]).value;
    }
  }

  // ----- packages -----

  datatype ModelRow = ModelRow(model: string, variant: string, color: string)

  datatype PlanRow = PlanRow(candidate: int, models: seq<ModelRow>)

  /** A direct query of one package: its items, and the total it stated. */
  datatype Direct = Direct(items: seq<Source>, total: int)

  datatype Audit = Audit(plan: map<string, PlanRow>, live: map<string, (nat, nat)>, direct: map<string, Direct>,
                         sizes: map<string, seq<Size>>, targets: map<string, map<string, Target>>, identity: Identity)

  datatype Package = Package(qr: string, quantity: int, candidate: int, exhaustive: int, isDirect: bool, corrected: bool,
                             color: string, items: seq<Item>)

  datatype Held = Held(qr: string, candidate: int, barcodes: nat)

  datatype Built = Row(package: Package) | Hold(held: Held) | Refused

  predicate AllPositive(items: seq<Item>) { forall i :: 0 <= i < |items| ==> items[i].quantity > 0 }

  predicate SourcesPositive(src: seq<Source>) { forall i :: 0 <= i < |src| ==> src[i].quantity > 0 }

  /** `validate_row` and `validate_item`, as far as quantities go. */
  predicate QuantityChecks(p: Package)
  {
    && p.quantity > 0 && p.candidate > 0 && p.exhaustive > 0
    && (!p.isDirect ==> p.quantity == p.exhaustive)
    && p.corrected == (p.quantity != p.candidate)
    && p.items != [] && ItemTotal(p.items) == p.quantity && AllPositive(p.items)
  }

  function FirstColor(models: seq<ModelRow>): string
  {
    if models == [] then "Not specified"
    else if models[0].color != "" then models[0].color
    else FirstColor(models[1..])
  }

  function SizedSources(model: ModelRow, values: seq<Size>): (src: seq<Source>)
    ensures |src| == |values| && SourceTotal(src) == RawTotal(values)
    ensures forall i :: 0 <= i < |src| ==> src[i] == Source(ItemKey(model.model, model.variant, values[i].name), values[i].quantity)
  {
    if values == [] then []
    else
      var l := |values| - 1;
      var rest := SizedSources(model, values[..l]);
      var src := rest + [Source(ItemKey(model.model, model.variant, values[l].name), values[l].quantity)];
      assert src[..l] == rest;
      src
  }

  lemma {:induction false} PiecesPositive(src: seq<Source>, key: ItemKey)
    requires SourcesPositive(src)
    ensures PiecesOf(src, key) >= 0
    ensures key in ItemKeys(src) ==> PiecesOf(src, key) > 0
  {
    if src != [] {
      PiecesPositive(src[..|src| - 1], key);
      ItemKeysStep(src);
    }
  }

  predicate IsDirect(a: Audit, qr: string) { qr in a.direct && a.direct[qr].items != [] }

  /** Every model, variant and size the direct query lists has pieces, all told. */
  ghost predicate PiecesLeft(src: seq<Source>) { forall k :: k in ItemKeys(src) ==> PiecesOf(src, k) > 0 }

  /** A row the tool emits passes the quantity checks of the importer exactly when its
      candidate quantity is positive and, for a direct query, the pieces of every item are. */
  ghost predicate PassesExactly(a: Audit, qr: string, p: Package)
    requires qr in a.plan
  {
    QuantityChecks(p) <==> (a.plan[qr].candidate > 0 && (IsDirect(a, qr) ==> PiecesLeft(a.direct[qr].items)))
  }

  /** Aggregates, looks up the targets and checks the total. */
  method MakeItems(src: seq<Source>, identity: Identity, targets: map<string, Target>, quantity: int) returns (items: Option<seq<Item>>)
    ensures items == (if ItemsFor(src, identity, targets, SortedKeys(src)).Some? && SourceTotal(src) == quantity
                      then ItemsFor(src, identity, targets, SortedKeys(src)) else None)
  {
    hide SortedKeys, KeysOf, PiecesOf;
    SortedKeysAre(src);
    var keys := SortedKeys(src);
    var made: seq<Item> := [];
    for i := 0 to |keys|
      invariant ItemsFor(src, identity, targets, keys[..i]) == Some(made)
    {
      assert keys[..i + 1][..i] == keys[..i];
      if identity(keys[i]) !in targets {
        NoItems(src, identity, targets, keys, i + 1);
        return None;
      }
      made := made + [Item(keys[i], PiecesOf(src, keys[i]), targets[identity(keys[i])])];
    }
    assert keys[..|keys|] == keys;
    ItemsAre(src, identity, targets, keys);
    PiecesConserved(src, keys);
    if ItemTotal(made) != quantity { return None; }
    items := Some(made);
  }

  lemma {:induction false} NoItems(src: seq<Source>, identity: Identity, targets: map<string, Target>, keys: seq<ItemKey>, c: nat)
    requires c <= |keys| && ItemsFor(src, identity, targets, keys[..c]).None?
    ensures ItemsFor(src, identity, targets, keys).None?
  {
    hide PiecesOf;
    if c < |keys| {
      assert keys[..|keys| - 1][..c] == keys[..c];
      NoItems(src, identity, targets, keys[..|keys| - 1], c);
    } else {
      assert keys[..c] == keys;
    }
  }

  lemma {:induction false} ItemsExist(src: seq<Source>, identity: Identity, targets: map<string, Target>, keys: seq<ItemKey>)
    ensures ItemsFor(src, identity, targets, keys).Some? <==> forall k :: k in keys ==> identity(k) in targets
  {
    hide PiecesOf;
    if keys != [] {
      var l := |keys| - 1;
      ItemsExist(src, identity, targets, keys[..l]);
      assert forall k :: k in keys <==> k in keys[..l] || k == keys[l];
    }
  }

  /** A size distribution that scales to the quantity without fractions or empty sizes. */
  predicate Scales(values: seq<Size>, quantity: int)
  {
    RawTotal(values) > 0 && forall i :: 0 <= i < |values| ==> Whole(values[i], quantity, RawTotal(values)) && values[i].quantity * quantity > 0
  }

  /** The items a package is made from: those of its direct query, or its size distribution
      scaled to the live total of its only model. */
  ghost predicate MadeFrom(a: Audit, qr: string, exhaustive: int, src: seq<Source>, quantity: int)
    requires qr in a.plan
  {
    if IsDirect(a, qr) then src == a.direct[qr].items && quantity == a.direct[qr].total
    else
      quantity == exhaustive && qr in a.sizes && |a.plan[qr].models| == 1
      && exists values :: Proportional(a.sizes[qr], quantity, values) && src == SizedSources(a.plan[qr].models[0], values)
  }

  predicate HasSource(a: Audit, qr: string, exhaustive: int)
    requires qr in a.plan
  {
    IsDirect(a, qr) || (qr in a.sizes && |a.plan[qr].models| == 1 && Scales(a.sizes[qr], exhaustive))
  }

  function TargetsOf(a: Audit, qr: string): map<string, Target> { if qr in a.targets then a.targets[qr] else map[] }

  /** The models, variants and sizes a package is made from. */
  function SourceKeys(a: Audit, qr: string): seq<ItemKey>
    requires qr in a.plan
  {
    if IsDirect(a, qr) then ItemKeys(a.direct[qr].items)
    else if qr in a.sizes && |a.plan[qr].models| == 1 then SizeKeys(a.plan[qr].models[0], a.sizes[qr])
    else []
  }

  function SizeKeys(model: ModelRow, values: seq<Size>): seq<ItemKey>
  {
    seq(|values|, i requires 0 <= i < |values| => ItemKey(model.model, model.variant, values[i].name))
  }

  lemma {:induction false} MadeKeys(a: Audit, qr: string, exhaustive: int, src: seq<Source>, quantity: int)
    requires qr in a.plan && MadeFrom(a, qr, exhaustive, src, quantity)
    ensures ItemKeys(src) == SourceKeys(a, qr)
  {
    if !IsDirect(a, qr) {
      var values :| Proportional(a.sizes[qr], quantity, values) && src == SizedSources(a.plan[qr].models[0], values);
      assert ItemKeys(src) == SizeKeys(a.plan[qr].models[0], a.sizes[qr]);
    }
  }

  /** What the audit must hold for a package to be built: nothing directly queried of a package
      the live report has none of; otherwise items whose identities are all in the plan, and
      for a direct query the total it states. */
  ghost predicate Buildable(a: Audit, qr: string)
    requires qr in a.plan && qr in a.live
  {
    if a.live[qr].0 == 0 then qr in a.direct ==> a.direct[qr].items == [] && a.direct[qr].total == 0
    else
      && HasSource(a, qr, a.live[qr].0)
      && (forall k :: k in SourceKeys(a, qr) ==> a.identity(k) in TargetsOf(a, qr))
      && (IsDirect(a, qr) ==> SourceTotal(a.direct[qr].items) == a.direct[qr].total)
  }

  method SourceItems(a: Audit, qr: string, exhaustive: nat) returns (src: Option<seq<Source>>, quantity: int)
    requires qr in a.plan && exhaustive > 0
    ensures src.Some? <==> HasSource(a, qr, exhaustive)
    ensures src.Some? ==> MadeFrom(a, qr, exhaustive, src.value, quantity)
    ensures src.Some? && !IsDirect(a, qr) ==> SourceTotal(src.value) == quantity && src.value != []
    ensures src.Some? && !IsDirect(a, qr) ==> SourcesPositive(src.value)
  {
    if IsDirect(a, qr) { return Some(a.direct[qr].items), a.direct[qr].total; }
    quantity := exhaustive;
    if qr !in a.sizes || |a.plan[qr].models| != 1 { return None, quantity; }
    var normalized := NormalizeSizeRows(a.sizes[qr], quantity);
    if !normalized.Sizes? { return None, quantity; }
    src := Some(SizedSources(a.plan[qr].models[0], normalized.values));
  }

  /** Everything a row says follows from the audit. */
  ghost predicate RowFor(a: Audit, qr: string, p: Package)
    requires qr in a.plan && qr in a.live
  {
    && p.qr == qr && p.candidate == a.plan[qr].candidate && p.exhaustive == a.live[qr].0
    && p.isDirect == IsDirect(a, qr) && p.corrected == (p.quantity != p.candidate) && p.color == FirstColor(a.plan[qr].models)
    && exists src :: MadeFrom(a, qr, p.exhaustive, src, p.quantity) && Aggregates(a, qr, src, p)
  }

  /** The items are the pieces of the source per model, variant and size, in order, none lost. */
  ghost predicate Aggregates(a: Audit, qr: string, src: seq<Source>, p: Package)
  {
    ItemsFor(src, a.identity, TargetsOf(a, qr), SortedKeys(src)) == Some(p.items) && SourceTotal(src) == p.quantity == ItemTotal(p.items)
  }

  /** One package of the plan. */
  method BuildPackage(a: Audit, qr: string) returns (r: Built)
    requires qr in a.plan && qr in a.live
    ensures r.Hold? ==> a.live[qr].0 == 0 && r.held == Held(qr, a.plan[qr].candidate, a.live[qr].1)
    ensures r.Row? ==> a.live[qr].0 > 0 && r.package.qr == qr && RowFor(a, qr, r.package) && PassesExactly(a, qr, r.package)
    ensures r.Refused? <==> !Buildable(a, qr)
  {
    hide SortedKeys, ItemsFor, SourceTotal, ItemTotal, PassesExactly, HasSource, SourceKeys;
    var plan, exhaustive := a.plan[qr], a.live[qr].0;
    if exhaustive == 0 {
      if qr in a.direct && (a.direct[qr].items != [] || a.direct[qr].total != 0) { return Refused; }
      return Hold(Held(qr, plan.candidate, a.live[qr].1));
    }
    var src, quantity := SourceItems(a, qr, exhaustive);
    if src.None? { return Refused; }
    var targets := TargetsOf(a, qr);
    BuildableSource(a, qr, src.value, quantity);
    var items := MakeItems(src.value, a.identity, targets, quantity);
    if items.None? { return Refused; }
    var p := Package(qr, quantity, plan.candidate, exhaustive, IsDirect(a, qr), quantity != plan.candidate, FirstColor(plan.models), items.value);
    RowChecks(a, qr, src.value, targets, p);
    assert MadeFrom(a, qr, p.exhaustive, src.value, p.quantity) && Aggregates(a, qr, src.value, p);
    r := Row(p);
  }

  /** Given a source, the package is buildable exactly when its items can be made. */
  lemma {:induction false} BuildableSource(a: Audit, qr: string, src: seq<Source>, quantity: int)
    requires qr in a.plan && qr in a.live && a.live[qr].0 > 0 && HasSource(a, qr, a.live[qr].0)
    requires MadeFrom(a, qr, a.live[qr].0, src, quantity) && (!IsDirect(a, qr) ==> SourceTotal(src) == quantity)
    ensures Buildable(a, qr) <==> ItemsFor(src, a.identity, TargetsOf(a, qr), SortedKeys(src)).Some? && SourceTotal(src) == quantity
  {
    MadeKeys(a, qr, a.live[qr].0, src, quantity);
    SortedKeysAre(src);
    ItemsExist(src, a.identity, TargetsOf(a, qr), SortedKeys(src));
    hide SortedKeys, ItemsFor, SourceTotal, HasSource, SourceKeys, ItemKeys;
  }

  lemma {:induction false} RowChecks(a: Audit, qr: string, src: seq<Source>, targets: map<string, Target>, p: Package)
    requires qr in a.plan && src != [] && p.exhaustive > 0 && p.candidate == a.plan[qr].candidate && p.isDirect == IsDirect(a, qr)
    requires ItemsFor(src, a.identity, targets, SortedKeys(src)) == Some(p.items) && SourceTotal(src) == p.quantity
    requires p.corrected == (p.quantity != p.candidate)
    requires if p.isDirect then src == a.direct[qr].items else p.quantity == p.exhaustive && SourcesPositive(src)
    ensures PassesExactly(a, qr, p) && ItemTotal(p.items) == p.quantity
  {
    ItemsOfSource(src, a.identity, targets);
    hide SortedKeys, ItemsFor, SourceTotal, ItemTotal, AllPositive, SourcesPositive, PiecesLeft;
    if AllPositive(p.items) { PositiveTotal(p.items); }
  }

  lemma {:induction false} ItemsOfSource(src: seq<Source>, identity: Identity, targets: map<string, Target>)
    requires ItemsFor(src, identity, targets, SortedKeys(src)).Some?
    ensures var items := ItemsFor(src, identity, targets, SortedKeys(src)).value;
      && ItemTotal(items) == SourceTotal(src) && (src != [] ==> items != [])
      && (SourcesPositive(src) ==> AllPositive(items))
      && (PiecesLeft(src) <==> AllPositive(items))
  {
    SortedKeysAre(src);
    var keys := SortedKeys(src);
    ItemsAre(src, identity, targets, keys);
    PiecesConserved(src, keys);
    var items := ItemsFor(src, identity, targets, keys).value;
    hide SortedKeys, KeysOf, ItemKeys, PiecesOf, PiecesOver, SourceTotal, ItemsFor;
    if SourcesPositive(src) {
      forall k | k in ItemKeys(src) ensures PiecesOf(src, k) > 0 { PiecesPositive(src, k); }
    }
    if AllPositive(items) {
      forall k | k in ItemKeys(src) ensures PiecesOf(src, k) > 0 {
        var i :| 0 <= i < |keys| && keys[i] == k;
        assert items[i].quantity > 0;
      }
    }
    forall i | 0 <= i < |items| ensures keys[i] in ItemKeys(src) { assert keys[i] in keys; }
  }

  lemma {:induction false} PositiveTotal(items: seq<Item>)
    requires AllPositive(items)
    ensures ItemTotal(items) >= 0 && (items != [] ==> ItemTotal(items) > 0)
  {
    if items != [] { PositiveTotal(items[..|items| - 1]); }
  }

  // ----- the items of a row -----

  /** How many pieces the size distribution gives one size name. */
  function SizePieces(values: seq<Size>, name: string): int
  {
    if values == [] then 0
    else SizePieces(values[..|values| - 1], name) + if values[|values| - 1].name == name then values[|values| - 1].quantity else 0
  }

  lemma {:induction false} SizedPieces(model: ModelRow, values: seq<Size>, k: ItemKey)
    ensures PiecesOf(SizedSources(model, values), k) ==
      if k.model == model.model && k.variant == model.variant then SizePieces(values, k.size) else 0
  {
    if values != [] {
      var l := |values| - 1;
      SizedPieces(model, values[..l], k);
      var src := SizedSources(model, values);
      assert src[..l] == SizedSources(model, values[..l]);
    }
  }

  lemma {:induction false} ScaledPieces(values: seq<Size>, target: int, raw: int, result: seq<Size>, name: string)
    requires |result| == |values|
    requires forall k :: 0 <= k < |values| ==> result[k].name == values[k].name && result[k].quantity * raw == values[k].quantity * target
    ensures SizePieces(result, name) * raw == SizePieces(values, name) * target
  {
    if values != [] {
      var l := |values| - 1;
      ScaledPieces(values[..l], target, raw, result[..l], name);
      if values[l].name == name {
        Distribute(SizePieces(result[..l], name), result[l].quantity, raw);
        Distribute(SizePieces(values[..l], name), values[l].quantity, target);
      }
    }
  }

  function KeysIn(items: seq<Item>): seq<ItemKey> { seq(|items|, i requires 0 <= i < |items| => items[i].key) }

  /** The keys of a row's items, and the source they aggregate. */
  lemma {:induction false} RowSource(a: Audit, qr: string, p: Package) returns (src: seq<Source>)
    requires qr in a.plan && qr in a.live && RowFor(a, qr, p)
    ensures MadeFrom(a, qr, a.live[qr].0, src, p.quantity) && KeysIn(p.items) == SortedKeys(src)
    ensures forall i :: 0 <= i < |p.items| ==> p.items[i].quantity == PiecesOf(src, p.items[i].key)
    ensures forall i :: 0 <= i < |p.items| ==>
      a.identity(p.items[i].key) in TargetsOf(a, qr) && p.items[i].target == TargetsOf(a, qr)[a.identity(p.items[i].key)]
  {
    hide SortedKeys, ItemsFor, SourceTotal, ItemTotal, PiecesOf, MadeFrom, TargetsOf, IsDirect, FirstColor;
    src :| MadeFrom(a, qr, p.exhaustive, src, p.quantity) && Aggregates(a, qr, src, p);
    ItemsAre(src, a.identity, TargetsOf(a, qr), SortedKeys(src));
  }

  lemma {:induction false} SizedQuantity(a: Audit, qr: string, src: seq<Source>, quantity: int, k: ItemKey)
    requires qr in a.plan && qr in a.live && MadeFrom(a, qr, a.live[qr].0, src, quantity) && !IsDirect(a, qr) && k in SourceKeys(a, qr)
    ensures qr in a.sizes && PiecesOf(src, k) * RawTotal(a.sizes[qr]) == SizePieces(a.sizes[qr], k.size) * a.live[qr].0
  {
    var values :| Proportional(a.sizes[qr], quantity, values) && src == SizedSources(a.plan[qr].models[0], values);
    ScaledPieces(a.sizes[qr], quantity, RawTotal(a.sizes[qr]), values, k.size);
    SizedPieces(a.plan[qr].models[0], values, k);
    hide SizePieces, RawTotal, PiecesOf, SizedSources;
  }

  /** The items of a row are the models, variants and sizes of its source, each once and in
      order, each for the target of its identity; a direct query gives their pieces, and
      otherwise each size has its exact share of the live total. */
  lemma {:induction false} RowItems(a: Audit, qr: string, p: Package, i: nat)
    requires qr in a.plan && qr in a.live && RowFor(a, qr, p) && i < |p.items|
    ensures Sorted(OrderOf, KeysIn(p.items)) && forall k :: k in KeysIn(p.items) <==> k in SourceKeys(a, qr)
    ensures var item := p.items[i];
      && a.identity(item.key) in TargetsOf(a, qr) && item.target == TargetsOf(a, qr)[a.identity(item.key)]
      && (IsDirect(a, qr) ==> item.quantity == PiecesOf(a.direct[qr].items, item.key))
      && (!IsDirect(a, qr) ==>
            qr in a.sizes && item.quantity * RawTotal(a.sizes[qr]) == SizePieces(a.sizes[qr], item.key.size) * a.live[qr].0)
  {
    var src := RowSource(a, qr, p);
    MadeKeys(a, qr, a.live[qr].0, src, p.quantity);
    SortedKeysAre(src);
    KeysSorted(src);
    var k := p.items[i].key;
    assert KeysIn(p.items)[i] in KeysIn(p.items);
    DirectSource(a, qr, src, p.quantity);
    hide *;
    if !IsDirect(a, qr) { SizedQuantity(a, qr, src, p.quantity, k); }
  }

  lemma {:induction false} DirectSource(a: Audit, qr: string, src: seq<Source>, quantity: int)
    requires qr in a.plan && qr in a.live && MadeFrom(a, qr, a.live[qr].0, src, quantity)
    ensures IsDirect(a, qr) ==> src == a.direct[qr].items
  {
  }

  lemma {:induction false} KeysSorted(src: seq<Source>)
    ensures Sorted(OrderOf, SortedKeys(src))
  {
    var keys := KeysOf(src);
    hide KeysOf;
    assert KeysDiffer(OrderOf, keys);
    SortSorted(OrderOf, keys);
  }

  // ----- what the builder accepts, and what a row reads -----

  ghost predicate Targeted(a: Audit, qr: string, k: ItemKey) { qr in a.targets && a.identity(k) in a.targets[qr] }

  /** A package without live pieces is held unless a direct query contradicts it; one with a
      direct query is built when every item has a target and the pieces add up to the total; any
      other when it has sizes and a single model, each size has a whole, positive share of the
      live total, and a target. Nothing else is built. */
  lemma {:induction false} BuiltExactly(a: Audit, qr: string)
    requires qr in a.plan && qr in a.live
    ensures Buildable(a, qr) <==>
      if a.live[qr].0 == 0 then qr !in a.direct || a.direct[qr] == Direct([], 0)
      else if qr in a.direct && a.direct[qr].items != [] then
        && SourceTotal(a.direct[qr].items) == a.direct[qr].total
        && forall i :: 0 <= i < |a.direct[qr].items| ==> Targeted(a, qr, a.direct[qr].items[i].key)
      else
        && qr in a.sizes && |a.plan[qr].models| == 1 && RawTotal(a.sizes[qr]) > 0
        && var (model, values) := (a.plan[qr].models[0], a.sizes[qr]);
        forall i :: 0 <= i < |values| ==>
          && (values[i].quantity * a.live[qr].0) % RawTotal(values) == 0 && values[i].quantity * a.live[qr].0 > 0
          && Targeted(a, qr, ItemKey(model.model, model.variant, values[i].name))
  {
    hide SourceTotal, RawTotal;
    assert forall k :: Targeted(a, qr, k) <==> a.identity(k) in TargetsOf(a, qr);
    hide Targeted, TargetsOf;
    if IsDirect(a, qr) {
      assert forall i :: 0 <= i < |a.direct[qr].items| ==> ItemKeys(a.direct[qr].items)[i] == a.direct[qr].items[i].key;
    } else if qr in a.sizes && |a.plan[qr].models| == 1 {
      if a.live[qr].0 > 0 { SizedExactly(a, qr, a.plan[qr].models[0], a.sizes[qr]); }
    }
  }

  lemma {:induction false} SizedExactly(a: Audit, qr: string, model: ModelRow, values: seq<Size>)
    requires qr in a.plan && qr in a.live && a.live[qr].0 > 0 && !IsDirect(a, qr)
    requires qr in a.sizes && a.plan[qr].models == [model] && values == a.sizes[qr]
    ensures Buildable(a, qr) <==>
      RawTotal(values) > 0 && forall i :: 0 <= i < |values| ==>
        && (values[i].quantity * a.live[qr].0) % RawTotal(values) == 0 && values[i].quantity * a.live[qr].0 > 0
        && Targeted(a, qr, ItemKey(model.model, model.variant, values[i].name))
  {
    hide RawTotal;
    var keys := SizeKeys(model, values);
    assert forall i :: 0 <= i < |values| ==> keys[i] == ItemKey(model.model, model.variant, values[i].name);
    assert SourceKeys(a, qr) == keys;
    assert (forall k :: k in keys ==> a.identity(k) in TargetsOf(a, qr)) <==> forall i :: 0 <= i < |values| ==> Targeted(a, qr, keys[i]) by {
      assert forall k :: Targeted(a, qr, k) <==> a.identity(k) in TargetsOf(a, qr);
    }
    if RawTotal(values) > 0 { ScalesExactly(values, a.live[qr].0); }
  }

  lemma {:induction false} ScalesExactly(values: seq<Size>, quantity: int)
    requires RawTotal(values) > 0
    ensures Scales(values, quantity) <==>
      forall i :: 0 <= i < |values| ==> (values[i].quantity * quantity) % RawTotal(values) == 0 && values[i].quantity * quantity > 0
  {
    hide RawTotal;
  }

  /** The first colour stated, or else that there is none. */
  ghost predicate ColorIs(models: seq<ModelRow>, color: string)
  {
    if forall i :: 0 <= i < |models| ==> models[i].color == "" then color == "Not specified"
    else exists i :: 0 <= i < |models| && models[i].color == color != "" && forall j :: 0 <= j < i ==> models[j].color == ""
  }

  lemma {:induction false} FirstColorIs(models: seq<ModelRow>)
    ensures ColorIs(models, FirstColor(models))
  {
    if models != [] && models[0].color == "" {
      var rest := models[1..];
      FirstColorIs(rest);
      assert forall i :: 0 <= i < |rest| ==> rest[i] == models[i + 1];
      if exists i :: 0 <= i < |rest| && rest[i].color != "" {
        var i :| 0 <= i < |rest| && rest[i].color == FirstColor(rest) != "" && forall j :: 0 <= j < i ==> rest[j].color == "";
        assert models[i + 1].color == FirstColor(models) && forall j :: 0 < j < i + 1 ==> models[j] == rest[j - 1];
        assert exists i :: 0 <= i < |models| && models[i].color != "";
      } else {
        assert forall j :: 0 < j < |models| ==> models[j] == rest[j - 1];
      }
    } else if models != [] {
      assert models[0].color == FirstColor(models);
    }
  }

  /** The fields of a row besides its items. */
  lemma {:induction false} RowReads(a: Audit, qr: string, p: Package)
    requires qr in a.plan && qr in a.live && RowFor(a, qr, p)
    ensures p.isDirect <==> qr in a.direct && a.direct[qr].items != []
    ensures p.quantity == if p.isDirect then a.direct[qr].total else a.live[qr].0
    ensures p.qr == qr && p.candidate == a.plan[qr].candidate && p.exhaustive == a.live[qr].0
    ensures (p.corrected <==> p.quantity != a.plan[qr].candidate) && ColorIs(a.plan[qr].models, p.color)
    ensures ItemTotal(p.items) == p.quantity
  {
    FirstColorIs(a.plan[qr].models);
    hide FirstColor, ColorIs, Aggregates;
    var src :| MadeFrom(a, qr, p.exhaustive, src, p.quantity) && Aggregates(a, qr, src, p);
    AggregateTotal(a, qr, src, p);
  }

  lemma {:induction false} AggregateTotal(a: Audit, qr: string, src: seq<Source>, p: Package)
    requires Aggregates(a, qr, src, p)
    ensures ItemTotal(p.items) == p.quantity
  {
  }

  // ----- rows the importer refuses -----

  lemma {:induction false} TwoSources(k: ItemKey, l: ItemKey, n: int)
    requires k != l
    ensures var src := [Source(k, n), Source(l, 0)];
      SourceTotal(src) == n && PiecesOf(src, l) == 0 && ItemKeys(src) == [k, l]
  {
    var none: seq<Source> := [];
    assert [Source(k, n)][..0] == none && [Source(k, n), Source(l, 0)][..1] == [Source(k, n)];
    assert SourceTotal(none) == 0 && PiecesOf(none, l) == 0;
    assert SourceTotal([Source(k, n)]) == n && PiecesOf([Source(k, n)], l) == 0;
  }

  lemma {:induction false} TwoSizes(a: string, b: string)
    ensures RawTotal([Size(a, 1), Size(b, 1)]) == 2
  {
    var none: seq<Size> := [];
    assert [Size(a, 1)][..0] == none && [Size(a, 1), Size(b, 1)][..1] == [Size(a, 1)];
    assert RawTotal(none) == 0 && RawTotal([Size(a, 1)]) == 1;
  }

  /** A directly queried item without pieces is built into a row that the importer refuses. */
  lemma {:induction false} ItemWithoutPieces(a: Audit, qr: string, k: ItemKey, l: ItemKey, n: int)
    requires qr in a.plan && qr in a.live && a.live[qr].0 > 0 && k != l
    requires qr in a.direct && a.direct[qr] == Direct([Source(k, n), Source(l, 0)], n)
    requires a.identity(k) in TargetsOf(a, qr) && a.identity(l) in TargetsOf(a, qr)
    ensures Buildable(a, qr) && forall p :: RowFor(a, qr, p) ==> !QuantityChecks(p)
  {
    var src := a.direct[qr].items;
    TwoSources(k, l, n);
    hide SortedKeys, ItemsFor, SourceTotal, ItemTotal, PiecesOf;
    forall p | RowFor(a, qr, p) ensures !QuantityChecks(p) {
      ItemsOfSource(src, a.identity, TargetsOf(a, qr));
      assert l in ItemKeys(src);
    }
  }

  /** No two items are the same model, variant and size in the importer's normal form. */
  ghost predicate ItemsDiffer(normal: ItemKey -> string, items: seq<Item>)
  {
    forall i, j :: 0 <= i < j < |items| ==> normal(items[i].key) != normal(items[j].key)
  }

  /** The importer finds no item twice if and only if its normal form keeps apart the models,
      variants and sizes the package is made from. */
  lemma {:induction false} ItemsDifferExactly(a: Audit, qr: string, p: Package, normal: ItemKey -> string)
    requires qr in a.plan && qr in a.live && RowFor(a, qr, p)
    ensures ItemsDiffer(normal, p.items) <==> forall k, l :: k in SourceKeys(a, qr) && l in SourceKeys(a, qr) && k != l ==> normal(k) != normal(l)
  {
    hide SortedKeys, ItemsFor, SourceTotal, ItemTotal, PiecesOf, SourceKeys, ItemKeys, MadeFrom;
    var src :| MadeFrom(a, qr, p.exhaustive, src, p.quantity) && Aggregates(a, qr, src, p);
    MadeKeys(a, qr, p.exhaustive, src, p.quantity);
    SortedKeysAre(src);
    ItemsAre(src, a.identity, TargetsOf(a, qr), SortedKeys(src));
    var keys, items := SortedKeys(src), p.items;
    if ItemsDiffer(normal, items) {
      forall k, l | k in SourceKeys(a, qr) && l in SourceKeys(a, qr) && k != l ensures normal(k) != normal(l) {
        var i :| 0 <= i < |keys| && keys[i] == k;
        var j :| 0 <= j < |keys| && keys[j] == l;
        assert items[i].key == k && items[j].key == l;
      }
    }
    forall i, j | 0 <= i < j < |items| ensures items[i].key in SourceKeys(a, qr) && items[j].key in SourceKeys(a, qr) && items[i].key != items[j].key {
      assert keys[i] in keys && keys[j] in keys;
    }
  }

  /** Two spellings of one size are built into a row that the importer refuses. */
  lemma {:induction false} TwoSpellings(a: Audit, qr: string, m: ModelRow, normal: ItemKey -> string)
    requires qr in a.plan && a.plan[qr].models == [m] && qr in a.live && a.live[qr].0 == 2 && !IsDirect(a, qr)
    requires qr in a.sizes && a.sizes[qr] == [Size("xl", 1), Size("XL", 1)]
    requires normal(ItemKey(m.model, m.variant, "xl")) == normal(ItemKey(m.model, m.variant, "XL"))
    requires forall size :: a.identity(ItemKey(m.model, m.variant, size)) in TargetsOf(a, qr)
    ensures Buildable(a, qr) && forall p :: RowFor(a, qr, p) ==> !ItemsDiffer(normal, p.items)
  {
    TwoSizes("xl", "XL");
    assert SourceKeys(a, qr)[0] == ItemKey(m.model, m.variant, "xl") && SourceKeys(a, qr)[1] == ItemKey(m.model, m.variant, "XL");
    hide RowFor, RawTotal;
    forall p | RowFor(a, qr, p) ensures !ItemsDiffer(normal, p.items) { ItemsDifferExactly(a, qr, p, normal); }
  }

  // ----- the manifest -----

  ghost predicate Lists(rows: seq<Package>, qr: string) { exists i :: 0 <= i < |rows| && rows[i].qr == qr }

  ghost predicate Holds(held: seq<Held>, qr: string) { exists i :: 0 <= i < |held| && held[i].qr == qr }

  ghost predicate QrsDiffer(rows: seq<Package>, held: seq<Held>)
  {
    && (forall i, j :: 0 <= i < j < |rows| ==> rows[i].qr != rows[j].qr)
    && (forall i, j :: 0 <= i < j < |held| ==> held[i].qr != held[j].qr)
    && (forall i, j :: 0 <= i < |rows| && 0 <= j < |held| ==> rows[i].qr != held[j].qr)
  }

  /** `build_manifest`: every QR of the plan ends up either among the rows or among the held
      packages, once; held exactly when the live report has none of it. */
  method BuildManifest(a: Audit) returns (ok: bool, rows: seq<Package>, held: seq<Held>)
    ensures ok <==> a.plan.Keys == a.live.Keys && forall qr :: qr in a.plan ==> Buildable(a, qr)
    ensures ok ==> forall i, j :: 0 <= i < j < |rows| ==> rows[i].qr != rows[j].qr
    ensures ok ==> forall i, j :: 0 <= i < j < |held| ==> held[i].qr != held[j].qr
    ensures ok ==> forall i, j :: 0 <= i < |rows| && 0 <= j < |held| ==> rows[i].qr != held[j].qr
    ensures ok ==> forall qr :: qr in a.plan <==> Lists(rows, qr) || Holds(held, qr)
    ensures ok ==> forall i :: 0 <= i < |held| ==> HeldFor(a, held[i])
    ensures ok ==> forall i :: 0 <= i < |rows| ==> rows[i].qr in a.live && a.live[rows[i].qr].0 > 0
    ensures ok ==> forall i :: 0 <= i < |rows| ==> rows[i].qr in a.plan && RowFor(a, rows[i].qr, rows[i]) && PassesExactly(a, rows[i].qr, rows[i])
  {
    hide *;
    rows, held := [], [];
    if a.plan.Keys != a.live.Keys { return false, rows, held; }
    var rest := a.plan.Keys;
    NoneListed(a);
    while rest != {}
      invariant rest <= a.plan.Keys
      invariant Sound(a, rows, held) && QrsDiffer(rows, held)
      invariant forall qr :: qr in a.plan && qr !in rest ==> qr in a.live && Buildable(a, qr)
      invariant forall qr :: qr in a.plan && qr !in rest <==> Lists(rows, qr) || Holds(held, qr)
      decreases |rest|
    {
      var qr := PickOne(rest);
      assert qr in a.plan.Keys && qr in a.live.Keys;
      var built := BuildPackage(a, qr);
      match built {
        case Refused => return false, rows, held;
        case Hold(h) =>
          HeldIs(a, h, qr);
          HoldsMore(a, rows, held, h);
          held := held + [h];
        case Row(p) =>
          ListsMore(a, rows, held, p);
          RowIsSound(a, qr, p);
          rows := rows + [p];
      }
      rest := rest - {qr};
    }
    SoundMeans(a, rows, held);
    DifferMeans(rows, held);
    ok := true;
  }

  lemma {:induction false} DifferMeans(rows: seq<Package>, held: seq<Held>)
    requires QrsDiffer(rows, held)
    ensures forall i, j :: 0 <= i < j < |rows| ==> rows[i].qr != rows[j].qr
    ensures forall i, j :: 0 <= i < j < |held| ==> held[i].qr != held[j].qr
    ensures forall i, j :: 0 <= i < |rows| && 0 <= j < |held| ==> rows[i].qr != held[j].qr
  {
  }

  ghost predicate Sound(a: Audit, rows: seq<Package>, held: seq<Held>)
  {
    && (forall i :: 0 <= i < |rows| ==> SoundRow(a, rows[i]))
    && (forall i :: 0 <= i < |held| ==> HeldFor(a, held[i]))
  }

  /** A held package of the plan, with what the live report says of it. */
  ghost predicate HeldFor(a: Audit, h: Held)
  {
    h.qr in a.live && h.qr in a.plan && a.live[h.qr].0 == 0 && h == Held(h.qr, a.plan[h.qr].candidate, a.live[h.qr].1)
  }

  lemma {:induction false} HeldIs(a: Audit, h: Held, qr: string)
    requires qr in a.live && qr in a.plan && a.live[qr].0 == 0 && h == Held(qr, a.plan[qr].candidate, a.live[qr].1)
    ensures HeldFor(a, h)
  {
  }

  ghost predicate SoundRow(a: Audit, p: Package)
  {
    p.qr in a.live && a.live[p.qr].0 > 0 && p.qr in a.plan && RowFor(a, p.qr, p) && PassesExactly(a, p.qr, p)
  }

  lemma {:induction false} RowIsSound(a: Audit, qr: string, p: Package)
    requires qr in a.plan && qr in a.live && p.qr == qr
    ensures a.live[qr].0 > 0 && RowFor(a, qr, p) && PassesExactly(a, qr, p) ==> SoundRow(a, p)
  {
    hide RowFor, PassesExactly;
  }

  lemma {:induction false} SoundMeans(a: Audit, rows: seq<Package>, held: seq<Held>)
    requires Sound(a, rows, held)
    ensures forall i :: 0 <= i < |held| ==> HeldFor(a, held[i])
    ensures forall i :: 0 <= i < |rows| ==> rows[i].qr in a.live && a.live[rows[i].qr].0 > 0
    ensures forall i :: 0 <= i < |rows| ==> rows[i].qr in a.plan && RowFor(a, rows[i].qr, rows[i]) && PassesExactly(a, rows[i].qr, rows[i])
  {
    hide RowFor, PassesExactly;
  }

  lemma {:induction false} NoneListed(a: Audit)
    ensures Sound(a, [], []) && QrsDiffer([], []) && forall qr :: !Lists([], qr) && !Holds([], qr)
  {
  }

  lemma {:induction false} ListsMore(a: Audit, rows: seq<Package>, held: seq<Held>, p: Package)
    requires Sound(a, rows, held) && QrsDiffer(rows, held) && !Lists(rows, p.qr) && !Holds(held, p.qr)
    ensures QrsDiffer(rows + [p], held) && (SoundRow(a, p) ==> Sound(a, rows + [p], held))
    ensures forall qr :: Lists(rows + [p], qr) <==> Lists(rows, qr) || qr == p.qr
  {
    hide RowFor, PassesExactly;
    var longer := rows + [p];
    assert longer[|rows|] == p;
    forall qr | Lists(rows, qr) ensures Lists(longer, qr) {
      var i :| 0 <= i < |rows| && rows[i].qr == qr;
      assert longer[i].qr == qr;
    }
  }

  lemma {:induction false} HoldsMore(a: Audit, rows: seq<Package>, held: seq<Held>, h: Held)
    requires Sound(a, rows, held) && QrsDiffer(rows, held) && !Lists(rows, h.qr) && !Holds(held, h.qr)
    requires HeldFor(a, h)
    ensures Sound(a, rows, held + [h]) && QrsDiffer(rows, held + [h])
    ensures forall qr :: Holds(held + [h], qr) <==> Holds(held, qr) || qr == h.qr
  {
    hide SoundRow;
    var longer := held + [h];
    assert longer[|held|] == h;
    forall qr | Holds(held, qr) ensures Holds(longer, qr) {
      var i :| 0 <= i < |held| && held[i].qr == qr;
      assert longer[i].qr == qr;
    }
  }
}
