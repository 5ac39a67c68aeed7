/** Building the reviewed price manifest from the cards of all catalogs. */
module PriceExport {
  import opened Base
  import opened Sorting
  import PriceImport

  type Parts = PriceImport.Parts

  /** One catalog card; `price` is the amount it shows, if it reads as a number. */
  datatype Card = Card(catalog: nat, model: string, variant: string, price: Option<real>, currency: string, visible: bool)

  datatype Catalog = Catalog(id: nat, expected: nat, cards: seq<Card>)

  /** The two normalisers of identity texts. */
  datatype Norms = Norms(identity: string -> string, variant: string -> string)

  datatype Reason = MissingModel | MissingVariant | MissingPrice | UnsupportedCurrency

  datatype Excluded = Excluded(reason: Reason, card: Card)

  datatype Resolution = SinglePrice | DuplicateSamePrice | OnlyVisiblePrice

  datatype Choice = Choice(price: real, resolution: Resolution)

  datatype PriceRow = PriceRow(key: Parts, display: Card, choice: Choice, sources: seq<Card>)

  datatype Conflict = Conflict(key: Parts, sources: seq<Card>)

  datatype Manifest = Manifest(prices: seq<PriceRow>, unresolved: seq<Conflict>, excluded: seq<Excluded>, total: nat)

  // ----- which cards count -----

  predicate Positive(price: Option<real>) { price.Some? && price.value > 0.0 }

  function KeyOf(norms: Norms, c: Card): Parts { PriceImport.Parts(norms.identity(c.model), norms.variant(c.variant)) }

  /** The letters whose upper case spells USD; a card without a currency counts as one in USD. */
  predicate InDollars(currency: string)
  {
    currency == "" || (|currency| == 3 && currency[0] in "Uu" && currency[1] in "Ss\U{017F}" && currency[2] in "Dd")
  }

  lemma {:induction false} DollarsAre(currency: string)
    ensures InDollars(currency) <==>
      currency in {"", "USD", "USd", "UsD", "Usd", "uSD", "uSd", "usD", "usd", "U\U{017F}D", "U\U{017F}d", "u\U{017F}D", "u\U{017F}d"}
  {
    if |currency| == 3 { assert currency == [currency[0], currency[1], currency[2]]; }
  }

  function ReasonFor(norms: Norms, c: Card): Option<Reason>
  {
    if norms.identity(c.model) == "" then Some(MissingModel)
    else if norms.variant(c.variant) == "" then Some(MissingVariant)
    else if !Positive(c.price) then Some(MissingPrice)
    else if !InDollars(c.currency) then Some(UnsupportedCurrency)
    else None
  }

  predicate Accepted(norms: Norms, c: Card) { ReasonFor(norms, c).None? }

  function ExcludedOf(norms: Norms, cards: seq<Card>): seq<Excluded>
  {
    if cards == [] then []
    else
      var c := cards[|cards| - 1];
      ExcludedOf(norms, cards[..|cards| - 1]) + if Accepted(norms, c) then [] else [Excluded(ReasonFor(norms, c).value, c)]
  }

  /** The accepted cards of one identity, in reading order. */
  function Group(norms: Norms, cards: seq<Card>, key: Parts): (g: seq<Card>)
    ensures forall c :: c in g <==> c in cards && Accepted(norms, c) && KeyOf(norms, c) == key
  {
    if cards == [] then []
    else
      var l := |cards| - 1;
      var rest := Group(norms, cards[..l], key);
      assert forall c :: c in cards <==> c in cards[..l] || c == cards[l];
      if Accepted(norms, cards[l]) && KeyOf(norms, cards[l]) == key then rest + [cards[l]] else rest
  }

  /** The identities of the accepted cards, as they first come up. */
  function KeysOf(norms: Norms, cards: seq<Card>): (keys: seq<Parts>)
    ensures Distinct(keys) && forall k :: k in keys <==> Group(norms, cards, k) != []
  {
    if cards == [] then []
    else
      var l := |cards| - 1;
      var rest := KeysOf(norms, cards[..l]);
      var key := KeyOf(norms, cards[l]);
      DistinctAppend(rest, key);
      if Accepted(norms, cards[l]) && key !in rest then rest + [key] else rest
  }

  function GroupKey(k: Parts): Key { Key(0, k.model, k.variant, "") }

  function Identities(norms: Norms, cards: seq<Card>): seq<Parts> { Sort(GroupKey, KeysOf(norms, cards)) }

  lemma {:induction false} IdentitiesAre(norms: Norms, cards: seq<Card>)
    ensures Sorted(GroupKey, Identities(norms, cards))
    ensures forall k :: k in Identities(norms, cards) <==> Group(norms, cards, k) != []
  {
    var keys := KeysOf(norms, cards);
    hide KeysOf, Group;
    assert KeysDiffer(GroupKey, keys);
    SortSorted(GroupKey, keys);
    SortMembers(GroupKey, keys);
  }

  /** What makes a card count: an identity, a positive price, and dollars. */
  predicate Usable(norms: Norms, c: Card)
  {
    norms.identity(c.model) != "" && norms.variant(c.variant) != "" && c.price.Some? && c.price.value > 0.0 && InDollars(c.currency)
  }

  lemma {:induction false} ExcludedAre(norms: Norms, cards: seq<Card>)
    ensures forall e :: e in ExcludedOf(norms, cards) <==> e.card in cards && ReasonFor(norms, e.card) == Some(e.reason)
  {
    hide ReasonFor;
    if cards != [] {
      var l := |cards| - 1;
      ExcludedAre(norms, cards[..l]);
      assert forall c :: c in cards <==> c in cards[..l] || c == cards[l];
      var rest := ExcludedOf(norms, cards[..l]);
      forall e ensures e in ExcludedOf(norms, cards) <==> e in rest || (e.card == cards[l] && ReasonFor(norms, e.card) == Some(e.reason)) {}
    }
  }

  /** A card is excluded if and only if it is not usable, and for the first of the four reasons
      that applies to it. */
  lemma {:induction false} ExcludedExactly(norms: Norms, cards: seq<Card>, c: Card, reason: Reason)
    ensures Excluded(reason, c) in ExcludedOf(norms, cards) <==>
      c in cards &&
      match reason
      case MissingModel => norms.identity(c.model) == ""
      case MissingVariant => norms.identity(c.model) != "" && norms.variant(c.variant) == ""
      case MissingPrice => norms.identity(c.model) != "" && norms.variant(c.variant) != "" && !(c.price.Some? && c.price.value > 0.0)
      case UnsupportedCurrency =>
        norms.identity(c.model) != "" && norms.variant(c.variant) != "" && c.price.Some? && c.price.value > 0.0 && !InDollars(c.currency)
    ensures Accepted(norms, c) <==> Usable(norms, c)
  {
    ExcludedAre(norms, cards);
    hide ExcludedOf, InDollars;
  }

  // ----- the price of one identity -----

  function Amount(c: Card): real { if c.price.Some? then c.price.value else 0.0 }

  function Amounts(cards: seq<Card>): (r: seq<real>)
    ensures |r| == |cards| && forall i :: 0 <= i < |cards| ==> r[i] == Amount(cards[i])
  {
    if cards == [] then [] else Amounts(cards[..|cards| - 1]) + [Amount(cards[|cards| - 1])]
  }

  function VisibleOf(cards: seq<Card>): (r: seq<Card>)
    ensures forall c :: c in r <==> c in cards && c.visible
  {
    if cards == [] then []
    else
      var l := |cards| - 1;
      var rest := VisibleOf(cards[..l]);
      assert forall c :: c in cards <==> c in cards[..l] || c == cards[l];
      if cards[l].visible then rest + [cards[l]] else rest
  }

  /** One price for all cards, or else one price for all visible cards, or none. */
  function Resolve(group: seq<Card>): Option<Choice>
  {
    var prices := Unique(Amounts(group));
    if |prices| == 1 then Some(Choice(prices[0], if |group| == 1 then SinglePrice else DuplicateSamePrice))
    else
      var visible := Unique(Amounts(VisibleOf(group)));
      if |visible| == 1 then Some(Choice(visible[0], OnlyVisiblePrice)) else None
  }

  ghost predicate AllAt(cards: seq<Card>, price: real) { forall c :: c in cards ==> Amount(c) == price }

  lemma {:induction false} OneAmount(cards: seq<Card>)
    ensures |Unique(Amounts(cards))| == 1 <==> cards != [] && AllAt(cards, Amount(cards[0]))
    ensures |Unique(Amounts(cards))| == 1 ==> Unique(Amounts(cards))[0] == Amount(cards[0])
    ensures cards == [] ==> Unique(Amounts(cards)) == []
  {
    var amounts := Amounts(cards);
    var unique := Unique(amounts);
    assert cards == [] ==> unique == [];
    hide Unique, Amounts;
    if cards != [] {
      assert amounts[0] in unique;
      if |unique| == 1 {
        forall c | c in cards ensures Amount(c) == unique[0] {
          var i :| 0 <= i < |cards| && cards[i] == c;
          assert amounts[i] in amounts;
        }
      } else {
        assert unique[0] in amounts && unique[1] in amounts;
        var i :| 0 <= i < |amounts| && amounts[i] == unique[0];
        var j :| 0 <= j < |amounts| && amounts[j] == unique[1];
        assert cards[i] in cards && cards[j] in cards;
      }
    }
  }

  /** Every visible card of a resolved identity shows the chosen price; and an identity is
      left unresolved exactly when its cards differ and its visible cards differ or are none. */
  lemma {:induction false} ResolveMeans(group: seq<Card>)
    requires group != []
    ensures Resolve(group).Some? ==> AllAt(VisibleOf(group), Resolve(group).value.price)
    ensures Resolve(group).Some? ==> exists c :: c in group && Amount(c) == Resolve(group).value.price
    ensures Resolve(group).None? <==>
      !AllAt(group, Amount(group[0])) && (VisibleOf(group) == [] || !AllAt(VisibleOf(group), Amount(VisibleOf(group)[0])))
  {
    OneAmount(group);
    OneAmount(VisibleOf(group));
    hide Unique, Amounts;
    assert group[0] in group;
    if VisibleOf(group) != [] { assert VisibleOf(group)[0] in VisibleOf(group); }
  }

  // ----- the order of the cards does not matter -----

  lemma {:induction false} GroupMultiset(norms: Norms, cards: seq<Card>, key: Parts, c: Card)
    ensures multiset(Group(norms, cards, key))[c] ==
      if Accepted(norms, c) && KeyOf(norms, c) == key then multiset(cards)[c] else 0
  {
    hide Accepted, KeyOf;
    if cards != [] {
      var l := |cards| - 1;
      GroupMultiset(norms, cards[..l], key, c);
      assert cards == cards[..l] + [cards[l]];
    }
  }

  lemma {:induction false} SameMembers<T>(a: seq<T>, b: seq<T>)
    requires multiset(a) == multiset(b)
    ensures |a| == |b| && forall x :: x in a <==> x in b
  {
    assert |a| == |multiset(a)| && |b| == |multiset(b)|;
    assert forall x :: x in a <==> x in multiset(a);
  }

  lemma {:induction false} ResolveUnordered(a: seq<Card>, b: seq<Card>)
    requires a != [] && multiset(a) == multiset(b)
    ensures Resolve(a) == Resolve(b)
  {
    SameMembers(a, b);
    OneAmount(a);
    OneAmount(b);
    OneAmount(VisibleOf(a));
    OneAmount(VisibleOf(b));
    var va, vb := VisibleOf(a), VisibleOf(b);
    assert forall c :: c in va <==> c in vb;
    hide Unique, Amounts, VisibleOf;
    assert a[0] in b && b[0] in a;
    if va != [] { assert va[0] in vb; }
    if vb != [] { assert vb[0] in va; }
  }

  lemma {:induction false} GroupUnordered(norms: Norms, a: seq<Card>, b: seq<Card>, key: Parts)
    requires multiset(a) == multiset(b)
    ensures multiset(Group(norms, a, key)) == multiset(Group(norms, b, key))
    ensures Group(norms, a, key) == [] <==> Group(norms, b, key) == []
  {
    forall c: Card ensures multiset(Group(norms, a, key))[c] == multiset(Group(norms, b, key))[c] {
      GroupMultiset(norms, a, key, c);
      GroupMultiset(norms, b, key, c);
    }
    SameMembers(Group(norms, a, key), Group(norms, b, key));
  }

  /** The identities, their order, their prices and how they were resolved depend on which
      cards there are, not on the order they come in. */
  lemma {:induction false} OutcomeUnordered(norms: Norms, a: seq<Card>, b: seq<Card>)
    requires multiset(a) == multiset(b)
    ensures Identities(norms, a) == Identities(norms, b)
    ensures forall k :: k in Identities(norms, a) ==> Resolve(Group(norms, a, k)) == Resolve(Group(norms, b, k))
  {
    IdentitiesAre(norms, a);
    IdentitiesAre(norms, b);
    hide Group, Identities, Resolve;
    forall k ensures k in Identities(norms, a) <==> k in Identities(norms, b) { GroupUnordered(norms, a, b, k); }
    SortedUnique(GroupKey, Identities(norms, a), Identities(norms, b));
    forall k | k in Identities(norms, a) ensures Resolve(Group(norms, a, k)) == Resolve(Group(norms, b, k)) {
      GroupUnordered(norms, a, b, k);
      ResolveUnordered(Group(norms, a, k), Group(norms, b, k));
    }
  }

  // ----- the manifest -----

  /** The first visible card at the price, or the first card. */
  function FirstShown(group: seq<Card>, price: real): Option<Card>
  {
    if group == [] then None
    else
      var l := |group| - 1;
      var earlier := FirstShown(group[..l], price);
      if earlier.Some? then earlier else if group[l].visible && Amount(group[l]) == price then Some(group[l]) else None
  }

  function Display(group: seq<Card>, price: real): Card
    requires group != []
  {
    var shown := FirstShown(group, price);
    if shown.Some? then shown.value else group[0]
  }

  predicate Eligible(c: Card, price: real) { c.visible && Amount(c) == price }

  /** A visible card at the price, or any card when there is none. */
  ghost predicate MayShow(group: seq<Card>, price: real, c: Card)
  {
    c in group && (Eligible(c, price) || forall d :: d in group ==> !Eligible(d, price))
  }

  lemma {:induction false} ShownAre(group: seq<Card>, price: real)
    ensures FirstShown(group, price).Some? ==> FirstShown(group, price).value in group && Eligible(FirstShown(group, price).value, price)
    ensures FirstShown(group, price).None? ==> forall d :: d in group ==> !Eligible(d, price)
    ensures group != [] && Eligible(group[0], price) ==> FirstShown(group, price) == Some(group[0])
  {
    hide Amount;
    if group != [] {
      var l := |group| - 1;
      ShownAre(group[..l], price);
      assert forall d :: d in group ==> d in group[..l] || d == group[l];
    }
  }

  ghost predicate Reorders(a: seq<Card>, b: seq<Card>) { multiset(a) == multiset(b) }

  /** The cards can be read with any one of them first. */
  lemma {:induction false} ReadFirst(group: seq<Card>, c: Card) returns (other: seq<Card>)
    requires c in group
    ensures other != [] && other[0] == c && Reorders(other, group)
  {
    var i :| 0 <= i < |group| && group[i] == c;
    other := [c] + group[..i] + group[i + 1..];
    assert group == group[..i] + [c] + group[i + 1..];
  }

  /** The cards some order shows are the visible ones at the price, or all when there is none. */
  lemma {:induction false} ShownBySomeOrder(group: seq<Card>, price: real, c: Card)
    ensures MayShow(group, price, c) <==> exists other :: Reorders(other, group) && other != [] && Display(other, price) == c
  {
    hide FirstShown, Eligible;
    if MayShow(group, price, c) {
      var other := ReadFirst(group, c);
      SameMembers(other, group);
      ShownAre(other, price);
      assert Reorders(other, group) && Display(other, price) == c;
    }
    forall other | Reorders(other, group) && other != [] && Display(other, price) == c ensures MayShow(group, price, c) {
      SameMembers(other, group);
      ShownAre(other, price);
    }
  }

  predicate SameTexts(c: Card, d: Card) { c.model == d.model && c.variant == d.variant }

  /** The texts shown for an identity are the same in every order of its cards if and only if
      the visible cards at the price, or all cards when there is none, bear the same texts. */
  lemma {:induction false} DisplayUnorderedExactly(group: seq<Card>, price: real)
    requires group != []
    ensures (forall other :: Reorders(other, group) && other != [] ==> SameTexts(Display(other, price), Display(group, price))) <==>
      forall c, d :: MayShow(group, price, c) && MayShow(group, price, d) ==> SameTexts(c, d)
  {
    hide Display, MayShow, Reorders;
    forall other | Reorders(other, group) && other != [] ensures MayShow(group, price, Display(other, price)) {
      ShownBySomeOrder(group, price, Display(other, price));
    }
    assert MayShow(group, price, Display(group, price)) by { OwnOrder(group); }
    forall c | MayShow(group, price, c) ensures exists other :: Reorders(other, group) && other != [] && Display(other, price) == c {
      ShownBySomeOrder(group, price, c);
    }
  }

  lemma {:induction false} OwnOrder(group: seq<Card>)
    ensures Reorders(group, group)
  {
  }

  /** The same two cards of one identity show one spelling or the other. */
  lemma {:induction false} DisplayDependsOnOrder(norms: Norms, a: Card, b: Card)
    requires Accepted(norms, a) && Accepted(norms, b) && KeyOf(norms, a) == KeyOf(norms, b)
    requires a.visible && b.visible && Amount(a) == Amount(b) && !SameTexts(a, b)
    ensures Group(norms, [a, b], KeyOf(norms, a)) == [a, b] && Resolve([a, b]).Some? && Reorders([b, a], [a, b])
    ensures var price := Resolve([a, b]).value.price; !SameTexts(Display([a, b], price), Display([b, a], price))
  {
    hide *;
    GroupOfTwo(norms, a, b);
    ResolveTwo(a, b);
    DisplayFirst(a, b);
    DisplayFirst(b, a);
    SwapReorders(a, b);
  }

  lemma {:induction false} GroupOfTwo(norms: Norms, a: Card, b: Card)
    requires Accepted(norms, a) && Accepted(norms, b) && KeyOf(norms, a) == KeyOf(norms, b)
    ensures Group(norms, [a, b], KeyOf(norms, a)) == [a, b]
  {
    hide Accepted, KeyOf;
    assert [a, b][..1] == [a] && [a][..0] == [];
    assert Group(norms, [a], KeyOf(norms, a)) == [a];
  }

  lemma {:induction false} ResolveTwo(a: Card, b: Card)
    requires Amount(a) == Amount(b)
    ensures Resolve([a, b]) == Some(Choice(Amount(a), DuplicateSamePrice))
  {
    hide Unique, Amounts, VisibleOf, Amount;
    OneAmount([a, b]);
  }

  lemma {:induction false} DisplayFirst(a: Card, b: Card)
    requires a.visible
    ensures Display([a, b], Amount(a)) == a
  {
    hide FirstShown;
    ShownAre([a, b], Amount(a));
  }

  lemma {:induction false} SwapReorders(a: Card, b: Card)
    ensures Reorders([b, a], [a, b])
  {
  }

  function RowOf(key: Parts, group: seq<Card>, choice: Choice): PriceRow
    requires group != []
  {
    PriceRow(key, Display(group, choice.price), choice, group)
  }

  function Prices(norms: Norms, cards: seq<Card>, keys: seq<Parts>): seq<PriceRow>
    requires forall k :: k in keys ==> Group(norms, cards, k) != []
  {
    if keys == [] then []
    else
      var key := keys[|keys| - 1];
      var group := Group(norms, cards, key);
      Prices(norms, cards, keys[..|keys| - 1]) +
        if Resolve(group).Some? then [RowOf(key, group, Resolve(group).value)] else []
  }

  function Unresolved(norms: Norms, cards: seq<Card>, keys: seq<Parts>): seq<Conflict>
  {
    if keys == [] then []
    else
      var key := keys[|keys| - 1];
      var group := Group(norms, cards, key);
      Unresolved(norms, cards, keys[..|keys| - 1]) + if Resolve(group).None? then [Conflict(key, group)] else []
  }

  ghost function ManifestOf(norms: Norms, cards: seq<Card>): Manifest
  {
    IdentitiesAre(norms, cards);
    var keys := Identities(norms, cards);
    Manifest(Prices(norms, cards, keys), Unresolved(norms, cards, keys), ExcludedOf(norms, cards), |cards|)
  }

  ghost predicate IsPriceRow(norms: Norms, cards: seq<Card>, keys: seq<Parts>, p: PriceRow)
  {
    var group := Group(norms, cards, p.key);
    p.key in keys && p.sources == group && Resolve(group) == Some(p.choice) && group != [] && p == RowOf(p.key, group, p.choice)
  }

  ghost predicate IsConflict(norms: Norms, cards: seq<Card>, keys: seq<Parts>, u: Conflict)
  {
    u.key in keys && u.sources == Group(norms, cards, u.key) && Resolve(u.sources).None?
  }

  /** The priced identities are those that resolve, the unresolved ones those that do not. */
  lemma {:induction false} RowsAre(norms: Norms, cards: seq<Card>, keys: seq<Parts>)
    requires forall k :: k in keys ==> Group(norms, cards, k) != []
    ensures forall p :: p in Prices(norms, cards, keys) <==> IsPriceRow(norms, cards, keys, p)
    ensures forall u :: u in Unresolved(norms, cards, keys) <==> IsConflict(norms, cards, keys, u)
  {
    hide Group, Resolve, RowOf;
    if keys != [] {
      var l := |keys| - 1;
      RowsAre(norms, cards, keys[..l]);
      assert forall x :: x in keys <==> x in keys[..l] || x == keys[l];
      var group := Group(norms, cards, keys[l]);
      assert group != [];
      if Resolve(group).Some? { RowKey(keys[l], group, Resolve(group).value); }
    }
  }

  lemma {:induction false} KeysOnce(norms: Norms, cards: seq<Card>, keys: seq<Parts>)
    requires Distinct(keys) && forall k :: k in keys ==> Group(norms, cards, k) != []
    ensures forall i, j :: 0 <= i < j < |Prices(norms, cards, keys)| ==> Prices(norms, cards, keys)[i].key != Prices(norms, cards, keys)[j].key
  {
    hide Group, Resolve, RowOf;
    if keys != [] {
      var l := |keys| - 1;
      KeysOnce(norms, cards, keys[..l]);
      RowsAre(norms, cards, keys[..l]);
      var before := Prices(norms, cards, keys[..l]);
      forall i | 0 <= i < |before| ensures before[i].key in keys[..l] { assert before[i] in before; }
      assert keys[l] !in keys[..l];
      var group := Group(norms, cards, keys[l]);
      assert group != [];
      if Resolve(group).Some? { assert RowOf(keys[l], group, Resolve(group).value).key == keys[l] by { RowKey(keys[l], group, Resolve(group).value); } }
    }
  }

  lemma {:induction false} RowKey(key: Parts, group: seq<Card>, choice: Choice)
    requires group != []
    ensures RowOf(key, group, choice).key == key && RowOf(key, group, choice).choice == choice && RowOf(key, group, choice).sources == group
  {
  }

  /** Every identity with accepted cards is either priced, once, or unresolved; a price is that
      of every visible card of the identity. */
  lemma {:induction false} ManifestMeans(norms: Norms, cards: seq<Card>, key: Parts)
    requires Group(norms, cards, key) != []
    ensures var m, group := ManifestOf(norms, cards), Group(norms, cards, key);
      && ((exists p :: p in m.prices && p.key == key) <==> !(exists u :: u in m.unresolved && u.key == key))
      && (forall p :: p in m.prices && p.key == key ==> p.sources == group && AllAt(VisibleOf(group), p.choice.price))
      && (forall p, q :: p in m.prices && q in m.prices && p.key == q.key ==> p == q)
  {
    hide Group, Resolve, RowOf, Identities, ManifestOf, AllAt, VisibleOf;
    var m, group := ManifestOf(norms, cards), Group(norms, cards, key);
    ResolveMeans(group);
    PricedOnce(norms, cards, key);
    UnresolvedIf(norms, cards, key);
    if Resolve(group).Some? { RowKey(key, group, Resolve(group).value); }
    forall p, q | p in m.prices && q in m.prices && p.key == q.key ensures p == q { PricedTwice(norms, cards, p, q); }
  }

  lemma {:induction false} PricedTwice(norms: Norms, cards: seq<Card>, p: PriceRow, q: PriceRow)
    requires p in ManifestOf(norms, cards).prices && q in ManifestOf(norms, cards).prices && p.key == q.key
    ensures p == q
  {
    hide Group, Resolve, RowOf, Identities, ManifestOf;
    ManifestRows(norms, cards);
    assert IsPriceRow(norms, cards, Identities(norms, cards), p) && IsPriceRow(norms, cards, Identities(norms, cards), q);
  }

  lemma {:induction false} PricedOnce(norms: Norms, cards: seq<Card>, key: Parts)
    requires Group(norms, cards, key) != []
    ensures var m, group := ManifestOf(norms, cards), Group(norms, cards, key);
      && (forall p :: p in m.prices && p.key == key ==> Resolve(group).Some? && p == RowOf(key, group, Resolve(group).value))
      && (Resolve(group).Some? ==> RowOf(key, group, Resolve(group).value) in m.prices)
  {
    hide Group, Resolve, RowOf, Identities, ManifestOf;
    ManifestRows(norms, cards);
    IdentitiesAre(norms, cards);
    var group := Group(norms, cards, key);
    if Resolve(group).Some? {
      RowKey(key, group, Resolve(group).value);
      assert IsPriceRow(norms, cards, Identities(norms, cards), RowOf(key, group, Resolve(group).value));
    }
  }

  lemma {:induction false} UnresolvedIf(norms: Norms, cards: seq<Card>, key: Parts)
    requires Group(norms, cards, key) != []
    ensures (exists u :: u in ManifestOf(norms, cards).unresolved && u.key == key) <==> Resolve(Group(norms, cards, key)).None?
  {
    hide Group, Resolve, RowOf, Identities, ManifestOf;
    ManifestRows(norms, cards);
    IdentitiesAre(norms, cards);
    var group := Group(norms, cards, key);
    if Resolve(group).None? { assert IsConflict(norms, cards, Identities(norms, cards), Conflict(key, group)); }
  }

  lemma {:induction false} ManifestRows(norms: Norms, cards: seq<Card>)
    ensures forall p :: p in ManifestOf(norms, cards).prices <==> IsPriceRow(norms, cards, Identities(norms, cards), p)
    ensures forall u :: u in ManifestOf(norms, cards).unresolved <==> IsConflict(norms, cards, Identities(norms, cards), u)
  {
    IdentitiesAre(norms, cards);
    RowsAre(norms, cards, Identities(norms, cards));
    hide Group, Identities, Prices, Unresolved, IsPriceRow, IsConflict;
  }

  // ----- what the manifest says -----

  /** The usable cards whose normal texts are those of the key. */
  ghost function OfIdentity(norms: Norms, key: Parts): Card -> bool
  {
    (c: Card) => Usable(norms, c) && norms.identity(c.model) == key.model && norms.variant(c.variant) == key.variant
  }

  lemma {:induction false} GroupIs(norms: Norms, cards: seq<Card>, key: Parts)
    ensures Group(norms, cards, key) == Filter(OfIdentity(norms, key), cards)
  {
    if cards != [] {
      var l := |cards| - 1;
      GroupIs(norms, cards[..l], key);
      ExcludedExactly(norms, cards, cards[l], MissingModel);
      hide Accepted, Usable;
    }
  }

  ghost predicate AllShow(src: seq<Card>, price: real) { forall c :: c in src ==> c.price == Some(price) }

  /** One price on all cards; or cards that differ, but one price on all visible ones. */
  ghost predicate ChosenAs(src: seq<Card>, choice: Choice)
  {
    if exists q :: AllShow(src, q) then
      AllShow(src, choice.price) && choice.resolution == if |src| == 1 then SinglePrice else DuplicateSamePrice
    else
      && (exists c :: c in src && c.visible) && (forall c :: c in src && c.visible ==> c.price == Some(choice.price))
      && choice.resolution == OnlyVisiblePrice
  }

  lemma {:induction false} ResolvesAs(group: seq<Card>, choice: Choice)
    requires group != [] && forall c :: c in group ==> c.price.Some?
    ensures Resolve(group) == Some(choice) <==> ChosenAs(group, choice)
  {
    OneAmount(group);
    OneAmount(VisibleOf(group));
    hide Unique, Amounts;
    var visible := VisibleOf(group);
    assert group[0] in group;
    assert forall c :: c in visible <==> c in group && c.visible;
    hide VisibleOf;
    assert AllAt(group, Amount(group[0])) <==> AllShow(group, Amount(group[0]));
    assert (exists q :: AllShow(group, q)) <==> AllShow(group, Amount(group[0]));
    if visible != [] { assert visible[0] in visible; }
  }

  predicate VisibleAt(c: Card, price: real) { c.visible && c.price == Some(price) }

  /** The first visible card at the price, or the first card when there is none. */
  ghost predicate DisplayedAs(src: seq<Card>, price: real, d: Card)
  {
    exists i :: 0 <= i < |src| && src[i] == d &&
      if VisibleAt(d, price) then forall j :: 0 <= j < i ==> !VisibleAt(src[j], price)
      else i == 0 && forall j :: 0 <= j < |src| ==> !VisibleAt(src[j], price)
  }

  lemma {:induction false} FirstShownIs(group: seq<Card>, price: real)
    requires forall c :: c in group ==> c.price.Some?
    ensures var shown := FirstShown(group, price);
      if shown.None? then forall j :: 0 <= j < |group| ==> !VisibleAt(group[j], price)
      else exists i :: 0 <= i < |group| && group[i] == shown.value && VisibleAt(group[i], price) && forall j :: 0 <= j < i ==> !VisibleAt(group[j], price)
  {
    if group != [] {
      var l := |group| - 1;
      assert group[l] in group;
      FirstShownIs(group[..l], price);
      var earlier := FirstShown(group[..l], price);
      hide FirstShown;
      assert forall j :: 0 <= j < l ==> group[..l][j] == group[j];
      if earlier.Some? {
        var i :| 0 <= i < l && group[..l][i] == earlier.value && VisibleAt(group[i], price) && forall j :: 0 <= j < i ==> !VisibleAt(group[..l][j], price);
        assert group[i] == earlier.value;
      }
    }
  }

  lemma {:induction false} DisplaysAs(group: seq<Card>, price: real, d: Card)
    requires group != [] && forall c :: c in group ==> c.price.Some?
    ensures Display(group, price) == d <==> DisplayedAs(group, price, d)
  {
    FirstShownIs(group, price);
    hide FirstShown, VisibleAt;
  }

  /** An identity is priced as `p` says if and only if the usable cards of the identity, in
      reading order, are its sources, the price is theirs, and the card shown is the right one;
      the rest of the identities with usable cards are unresolved. */
  lemma {:induction false} PricedExactly(norms: Norms, cards: seq<Card>, p: PriceRow)
    ensures p in ManifestOf(norms, cards).prices <==>
      p.sources == Filter(OfIdentity(norms, p.key), cards) && p.sources != [] && ChosenAs(p.sources, p.choice) && DisplayedAs(p.sources, p.choice.price, p.display)
  {
    ManifestRows(norms, cards);
    IdentitiesAre(norms, cards);
    GroupIs(norms, cards, p.key);
    hide Group, Resolve, Identities, ManifestOf, ChosenAs, DisplayedAs, Filter, Display;
    var group := Group(norms, cards, p.key);
    if group != [] {
      ResolvesAs(group, p.choice);
      DisplaysAs(group, p.choice.price, p.display);
    }
  }

  lemma {:induction false} UnresolvedExactly(norms: Norms, cards: seq<Card>, u: Conflict)
    ensures u in ManifestOf(norms, cards).unresolved <==>
      u.sources == Filter(OfIdentity(norms, u.key), cards) && u.sources != [] && forall choice :: !ChosenAs(u.sources, choice)
  {
    ManifestRows(norms, cards);
    IdentitiesAre(norms, cards);
    GroupIs(norms, cards, u.key);
    hide Group, Resolve, Identities, ManifestOf, ChosenAs, Filter;
    var group := Group(norms, cards, u.key);
    if group != [] {
      forall choice ensures Resolve(group) == Some(choice) <==> ChosenAs(group, choice) { ResolvesAs(group, choice); }
      if Resolve(group).Some? { assert ChosenAs(group, Resolve(group).value); }
    }
  }

  /** Models in the order of their text, then variants. */
  predicate Before(a: Parts, b: Parts) { TextLess(a.model, b.model) || (a.model == b.model && TextLess(a.variant, b.variant)) }

  lemma {:induction false} RowsOrdered(norms: Norms, cards: seq<Card>, keys: seq<Parts>)
    requires (forall i, j :: 0 <= i < j < |keys| ==> Before(keys[i], keys[j])) && forall k :: k in keys ==> Group(norms, cards, k) != []
    ensures forall i, j :: 0 <= i < j < |Prices(norms, cards, keys)| ==> Before(Prices(norms, cards, keys)[i].key, Prices(norms, cards, keys)[j].key)
    ensures forall i, j :: 0 <= i < j < |Unresolved(norms, cards, keys)| ==> Before(Unresolved(norms, cards, keys)[i].key, Unresolved(norms, cards, keys)[j].key)
  {
    hide Group, Resolve, RowOf, Before;
    if keys != [] {
      var l := |keys| - 1;
      RowsOrdered(norms, cards, keys[..l]);
      RowsAre(norms, cards, keys[..l]);
      var before, earlier := Prices(norms, cards, keys[..l]), Unresolved(norms, cards, keys[..l]);
      forall i | 0 <= i < |before| ensures Before(before[i].key, keys[l]) { assert before[i] in before; }
      forall i | 0 <= i < |earlier| ensures Before(earlier[i].key, keys[l]) { assert earlier[i] in earlier; }
      var group := Group(norms, cards, keys[l]);
      assert group != [];
      if Resolve(group).Some? { RowKey(keys[l], group, Resolve(group).value); }
    }
  }

  lemma {:induction false} ManifestOrdered(norms: Norms, cards: seq<Card>)
    ensures var m := ManifestOf(norms, cards);
      && (forall i, j :: 0 <= i < j < |m.prices| ==> Before(m.prices[i].key, m.prices[j].key))
      && (forall i, j :: 0 <= i < j < |m.unresolved| ==> Before(m.unresolved[i].key, m.unresolved[j].key))
  {
    IdentitiesAre(norms, cards);
    var keys := Identities(norms, cards);
    forall i, j | 0 <= i < j < |keys| ensures Before(keys[i], keys[j]) { assert KeyLess(GroupKey(keys[i]), GroupKey(keys[j])); }
    hide Group, Identities, Prices, Unresolved, Before, ExcludedOf;
    RowsOrdered(norms, cards, keys);
  }

  // ----- every card is accounted for -----

  function Sizes(norms: Norms, cards: seq<Card>, keys: seq<Parts>): nat
  {
    if keys == [] then 0 else Sizes(norms, cards, keys[..|keys| - 1]) + |Group(norms, cards, keys[|keys| - 1])|
  }

  lemma {:induction false} SizesStep(norms: Norms, cards: seq<Card>, keys: seq<Parts>)
    requires Distinct(keys) && cards != []
    ensures var c := cards[|cards| - 1];
      Sizes(norms, cards, keys) == Sizes(norms, cards[..|cards| - 1], keys) + if Accepted(norms, c) && KeyOf(norms, c) in keys then 1 else 0
  {
    hide Accepted, KeyOf;
    if keys != [] {
      var l := |keys| - 1;
      SizesStep(norms, cards, keys[..l]);
      assert keys[l] !in keys[..l] && forall x :: x in keys <==> x in keys[..l] || x == keys[l];
    }
  }

  lemma {:induction false} SizesOfNothing(norms: Norms, keys: seq<Parts>)
    ensures Sizes(norms, [], keys) == 0
  {
    if keys != [] { SizesOfNothing(norms, keys[..|keys| - 1]); }
  }

  lemma {:induction false} CardsCounted(norms: Norms, cards: seq<Card>, keys: seq<Parts>)
    requires Distinct(keys) && forall c :: c in cards && Accepted(norms, c) ==> KeyOf(norms, c) in keys
    ensures |cards| == |ExcludedOf(norms, cards)| + Sizes(norms, cards, keys)
  {
    hide Accepted, KeyOf;
    if cards == [] {
      SizesOfNothing(norms, keys);
    } else {
      assert cards[|cards| - 1] in cards;
      SizesStep(norms, cards, keys);
      CardsCounted(norms, cards[..|cards| - 1], keys);
    }
  }

  function SourcesOfPrices(rows: seq<PriceRow>): nat
  {
    if rows == [] then 0 else SourcesOfPrices(rows[..|rows| - 1]) + |rows[|rows| - 1].sources|
  }

  function SourcesOfConflicts(rows: seq<Conflict>): nat
  {
    if rows == [] then 0 else SourcesOfConflicts(rows[..|rows| - 1]) + |rows[|rows| - 1].sources|
  }

  lemma {:induction false} SourcesAreSizes(norms: Norms, cards: seq<Card>, keys: seq<Parts>)
    requires forall k :: k in keys ==> Group(norms, cards, k) != []
    ensures SourcesOfPrices(Prices(norms, cards, keys)) + SourcesOfConflicts(Unresolved(norms, cards, keys)) == Sizes(norms, cards, keys)
  {
    hide Group, Resolve, RowOf;
    if keys != [] {
      var l := |keys| - 1;
      SourcesAreSizes(norms, cards, keys[..l]);
      var before, earlier := Prices(norms, cards, keys[..l]), Unresolved(norms, cards, keys[..l]);
      var group := Group(norms, cards, keys[l]);
      assert before + [] == before && earlier + [] == earlier;
      if Resolve(group).Some? {
        RowKey(keys[l], group, Resolve(group).value);
        assert (before + [RowOf(keys[l], group, Resolve(group).value)])[..|before|] == before;
      } else {
        assert (earlier + [Conflict(keys[l], group)])[..|earlier|] == earlier;
      }
    }
  }

  /** Every card read is excluded with a reason, or listed as a source of one identity. */
  lemma {:induction false} CardsConserved(norms: Norms, cards: seq<Card>)
    ensures var m := ManifestOf(norms, cards);
      m.total == |m.excluded| + SourcesOfPrices(m.prices) + SourcesOfConflicts(m.unresolved)
  {
    IdentitiesAre(norms, cards);
    var keys := Identities(norms, cards);
    IdentitiesDistinct(norms, cards);
    forall c | c in cards && Accepted(norms, c) ensures KeyOf(norms, c) in keys {
      assert c in Group(norms, cards, KeyOf(norms, c));
    }
    hide Group, Identities;
    CardsCounted(norms, cards, keys);
    SourcesAreSizes(norms, cards, keys);
  }

  lemma {:induction false} IdentitiesDistinct(norms: Norms, cards: seq<Card>)
    ensures Distinct(Identities(norms, cards))
  {
    IdentitiesAre(norms, cards);
    var keys := Identities(norms, cards);
    hide Identities, KeyLess;
    forall i, j | 0 <= i < j < |keys| ensures keys[i] != keys[j] {
      KeyOrder(GroupKey(keys[i]), GroupKey(keys[j]));
      KeyOrder(GroupKey(keys[i]), GroupKey(keys[i]));
    }
  }

  // ----- the import file -----

  function ImportRows(rows: seq<PriceRow>): (r: seq<PriceImport.Row>)
    ensures |r| == |rows| && forall i :: 0 <= i < |r| ==> r[i] == PriceImport.Row(rows[i].key.model, rows[i].key.variant, rows[i].choice.price, "USD")
  {
    if rows == [] then []
    else
      var p := rows[|rows| - 1];
      ImportRows(rows[..|rows| - 1]) + [PriceImport.Row(p.key.model, p.key.variant, p.choice.price, "USD")]
  }

  /** No identity is exported twice, so no ERP model can be claimed by two of the rows. */
  lemma {:induction false} ExportNeverClaimsTwice(norms: Norms, cards: seq<Card>, ids: seq<nat>, models: PriceImport.Models, i: nat, j: nat, id: nat)
    requires i < j
    ensures PriceImport.UniqueKeys(ImportRows(ManifestOf(norms, cards).prices))
    ensures var rows := ImportRows(ManifestOf(norms, cards).prices);
      j < |rows| && id in PriceImport.Candidates(ids, models, rows, rows[i]) ==> id !in PriceImport.Candidates(ids, models, rows, rows[j])
  {
    IdentitiesAre(norms, cards);
    IdentitiesDistinct(norms, cards);
    KeysOnce(norms, cards, Identities(norms, cards));
    hide Group, Identities, Prices, PriceImport.Candidates;
    var rows := ImportRows(ManifestOf(norms, cards).prices);
    if j < |rows| && id in PriceImport.Candidates(ids, models, rows, rows[i]) {
      PriceImport.AtMostOneRow(ids, models, rows, i, j, id);
    }
  }

  // ----- the tool -----

  function AllCards(catalogs: seq<Catalog>): seq<Card>
  {
    if catalogs == [] then [] else AllCards(catalogs[..|catalogs| - 1]) + catalogs[|catalogs| - 1].cards
  }

  /** The cards of all catalogs, one catalog after the other. */
  lemma {:induction false} CardsInOrder(a: seq<Catalog>, b: seq<Catalog>, c: Catalog)
    ensures AllCards([c]) == c.cards && AllCards(a + b) == AllCards(a) + AllCards(b)
  {
    var none: seq<Catalog> := [];
    assert [c][..0] == none && AllCards(none) + c.cards == c.cards;
    if b == [] {
      assert a + b == a && AllCards(a) + AllCards(b) == AllCards(a);
    } else {
      var l := |b| - 1;
      CardsInOrder(a, b[..l], c);
      assert (a + b)[..|a + b| - 1] == a + b[..l];
    }
  }

  type Groups = Index<Parts, Card>

  /** What the dictionary of groups holds after some cards. */
  ghost predicate Holds(norms: Norms, cards: seq<Card>, grouped: Groups)
  {
    grouped.Valid() && grouped.keys == KeysOf(norms, cards) && forall k :: grouped.Get(k) == Group(norms, cards, k)
  }

  lemma {:induction false} GroupNext(norms: Norms, cards: seq<Card>, c: Card, k: Parts)
    ensures Group(norms, cards + [c], k) ==
      if Accepted(norms, c) && KeyOf(norms, c) == k then Group(norms, cards, k) + [c] else Group(norms, cards, k)
  {
    hide KeyOf, Accepted;
    assert (cards + [c])[..|cards|] == cards;
  }

  lemma {:induction false} KeysNext(norms: Norms, cards: seq<Card>, c: Card, grouped: Groups)
    requires grouped.Valid() && grouped.keys == KeysOf(norms, cards) && Accepted(norms, c)
    ensures grouped.Add(KeyOf(norms, c), c).keys == KeysOf(norms, cards + [c])
  {
    hide KeyOf, Accepted, Group;
    assert (cards + [c])[..|cards|] == cards;
  }

  lemma {:induction false} HoldsAdded(norms: Norms, cards: seq<Card>, c: Card, grouped: Groups)
    requires Holds(norms, cards, grouped) && Accepted(norms, c)
    ensures Holds(norms, cards + [c], grouped.Add(KeyOf(norms, c), c))
  {
    hide KeyOf, Accepted, Group, KeysOf;
    KeysNext(norms, cards, c, grouped);
    var after := grouped.Add(KeyOf(norms, c), c);
    hide Groups.Valid, Groups.Get, Groups.Add;
    forall k ensures after.Get(k) == Group(norms, cards + [c], k) {
      assert grouped.Get(k) == Group(norms, cards, k);
      GroupNext(norms, cards, c, k);
    }
  }

  lemma {:induction false} HoldsSkipped(norms: Norms, cards: seq<Card>, c: Card, grouped: Groups)
    requires Holds(norms, cards, grouped) && !Accepted(norms, c)
    ensures Holds(norms, cards + [c], grouped)
  {
    hide KeyOf, Accepted;
    assert (cards + [c])[..|cards|] == cards;
  }

  lemma {:induction false} ExcludedNext(norms: Norms, cards: seq<Card>, c: Card)
    ensures ExcludedOf(norms, cards + [c]) == ExcludedOf(norms, cards) + if Accepted(norms, c) then [] else [Excluded(ReasonFor(norms, c).value, c)]
  {
    assert (cards + [c])[..|cards|] == cards;
  }

  /** Sorts the cards of one catalog. */
  method GroupCatalog(norms: Norms, ghost before: seq<Card>, cards: seq<Card>, start: Groups, first: seq<Excluded>)
    returns (grouped: Groups, excluded: seq<Excluded>)
    requires Holds(norms, before, start) && first == ExcludedOf(norms, before)
    ensures Holds(norms, before + cards, grouped) && excluded == ExcludedOf(norms, before + cards)
  {
    hide *;
    grouped, excluded := start, first;
    assert before + cards[..0] == before;
    for j := 0 to |cards|
      invariant Holds(norms, before + cards[..j], grouped) && excluded == ExcludedOf(norms, before + cards[..j])
    {
      var c := cards[j];
      ghost var done := before + cards[..j];
      assert before + cards[..j + 1] == done + [c];
      ExcludedNext(norms, done, c);
      NotAccepted(norms, c);
      HoldsValid(norms, done, grouped);
      var reason := ReasonFor(norms, c);
      if reason.Some? {
        HoldsSkipped(norms, done, c, grouped);
        excluded := excluded + [Excluded(reason.value, c)];
      } else {
        HoldsAdded(norms, done, c, grouped);
        assert excluded + [] == excluded;
        grouped := grouped.Add(KeyOf(norms, c), c);
      }
    }
    assert cards[..|cards|] == cards;
  }

  /** Sorts the cards of all catalogs into groups and excluded cards. */
  method GroupCards(norms: Norms, catalogs: seq<Catalog>, allowDrift: bool) returns (ok: bool, grouped: Groups, excluded: seq<Excluded>, total: nat)
    ensures ok <==> allowDrift || forall i :: 0 <= i < |catalogs| ==> |catalogs[i].cards| == catalogs[i].expected
    ensures ok ==> Holds(norms, AllCards(catalogs), grouped) && excluded == ExcludedOf(norms, AllCards(catalogs)) && total == |AllCards(catalogs)|
  {
    hide Accepted, KeyOf;
    grouped, excluded, total := Index([], map[]), [], 0;
    ghost var done: seq<Card> := [];
    assert Holds(norms, done, grouped) && excluded == ExcludedOf(norms, done);
    hide Holds, ExcludedOf;
    for i := 0 to |catalogs|
      invariant allowDrift || forall j :: 0 <= j < i ==> |catalogs[j].cards| == catalogs[j].expected
      invariant done == AllCards(catalogs[..i]) && total == |done|
      invariant Holds(norms, done, grouped) && excluded == ExcludedOf(norms, done)
    {
      var cards := catalogs[i].cards;
      if |cards| != catalogs[i].expected && !allowDrift { return false, grouped, excluded, total; }
      grouped, excluded := GroupCatalog(norms, done, cards, grouped, excluded);
      assert catalogs[..i + 1][..i] == catalogs[..i];
      total, done := total + |cards|, done + cards;
    }
    assert catalogs[..|catalogs|] == catalogs;
    ok := true;
  }

  lemma {:induction false} NotAccepted(norms: Norms, c: Card)
    ensures Accepted(norms, c) <==> ReasonFor(norms, c).None?
  {
  }

  lemma {:induction false} HoldsValid(norms: Norms, cards: seq<Card>, grouped: Groups)
    requires Holds(norms, cards, grouped)
    ensures grouped.Valid()
  {
  }

  /** `build_manifest`: it refuses exactly when a catalog changed size unannounced. */
  method BuildManifest(norms: Norms, catalogs: seq<Catalog>, allowDrift: bool) returns (r: Option<Manifest>)
    ensures r.Some? <==> allowDrift || forall i :: 0 <= i < |catalogs| ==> |catalogs[i].cards| == catalogs[i].expected
    ensures r.Some? ==> r.value == ManifestOf(norms, AllCards(catalogs))
  {
    var ok, grouped, excluded, total := GroupCards(norms, catalogs, allowDrift);
    if !ok { return None; }
    ghost var cards := AllCards(catalogs);
    IdentitiesAre(norms, cards);
    var keys := Sort(GroupKey, grouped.keys);
    assert keys == Identities(norms, cards);
    hide Group, Identities, Prices, Unresolved, ExcludedOf, KeysOf;
    var prices, unresolved := PriceGroups(norms, cards, keys, grouped);
    r := Some(Manifest(prices, unresolved, excluded, total));
  }

  /** Resolves one group after the other. */
  method PriceGroups(norms: Norms, ghost cards: seq<Card>, keys: seq<Parts>, grouped: Groups) returns (prices: seq<PriceRow>, unresolved: seq<Conflict>)
    requires forall k :: k in keys ==> Group(norms, cards, k) != []
    requires forall k :: grouped.Get(k) == Group(norms, cards, k)
    ensures prices == Prices(norms, cards, keys) && unresolved == Unresolved(norms, cards, keys)
  {
    hide Group, Resolve, Display;
    prices, unresolved := [], [];
    for i := 0 to |keys|
      invariant prices == Prices(norms, cards, keys[..i]) && unresolved == Unresolved(norms, cards, keys[..i])
    {
      assert keys[..i + 1][..i] == keys[..i];
      assert keys[i] in keys;
      var group := grouped.Get(keys[i]);
      var choice := Resolve(group);
      if choice.None? {
        unresolved := unresolved + [Conflict(keys[i], group)];
        assert prices + [] == prices;
      } else {
        prices := prices + [PriceRow(keys[i], Display(group, choice.value.price), choice.value, group)];
        assert unresolved + [] == unresolved;
      }
    }
    assert keys[..|keys|] == keys;
  }
}
