/** The ordered deletion of the cleanup: one DELETE per table, children before parents. */
module Deletion {
  import opened Base
  import opened Closure

  // ----- the order of the tables -----

  /** Table `c` has to go before table `p`; references of a table to itself do not count. */
  predicate Needs(links: seq<Edge>, p: Table, c: Table)
  {
    c != p && exists e :: e in links && e.parent == p && e.child == c
  }

  ghost predicate Chain(links: seq<Edge>, tables: set<Table>, c: seq<Table>)
  {
    (forall i :: 0 <= i < |c| ==> c[i] in tables) && forall i, j :: 0 <= i < j < |c| && j == i + 1 ==> Needs(links, c[i], c[j])
  }

  ghost predicate Cycle(links: seq<Edge>, tables: set<Table>, c: seq<Table>)
  {
    |c| >= 2 && Chain(links, tables, c) && c[0] == c[|c| - 1]
  }

  ghost predicate Acyclic(links: seq<Edge>, tables: set<Table>)
  {
    forall c :: !Cycle(links, tables, c)
  }

  ghost predicate ChildrenFirst(links: seq<Edge>, tables: set<Table>, order: seq<Table>)
  {
    forall i, c :: 0 <= i < |order| && c in tables && Needs(links, order[i], c) ==> c in order[..i]
  }

  predicate IsLeaf(links: seq<Edge>, pending: set<Table>, t: Table)
  {
    !exists e :: e in links && e.parent == t && e.child in pending && e.child != t
  }

  /** The tables of a round: no pending table has to go before them. */
  function Leaves(links: seq<Edge>, pending: set<Table>): set<Table>
  {
    set t | t in pending && IsLeaf(links, pending, t)
  }

  lemma {:induction false} ChainAppend(links: seq<Edge>, tables: set<Table>, c: seq<Table>, next: Table)
    requires Chain(links, tables, c) && next in tables && c != [] && Needs(links, c[|c| - 1], next)
    ensures Chain(links, tables, c + [next])
  {
    hide Needs;
  }

  lemma {:induction false} ChainPart(links: seq<Edge>, tables: set<Table>, wider: set<Table>, c: seq<Table>, i: nat, j: nat)
    requires Chain(links, tables, c) && tables <= wider && i <= j <= |c|
    ensures Chain(links, wider, c[i..j])
  {
    hide Needs;
  }

  lemma {:induction false} NextChild(links: seq<Edge>, pending: set<Table>, t: Table) returns (c: Table)
    requires !IsLeaf(links, pending, t)
    ensures c in pending && Needs(links, t, c)
  {
    var e :| e in links && e.parent == t && e.child in pending && e.child != t;
    c := e.child;
  }

  /** Without a leaf one can walk from child to child forever. */
  lemma {:induction false} Walk(links: seq<Edge>, pending: set<Table>, start: Table, n: nat) returns (c: seq<Table>)
    requires start in pending && forall t :: t in pending ==> !IsLeaf(links, pending, t)
    ensures |c| == n + 1 && Chain(links, pending, c)
  {
    hide Needs, IsLeaf;
    if n == 0 {
      return [start];
    }
    var w := Walk(links, pending, start, n - 1);
    assert w[n - 1] in pending;
    var next := NextChild(links, pending, w[n - 1]);
    ChainAppend(links, pending, w, next);
    c := w + [next];
  }

  lemma {:induction false} ChainWithin(links: seq<Edge>, pending: set<Table>, c: seq<Table>)
    requires Chain(links, pending, c)
    ensures forall i :: 0 <= i < |c| ==> c[i] in pending
  {
    hide Needs;
  }

  /** More entries than values: two of them are equal. */
  lemma {:induction false} Pigeonhole(c: seq<Table>, values: set<Table>) returns (i: nat, j: nat)
    requires |c| > |values| && forall i :: 0 <= i < |c| ==> c[i] in values
    ensures i < j < |c| && c[i] == c[j]
    decreases |c|
  {
    var l := |c| - 1;
    if c[l] in c[..l] {
      i :| 0 <= i < l && c[i] == c[l];
      j := l;
    } else {
      i, j := Pigeonhole(c[..l], values - {c[l]});
    }
  }

  lemma {:induction false} NoneIsLeaf(links: seq<Edge>, pending: set<Table>)
    requires Leaves(links, pending) == {}
    ensures forall t :: t in pending ==> !IsLeaf(links, pending, t)
  {
    hide IsLeaf;
    forall t | t in pending ensures !IsLeaf(links, pending, t) { assert t !in Leaves(links, pending); }
  }

  lemma {:induction false} NoLeafNoOrder(links: seq<Edge>, pending: set<Table>, tables: set<Table>)
    requires pending != {} && pending <= tables && Leaves(links, pending) == {}
    ensures !Acyclic(links, tables)
  {
    NoneIsLeaf(links, pending);
    hide Needs, IsLeaf, Leaves, Chain;
    var start := SomeElement(pending);
    var c := Walk(links, pending, start, |pending|);
    ChainWithin(links, pending, c);
    var i, j := Pigeonhole(c, pending);
    LoopIsCycle(links, pending, tables, c, i, j);
    hide Cycle;
  }

  lemma {:induction false} LoopIsCycle(links: seq<Edge>, pending: set<Table>, tables: set<Table>, c: seq<Table>, i: nat, j: nat)
    requires Chain(links, pending, c) && pending <= tables && i < j < |c| && c[i] == c[j]
    ensures Cycle(links, tables, c[i..j + 1])
  {
    hide Chain;
    ChainPart(links, pending, tables, c, i, j + 1);
  }

  lemma {:induction false} ChainGoesBack(links: seq<Edge>, tables: set<Table>, order: seq<Table>, c: seq<Table>, at: nat, k: nat)
    requires ChildrenFirst(links, tables, order) && Chain(links, tables, c)
    requires at < |order| && 0 < k < |c| && c[0] == order[at]
    ensures c[k] in order[..at]
    decreases k
  {
    var j := k - 1;
    assert Needs(links, c[j], c[k]) && c[k] in tables;
    if j > 0 {
      ChainGoesBack(links, tables, order, c, at, j);
      var m :| 0 <= m < at && order[..at][m] == c[j];
      assert Needs(links, order[m], c[k]);
      assert order[..m] == order[..at][..m];
    } else {
      assert Needs(links, order[at], c[k]);
    }
  }

  lemma {:induction false} OrderedIsAcyclic(links: seq<Edge>, tables: set<Table>, order: seq<Table>)
    requires Distinct(order) && (forall t :: t in tables ==> t in order) && ChildrenFirst(links, tables, order)
    ensures Acyclic(links, tables)
  {
    forall c ensures !Cycle(links, tables, c) {
      if |c| >= 2 && Chain(links, tables, c) {
        assert c[0] in order;
        var at :| 0 <= at < |order| && order[at] == c[0];
        ChainGoesBack(links, tables, order, c, at, |c| - 1);
        assert c[0] !in order[..at];
      }
    }
  }

  /** One round of leaves, in some order. */
  method TakeLeaves(links: seq<Edge>, ghost tables: set<Table>, pending: set<Table>, order: seq<Table>, leaves: set<Table>)
    returns (longer: seq<Table>)
    requires leaves == Leaves(links, pending) && pending <= tables
    requires Distinct(order) && ChildrenFirst(links, tables, order)
    requires forall t :: t in order <==> t in tables && t !in pending
    ensures Distinct(longer) && ChildrenFirst(links, tables, longer)
    ensures forall t :: t in longer <==> t in tables && t !in pending - leaves
  {
    longer := order;
    var rest := leaves;
    while rest != {}
      invariant rest <= leaves && Distinct(longer) && ChildrenFirst(links, tables, longer)
      invariant forall t :: t in order ==> t in longer
      invariant forall t :: t in longer <==> t in tables && (t !in pending || (t in leaves && t !in rest))
      decreases |rest|
    {
      var t := PickOne(rest);
      assert t in pending && t !in longer;
      AddLeaf(links, tables, pending, longer, t);
      longer, rest := longer + [t], rest - {t};
    }
  }

  lemma {:induction false} AddLeaf(links: seq<Edge>, tables: set<Table>, pending: set<Table>, order: seq<Table>, t: Table)
    requires Distinct(order) && ChildrenFirst(links, tables, order) && t !in order && IsLeaf(links, pending, t)
    requires forall x :: x in tables && x !in pending ==> x in order
    ensures Distinct(order + [t]) && ChildrenFirst(links, tables, order + [t])
  {
    DistinctAppend(order, t);
    var longer := order + [t];
    forall i, c | 0 <= i < |longer| && c in tables && Needs(links, longer[i], c) ensures c in longer[..i] {
      if i < |order| {
        assert longer[i] == order[i] && c in order[..i] && longer[..i] == order[..i];
      } else {
        assert longer[..i] == order;
      }
    }
  }

  /** Repeatedly takes the leaves. It succeeds exactly when the references between the
      given tables, self-references aside, have no cycle; the order then lists every table
      once, children before parents. */
  method LeafOrder(links: seq<Edge>, tables: set<Table>) returns (order: seq<Table>, ok: bool)
    ensures ok <==> Acyclic(links, tables)
    ensures ok ==> Distinct(order) && (forall t :: t in order <==> t in tables) && ChildrenFirst(links, tables, order)
  {
    var pending := tables;
    order := [];
    while pending != {}
      invariant pending <= tables && Distinct(order) && ChildrenFirst(links, tables, order)
      invariant forall t :: t in order <==> t in tables && t !in pending
      decreases |pending|
    {
      var leaves := Leaves(links, pending);
      if leaves == {} {
        NoLeafNoOrder(links, pending, tables);
        return order, false;
      }
      ghost var some := SomeElement(leaves);
      order := TakeLeaves(links, tables, pending, order, leaves);
      assert pending - leaves < pending;
      pending := pending - leaves;
    }
    OrderedIsAcyclic(links, tables, order);
    ok := true;
  }

  // ----- shared references -----

  /** Rows that go while the row they refer to stays. */
  function Mixed(db: Database, targets: Targets, e: Edge): set<Id>
  {
    set id | id in Get(targets, e.child) && id in RowsOf(db, e.child) && e.col in RowsOf(db, e.child)[id]
          && RowsOf(db, e.child)[id][e.col] !in Get(targets, e.parent)
  }

  /** The reviewed exceptions: for one column, the exact rows that go alone. */
  type Exempt = map<(Table, string), set<Id>>

  /** The row goes while the one it refers to stays. */
  ghost predicate GoesAlone(db: Database, targets: Targets, e: Edge, id: Id)
  {
    id in Get(targets, e.child) && exists p :: Refers(db, e, id, p) && p !in Get(targets, e.parent)
  }

  predicate Reviewed(exempt: Exempt, e: Edge, id: Id) { (e.child, e.col) in exempt && id in exempt[(e.child, e.col)] }

  function Expected(exempt: Exempt, e: Edge): set<Id>
  {
    if (e.child, e.col) in exempt then exempt[(e.child, e.col)] else {}
  }

  /** Between two tables with rows that go, the rows that go alone are exactly the reviewed ones. */
  ghost predicate MixedReviewed(db: Database, links: seq<Edge>, targets: Targets, exempt: Exempt)
  {
    forall e, id :: e in links && Get(targets, e.child) != {} && Get(targets, e.parent) != {} ==>
      (GoesAlone(db, targets, e, id) <==> Reviewed(exempt, e, id))
  }

  lemma {:induction false} MixedIs(db: Database, targets: Targets, exempt: Exempt, e: Edge)
    ensures Mixed(db, targets, e) == Expected(exempt, e) <==> forall id :: GoesAlone(db, targets, e, id) <==> Reviewed(exempt, e, id)
  {
    var mixed, expected := Mixed(db, targets, e), Expected(exempt, e);
    forall id ensures (id in mixed <==> GoesAlone(db, targets, e, id)) && (id in expected <==> Reviewed(exempt, e, id)) {
      if id in mixed { assert Refers(db, e, id, RowsOf(db, e.child)[id][e.col]); }
    }
    if forall id :: GoesAlone(db, targets, e, id) <==> Reviewed(exempt, e, id) { SameSet(mixed, expected); }
  }

  method CheckMixed(db: Database, links: seq<Edge>, targets: Targets, exempt: Exempt) returns (refusal: Option<Edge>)
    ensures refusal.None? <==> MixedReviewed(db, links, targets, exempt)
  {
    hide Mixed, Expected, GoesAlone, Reviewed;
    for i := 0 to |links|
      invariant forall j, id :: 0 <= j < i && Get(targets, links[j].child) != {} && Get(targets, links[j].parent) != {} ==>
        (GoesAlone(db, targets, links[j], id) <==> Reviewed(exempt, links[j], id))
    {
      var e := links[i];
      if Get(targets, e.child) != {} && Get(targets, e.parent) != {} {
        MixedIs(db, targets, exempt, e);
        if Mixed(db, targets, e) != Expected(exempt, e) { return Some(e); }
      }
    }
    refusal := None;
  }

  /** Once the traversal has closed the targets and the check has passed, a reference
      between two touched tables never joins a row that goes and a row that stays, but
      for the reviewed exceptions. */
  lemma {:induction false} NothingSharedIsCut(db: Database, links: seq<Edge>, targets: Targets, exempt: Exempt, e: Edge, id: Id, p: Id)
    requires Closed(db, links, targets)
    requires MixedReviewed(db, links, targets, exempt)
    requires e in links && Get(targets, e.child) != {} && Get(targets, e.parent) != {} && Refers(db, e, id, p)
    ensures id in Get(targets, e.child) <==> p in Get(targets, e.parent) || Reviewed(exempt, e, id)
    ensures p in Get(targets, e.parent) ==> !Reviewed(exempt, e, id)
  {
    assert GoesAlone(db, targets, e, id) <==> id in Get(targets, e.child) && p !in Get(targets, e.parent);
  }

  // ----- the deletion -----

  ghost predicate Integrity(db: Database, links: seq<Edge>)
  {
    forall e, id, p :: e in links && Refers(db, e, id, p) ==> p in RowsOf(db, e.parent)
  }

  function Removed(db: Database, t: Table, ids: set<Id>): Database
  {
    if t in db then db[t := db[t] - ids] else db
  }

  /** A row that stays refers to a row of `t` that goes: the database would refuse, or act. */
  ghost predicate Referenced(db: Database, links: seq<Edge>, t: Table, ids: set<Id>)
  {
    exists e, id, p :: e in links && e.parent == t && p in ids && p in RowsOf(db, t) && Refers(Removed(db, t, ids), e, id, p)
  }

  /** The database after the first `k` deletions. */
  function After(db: Database, targets: Targets, order: seq<Table>): Database
  {
    if order == [] then db
    else
      var l := |order| - 1;
      Removed(After(db, targets, order[..l]), order[l], Get(targets, order[l]))
  }

  /** What is meant to be left. */
  function Kept(db: Database, targets: Targets): Database
  {
    map t | t in db :: db[t] - Get(targets, t)
  }

  lemma {:induction false} AfterRows(db: Database, targets: Targets, order: seq<Table>, t: Table)
    ensures RowsOf(After(db, targets, order), t) == if t in order then RowsOf(db, t) - Get(targets, t) else RowsOf(db, t)
    ensures After(db, targets, order).Keys == db.Keys
  {
    if order != [] {
      var l := |order| - 1;
      AfterRows(db, targets, order[..l], t);
      assert t in order <==> t in order[..l] || t == order[l];
      SameMap(RowsOf(db, t) - Get(targets, t) - Get(targets, t), RowsOf(db, t) - Get(targets, t));
    }
  }

  lemma {:induction false} AfterAll(db: Database, targets: Targets, order: seq<Table>)
    requires forall t :: t in order <==> t in targets
    ensures After(db, targets, order) == Kept(db, targets)
  {
    var a, b := After(db, targets, order), Kept(db, targets);
    AfterRows(db, targets, order, "");
    forall t | t in a.Keys ensures a[t] == b[t] {
      AfterRows(db, targets, order, t);
      SameMap(db[t] - {}, db[t]);
      assert RowsOf(a, t) == a[t];
    }
    SameMap(a, b);
  }

  /** Between two deletions every reference is still served, and the next table can go
      without any remaining row referring to a row that goes. */
  lemma {:induction false} EveryDeleteSafe(db: Database, links: seq<Edge>, targets: Targets, order: seq<Table>, k: nat)
    requires Integrity(db, links) && Closed(db, links, targets) && Distinct(order)
    requires (forall t :: t in order <==> t in targets) && ChildrenFirst(links, targets.Keys, order)
    requires k <= |order|
    ensures Integrity(After(db, targets, order[..k]), links)
    ensures k < |order| ==> !Referenced(After(db, targets, order[..k]), links, order[k], Get(targets, order[k]))
  {
    var now := After(db, targets, order[..k]);
    forall e, id, p | e in links && Refers(now, e, id, p) ensures p in RowsOf(now, e.parent) {
      Survives(db, links, targets, order, k, e, id, p);
    }
    if k < |order| {
      var t := order[k];
      assert order[..k + 1][..k] == order[..k];
      assert After(db, targets, order[..k + 1]) == Removed(now, t, Get(targets, t));
      forall e, id, p | e in links && e.parent == t && Refers(Removed(now, t, Get(targets, t)), e, id, p)
        ensures p !in Get(targets, t)
      {
        Survives(db, links, targets, order, k + 1, e, id, p);
        assert order[..k + 1][k] == t;
      }
    }
  }

  /** A row left after `k` deletions never refers to a row that is gone. */
  lemma {:induction false} Survives(db: Database, links: seq<Edge>, targets: Targets, order: seq<Table>, k: nat, e: Edge, id: Id, p: Id)
    requires Integrity(db, links) && Closed(db, links, targets)
    requires (forall t :: t in order <==> t in targets) && ChildrenFirst(links, targets.Keys, order)
    requires k <= |order| && e in links && Refers(After(db, targets, order[..k]), e, id, p)
    ensures p in RowsOf(After(db, targets, order[..k]), e.parent)
    ensures e.parent in order[..k] ==> p !in Get(targets, e.parent)
  {
    AfterRows(db, targets, order[..k], e.child);
    AfterRows(db, targets, order[..k], e.parent);
    assert Refers(db, e, id, p);
    if e.parent in order[..k] {
      if e.child in targets {
        ChildIsGone(links, targets, order, k, e);
      }
      assert id !in Get(targets, e.child);
    }
  }

  lemma {:induction false} ChildIsGone(links: seq<Edge>, targets: Targets, order: seq<Table>, k: nat, e: Edge)
    requires ChildrenFirst(links, targets.Keys, order) && k <= |order|
    requires e in links && e.parent in order[..k] && e.child in targets
    ensures e.child in order[..k]
  {
    if e.child != e.parent {
      var i :| 0 <= i < k && order[..k][i] == e.parent;
      assert Needs(links, order[i], e.child);
      assert order[..k][..i] == order[..i];
    }
  }

  /** The database of the deployment, with the foreign keys it enforces. */
  class Store {
    var db: Database

    /** `DELETE ... WHERE id = ANY(ids)`: refused when a row that stays refers to one that goes. */
    method Delete(links: seq<Edge>, t: Table, ids: set<Id>) returns (rowcount: Option<nat>)
      modifies this
      ensures rowcount.None? <==> Referenced(old(db), links, t, ids)
      ensures rowcount.None? ==> db == old(db)
      ensures rowcount.Some? ==> db == Removed(old(db), t, ids) && rowcount.value == |ids * RowsOf(old(db), t).Keys|
    {
      var after := Removed(db, t, ids);
      for i := 0 to |links|
        invariant db == old(db)
        invariant forall e, id, p :: e in links[..i] && e.parent == t && p in ids && p in RowsOf(db, t) ==> !Refers(after, e, id, p)
      {
        var e := links[i];
        var blocking := set id | id in Ids(after, e.child, e.col, ids * RowsOf(db, t).Keys);
        if e.parent == t && blocking != {} {
          ghost var id := SomeElement(blocking);
          assert Refers(after, e, id, RowsOf(after, e.child)[id][e.col]);
          return None;
        }
        forall id, p | e.parent == t && p in ids && p in RowsOf(db, t) ensures !Refers(after, e, id, p) {
          assert id !in blocking;
        }
        assert forall x :: x in links[..i + 1] <==> x in links[..i] || x == e;
      }
      assert links[..|links|] == links;
      rowcount := Some(|ids * RowsOf(db, t).Keys|);
      db := after;
    }

    /** Deletes table by table. For closed targets of a consistent database, taken in a
        children-first order, no statement is refused and every row count is as planned. */
    method DeleteAll(links: seq<Edge>, targets: Targets, order: seq<Table>) returns (ok: bool)
      requires Integrity(db, links) && Closed(db, links, targets) && Distinct(order)
      requires (forall t :: t in order <==> t in targets) && ChildrenFirst(links, targets.Keys, order)
      modifies this
      ensures ok <==> forall t :: t in targets ==> targets[t] <= RowsOf(old(db), t).Keys
      ensures ok ==> db == Kept(old(db), targets) && Integrity(db, links)
    {
      hide *;
      ghost var db0 := db;
      AfterNone(db0, targets, order);
      for k := 0 to |order|
        invariant db == After(db0, targets, order[..k])
        invariant forall i :: 0 <= i < k ==> targets[order[i]] <= RowsOf(db0, order[i]).Keys
      {
        var t := order[k];
        EveryDeleteSafe(db0, links, targets, order, k);
        AfterStep(db0, targets, order, k);
        var rowcount := Delete(links, t, targets[t]);
        RowCount(targets[t], RowsOf(db0, t).Keys);
        if rowcount.None? || rowcount.value != |targets[t]| { return false; }
      }
      assert order[..|order|] == order;
      EveryDeleteSafe(db0, links, targets, order, |order|);
      AfterAll(db0, targets, order);
      ok := true;
    }

    /** Traversal, mixed-reference check, order and deletions together. From rows that exist
        in a consistent database the run goes through exactly when the traversal converges,
        only reviewed rows go without the row they refer to, and the touched tables have no
        cycle; then just the rows not reached from the seeds are left. */
    method CleanUp(links: seq<Edge>, allowed: set<Table>, seeds: Targets, exempt: Exempt) returns (verdict: Verdict, targets: Targets, ok: bool)
      requires Integrity(db, links) && forall t :: Get(seeds, t) <= RowsOf(db, t).Keys
      modifies this
      ensures verdict.Converged? ==> Exact(old(db), links, seeds, targets) && forall t :: t in targets ==> targets[t] != {}
      ensures ok <==> verdict.Converged? && MixedReviewed(old(db), links, targets, exempt) && Acyclic(links, targets.Keys)
      ensures !ok ==> db == old(db)
      ensures ok ==> Integrity(db, links) && forall t :: RowsOf(db, t) == RowsOf(old(db), t) - Get(targets, t)
      ensures ok ==> forall e, id, p :: e in links && Get(targets, e.child) != {} && Get(targets, e.parent) != {} && Refers(old(db), e, id, p) ==>
        (id in Get(targets, e.child) <==> p in Get(targets, e.parent) || Reviewed(exempt, e, id))
    {
      hide *;
      targets, verdict := Traverse(db, links, allowed, seeds);
      if !verdict.Converged? { return verdict, targets, false; }
      ghost var listed := WithoutEmpty(db, links, seeds, targets);
      targets := NonEmpty(targets);
      var refusal := CheckMixed(db, links, targets, exempt);
      if refusal.Some? { return verdict, targets, false; }
      var order, acyclic := LeafOrder(links, targets.Keys);
      if !acyclic { return verdict, targets, false; }
      ghost var db0 := db;
      TargetsExist(db0, links, seeds, targets);
      ok := DeleteAll(links, targets, order);
      forall e, id, p | e in links && Get(targets, e.child) != {} && Get(targets, e.parent) != {} && Refers(db0, e, id, p)
        ensures id in Get(targets, e.child) <==> p in Get(targets, e.parent) || Reviewed(exempt, e, id)
      {
        NothingSharedIsCut(db0, links, targets, exempt, e, id, p);
      }
      forall t ensures RowsOf(db, t) == RowsOf(db0, t) - Get(targets, t) { KeptRows(db0, targets, t); }
    }
  }

  lemma {:induction false} WithoutEmpty(db: Database, links: seq<Edge>, seeds: Targets, targets: Targets) returns (listed: Targets)
    requires Exact(db, links, seeds, targets)
    ensures listed == NonEmpty(targets) && Exact(db, links, seeds, listed) && Closed(db, links, listed)
    ensures forall t :: t in listed ==> listed[t] != {}
  {
    listed := NonEmpty(targets);
    assert forall t :: Get(listed, t) == Get(targets, t);
    ExactIsLeast(db, links, seeds, listed, listed);
  }

  lemma {:induction false} TargetsExist(db: Database, links: seq<Edge>, seeds: Targets, targets: Targets)
    requires Exact(db, links, seeds, targets) && forall x :: Get(seeds, x) <= RowsOf(db, x).Keys
    ensures forall t :: t in targets ==> targets[t] <= RowsOf(db, t).Keys
  {
    forall t, id | t in targets && id in targets[t] ensures id in RowsOf(db, t) {
      assert id in Get(targets, t);
      ReachedExist(db, links, seeds, t, id);
    }
  }

  function NonEmpty(targets: Targets): Targets { map t | t in targets && targets[t] != {} :: targets[t] }

  /** Every row reached exists. */
  lemma {:induction false} ReachedExist(db: Database, links: seq<Edge>, seeds: Targets, t: Table, id: Id)
    requires forall x :: Get(seeds, x) <= RowsOf(db, x).Keys
    requires Reachable(db, links, seeds, t, id)
    ensures id in RowsOf(db, t)
  {
    var n: nat :| ReachIn(db, links, seeds, n, t, id);
    if id !in Get(seeds, t) {
      var e, p :| e in links && e.child == t && Refers(db, e, id, p) && ReachIn(db, links, seeds, n - 1, e.parent, p);
    }
  }

  lemma {:induction false} KeptRows(db: Database, targets: Targets, t: Table)
    ensures RowsOf(Kept(db, targets), t) == RowsOf(db, t) - Get(targets, t)
  {
    SameMap(RowsOf(Kept(db, targets), t), RowsOf(db, t) - Get(targets, t));
  }

  lemma {:induction false} AfterNone(db: Database, targets: Targets, order: seq<Table>)
    ensures After(db, targets, order[..0]) == db
  {
  }

  lemma {:induction false} AfterStep(db: Database, targets: Targets, order: seq<Table>, k: nat)
    requires k < |order| && Distinct(order) && order[k] in targets
    ensures RowsOf(After(db, targets, order[..k]), order[k]) == RowsOf(db, order[k])
    ensures Get(targets, order[k]) == targets[order[k]]
    ensures After(db, targets, order[..k + 1]) == Removed(After(db, targets, order[..k]), order[k], targets[order[k]])
  {
    AfterRows(db, targets, order[..k], order[k]);
    assert order[k] !in order[..k];
    assert order[..k + 1][..k] == order[..k];
  }

  lemma {:induction false} RowCount(ids: set<Id>, keys: set<Id>)
    ensures |ids * keys| == |ids| <==> ids <= keys
  {
    if |ids * keys| == |ids| {
      SameSize(ids * keys, ids);
    } else {
      if ids <= keys { SameSet(ids * keys, ids); }
    }
  }
}
