/** The foreign-key traversal of the cleanup: which rows have to go with the seeds. */
module Closure {
  import opened Base

  type Table = string
  type Id = nat

  datatype Edge = Edge(child: Table, col: string, parent: Table, pcol: string)

  /** Reference columns of one row; null references are absent. */
  type Row = map<string, Id>
  type Rows = map<Id, Row>
  type Database = map<Table, Rows>
  type Targets = map<Table, set<Id>>

  function RowsOf(db: Database, t: Table): Rows { if t in db then db[t] else map[] }

  function Get(targets: Targets, t: Table): set<Id> { if t in targets then targets[t] else {} }

  predicate Refers(db: Database, e: Edge, id: Id, p: Id)
  {
    id in RowsOf(db, e.child) && e.col in RowsOf(db, e.child)[id] && RowsOf(db, e.child)[id][e.col] == p
  }

  /** The rows of a table whose column holds one of the values. */
  function Ids(db: Database, t: Table, col: string, values: set<Id>): set<Id>
  {
    set id | id in RowsOf(db, t) && col in RowsOf(db, t)[id] && RowsOf(db, t)[id][col] in values
  }

  // ----- the least closed set -----

  /** A row at most n references away from a seed. */
  ghost predicate ReachIn(db: Database, links: seq<Edge>, seeds: Targets, n: nat, t: Table, id: Id)
  {
    || id in Get(seeds, t)
    || (n > 0 && exists e, p :: e in links && e.child == t && Refers(db, e, id, p) && ReachIn(db, links, seeds, n - 1, e.parent, p))
  }

  ghost predicate Reachable(db: Database, links: seq<Edge>, seeds: Targets, t: Table, id: Id)
  {
    exists n: nat :: ReachIn(db, links, seeds, n, t, id)
  }

  ghost predicate Closed(db: Database, links: seq<Edge>, s: Targets)
  {
    forall e, id, p :: e in links && Refers(db, e, id, p) && p in Get(s, e.parent) ==> id in Get(s, e.child)
  }

  ghost predicate Within(a: Targets, b: Targets) { forall t, id :: id in Get(a, t) ==> id in Get(b, t) }

  /** Every target is reached from a seed, and every row reached is a target. */
  ghost predicate Exact(db: Database, links: seq<Edge>, seeds: Targets, s: Targets)
  {
    forall t, id :: id in Get(s, t) <==> Reachable(db, links, seeds, t, id)
  }

  lemma {:induction false} ReachedInClosed(db: Database, links: seq<Edge>, seeds: Targets, s: Targets, n: nat, t: Table, id: Id)
    requires Within(seeds, s) && Closed(db, links, s) && ReachIn(db, links, seeds, n, t, id)
    ensures id in Get(s, t)
  {
    if id !in Get(seeds, t) {
      var e, p :| e in links && e.child == t && Refers(db, e, id, p) && ReachIn(db, links, seeds, n - 1, e.parent, p);
      ReachedInClosed(db, links, seeds, s, n - 1, e.parent, p);
    }
  }

  lemma {:induction false} Extend(db: Database, links: seq<Edge>, seeds: Targets, e: Edge, id: Id, p: Id)
    requires e in links && Refers(db, e, id, p) && Reachable(db, links, seeds, e.parent, p)
    ensures Reachable(db, links, seeds, e.child, id)
  {
    var n: nat :| ReachIn(db, links, seeds, n, e.parent, p);
    assert ReachIn(db, links, seeds, n + 1, e.child, id);
  }

  /** The rows reached from the seeds are the least set that contains them and is closed
      under every foreign key. */
  lemma {:induction false} ExactIsLeast(db: Database, links: seq<Edge>, seeds: Targets, s: Targets, other: Targets)
    requires Exact(db, links, seeds, s)
    ensures Within(seeds, s) && Closed(db, links, s)
    ensures Within(seeds, other) && Closed(db, links, other) ==> Within(s, other)
  {
    forall t, id | id in Get(seeds, t) ensures id in Get(s, t) {
      assert ReachIn(db, links, seeds, 0, t, id);
    }
    forall e, id, p | e in links && Refers(db, e, id, p) && p in Get(s, e.parent) ensures id in Get(s, e.child) {
      Extend(db, links, seeds, e, id, p);
    }
    if Within(seeds, other) && Closed(db, links, other) {
      forall t, id | id in Get(s, t) ensures id in Get(other, t) {
        var n: nat :| ReachIn(db, links, seeds, n, t, id);
        ReachedInClosed(db, links, seeds, other, n, t, id);
      }
    }
  }

  // ----- the traversal -----

  datatype Verdict = Converged | Unreviewed(edge: Edge) | ForeignKeyColumn(edge: Edge) | NotConverged

  const MAX_PASSES := 30

  /** A table outside the reviewed ones holds a row that refers to a reached row. */
  ghost predicate Outside(db: Database, links: seq<Edge>, seeds: Targets, allowed: set<Table>, e: Edge)
  {
    e in links && e.child !in allowed && exists id, p :: Refers(db, e, id, p) && Reachable(db, links, seeds, e.parent, p)
  }

  /** All rows of one edge that refer to the given targets are targets, and reviewed. */
  ghost predicate EdgeDone(db: Database, allowed: set<Table>, s: Targets, e: Edge)
  {
    forall id, p :: Refers(db, e, id, p) && p in Get(s, e.parent) ==> id in Get(s, e.child) && e.child in allowed
  }

  ghost predicate Sound(db: Database, links: seq<Edge>, seeds: Targets, s: Targets)
  {
    Within(seeds, s) && forall t, id :: id in Get(s, t) ==> Reachable(db, links, seeds, t, id)
  }

  /** Everything within n references is a target. */
  ghost predicate Deep(db: Database, links: seq<Edge>, seeds: Targets, s: Targets, n: nat)
  {
    forall t, id :: ReachIn(db, links, seeds, n, t, id) ==> id in Get(s, t)
  }

  /** Some reached row is more than n references away. */
  ghost predicate FurtherThan(db: Database, links: seq<Edge>, seeds: Targets, n: nat)
  {
    exists t, id :: Reachable(db, links, seeds, t, id) && !ReachIn(db, links, seeds, n, t, id)
  }

  lemma {:induction false} Deeper(db: Database, links: seq<Edge>, seeds: Targets, start: Targets, s: Targets, n: nat)
    requires Deep(db, links, seeds, start, n) && Sound(db, links, seeds, s)
    requires forall e :: e in links ==> Followed(db, start, s, e)
    ensures Deep(db, links, seeds, s, n + 1)
  {
  }

  lemma {:induction false} Found(db: Database, links: seq<Edge>, seeds: Targets, s: Targets, e: Edge)
    requires Sound(db, links, seeds, s) && e in links
    ensures forall id :: id in Ids(db, e.child, e.col, Get(s, e.parent)) ==>
      exists p :: Refers(db, e, id, p) && p in Get(s, e.parent) && Reachable(db, links, seeds, e.child, id)
  {
    forall id | id in Ids(db, e.child, e.col, Get(s, e.parent))
      ensures exists p :: Refers(db, e, id, p) && p in Get(s, e.parent) && Reachable(db, links, seeds, e.child, id)
    {
      var p := RowsOf(db, e.child)[id][e.col];
      assert Refers(db, e, id, p);
      Extend(db, links, seeds, e, id, p);
    }
  }

  lemma {:induction false} Finished(db: Database, links: seq<Edge>, seeds: Targets, allowed: set<Table>, s: Targets)
    requires Sound(db, links, seeds, s) && forall e :: e in links ==> EdgeDone(db, allowed, s, e)
    ensures Exact(db, links, seeds, s) && forall e :: !Outside(db, links, seeds, allowed, e)
  {
    forall t, id | Reachable(db, links, seeds, t, id) ensures id in Get(s, t) {
      var n: nat :| ReachIn(db, links, seeds, n, t, id);
      ReachedInClosed(db, links, seeds, s, n, t, id);
    }
  }

  /** Every row that refers to a row of `start` along the edge is in `s`. */
  ghost predicate Followed(db: Database, start: Targets, s: Targets, e: Edge)
  {
    forall id, p :: Refers(db, e, id, p) && p in Get(start, e.parent) ==> id in Get(s, e.child)
  }

  ghost predicate Grew(start: Targets, s: Targets)
  {
    exists t, id :: id in Get(s, t) && id !in Get(start, t)
  }

  lemma {:induction false} SoundMore(db: Database, links: seq<Edge>, seeds: Targets, s: Targets, t: Table, more: set<Id>)
    requires Sound(db, links, seeds, s)
    requires forall id :: id in more ==> Reachable(db, links, seeds, t, id)
    ensures Sound(db, links, seeds, s[t := Get(s, t) + more])
    ensures Within(s, s[t := Get(s, t) + more])
  {
  }

  /** One edge of one pass. */
  method Follow(db: Database, links: seq<Edge>, allowed: set<Table>, ghost seeds: Targets, targets: Targets, e: Edge)
    returns (after: Targets, grew: bool, refused: bool)
    requires e in links && Sound(db, links, seeds, targets)
    ensures refused ==> Outside(db, links, seeds, allowed, e)
    ensures !refused ==> Sound(db, links, seeds, after) && Within(targets, after) && Followed(db, targets, after, e)
    ensures !refused && grew ==> Grew(targets, after)
    ensures !refused && !grew ==> after == targets && EdgeDone(db, allowed, targets, e)
  {
    after, grew, refused := targets, false, false;
    var found := Ids(db, e.child, e.col, Get(targets, e.parent));
    Found(db, links, seeds, targets, e);
    if found != {} && e.child !in allowed {
      ghost var id := SomeElement(found);
      refused := true;
      return;
    }
    assert forall id, p :: Refers(db, e, id, p) && p in Get(targets, e.parent) ==> id in found;
    var more := found - Get(targets, e.child);
    if more != {} {
      ghost var id := SomeElement(more);
      SoundMore(db, links, seeds, targets, e.child, more);
      after, grew := targets[e.child := Get(targets, e.child) + more], true;
      assert id in Get(after, e.child) && id !in Get(targets, e.child);
    }
    forall x, p | Refers(db, e, x, p) && p in Get(targets, e.parent) ensures x in Get(after, e.child) {
      assert x in found && (x in more || x in Get(targets, e.child));
      assert after == if more != {} then targets[e.child := Get(targets, e.child) + more] else targets;
    }
  }

  lemma {:induction false} GrewFrom(start: Targets, before: Targets, after: Targets)
    requires Within(start, before) && Within(before, after)
    requires Grew(start, before) || Grew(before, after)
    ensures Grew(start, after)
  {
    if Grew(start, before) {
      var t, id :| id in Get(before, t) && id !in Get(start, t);
      assert id in Get(after, t);
    } else {
      var t, id :| id in Get(after, t) && id !in Get(before, t);
      assert id !in Get(start, t);
    }
  }

  /** One pass over all edges. */
  method Pass(db: Database, links: seq<Edge>, allowed: set<Table>, ghost seeds: Targets, start: Targets)
    returns (targets: Targets, changed: bool, refusal: Verdict)
    requires Sound(db, links, seeds, start)
    ensures refusal.Converged? || refusal.Unreviewed? || refusal.ForeignKeyColumn?
    ensures refusal.Unreviewed? ==> Outside(db, links, seeds, allowed, refusal.edge)
    ensures refusal.ForeignKeyColumn? ==> refusal.edge in links && refusal.edge.pcol != "id"
    ensures refusal.Converged? ==> Sound(db, links, seeds, targets)
    ensures refusal.Converged? ==> forall e :: e in links ==> Followed(db, start, targets, e)
    ensures refusal.Converged? && changed ==> Grew(start, targets)
    ensures refusal.Converged? && !changed ==> targets == start && forall e :: e in links ==> EdgeDone(db, allowed, start, e)
  {
    hide Sound, Outside, EdgeDone, Grew;
    targets, changed, refusal := start, false, Converged;
    for i := 0 to |links|
      invariant Sound(db, links, seeds, targets) && Within(start, targets)
      invariant forall j :: 0 <= j < i ==> Followed(db, start, targets, links[j])
      invariant changed ==> Grew(start, targets)
      invariant !changed ==> targets == start && forall j :: 0 <= j < i ==> EdgeDone(db, allowed, start, links[j])
    {
      var e := links[i];
      if Get(targets, e.parent) == {} {
        NothingToFollow(db, allowed, targets, e);
        continue;
      }
      if e.pcol != "id" { return targets, changed, ForeignKeyColumn(e); }
      var after, grew, refused := Follow(db, links, allowed, seeds, targets, e);
      if refused { return targets, changed, Unreviewed(e); }
      if grew || changed { GrewFrom(start, targets, after); }
      targets, changed := after, changed || grew;
    }
  }

  lemma {:induction false} NothingToFollow(db: Database, allowed: set<Table>, s: Targets, e: Edge)
    requires Get(s, e.parent) == {}
    ensures EdgeDone(db, allowed, s, e)
  {
  }

  lemma {:induction false} GrewFurther(db: Database, links: seq<Edge>, seeds: Targets, start: Targets, s: Targets, n: nat)
    requires Sound(db, links, seeds, s) && Deep(db, links, seeds, start, n) && Grew(start, s)
    ensures FurtherThan(db, links, seeds, n)
  {
    var t, id :| id in Get(s, t) && id !in Get(start, t);
    assert Reachable(db, links, seeds, t, id);
  }

  /** Walks the foreign keys until a whole pass finds nothing new.
      Convergence yields exactly the rows reached from the seeds with no unreviewed row
      referring to them; a refusal names an edge that has one; and the pass limit is hit
      only when some row is at least `MAX_PASSES` references away. */
  method Traverse(db: Database, links: seq<Edge>, allowed: set<Table>, seeds: Targets) returns (targets: Targets, verdict: Verdict)
    ensures verdict.Converged? ==> Exact(db, links, seeds, targets)
    ensures verdict.Converged? ==> forall e :: !Outside(db, links, seeds, allowed, e)
    ensures verdict.Unreviewed? ==> Outside(db, links, seeds, allowed, verdict.edge)
    ensures verdict.ForeignKeyColumn? ==> verdict.edge in links && verdict.edge.pcol != "id"
    ensures verdict.NotConverged? ==> FurtherThan(db, links, seeds, MAX_PASSES - 1)
  {
    targets := seeds;
    assert Sound(db, links, seeds, targets) by {
      assert forall t, id :: id in Get(seeds, t) ==> ReachIn(db, links, seeds, 0, t, id);
    }
    assert Deep(db, links, seeds, targets, 0);
    hide *;
    for pass := 0 to MAX_PASSES
      invariant Sound(db, links, seeds, targets) && Deep(db, links, seeds, targets, pass)
      invariant pass > 0 ==> FurtherThan(db, links, seeds, pass - 1)
    {
      var after, changed, refusal := Pass(db, links, allowed, seeds, targets);
      if !refusal.Converged? { return targets, refusal; }
      if !changed {
        Finished(db, links, seeds, allowed, targets);
        return targets, Converged;
      }
      GrewFurther(db, links, seeds, targets, after, pass);
      Deeper(db, links, seeds, targets, after, pass);
      targets := after;
    }
    verdict := NotConverged;
  }
}
