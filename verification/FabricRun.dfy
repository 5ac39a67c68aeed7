/** Executing any document, restorations included: when the run goes through, which rows and
    movements it leaves, and that the ledger stays balanced without asking the audit. */
module FabricRun {
  import opened Base
  import opened FabricPlan
  import opened FabricCover
  import opened FabricApply
  import opened FabricAudit
  import opened FabricExecution

  /** No batch is updated twice, none is one the run itself creates, and only updates restore. */
  ghost predicate Targeted(st: Stock, entries: seq<Entry>)
  {
    && (forall i, j :: 0 <= i < j < |entries| && entries[i].action.Update? && entries[j].action.Update? ==> entries[i].action.id != entries[j].action.id)
    && (forall i :: 0 <= i < |entries| && entries[i].action.Update? ==> entries[i].action.id < st.nextBatch)
    && (forall i :: 0 <= i < |entries| && entries[i].restore ==> entries[i].action.Update?)
  }

  /** What is held on a batch by live reservations that are not to be released. */
  ghost function StillHeld(st: Stock, fs: seq<Release>, id: Id): map<Id, Kg>
  {
    map r | r in st.reservations && (st.reservations[r].status == Reserved || st.reservations[r].status == PartlyConsumed) &&
        st.reservations[r].batchId == Some(id) && (forall f :: f in fs ==> f.id != r) ::
      st.reservations[r].reserved - st.reservations[r].consumed - st.reservations[r].released
  }

  /** An update needs its batch, no fabric of it out, enough left for what is still held, and
      no other count where lengths are recorded; a restoration an emptied, archived batch,
      a positive weight and a count; a receipt an item and a positive weight. No weight exceeds
      what a request may state. */
  ghost predicate Performable(st: Stock, fs: seq<Release>, e: Entry, created: map<string, int>)
  {
    match e.action
    case Update(_, id, v) =>
      && id in st.batches && id !in st.ecoOut
      && var kg := if v.quantity.Some? then v.quantity.value else st.batches[id].quantity;
      kg >= 0 && kg >= Total(StillHeld(st, fs, id))
      && (e.restore || st.batches[id].rollLengths == [] || v.pieceCount.None? || v.pieceCount.value == st.batches[id].pieceCount)
      && (v.quantity.Some? ==> 0 <= v.quantity.value <= 99_999_999_999_999)
      && (v.pieceCount.Some? && v.pieceCount.value.Some? ==> v.pieceCount.value.value >= 0)
      && (e.restore ==> st.batches[id].quantity == 0 && st.batches[id].archived && v.quantity.Some? && v.quantity.value > 0 && v.pieceCount.Some?)
    case Receive(_, item, quantity, _, _, _, _, _, _, _) =>
      0 < quantity <= 99_999_999_999_999 && (item.NewItem? ==> item.fabric in created)
  }

  lemma {:induction false} PerformedExactly(st: Stock, index: nat, e: Entry, created: map<string, int>)
    ensures EntryStep(st, index, e, created).Ok? <==> Performable(st, [], e, created)
  {
    if e.action.Update? { SameMap(Holding(st, e.action.id), StillHeld(st, [], e.action.id)); }
  }

  /** A restoration brings back weight and count and drops recorded lengths; any other update
      writes the listed fields and archives a batch left empty. */
  predicate Wrote(o: Batch, n: Batch, e: Entry)
    requires e.action.Update?
  {
    var v := e.action.values;
    if e.restore then n == o.(quantity := n.quantity, pieceCount := n.pieceCount, archived := false, rollLengths := []) && Some(n.quantity) == v.quantity && Some(n.pieceCount) == v.pieceCount
    else
      && n.quantity == (if v.quantity.Some? then v.quantity.value else o.quantity)
      && n.pieceCount == (if v.pieceCount.Some? then v.pieceCount.value else o.pieceCount)
      && n.color == (if v.color.Some? then v.color else o.color)
      && n.colorCode == (if v.colorCode.Some? then v.colorCode else o.colorCode)
      && n.archived == (o.archived || n.quantity == 0)
      && n == o.(quantity := n.quantity, pieceCount := n.pieceCount, color := n.color, colorCode := n.colorCode, archived := n.archived)
  }

  /** The new batch of a receipt. */
  predicate Brought(n: Batch, id: Id, a: Action, created: map<string, int>)
    requires a.Receive?
  {
    && Item(n.itemId) == (if a.item.NewItem? && a.item.fabric in created then Item(created[a.item.fabric]) else a.item)
    && n == Batch(id, n.itemId, a.supplier, a.batchNo, a.quantity, a.pieceCount, a.color, a.colorCode, false, 1, "kg", [], a.cost)
  }

  // ----- one entry -----

  /** Batch and change of one entry, given the stock before it. */
  ghost predicate Performed(mid: Stock, next: Stock, index: nat, e: Entry, c: Change, created: map<string, int>)
  {
    && c.index == index && c.receipt == e.action.Receive?
    && OneChange(mid, next, c, e) && Counted(next)
    && (if e.action.Update? then
          && c.id == e.action.id && c.id in mid.batches && next.nextBatch == mid.nextBatch && Wrote(mid.batches[c.id], next.batches[c.id], e)
        else
          && c.id == mid.nextBatch && c.id !in mid.batches && next.nextBatch == c.id + 1 && Brought(next.batches[c.id], c.id, e.action, created))
  }

  lemma {:induction false} EntryPerformed(mid: Stock, index: nat, e: Entry, created: map<string, int>)
    requires EntryStep(mid, index, e, created).Ok? && Counted(mid) && (e.restore ==> e.action.Update?)
    ensures var (next, c) := EntryStep(mid, index, e, created).value; Performed(mid, next, index, e, c, created)
  {
    EntryIsOneChange(mid, index, e, created);
    hide OneChange, Counted, Book;
  }

  // ----- the whole run -----

  /** What an entry carried out has left behind. */
  ghost predicate Settled(st: Stock, now: Stock, index: nat, e: Entry, c: Change, created: map<string, int>)
  {
    && c.index == index && c.receipt == e.action.Receive? && c.id in now.batches
    && (if e.action.Update? then c.id == e.action.id && c.id in st.batches && Wrote(st.batches[c.id], now.batches[c.id], e)
        else st.nextBatch <= c.id && Brought(now.batches[c.id], c.id, e.action, created))
  }

  ghost predicate AllSettled(st: Stock, now: Stock, plan: Document, changes: seq<Change>, created: map<string, int>)
  {
    |changes| <= |plan.entries| && forall i :: 0 <= i < |changes| ==> Settled(st, now, i, plan.entries[i], changes[i], created)
  }

  /** Only the rows of changes differ. */
  ghost predicate OthersSame(st: Stock, now: Stock, changes: seq<Change>)
  {
    && (forall id :: id in st.batches ==> id in now.batches && (id in Ids(changes) || now.batches[id] == st.batches[id]))
    && (forall id :: id in now.batches ==> id in st.batches || (st.nextBatch <= id && id in Ids(changes)))
  }

  ghost predicate SoFar(st: Stock, now: Stock, plan: Document, changes: seq<Change>, created: map<string, int>)
  {
    && Counted(now) && st.nextBatch <= now.nextBatch && now.reservations == st.reservations && now.ecoOut == st.ecoOut
    && AllSettled(st, now, plan, changes, created) && OthersSame(st, now, changes) && Distinct(Ids(changes))
    && MovementsSoFar(st, now, plan, changes) && Recorded(st, now, plan, changes)
    && |now.batches| - |st.batches| == Receipts(changes)
  }

  lemma {:induction false} NothingSoFar(st: Stock, plan: Document, created: map<string, int>)
    requires Counted(st)
    ensures SoFar(st, st, plan, [], created)
  {
    MovementsBegin(st, st, plan);
    assert Ids([]) == [];
    hide MovementsSoFar, Recorded, Counted;
  }

  /** The next entry is about a batch the run has not written. */
  lemma {:induction false} Untouched(st: Stock, mid: Stock, plan: Document, changes: seq<Change>, created: map<string, int>)
    requires Targeted(st, plan.entries) && |changes| < |plan.entries|
    requires AllSettled(st, mid, plan, changes, created) && OthersSame(st, mid, changes) && Counted(mid)
    ensures var a := plan.entries[|changes|].action;
      var id := if a.Update? then a.id else mid.nextBatch;
      id !in Ids(changes) && (a.Update? ==> (id in mid.batches <==> id in st.batches)) && (id in mid.batches && a.Update? ==> mid.batches[id] == st.batches[id])
  {
    hide Wrote, Brought;
    var a := plan.entries[|changes|].action;
    var id := if a.Update? then a.id else mid.nextBatch;
    forall i | 0 <= i < |changes| ensures changes[i].id != id {
      assert Settled(st, mid, i, plan.entries[i], changes[i], created);
    }
  }

  lemma {:induction false} SamePerformable(st: Stock, mid: Stock, e: Entry, created: map<string, int>)
    requires e.action.Update? ==> (e.action.id in mid.batches <==> e.action.id in st.batches)
    requires e.action.Update? && e.action.id in mid.batches ==> mid.batches[e.action.id] == st.batches[e.action.id]
    requires mid.reservations == st.reservations && mid.ecoOut == st.ecoOut
    ensures Performable(mid, [], e, created) <==> Performable(st, [], e, created)
  {
    if e.action.Update? { assert StillHeld(mid, [], e.action.id) == StillHeld(st, [], e.action.id); }
  }

  lemma {:induction false} SettledStep(st: Stock, mid: Stock, next: Stock, plan: Document, changes: seq<Change>, c: Change, created: map<string, int>)
    requires AllSettled(st, mid, plan, changes, created) && |changes| < |plan.entries| && st.nextBatch <= mid.nextBatch
    requires Performed(mid, next, |changes|, plan.entries[|changes|], c, created)
    requires c.id !in Ids(changes) && (!c.receipt ==> c.id in st.batches && mid.batches[c.id] == st.batches[c.id])
    ensures AllSettled(st, next, plan, changes + [c], created)
  {
    hide Wrote, Brought, Counted, Ids;
    OthersKept(mid, next, c, plan.entries[|changes|]);
    hide OneChange;
    forall i | 0 <= i < |changes| ensures Settled(st, next, i, plan.entries[i], changes[i], created) {
      assert Settled(st, mid, i, plan.entries[i], changes[i], created);
      IdListed(changes, changes[i]);
    }
  }

  lemma {:induction false} OthersStep(st: Stock, mid: Stock, next: Stock, plan: Document, changes: seq<Change>, c: Change, created: map<string, int>)
    requires OthersSame(st, mid, changes) && st.nextBatch <= mid.nextBatch && |changes| < |plan.entries|
    requires Performed(mid, next, |changes|, plan.entries[|changes|], c, created)
    requires !c.receipt ==> c.id in st.batches
    ensures OthersSame(st, next, changes + [c])
  {
    hide Wrote, Brought, Counted, KindFor;
    assert Ids(changes + [c]) == Ids(changes) + [c.id];
  }

  /** One more entry. */
  lemma {:induction false} SoFarStep(st: Stock, mid: Stock, plan: Document, changes: seq<Change>, created: map<string, int>)
    requires Targeted(st, plan.entries) && |changes| < |plan.entries| && SoFar(st, mid, plan, changes, created)
    ensures var e := plan.entries[|changes|];
      && (EntryStep(mid, |changes|, e, created).Ok? <==> Performable(st, [], e, created))
      && (EntryStep(mid, |changes|, e, created).Ok? ==>
            var (next, c) := EntryStep(mid, |changes|, e, created).value; SoFar(st, next, plan, changes + [c], created))
  {
    hide EntryStep, Performable, Performed, MovementsSoFar, Recorded, Distinct, AllSettled, OthersSame, OneChange, Counted;
    var e := plan.entries[|changes|];
    Untouched(st, mid, plan, changes, created);
    SamePerformable(st, mid, e, created);
    PerformedExactly(mid, |changes|, e, created);
    if EntryStep(mid, |changes|, e, created).Ok? {
      EntryPerformed(mid, |changes|, e, created);
      var (next, c) := EntryStep(mid, |changes|, e, created).value;
      TargetOf(st, mid, next, plan, changes, c, created);
      SettledStep(st, mid, next, plan, changes, c, created);
      OthersStep(st, mid, next, plan, changes, c, created);
      MovementsStep(st, mid, next, plan, changes, c);
      RecordedStep(st, mid, next, plan, changes, c);
      IdsAppend(changes, c);
      KeysStep(mid, next, changes, c, e);
    }
  }

  lemma {:induction false} TargetOf(st: Stock, mid: Stock, next: Stock, plan: Document, changes: seq<Change>, c: Change, created: map<string, int>)
    requires |changes| < |plan.entries| && Performed(mid, next, |changes|, plan.entries[|changes|], c, created)
    requires Counted(mid) && st.nextBatch <= mid.nextBatch && OthersSame(st, mid, changes)
    requires var a := plan.entries[|changes|].action;
      var id := if a.Update? then a.id else mid.nextBatch;
      id !in Ids(changes) && (a.Update? ==> (id in mid.batches <==> id in st.batches)) && (id in mid.batches && a.Update? ==> mid.batches[id] == st.batches[id])
    ensures c.id !in Ids(changes) && c.index == |changes| && OneChange(mid, next, c, plan.entries[|changes|]) && Counted(next)
    ensures st.nextBatch <= next.nextBatch && next.reservations == mid.reservations && next.ecoOut == mid.ecoOut && c.receipt == plan.entries[c.index].action.Receive?
    ensures (c.id in mid.batches <==> c.id in st.batches) && (c.receipt <==> c.id !in mid.batches)
    ensures c.id in st.batches ==> mid.batches[c.id] == st.batches[c.id]
    ensures !c.receipt ==> c.id in st.batches && mid.batches[c.id] == st.batches[c.id]
  {
    hide Wrote, Brought, KindFor, Ids;
  }

  lemma {:induction false} EntriesRun(st: Stock, plan: Document, created: map<string, int>, n: nat)
    requires Counted(st) && Targeted(st, plan.entries) && n <= |plan.entries|
    ensures EntryRun(st, plan.entries[..n], created).Ok? <==> forall i :: 0 <= i < n ==> Performable(st, [], plan.entries[i], created)
    ensures EntryRun(st, plan.entries[..n], created).Ok? ==>
      var (now, changes) := EntryRun(st, plan.entries[..n], created).value; |changes| == n && SoFar(st, now, plan, changes, created)
  {
    hide EntryStep, Performable, SoFar, Counted, Targeted;
    if n == 0 {
      NothingSoFar(st, plan, created);
    } else {
      var l := n - 1;
      EntriesRun(st, plan, created, l);
      assert plan.entries[..n][..l] == plan.entries[..l];
      if EntryRun(st, plan.entries[..l], created).Ok? {
        var (mid, some) := EntryRun(st, plan.entries[..l], created).value;
        SoFarStep(st, mid, plan, some, created);
        hide EntryRun;
        EntryRunStep(st, plan.entries, l, created);
      }
    }
  }

  lemma {:induction false} AllRun(st: Stock, plan: Document, created: map<string, int>)
    requires Counted(st) && Targeted(st, plan.entries)
    ensures EntryRun(st, plan.entries, created).Ok? <==> forall e :: e in plan.entries ==> Performable(st, [], e, created)
    ensures EntryRun(st, plan.entries, created).Ok? ==>
      var (now, changes) := EntryRun(st, plan.entries, created).value; |changes| == |plan.entries| && SoFar(st, now, plan, changes, created)
  {
    hide EntryRun, Performable, SoFar, Counted, Targeted;
    EntriesRun(st, plan, created, |plan.entries|);
    assert plan.entries[..|plan.entries|] == plan.entries;
  }

  // ----- releases -----

  /** The reservation is live, on the batch named, with the consumption noted. */
  predicate Releasable(st: Stock, f: Release)
  {
    f.id in st.reservations && st.reservations[f.id].status in {Reserved, PartlyConsumed} && st.reservations[f.id].batchId == Some(f.batchId) && st.reservations[f.id].consumed == f.consumed
  }

  /** A named reservation has all that was outstanding released; the others stay. */
  ghost predicate Freed(st: Stock, next: Stock, fs: seq<Release>)
  {
    && (forall id :: id in next.reservations <==> id in st.reservations)
    && (forall id :: id in st.reservations ==> FreedRow(st, next, fs, id))
  }

  ghost predicate FreedRow(st: Stock, next: Stock, fs: seq<Release>, id: Id)
    requires id in st.reservations && id in next.reservations
  {
    var o, r := st.reservations[id], next.reservations[id];
    if exists f :: f in fs && f.id == id then
      && r.released == (if o.consumed + o.released < o.reserved then o.reserved - o.consumed else o.released)
      && r == o.(released := r.released, status := if r.released > 0 then Released else Consumed)
    else r == o
  }

  lemma {:induction false} ReleasesRunExactly(st: Stock, fs: seq<Release>)
    requires DistinctReleases(fs)
    ensures ReleaseRun(st, fs).Ok? <==> forall f :: f in fs ==> Releasable(st, f)
    ensures ReleaseRun(st, fs).Ok? ==> var next := ReleaseRun(st, fs).value; next == st.(reservations := next.reservations) && Freed(st, next, fs)
  {
    if fs != [] {
      var l := |fs| - 1;
      assert forall f :: f in fs <==> f in fs[..l] || f == fs[l];
      assert forall f :: f in fs[..l] ==> f.id != fs[l].id;
      ReleasesRunExactly(st, fs[..l]);
      assert fs[l] in fs;
      if ReleaseRun(st, fs[..l]).Ok? { FreedNext(st, ReleaseRun(st, fs[..l]).value, fs); }
    }
  }

  lemma {:induction false} FreedNext(st: Stock, mid: Stock, fs: seq<Release>)
    requires fs != [] && Freed(st, mid, fs[..|fs| - 1]) && forall f :: f in fs[..|fs| - 1] ==> f.id != fs[|fs| - 1].id
    ensures var f := fs[|fs| - 1]; Releasable(mid, f) <==> Releasable(st, f)
    ensures var f := fs[|fs| - 1]; Releasable(mid, f) ==> Freed(st, mid.(reservations := mid.reservations[f.id := Free(mid.reservations[f.id])]), fs)
  {
    var f := fs[|fs| - 1];
    assert forall d :: d in fs <==> d in fs[..|fs| - 1] || d == f;
    assert f.id in st.reservations ==> mid.reservations[f.id] == st.reservations[f.id];
    if Releasable(mid, f) {
      var next := mid.(reservations := mid.reservations[f.id := Free(mid.reservations[f.id])]);
      forall id | id in st.reservations ensures FreedRow(st, next, fs, id) {
        assert FreedRow(st, mid, fs[..|fs| - 1], id);
        MoreReleases(fs, id);
      }
    }
  }

  lemma {:induction false} MoreReleases(fs: seq<Release>, id: Id)
    requires fs != []
    ensures (exists d :: d in fs && d.id == id) <==> fs[|fs| - 1].id == id || exists d :: d in fs[..|fs| - 1] && d.id == id
  {
    assert forall d :: d in fs <==> d in fs[..|fs| - 1] || d == fs[|fs| - 1];
  }

  // ----- any document -----

  /** A document that names every batch and every reservation once. */
  ghost predicate NamesOnce(before: Stock, plan: Document) { Targeted(before, plan.entries) && DistinctReleases(plan.releases) }

  lemma {:induction false} StartIs(before: Stock, start: Stock, plan: Document, created: map<string, int>)
    requires start == before.(reservations := start.reservations) && Counted(before) && Targeted(before, plan.entries)
    requires Freed(before, start, plan.releases)
    ensures Counted(start) && Targeted(start, plan.entries)
    ensures forall e :: Performable(start, [], e, created) <==> Performable(before, plan.releases, e, created)
  {
    forall id ensures StillHeld(start, [], id) == StillHeld(before, plan.releases, id) { FreedHolds(before, start, plan.releases, id); }
    hide StillHeld, Freed, Total;
  }

  lemma {:induction false} FreedHolds(before: Stock, start: Stock, fs: seq<Release>, id: Id)
    requires Freed(before, start, fs)
    ensures StillHeld(start, [], id) == StillHeld(before, fs, id)
  {
    var a, b := StillHeld(start, [], id), StillHeld(before, fs, id);
    forall k ensures (k in a <==> k in b) && (k in a && k in b ==> a[k] == b[k]) {
      assert k in before.reservations ==> FreedRow(before, start, fs, k);
      assert (exists f :: f in fs && f.id == k) <==> !forall f :: f in fs ==> f.id != k;
    }
    SameMap(a, b);
  }

  /** Whether a document goes through can be told from the stock it is applied to. */
  lemma {:induction false} RunsExactly(before: Stock, plan: Document, created: map<string, int>)
    requires Counted(before) && NamesOnce(before, plan)
    ensures Execute(before, plan, created).Ok? <==>
      (forall f :: f in plan.releases ==> Releasable(before, f)) && (forall e :: e in plan.entries ==> Performable(before, plan.releases, e, created))
  {
    ReleasesRunExactly(before, plan.releases);
    if ReleaseRun(before, plan.releases).Ok? {
      var start := ReleaseRun(before, plan.releases).value;
      StartIs(before, start, plan, created);
      hide ReleaseRun, EntryRun, Performable, Counted, Targeted, SoFar, Freed, Releasable;
      AllRun(start, plan, created);
    }
  }

  /** What a run leaves: every named batch written as asked, every receipt a new batch, every
      listed reservation closed, and nothing else changed. */
  lemma {:induction false} RunLeaves(before: Stock, plan: Document, created: map<string, int>)
    requires Counted(before) && NamesOnce(before, plan) && Execute(before, plan, created).Ok?
    ensures var (after, changes) := Execute(before, plan, created).value;
      && |changes| == |plan.entries| && Distinct(Ids(changes)) && AllSettled(before, after, plan, changes, created)
      && OthersSame(before, after, changes) && Freed(before, after, plan.releases)
      && MovementsAudited(before, after, plan, changes) && Recorded(before, after, plan, changes) && Counted(after)
      && |after.batches| - |before.batches| == Receipts(changes)
  {
    ReleasesRunExactly(before, plan.releases);
    var start := ReleaseRun(before, plan.releases).value;
    StartIs(before, start, plan, created);
    hide ReleaseRun, EntryRun, Performable, Targeted, SoFar, Freed, Counted, NamesOnce, AllSettled, OthersSame, MovementsAudited, Recorded, Distinct, Ids;
    AllRun(start, plan, created);
    var (after, changes) := Execute(before, plan, created).value;
    SameStart(before, start, after, plan, changes, created);
  }

  lemma {:induction false} SameStart(before: Stock, start: Stock, after: Stock, plan: Document, changes: seq<Change>, created: map<string, int>)
    requires start == before.(reservations := start.reservations) && SoFar(start, after, plan, changes, created) && Freed(before, start, plan.releases)
    ensures AllSettled(before, after, plan, changes, created) && OthersSame(before, after, changes) && Freed(before, after, plan.releases)
    ensures MovementsAudited(before, after, plan, changes) && Recorded(before, after, plan, changes)
    ensures Distinct(Ids(changes)) && Counted(after) && |after.batches| - |before.batches| == Receipts(changes)
  {
    hide MovementsSoFar, MovementsAudited, AllSettled, OthersSame, Recorded, Counted, Distinct, Ids, Receipts, Freed;
    SameMovements(before, start, after, plan, changes);
    SameSettled(before, start, after, plan, changes, created);
    SameOthers(before, start, after, plan, changes);
    SameFreed(before, start, after, plan.releases);
  }

  lemma {:induction false} SameOthers(before: Stock, start: Stock, after: Stock, plan: Document, changes: seq<Change>)
    requires start == before.(reservations := start.reservations) && OthersSame(start, after, changes) && Recorded(start, after, plan, changes)
    ensures OthersSame(before, after, changes) && Recorded(before, after, plan, changes)
  {
    hide Ids;
  }

  lemma {:induction false} SameFreed(before: Stock, start: Stock, after: Stock, fs: seq<Release>)
    requires Freed(before, start, fs) && after.reservations == start.reservations
    ensures Freed(before, after, fs)
  {
  }

  lemma {:induction false} SameSettled(before: Stock, start: Stock, after: Stock, plan: Document, changes: seq<Change>, created: map<string, int>)
    requires start == before.(reservations := start.reservations) && AllSettled(start, after, plan, changes, created)
    ensures AllSettled(before, after, plan, changes, created)
  {
    hide Wrote, Brought;
    forall i | 0 <= i < |changes| ensures Settled(before, after, i, plan.entries[i], changes[i], created) {
      assert Settled(start, after, i, plan.entries[i], changes[i], created);
    }
  }

  lemma {:induction false} SameMovements(before: Stock, start: Stock, after: Stock, plan: Document, changes: seq<Change>)
    requires start.movements == before.movements && MovementsSoFar(start, after, plan, changes)
    ensures (forall c :: c in changes ==> c.index < |plan.entries|) && MovementsAudited(before, after, plan, changes)
  {
    assert Added(before, after) == Added(start, after);
    hide Moving, Booked, Added, Owned;
    forall c, e ensures Booked(before, after, c, e) <==> Booked(start, after, c, e) { SameBooked(before, start, after, c, e); }
  }

  lemma {:induction false} SameBooked(before: Stock, start: Stock, after: Stock, c: Change, e: Entry)
    requires start.movements == before.movements
    ensures Booked(before, after, c, e) <==> Booked(start, after, c, e)
  {
    SameSet(AddedTo(before, after, c.id), AddedTo(start, after, c.id));
    hide AddedTo;
  }

  /** A run that goes through keeps every batch equal to its signed movements. */
  lemma {:induction false} RunKeepsLedger(before: Stock, plan: Document, created: map<string, int>)
    requires Counted(before) && NamesOnce(before, plan) && Execute(before, plan, created).Ok?
    requires Linked(before) && forall id :: id in before.batches ==> Balanced(before, id)
    ensures var after := Execute(before, plan, created).value.0; forall id :: id in after.batches ==> Balanced(after, id)
  {
    hide Settled;
    RunLeaves(before, plan, created);
    ExecutedAdditive(ReleaseRun(before, plan.releases).value, plan.entries, created);
    var (after, changes) := Execute(before, plan, created).value;
    hide Execute, AllSettled, Freed, Additive, NamesOnce, Counted;
    forall id | id in after.batches ensures Balanced(after, id) {
      if id in Ids(changes) {
        var i :| 0 <= i < |changes| && Ids(changes)[i] == id;
        assert changes[i] in changes;
        ChangeBalanced(before, after, plan, changes, changes[i]);
      } else {
        LedgerKept(before, after, plan, changes, id);
      }
    }
  }

  // ----- what the audit makes of it -----

  /** An update the audit of rows has nothing to say against: a restoration that asks for no
      other colour, and no batch left at zero on the live list. */
  predicate Passing(o: Batch, e: Entry)
    requires e.action.Update?
  {
    var v := e.action.values;
    if e.restore then (v.color.Some? ==> v.color == o.color) && (v.colorCode.Some? ==> v.colorCode == o.colorCode)
    else v.quantity.None? && o.quantity == 0 ==> o.archived
  }

  lemma {:induction false} RowPasses(st: Stock, fs: seq<Release>, n: Batch, e: Entry, id: Id, created: map<string, int>)
    requires Performable(st, fs, e, created)
    requires if e.action.Update? then Wrote(st.batches[e.action.id], n, e) else Brought(n, id, e.action, created)
    ensures e.action.Update? ==> (Protected(st.batches[e.action.id], n, e) && Done(e, n, created) <==> Passing(st.batches[e.action.id], e))
    ensures e.action.Receive? && !e.restore ==> Done(e, n, created)
  {
    hide StillHeld, Total;
  }

  ghost predicate AllPassing(st: Stock, entries: seq<Entry>)
  {
    forall i :: 0 <= i < |entries| && entries[i].action.Update? && entries[i].action.id in st.batches ==> Passing(st.batches[entries[i].action.id], entries[i])
  }

  /** The row checks of the audit accept a run exactly when every update is passing; so a
      restoration that lists another colour is carried out, without the colour, and refused. */
  lemma {:induction false} RowsPassExactly(before: Stock, plan: Document, created: map<string, int>)
    requires Counted(before) && NamesOnce(before, plan) && Execute(before, plan, created).Ok?
    ensures var (after, changes) := Execute(before, plan, created).value;
      RowsAudited(before, after, plan, changes, created) <==> AllPassing(before, plan.entries)
  {
    RunLeaves(before, plan, created);
    RunsExactly(before, plan, created);
    var (after, changes) := Execute(before, plan, created).value;
    hide Execute, MovementsAudited, Freed, Recorded, Counted, Releasable;
    SettledPass(before, after, plan, changes, created);
  }

  lemma {:induction false} SettledPass(before: Stock, after: Stock, plan: Document, changes: seq<Change>, created: map<string, int>)
    requires |changes| == |plan.entries| && AllSettled(before, after, plan, changes, created) && OthersSame(before, after, changes) && Distinct(Ids(changes))
    requires Targeted(before, plan.entries) && Counted(before) && (forall e :: e in plan.entries ==> Performable(before, plan.releases, e, created))
    requires |after.batches| - |before.batches| == Receipts(changes)
    ensures RowsAudited(before, after, plan, changes, created) <==> AllPassing(before, plan.entries)
  {
    hide Performable, Wrote, Brought, Passing, Protected, Done, Ids, Receipts, Distinct;
    forall i | 0 <= i < |changes|
      ensures var (e, c) := (plan.entries[i], changes[i]);
        c.index == i && c.id in after.batches && (c.id in before.batches <==> e.action.Update?)
        && (e.action.Update? ==> c.id == e.action.id && (Protected(before.batches[c.id], after.batches[c.id], e) && Done(e, after.batches[c.id], created) <==> Passing(before.batches[c.id], e)))
        && (e.action.Receive? ==> Done(e, after.batches[c.id], created))
    {
      assert plan.entries[i] in plan.entries && Settled(before, after, i, plan.entries[i], changes[i], created);
      RowPasses(before, plan.releases, after.batches[changes[i].id], plan.entries[i], changes[i].id, created);
    }
    hide Settled;
    if AllPassing(before, plan.entries) {
      forall c | c in changes ensures c.index < |plan.entries| && c.id in after.batches && Done(plan.entries[c.index], after.batches[c.id], created)
        && (c.id in before.batches ==> plan.entries[c.index].action.Update? && Protected(before.batches[c.id], after.batches[c.id], plan.entries[c.index]))
      {
        var i :| 0 <= i < |changes| && changes[i] == c;
      }
    }
    if RowsAudited(before, after, plan, changes, created) {
      forall i | 0 <= i < |plan.entries| && plan.entries[i].action.Update? ensures Passing(before.batches[plan.entries[i].action.id], plan.entries[i]) {
        assert changes[i] in changes;
      }
    }
  }
}
