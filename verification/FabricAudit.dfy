/** What acceptance by the audit guarantees about the ledger and the total stock. */
module FabricAudit {
  import opened Base
  import opened FabricPlan
  import opened FabricProjection
  import opened FabricApply

  ghost function Ledger(st: Stock, id: Id): map<Id, Kg>
  {
    map m | m in st.movements && st.movements[m].batchId == Some(id) :: st.movements[m].Signed()
  }

  /** The batch holds the sum of its movements. */
  ghost predicate Balanced(st: Stock, id: Id)
    requires id in st.batches
  {
    st.batches[id].quantity == Total(Ledger(st, id))
  }

  /** Movements refer to batches that exist. */
  ghost predicate Linked(st: Stock)
  {
    forall m :: m in st.movements && st.movements[m].batchId.Some? ==> st.movements[m].batchId.value in st.batches
  }

  /** The weights noted during execution are those of the two snapshots. */
  ghost predicate Recorded(before: Stock, after: Stock, plan: Document, changes: seq<Change>)
  {
    forall c :: c in changes ==>
      && c.index < |plan.entries| && c.id in after.batches
      && c.receipt == plan.entries[c.index].action.Receive?
      && c.before == (if c.id in before.batches then before.batches[c.id].quantity else 0)
      && c.after == after.batches[c.id].quantity
  }

  // ----- counting -----

  function SomeIds(changes: seq<Change>): set<Id>
  {
    set c | c in changes && c.receipt :: c.id
  }

  lemma {:induction false} ReceiptsCount(changes: seq<Change>)
    requires Distinct(Ids(changes))
    ensures |SomeIds(changes)| == Receipts(changes)
  {
    if changes != [] {
      var l := |changes| - 1;
      var c := changes[l];
      Shorter(changes);
      ReceiptsCount(changes[..l]);
      assert c.id !in SomeIds(changes[..l]) by {
        assert Ids(changes)[l] == c.id;
      }
      assert SomeIds(changes) == if c.receipt then SomeIds(changes[..l]) + {c.id} else SomeIds(changes[..l]) by {
        assert changes == changes[..l] + [c];
      }
    }
  }

  lemma {:induction false} Shorter(changes: seq<Change>)
    requires Distinct(Ids(changes)) && changes != []
    ensures Distinct(Ids(changes[..|changes| - 1]))
    ensures forall c :: c in changes[..|changes| - 1] ==> c in changes && c.id != changes[|changes| - 1].id
  {
    var l := |changes| - 1;
    forall c | c in changes[..l] ensures c in changes && c.id != changes[l].id {
      var i :| 0 <= i < l && changes[..l][i] == c;
      assert Ids(changes)[i] != Ids(changes)[l];
    }
    forall i, j | 0 <= i < j < l ensures Ids(changes[..l])[i] != Ids(changes[..l])[j] {
      assert Ids(changes)[i] != Ids(changes)[j];
    }
  }

  lemma {:induction false} IdListed(changes: seq<Change>, c: Change)
    requires c in changes
    ensures c.id in Ids(changes)
  {
    var i :| 0 <= i < |changes| && changes[i] == c;
    assert Ids(changes)[i] == c.id;
  }

  lemma {:induction false} SameChange(changes: seq<Change>, c: Change, d: Change)
    requires Distinct(Ids(changes)) && c in changes && d in changes && c.id == d.id
    ensures c == d
  {
    var i, j :| 0 <= i < |changes| && 0 <= j < |changes| && changes[i] == c && changes[j] == d;
    assert Ids(changes)[i] == Ids(changes)[j];
  }

  lemma {:induction false} IdsFresh(before: set<Id>, after: set<Id>, changes: seq<Change>)
    requires Distinct(Ids(changes)) && before <= after && |after| - |before| == Receipts(changes)
    requires forall c :: c in changes ==> c.id in after && (c.receipt ==> c.id !in before)
    ensures forall c :: c in changes ==> (c.receipt <==> c.id !in before)
    ensures forall id :: id in after && id !in before ==> id in Ids(changes)
  {
    var newIds := after - before;
    ReceiptsCount(changes);
    assert SomeIds(changes) <= newIds;
    assert after == before + newIds;
    SameSize(SomeIds(changes), newIds);
    forall c | c in changes && c.id !in before ensures c.receipt {
      assert c.id in newIds;
      var d :| d in changes && d.receipt && d.id == c.id;
      SameChange(changes, c, d);
    }
    forall id | id in newIds ensures id in Ids(changes) {
      var c :| c in changes && c.receipt && c.id == id;
      IdListed(changes, c);
    }
  }

  /** The new batches are exactly those the receipts created. */
  lemma {:induction false} NewBatches(before: Stock, after: Stock, plan: Document, changes: seq<Change>, created: map<string, int>)
    requires BatchesAudited(before, after, plan, changes, created) && Recorded(before, after, plan, changes)
    ensures forall c :: c in changes ==> (c.receipt <==> c.id !in before.batches)
    ensures forall id :: id in after.batches && id !in before.batches ==> id in Ids(changes)
  {
    assert |after.batches| == |after.batches.Keys| && |before.batches| == |before.batches.Keys|;
    IdsFresh(before.batches.Keys, after.batches.Keys, changes);
  }

  function AllAdded(before: Stock, after: Stock, changes: seq<Change>): set<Id>
  {
    if changes == [] then {}
    else AllAdded(before, after, changes[..|changes| - 1]) + AddedTo(before, after, changes[|changes| - 1].id)
  }

  ghost predicate AllBooked(before: Stock, after: Stock, plan: Document, changes: seq<Change>)
  {
    forall c :: c in changes ==> c.index < |plan.entries| && Booked(before, after, c, plan.entries[c.index])
  }

  ghost predicate Owned(after: Stock, changes: seq<Change>, m: Id)
    requires m in after.movements
  {
    exists c :: c in changes && after.movements[m].batchId == Some(c.id)
  }

  lemma {:induction false} AddedCount(before: Stock, after: Stock, plan: Document, changes: seq<Change>)
    requires Distinct(Ids(changes)) && AllBooked(before, after, plan, changes)
    ensures |AllAdded(before, after, changes)| == Moving(changes)
    ensures forall m :: m in AllAdded(before, after, changes) ==> m in Added(before, after) && Owned(after, changes, m)
  {
    if changes != [] {
      var l := |changes| - 1;
      var rest, mine := AllAdded(before, after, changes[..l]), AddedTo(before, after, changes[l].id);
      Shorter(changes);
      AddedCount(before, after, plan, changes[..l]);
      NoneIn(rest, mine);
      assert changes[l] in changes;
      forall m | m in AllAdded(before, after, changes) ensures Owned(after, changes, m) {
        if m in rest {
          var c :| c in changes[..l] && after.movements[m].batchId == Some(c.id);
        }
      }
    }
  }

  /** Every new movement belongs to a changed batch whose weight differs. */
  lemma {:induction false} MovementBelongs(before: Stock, after: Stock, plan: Document, changes: seq<Change>, m: Id)
    returns (c: Change)
    requires Distinct(Ids(changes)) && AllBooked(before, after, plan, changes)
    requires |Added(before, after)| == Moving(changes)
    requires m in after.movements && m !in before.movements
    ensures c in changes && after.movements[m].batchId == Some(c.id)
    ensures c.Delta() != 0 && after.movements[m].quantity == Abs(c.Delta())
  {
    AddedCount(before, after, plan, changes);
    SameSize(AllAdded(before, after, changes), Added(before, after));
    assert m in AllAdded(before, after, changes);
    c :| c in changes && after.movements[m].batchId == Some(c.id);
    assert m in AddedTo(before, after, c.id);
  }

  // ----- the ledger -----

  /** A change whose movement carries the right sign: an issue or adjustment always does,
      a receipt or a restoration only when the weight does not drop. */
  predicate Additive(c: Change, e: Entry) { c.receipt || e.restore ==> c.Delta() >= 0 }

  ghost predicate OldKept(before: Stock, after: Stock)
  {
    forall m :: m in before.movements ==> m in after.movements && after.movements[m] == before.movements[m]
  }

  lemma {:induction false} LedgerSplit(before: Stock, after: Stock, id: Id)
    requires OldKept(before, after)
    ensures forall m :: m in Ledger(after, id) <==> m in Ledger(before, id) || m in AddedTo(before, after, id)
    ensures forall m :: m in Ledger(before, id) ==> m !in AddedTo(before, after, id) && Ledger(after, id)[m] == Ledger(before, id)[m]
  {
  }

  lemma {:induction false} LedgerGrows(before: Stock, after: Stock, c: Change, e: Entry)
    requires OldKept(before, after) && Booked(before, after, c, e)
    ensures Total(Ledger(after, c.id)) - Total(Ledger(before, c.id)) == c.Delta() <==> Additive(c, e)
  {
    var a, b := Ledger(after, c.id), Ledger(before, c.id);
    LedgerSplit(before, after, c.id);
    if c.Delta() == 0 {
      SameMap(a, b);
    } else {
      var m := Singleton(AddedTo(before, after, c.id));
      var gain := after.movements[m].Signed();
      assert m in AddedTo(before, after, c.id);
      TotalInsert(b, m, gain);
      SameMap(a, b[m := gain]);
    }
  }

  lemma {:induction false} LedgerKept(before: Stock, after: Stock, plan: Document, changes: seq<Change>, id: Id)
    requires OldKept(before, after) && Distinct(Ids(changes)) && AllBooked(before, after, plan, changes)
    requires |Added(before, after)| == Moving(changes) && id !in Ids(changes)
    ensures Ledger(after, id) == Ledger(before, id)
  {
    LedgerSplit(before, after, id);
    forall m | m in AddedTo(before, after, id) ensures false {
      var c := MovementBelongs(before, after, plan, changes, m);
      IdListed(changes, c);
    }
    SameMap(Ledger(after, id), Ledger(before, id));
  }

  lemma {:induction false} ChangeBalanced(before: Stock, after: Stock, plan: Document, changes: seq<Change>, c: Change)
    requires OldKept(before, after) && AllBooked(before, after, plan, changes) && c in changes
    requires Recorded(before, after, plan, changes) && Linked(before)
    requires c.id in before.batches ==> Balanced(before, c.id)
    ensures Balanced(after, c.id) <==> Additive(c, plan.entries[c.index])
  {
    LedgerGrows(before, after, c, plan.entries[c.index]);
    if c.id !in before.batches {
      SameMap(Ledger(before, c.id), map[]);
    }
  }

  /** Ledger balance: when the audit accepts what execution recorded and every batch matched
      its ledger before, every batch matches it afterwards if and only if no receipt and no
      restoration lowered a weight. */
  lemma {:induction false} LedgerBalanced(before: Stock, after: Stock, plan: Document, changes: seq<Change>,
                                          created: map<string, int>)
    requires Accepted(before, after, plan, changes, created)
    requires Recorded(before, after, plan, changes) && Linked(before)
    requires forall id :: id in before.batches ==> Balanced(before, id)
    ensures (forall id :: id in after.batches ==> Balanced(after, id))
       <==> (forall c :: c in changes ==> Additive(c, plan.entries[c.index]))
  {
    NewBatches(before, after, plan, changes, created);
    assert AllBooked(before, after, plan, changes) && OldKept(before, after);
    forall c | c in changes ensures Balanced(after, c.id) <==> Additive(c, plan.entries[c.index]) {
      ChangeBalanced(before, after, plan, changes, c);
    }
    forall id | id in after.batches && id !in Ids(changes) ensures Balanced(after, id) {
      LedgerKept(before, after, plan, changes, id);
    }
    if forall c :: c in changes ==> Additive(c, plan.entries[c.index]) {
      forall id | id in after.batches && id in Ids(changes) ensures Balanced(after, id) {
        var i :| 0 <= i < |changes| && Ids(changes)[i] == id;
        assert changes[i] in changes;
      }
    }
  }

  /** Accepted changes touch only their own batches, and history only grows. */
  lemma {:induction false} HistoryKept(before: Stock, after: Stock, plan: Document, changes: seq<Change>,
                                       created: map<string, int>, m: Id)
    requires Accepted(before, after, plan, changes, created)
    ensures m in before.movements ==> m in after.movements && after.movements[m] == before.movements[m]
    ensures m in after.movements && m !in before.movements ==>
      exists c :: c in changes && after.movements[m].batchId == Some(c.id) && after.movements[m].quantity == Abs(c.Delta()) != 0
  {
    if m in after.movements && m !in before.movements {
      assert AllBooked(before, after, plan, changes);
      var c := MovementBelongs(before, after, plan, changes, m);
    }
  }

  // ----- the total -----

  lemma {:induction false} WeightsMove(a: map<Id, Kg>, b: map<Id, Kg>, changes: seq<Change>)
    requires a.Keys == b.Keys && Distinct(Ids(changes))
    requires forall c :: c in changes ==> c.id in a && b[c.id] == a[c.id] + c.Delta()
    requires forall id :: id in a && id !in Ids(changes) ==> b[id] == a[id]
    ensures Total(b) == Total(a) + DeltaSum(changes)
  {
    if changes == [] {
      assert forall id :: id in a ==> id !in Ids(changes);
      SameMap(a, b);
    } else {
      var l := |changes| - 1;
      var c := changes[l];
      Shorter(changes);
      assert c in changes;
      var mid := b[c.id := a[c.id]];
      forall id | id in a && id !in Ids(changes[..l]) ensures mid[id] == a[id] {
        if id != c.id {
          forall i | 0 <= i < |changes| ensures Ids(changes)[i] != id {
            if i < l { assert Ids(changes[..l])[i] != id; }
          }
        }
      }
      WeightsMove(a, mid, changes[..l]);
      TotalRemove(b, c.id);
      TotalRemove(mid, c.id);
      SameMap(b - {c.id}, mid - {c.id});
    }
  }

  lemma {:induction false} PadZero<K>(a: map<K, Kg>, b: map<K, Kg>)
    requires a.Keys !! b.Keys && forall k :: k in b ==> b[k] == 0
    ensures Total(a + b) == Total(a)
  {
    TotalUnion(a, b);
    TotalZero(b);
  }

  lemma {:induction false} MapsMove(start: map<Id, Kg>, end: map<Id, Kg>, changes: seq<Change>)
    requires start.Keys <= end.Keys && Distinct(Ids(changes))
    requires forall c :: c in changes ==> c.id in end && end[c.id] == c.after && c.before == if c.id in start then start[c.id] else 0
    requires forall id :: id in end && id !in Ids(changes) ==> id in start && end[id] == start[id]
    ensures Total(end) - Total(start) == DeltaSum(changes)
  {
    var zero := map id | id in end && id !in start :: 0;
    PadZero(start, zero);
    WeightsMove(start + zero, end, changes);
  }

  /** The last check of the audit follows from the others: total stock moves by exactly
      the sum of the recorded differences. */
  lemma {:induction false} TotalFollows(before: Stock, after: Stock, plan: Document, changes: seq<Change>,
                                        created: map<string, int>)
    requires BatchesAudited(before, after, plan, changes, created) && Recorded(before, after, plan, changes)
    ensures TotalAudited(before, after, changes)
  {
    NewBatches(before, after, plan, changes, created);
    MapsMove(Weights(before.batches), Weights(after.batches), changes);
  }
}
