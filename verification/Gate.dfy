/** The readiness gate: many callers, one non-blocking slot, one probe thread per admitted
    call, and a bounded wait. Every interleaving of atomic steps is a list of events. */
module Gate {
  import opened Base

  /** Where a caller stands. */
  datatype Caller = Entered | Admitted | StartFailed | Waiting | Woken | Returned(ready: bool)

  /** Where the probe thread of a call stands: it still owns the slot while `Probing` or
      `Finishing`. */
  datatype Probe = NoProbe | Probing | Finishing | SlotReleased | Finished

  /** One call. `acquires` and `releases` count its operations on the slot; `late` says that
      its wait has timed out. */
  datatype Call = Call(caller: Caller, probe: Probe, ready: bool, completed: bool, acquires: nat, releases: nat, late: bool)

  datatype State = State(slot: bool, calls: seq<Call>)

  datatype Event =
    | Enter
    | TryAcquire(i: nat)
    | StartThread(i: nat)
    | StartRaises(i: nat)
    | ReleaseAfterStart(i: nat)
    | ProbeSucceeds(i: nat)
    | ProbeRaises(i: nat)
    | ProbeReleases(i: nat)
    | ProbeCompletes(i: nat)
    | Wakes(i: nat)
    | TimesOut(i: nat)
    | Answers(i: nat)

  const NEW := Call(Entered, NoProbe, false, false, 0, 0, false)

  const INITIAL := State(false, [])

  // ----- the atomic steps -----

  /** The call is at the point where the step comes next. */
  predicate Due(c: Call, e: Event)
  {
    match e
    case Enter => true
    case TryAcquire(_) => c.caller.Entered?
    case StartThread(_) => c.caller.Admitted?
    case StartRaises(_) => c.caller.Admitted?
    case ReleaseAfterStart(_) => c.caller.StartFailed?
    case ProbeSucceeds(_) => c.probe.Probing?
    case ProbeRaises(_) => c.probe.Probing?
    case ProbeReleases(_) => c.probe.Finishing?
    case ProbeCompletes(_) => c.probe.SlotReleased?
    case Wakes(_) => c.caller.Waiting? && c.completed
    case TimesOut(_) => c.caller.Waiting? && !c.completed
    case Answers(_) => c.caller.Woken?
  }

  predicate Enabled(s: State, e: Event)
  {
    e.Enter? || (e.i < |s.calls| && Due(s.calls[e.i], e))
  }

  /** The effect of a step on its own call; `taken` is whether the slot is held. */
  function After(c: Call, e: Event, taken: bool): Call
  {
    match e
    case Enter => c
    case TryAcquire(_) => if taken then c.(caller := Returned(false)) else c.(caller := Admitted, acquires := c.acquires + 1)
    case StartThread(_) => c.(caller := Waiting, probe := Probing)
    case StartRaises(_) => c.(caller := StartFailed)
    case ReleaseAfterStart(_) => c.(caller := Returned(false), releases := c.releases + 1)
    case ProbeSucceeds(_) => c.(probe := Finishing, ready := true)
    case ProbeRaises(_) => c.(probe := Finishing)
    case ProbeReleases(_) => c.(probe := SlotReleased, releases := c.releases + 1)
    case ProbeCompletes(_) => c.(probe := Finished, completed := true)
    case Wakes(_) => c.(caller := Woken)
    case TimesOut(_) => c.(caller := Returned(false), late := true)
    case Answers(_) => c.(caller := Returned(c.ready))
  }

  function Slot(taken: bool, e: Event): bool
  {
    if e.TryAcquire? then true else if e.ReleaseAfterStart? || e.ProbeReleases? then false else taken
  }

  function Next(s: State, e: Event): State
    requires Enabled(s, e)
  {
    if e.Enter? then s.(calls := s.calls + [NEW])
    else State(Slot(s.slot, e), s.calls[e.i := After(s.calls[e.i], e, s.slot)])
  }

  /** The state an interleaving leads to; None if some step was not possible. */
  function Runs(s: State, es: seq<Event>): Option<State>
  {
    if es == [] then Some(s)
    else
      var before := Runs(s, es[..|es| - 1]);
      if before.Some? && Enabled(before.value, es[|es| - 1]) then Some(Next(before.value, es[|es| - 1])) else None
  }

  // ----- the invariant -----

  /** The call owns the slot. */
  predicate Holds(c: Call)
  {
    c.caller.Admitted? || c.caller.StartFailed? || c.probe.Probing? || c.probe.Finishing?
  }

  /** What is always true of one call. */
  predicate Coherent(c: Call)
  {
    && (c.caller.Entered? ==> c == NEW)
    && (c.caller.Admitted? || c.caller.StartFailed? ==> c.probe.NoProbe?)
    && (c.caller.Waiting? || c.caller.Woken? ==> !c.probe.NoProbe?)
    && (c.late ==> c.caller == Returned(false))
    && (c.acquires == 0 <==> c.caller.Entered? || (c.caller == Returned(false) && c.probe.NoProbe? && c.releases == 0))
    && c.acquires <= 1
    && c.releases == (if Holds(c) then 0 else c.acquires)
    && (c.completed <==> c.probe.Finished?)
    && (c.ready ==> c.probe.Finishing? || c.probe.SlotReleased? || c.probe.Finished?)
    && (c.caller.Woken? ==> c.completed)
    && (c.caller == Returned(true) ==> c.ready && c.completed && !c.late)
  }

  predicate Sound(s: State)
  {
    && (forall i :: 0 <= i < |s.calls| ==> Coherent(s.calls[i]))
    && (forall i, j :: 0 <= i < j < |s.calls| ==> !(Holds(s.calls[i]) && Holds(s.calls[j])))
    && (s.slot <==> exists i :: 0 <= i < |s.calls| && Holds(s.calls[i]))
  }

  lemma {:induction false} OwnStep(c: Call, e: Event, taken: bool)
    requires Coherent(c) && !e.Enter? && Due(c, e)
    requires Holds(c) ==> taken
    ensures Coherent(After(c, e, taken))
    ensures Holds(After(c, e, taken)) <==>
      (Holds(c) && !e.ReleaseAfterStart? && !e.ProbeReleases?) || (e.TryAcquire? && !taken)
    ensures e.ReleaseAfterStart? || e.ProbeReleases? ==> Holds(c)
    ensures e.TryAcquire? ==> !Holds(c)
  {
  }

  lemma {:induction false} EnterSound(s: State)
    requires Sound(s)
    ensures Sound(Next(s, Enter))
  {
    var after := Next(s, Enter);
    assert Coherent(NEW) && !Holds(NEW);
    hide Coherent, Holds;
    if s.slot {
      var k :| 0 <= k < |s.calls| && Holds(s.calls[k]);
      assert Holds(after.calls[k]);
    }
  }

  /** A step of one call: it may give up the slot it holds, or take it while free. */
  lemma {:induction false} CallSound(s: State, i: nat, c: Call, slot: bool)
    requires Sound(s) && i < |s.calls| && Coherent(c)
    requires Holds(s.calls[i]) ==> slot == Holds(c)
    requires !Holds(s.calls[i]) ==> (if Holds(c) then !s.slot && slot else slot == s.slot)
    ensures Sound(State(slot, s.calls[i := c]))
  {
    hide Coherent, Holds;
    var calls := s.calls[i := c];
    if slot && !Holds(c) {
      var k :| 0 <= k < |s.calls| && Holds(s.calls[k]);
      assert Holds(calls[k]);
    }
    if Holds(c) { assert Holds(calls[i]); }
  }

  lemma {:induction false} StepSound(s: State, e: Event)
    requires Sound(s) && Enabled(s, e)
    ensures Sound(Next(s, e))
  {
    if e.Enter? {
      EnterSound(s);
    } else {
      var c := s.calls[e.i];
      OwnStep(c, e, s.slot);
      hide Coherent, Holds, After, Due;
      CallSound(s, e.i, After(c, e, s.slot), Slot(s.slot, e));
    }
  }

  lemma {:induction false} AlwaysSound(es: seq<Event>)
    requires Runs(INITIAL, es).Some?
    ensures Sound(Runs(INITIAL, es).value)
  {
    if es != [] {
      AlwaysSound(es[..|es| - 1]);
      StepSound(Runs(INITIAL, es[..|es| - 1]).value, es[|es| - 1]);
    }
  }

  // ----- what every interleaving keeps -----

  /** At most one probe is at work, however many callers there are. */
  lemma {:induction false} OneLiveProbe(es: seq<Event>, i: nat, j: nat)
    requires Runs(INITIAL, es).Some?
    requires var calls := Runs(INITIAL, es).value.calls; i < |calls| && j < |calls| && Holds(calls[i]) && Holds(calls[j])
    ensures i == j
  {
    AlwaysSound(es);
  }

  /** Every acquire of the slot is matched by one release, by the probe or by the failed start,
      and the slot is held exactly while the release is due. */
  lemma {:induction false} AcquiresMatchReleases(es: seq<Event>, i: nat)
    requires Runs(INITIAL, es).Some? && i < |Runs(INITIAL, es).value.calls|
    ensures var s := Runs(INITIAL, es).value; var c := s.calls[i];
      c.acquires <= 1 && c.releases == (if Holds(c) then 0 else c.acquires) && (Holds(c) ==> s.slot)
    ensures !Runs(INITIAL, es).value.slot ==>
      forall k :: 0 <= k < |Runs(INITIAL, es).value.calls| ==> Runs(INITIAL, es).value.calls[k].releases == Runs(INITIAL, es).value.calls[k].acquires
  {
    AlwaysSound(es);
  }

  /** The slot is never released while free. */
  lemma {:induction false} ReleasesAreOwned(es: seq<Event>, e: Event)
    requires Runs(INITIAL, es).Some? && Enabled(Runs(INITIAL, es).value, e) && (e.ReleaseAfterStart? || e.ProbeReleases?)
    ensures Runs(INITIAL, es).value.slot
  {
    AlwaysSound(es);
    assert Holds(Runs(INITIAL, es).value.calls[e.i]);
  }

  /** A call answers true only if its own probe succeeded and finished before its wait ended. */
  lemma {:induction false} TrueMeansOwnProbe(es: seq<Event>, i: nat)
    requires Runs(INITIAL, es).Some? && i < |Runs(INITIAL, es).value.calls|
    requires Runs(INITIAL, es).value.calls[i].caller == Returned(true)
    ensures ProbeSucceeds(i) in es && ProbeCompletes(i) in es && TimesOut(i) !in es
  {
    AlwaysSound(es);
    Recorded(es, i);
  }

  /** The flags of a call record what happened to it. */
  lemma {:induction false} Recorded(es: seq<Event>, i: nat)
    requires Runs(INITIAL, es).Some?
    ensures i < |Runs(INITIAL, es).value.calls| ==>
      var c := Runs(INITIAL, es).value.calls[i];
      (c.ready <==> ProbeSucceeds(i) in es) && (c.completed <==> ProbeCompletes(i) in es) && (c.late <==> TimesOut(i) in es)
    ensures i >= |Runs(INITIAL, es).value.calls| ==> ProbeSucceeds(i) !in es && ProbeCompletes(i) !in es && TimesOut(i) !in es
  {
    if es != [] {
      var l := |es| - 1;
      Recorded(es[..l], i);
      assert forall x :: x in es <==> x in es[..l] || x == es[l];
      var before := Runs(INITIAL, es[..l]).value;
      AlwaysSound(es[..l]);
      if !es[l].Enter? && es[l].i == i { OwnFlags(before.calls[i], es[l], before.slot); }
    }
  }

  lemma {:induction false} OwnFlags(c: Call, e: Event, taken: bool)
    ensures var a := After(c, e, taken);
      (a.ready <==> c.ready || e.ProbeSucceeds?) && (a.completed <==> c.completed || e.ProbeCompletes?) && (a.late <==> c.late || e.TimesOut?)
  {
  }

  // ----- what a call answers -----

  lemma {:induction false} OwnAnswer(c: Call, e: Event, taken: bool)
    requires Coherent(c) && Due(c, e) && !e.Enter?
    ensures var a := After(c, e, taken);
      && (c.caller.Returned? ==> a.caller == c.caller)
      && (c.completed ==> a.completed && a.ready == c.ready)
      && (e.Answers? ==> a.completed && a.caller == Returned(a.ready))
      && (a.caller == Returned(true) && !c.caller.Returned? ==> e.Answers?)
  {
  }

  lemma {:induction false} Answered(es: seq<Event>, i: nat)
    requires Runs(INITIAL, es).Some?
    ensures i >= |Runs(INITIAL, es).value.calls| ==> Answers(i) !in es
    ensures i < |Runs(INITIAL, es).value.calls| ==>
      var c := Runs(INITIAL, es).value.calls[i];
      (Answers(i) in es ==> c.completed && c.caller == Returned(c.ready)) && (c.caller == Returned(true) ==> Answers(i) in es)
  {
    if es != [] {
      hide After, Coherent, Sound;
      var l := |es| - 1;
      Answered(es[..l], i);
      assert forall x :: x in es <==> x in es[..l] || x == es[l];
      var before := Runs(INITIAL, es[..l]).value;
      AlwaysSound(es[..l]);
      if !es[l].Enter? {
        CoherentCall(before, es[l].i);
        OwnAnswer(before.calls[es[l].i], es[l], before.slot);
      }
    }
  }

  lemma {:induction false} CoherentCall(s: State, i: nat)
    requires Sound(s) && i < |s.calls|
    ensures Coherent(s.calls[i])
  {
  }

  /** In every interleaving a call has answered true if and only if its own probe succeeded and
      it came to answering; and once it has, its answer is whether the probe succeeded. */
  lemma {:induction false} TrueExactly(es: seq<Event>, i: nat)
    requires Runs(INITIAL, es).Some? && i < |Runs(INITIAL, es).value.calls|
    ensures var caller := Runs(INITIAL, es).value.calls[i].caller;
      && (caller == Returned(true) <==> ProbeSucceeds(i) in es && Answers(i) in es)
      && (Answers(i) in es ==> caller == Returned(ProbeSucceeds(i) in es))
  {
    AlwaysSound(es);
    CoherentCall(Runs(INITIAL, es).value, i);
    Recorded(es, i);
    Answered(es, i);
  }

  /** The call was refused: it tried the slot while another one held it. */
  ghost predicate Refused(es: seq<Event>, i: nat)
  {
    exists k :: 0 <= k < |es| && es[k] == TryAcquire(i) && Runs(INITIAL, es[..k]).Some? && Runs(INITIAL, es[..k]).value.slot
  }

  lemma {:induction false} RefusedMore(es: seq<Event>, i: nat)
    requires es != []
    ensures var l := |es| - 1;
      Refused(es, i) <==> Refused(es[..l], i) || (es[l] == TryAcquire(i) && Runs(INITIAL, es[..l]).Some? && Runs(INITIAL, es[..l]).value.slot)
  {
    hide Runs;
    var l := |es| - 1;
    if Refused(es[..l], i) {
      var k :| 0 <= k < l && es[..l][k] == TryAcquire(i) && Runs(INITIAL, es[..l][..k]).Some? && Runs(INITIAL, es[..l][..k]).value.slot;
      assert es[..l][..k] == es[..k] && es[k] == TryAcquire(i);
    }
    if Refused(es, i) {
      var k :| 0 <= k < |es| && es[k] == TryAcquire(i) && Runs(INITIAL, es[..k]).Some? && Runs(INITIAL, es[..k]).value.slot;
      if k < l { assert es[..l][..k] == es[..k] && es[..l][k] == TryAcquire(i); }
    }
  }

  lemma {:induction false} OwnRefusal(c: Call, e: Event, taken: bool)
    requires Coherent(c) && Due(c, e) && !e.Enter?
    ensures var a := After(c, e, taken);
      c.caller != Returned(false) ==>
        (a.caller == Returned(false) <==> (e.Answers? && !c.ready) || e.TimesOut? || e.ReleaseAfterStart? || (e.TryAcquire? && taken))
  {
  }

  ghost predicate AnswersFalse(es: seq<Event>, i: nat)
  {
    (Answers(i) in es && ProbeSucceeds(i) !in es) || TimesOut(i) in es || ReleaseAfterStart(i) in es || Refused(es, i)
  }

  /** And it has answered false if and only if its probe did not succeed, its wait timed out,
      its thread could not be started, or another call held the slot when it came. */
  lemma {:induction false} FalseExactly(es: seq<Event>, i: nat)
    requires Runs(INITIAL, es).Some? && i < |Runs(INITIAL, es).value.calls|
    ensures Runs(INITIAL, es).value.calls[i].caller == Returned(false) <==> AnswersFalse(es, i)
  {
    Returns(es, i);
  }

  lemma {:induction false} Returns(es: seq<Event>, i: nat)
    requires Runs(INITIAL, es).Some?
    ensures i < |Runs(INITIAL, es).value.calls| ==> (Runs(INITIAL, es).value.calls[i].caller == Returned(false) <==> AnswersFalse(es, i))
    ensures i >= |Runs(INITIAL, es).value.calls| ==> !AnswersFalse(es, i)
  {
    if es != [] {
      var l := |es| - 1;
      Returns(es[..l], i);
      RefusedMore(es, i);
      var before := Runs(INITIAL, es[..l]).value;
      AlwaysSound(es[..l]);
      Answered(es, i);
      Answered(es[..l], i);
      Recorded(es, i);
      Recorded(es[..l], i);
      hide After, Coherent, Sound, Refused;
      assert forall x :: x in es <==> x in es[..l] || x == es[l];
      if !es[l].Enter? {
        CoherentCall(before, es[l].i);
        OwnAnswer(before.calls[es[l].i], es[l], before.slot);
        OwnRefusal(before.calls[es[l].i], es[l], before.slot);
      }
    }
  }

  /** A wait only times out while the probe has not signalled its end. */
  lemma {:induction false} TimeOutMeansLate(es: seq<Event>, i: nat, k: nat)
    requires Runs(INITIAL, es).Some? && k < |es| && es[k] == TimesOut(i)
    ensures ProbeCompletes(i) !in es[..k]
  {
    var l := |es| - 1;
    if k < l {
      TimeOutMeansLate(es[..l], i, k);
      assert es[..l][..k] == es[..k];
    } else {
      Recorded(es[..l], i);
    }
  }

  /** A step of the call that came last. */
  lemma {:induction false} LastGoes(es: seq<Event>, slot: bool, rest: seq<Call>, c: Call, e: Event)
    requires Runs(INITIAL, es) == Some(State(slot, rest + [c])) && !e.Enter? && e.i == |rest| && Due(c, e)
    ensures Runs(INITIAL, es + [e]) == Some(State(Slot(slot, e), rest + [After(c, e, slot)]))
  {
    hide Due, After;
    assert (es + [e])[..|es|] == es;
    assert (rest + [c])[|rest| := After(c, e, slot)] == rest + [After(c, e, slot)];
  }

  /** While no call holds the slot, a caller that comes, whose thread starts and whose probe
      succeeds in time is told that the service is ready, and the slot is free again. */
  lemma {:induction false} HealthyIsReady(es: seq<Event>) returns (more: seq<Event>)
    requires Runs(INITIAL, es).Some? && !Runs(INITIAL, es).value.slot
    ensures var i := |Runs(INITIAL, es).value.calls|;
      && more == es + [Enter, TryAcquire(i), StartThread(i), ProbeSucceeds(i), ProbeReleases(i), ProbeCompletes(i), Wakes(i), Answers(i)]
      && Runs(INITIAL, more).Some? && !Runs(INITIAL, more).value.slot
      && |Runs(INITIAL, more).value.calls| == i + 1 && Runs(INITIAL, more).value.calls[i].caller == Returned(true)
  {
    hide Runs;
    var rest := Runs(INITIAL, es).value.calls;
    var i := |rest|;
    Go(es, Enter);
    more := es + [Enter];
    LastGoes(more, false, rest, NEW, TryAcquire(i));
    more := more + [TryAcquire(i)];
    LastGoes(more, true, rest, NEW.(caller := Admitted, acquires := 1), StartThread(i));
    more := more + [StartThread(i)];
    var c := NEW.(caller := Waiting, probe := Probing, acquires := 1);
    LastGoes(more, true, rest, c, ProbeSucceeds(i));
    more := more + [ProbeSucceeds(i)];
    LastGoes(more, true, rest, c.(probe := Finishing, ready := true), ProbeReleases(i));
    more := more + [ProbeReleases(i)];
    c := c.(probe := SlotReleased, ready := true, releases := 1);
    LastGoes(more, false, rest, c, ProbeCompletes(i));
    more := more + [ProbeCompletes(i)];
    c := c.(probe := Finished, completed := true);
    LastGoes(more, false, rest, c, Wakes(i));
    more := more + [Wakes(i)];
    LastGoes(more, false, rest, c.(caller := Woken), Answers(i));
    more := more + [Answers(i)];
  }

  /** A caller never waits for the slot: until it has returned it can always go on by itself. */
  lemma {:induction false} CallerNeverBlocked(es: seq<Event>, i: nat) returns (e: Event)
    requires Runs(INITIAL, es).Some? && i < |Runs(INITIAL, es).value.calls|
    requires !Runs(INITIAL, es).value.calls[i].caller.Returned?
    ensures !e.Enter? && Enabled(Runs(INITIAL, es).value, e) && e.i == i
    ensures e.TryAcquire? || e.StartThread? || e.ReleaseAfterStart? || e.Wakes? || e.TimesOut? || e.Answers?
  {
    var c := Runs(INITIAL, es).value.calls[i];
    e := match c.caller
      case Entered => TryAcquire(i)
      case Admitted => StartThread(i)
      case StartFailed => ReleaseAfterStart(i)
      case Waiting => if c.completed then Wakes(i) else TimesOut(i)
      case _ => Answers(i);
  }

  // ----- a stuck probe -----

  /** The events do not let the probe of call `i` return. */
  predicate Stuck(i: nat, es: seq<Event>) { ProbeSucceeds(i) !in es && ProbeRaises(i) !in es }

  /** While one probe hangs no other probe starts, and every call that was not admitted before
      answers false, whatever the interleaving. */
  lemma {:induction false} StuckProbeKeepsOthersOut(s: State, i: nat, es: seq<Event>)
    requires Sound(s) && i < |s.calls| && s.calls[i].probe.Probing?
    requires Runs(s, es).Some? && Stuck(i, es)
    ensures var after := Runs(s, es).value;
      && Sound(after) && i < |after.calls| && |s.calls| <= |after.calls| && after.calls[i].probe.Probing?
      && (forall j :: StartThread(j) !in es)
      && (forall j :: 0 <= j < |after.calls| && (j >= |s.calls| || s.calls[j].caller.Entered?) ==>
            after.calls[j].caller.Entered? || after.calls[j].caller == Returned(false))
  {
    if es != [] {
      var l := |es| - 1;
      assert forall x :: x in es <==> x in es[..l] || x == es[l];
      StuckProbeKeepsOthersOut(s, i, es[..l]);
      StuckStep(Runs(s, es[..l]).value, i, es[l]);
    }
  }

  lemma {:induction false} StuckStep(s: State, i: nat, e: Event)
    requires Sound(s) && i < |s.calls| && s.calls[i].probe.Probing?
    requires Enabled(s, e) && e != ProbeSucceeds(i) && e != ProbeRaises(i)
    ensures var after := Next(s, e);
      && Sound(after) && after.calls[i].probe.Probing? && !e.StartThread? && |s.calls| <= |after.calls| <= |s.calls| + 1
      && (forall j :: 0 <= j < |after.calls| && (j >= |s.calls| || s.calls[j].caller.Entered? || s.calls[j].caller == Returned(false)) ==>
            after.calls[j].caller.Entered? || after.calls[j].caller == Returned(false))
  {
    StepSound(s, e);
    assert Holds(s.calls[i]) && s.slot;
    assert e.StartThread? ==> Holds(s.calls[e.i]);
  }

  /** Two probe threads may exist for a moment: the slot is released before completion is
      signalled, so the next call can be admitted in between. */
  lemma {:induction false} ThreadsMayOverlap() returns (es: seq<Event>)
    ensures Runs(INITIAL, es).Some?
    ensures var calls := Runs(INITIAL, es).value.calls; |calls| == 2 && calls[0].probe.SlotReleased? && calls[1].probe.Probing?
  {
    es := [];
    Go(es, Enter);
    es := es + [Enter];
    Go(es, TryAcquire(0));
    es := es + [TryAcquire(0)];
    Go(es, StartThread(0));
    es := es + [StartThread(0)];
    Go(es, ProbeRaises(0));
    es := es + [ProbeRaises(0)];
    Go(es, ProbeReleases(0));
    es := es + [ProbeReleases(0)];
    Go(es, Enter);
    es := es + [Enter];
    Go(es, TryAcquire(1));
    es := es + [TryAcquire(1)];
    Go(es, StartThread(1));
    es := es + [StartThread(1)];
  }

  lemma {:induction false} Go(es: seq<Event>, e: Event)
    requires Runs(INITIAL, es).Some? && Enabled(Runs(INITIAL, es).value, e)
    ensures Runs(INITIAL, es + [e]) == Some(Next(Runs(INITIAL, es).value, e))
  {
    assert (es + [e])[..|es|] == es;
  }

  // ----- the threads -----

  /** The shared state, and the code of caller and probe as their next atomic step. */
  class Service {
    var slot: bool
    var calls: seq<Call>

    ghost function Snapshot(): State
      reads this
    {
      State(slot, calls)
    }

    constructor ()
      ensures Snapshot() == INITIAL
    {
      slot, calls := false, [];
    }

    method Arrive() returns (i: nat)
      modifies this
      ensures i == |old(calls)| && Snapshot() == Next(old(Snapshot()), Enter)
    {
      i := |calls|;
      calls := calls + [NEW];
    }

    /** The next step of a caller. `started` is whether the thread can be started, `timeUp`
        whether the wait has run out; None means it still waits. */
    method StepCaller(i: nat, started: bool, timeUp: bool) returns (e: Option<Event>)
      requires i < |calls| && !calls[i].caller.Returned?
      modifies this
      ensures e.None? ==> Snapshot() == old(Snapshot()) && old(calls)[i].caller.Waiting? && !old(calls)[i].completed && !timeUp
      ensures e.Some? ==> Enabled(old(Snapshot()), e.value) && Snapshot() == Next(old(Snapshot()), e.value)
    {
      var c := calls[i];
      match c.caller {
        case Entered =>
          if slot {
            calls := calls[i := c.(caller := Returned(false))];
          } else {
            slot := true;
            calls := calls[i := c.(caller := Admitted, acquires := c.acquires + 1)];
          }
          return Some(TryAcquire(i));
        case Admitted =>
          if started {
            calls := calls[i := c.(caller := Waiting, probe := Probing)];
            return Some(StartThread(i));
          }
          calls := calls[i := c.(caller := StartFailed)];
          return Some(StartRaises(i));
        case StartFailed =>
          slot := false;
          calls := calls[i := c.(caller := Returned(false), releases := c.releases + 1)];
          return Some(ReleaseAfterStart(i));
        case Waiting =>
          if c.completed {
            calls := calls[i := c.(caller := Woken)];
            return Some(Wakes(i));
          }
          if !timeUp { return None; }
          calls := calls[i := c.(caller := Returned(false), late := true)];
          return Some(TimesOut(i));
        case Woken =>
          calls := calls[i := c.(caller := Returned(c.ready))];
          return Some(Answers(i));
      }
    }

    /** The next step of the probe of a call; `up` is whether the database answers. */
    method StepProbe(i: nat, up: bool) returns (e: Event)
      requires i < |calls| && (calls[i].probe.Probing? || calls[i].probe.Finishing? || calls[i].probe.SlotReleased?)
      modifies this
      ensures Enabled(old(Snapshot()), e) && Snapshot() == Next(old(Snapshot()), e)
    {
      var c := calls[i];
      if c.probe.Probing? {
        calls := calls[i := if up then c.(probe := Finishing, ready := true) else c.(probe := Finishing)];
        return if up then ProbeSucceeds(i) else ProbeRaises(i);
      }
      if c.probe.Finishing? {
        slot := false;
        calls := calls[i := c.(probe := SlotReleased, releases := c.releases + 1)];
        return ProbeReleases(i);
      }
      calls := calls[i := c.(probe := Finished, completed := true)];
      e := ProbeCompletes(i);
    }
  }
}
