/** Applying plans to a live database: several runs at once, the lock, handlers that commit on
    their own, failures and crashes at any step, other writers in between. Every interleaving
    of atomic steps is a list of events. */
module FabricAtomic {
  import opened Base
  import opened FabricPlan
  import opened FabricApply
  import opened FabricLedger

  /** What a run is given: the captured evidence, the plan, and the items made for it. */
  datatype Job = Job(captured: Stock, plan: Document, created: map<string, int>)

  /** Where a run stands. `Releasing` and `Writing` count the handler calls done. */
  datatype Phase =
    | Started | Locked | Cleared | Releasing(done: nat) | Writing(done: nat) | Verified | Logged
    | Committed | Replayed | Failed

  /** `pending` is what the open transaction sees; only the final commit makes it durable. */
  datatype Attempt = Attempt(job: Job, phase: Phase, pending: Stock, changes: seq<Change>)

  /** `durable` and `log` survive a crash. `flushing`: handler commits are turned into flushes,
      as the session class of the tool does. */
  datatype World = World(durable: Stock, log: seq<Document>, holder: Option<nat>, attempts: seq<Attempt>, flushing: bool)

  datatype Event =
    | Arrive(job: Job)
    | Others(stock: Stock)
    | Lock(i: nat)
    | CheckLog(i: nat)
    | CheckEvidence(i: nat)
    | Call(i: nat)
    | HandlerCommit(i: nat)
    | Verify(i: nat)
    | Log(i: nat)
    | Commit(i: nat)
    | Fail(i: nat)

  /** The run holds the lock and its transaction is open. */
  predicate Open(p: Phase) { !p.Started? && !p.Committed? && !p.Replayed? && !p.Failed? }

  predicate Calling(p: Phase) { p.Releasing? || p.Writing? }

  // ----- the atomic steps -----

  ghost predicate Due(w: World, a: Attempt, e: Event)
  {
    match e
    case Lock(_) => a.phase.Started? && w.holder.None?
    case CheckLog(_) => a.phase.Locked?
    case CheckEvidence(_) => a.phase.Cleared?
    case Call(_) => Calling(a.phase) && !AllCalled(a)
    case HandlerCommit(_) => Calling(a.phase)
    case Verify(_) => AllCalled(a)
    case Log(_) => a.phase.Verified?
    case Commit(_) => a.phase.Logged?
    case Fail(_) => a.phase.Started? || Open(a.phase)
    case _ => true
  }

  /** Every release and every action has gone through its handler. */
  predicate AllCalled(a: Attempt)
  {
    a.phase.Writing? && a.phase.done == |a.job.plan.entries|
  }

  /** Other writers are kept out while some run holds the lock. */
  ghost predicate Enabled(w: World, e: Event)
  {
    if e.Arrive? then true
    else if e.Others? then w.holder.None?
    else e.i < |w.attempts| && Due(w, w.attempts[e.i], e)
  }

  /** The next handler call: a release, or an action. */
  ghost function Called(a: Attempt): Attempt
    requires Calling(a.phase) && !AllCalled(a)
  {
    if a.phase.Releasing? then
      if a.phase.done < |a.job.plan.releases| then
        match ReleaseStep(a.pending, a.job.plan.releases[a.phase.done])
        case Err(_) => a.(phase := Failed)
        case Ok(st) => a.(phase := Releasing(a.phase.done + 1), pending := st)
      else a.(phase := Writing(0))
    else if a.phase.done < |a.job.plan.entries| then
      match EntryStep(a.pending, a.phase.done, a.job.plan.entries[a.phase.done], a.job.created)
      case Err(_) => a.(phase := Failed)
      case Ok((st, c)) => a.(phase := Writing(a.phase.done + 1), pending := st, changes := a.changes + [c])
    else a
  }

  /** The effect of a step on its own run. */
  ghost function After(w: World, a: Attempt, e: Event): Attempt
    requires Due(w, a, e)
  {
    match e
    case Lock(_) => a.(phase := Locked)
    case CheckLog(_) => a.(phase := if a.job.plan in w.log then Replayed else Cleared)
    case CheckEvidence(_) =>
      if w.durable == a.job.captured then a.(phase := Releasing(0), pending := w.durable, changes := []) else a.(phase := Failed)
    case Call(_) => Called(a)
    case Verify(_) =>
      a.(phase := if Accepted(a.job.captured, a.pending, a.job.plan, a.changes, a.job.created) then Verified else Failed)
    case Log(_) => a.(phase := Logged)
    case Commit(_) => a.(phase := Committed)
    case Fail(_) => a.(phase := Failed)
    case _ => a
  }

  ghost function Next(w: World, e: Event): World
    requires Enabled(w, e)
  {
    if e.Arrive? then w.(attempts := w.attempts + [Attempt(e.job, Started, w.durable, [])])
    else if e.Others? then w.(durable := e.stock)
    else
      var a := w.attempts[e.i];
      var after := After(w, a, e);
      World(
        if e.Commit? || (e.HandlerCommit? && !w.flushing) then a.pending else w.durable,
        if e.Commit? then w.log + [a.job.plan] else w.log,
        if Open(after.phase) then Some(e.i) else if w.holder == Some(e.i) then None else w.holder,
        w.attempts[e.i := after], w.flushing)
  }

  /** The world an interleaving leads to; None if some step was not possible. */
  ghost function Runs(w: World, es: seq<Event>): Option<World>
  {
    if es == [] then Some(w)
    else
      var before := Runs(w, es[..|es| - 1]);
      if before.Some? && Enabled(before.value, es[|es| - 1]) then Some(Next(before.value, es[|es| - 1])) else None
  }

  /** Nothing is running yet. */
  ghost predicate Fresh(w: World) { w.holder.None? && w.attempts == [] && Distinct(w.log) && w.flushing }

  // ----- the invariant -----

  /** What an open run has done so far is what execution prescribes. */
  ghost predicate OnTrack(a: Attempt)
  {
    var p, captured := a.job.plan, a.job.captured;
    match a.phase
    case Releasing(k) => k <= |p.releases| && ReleaseRun(captured, p.releases[..k]) == Ok(a.pending) && a.changes == []
    case Writing(n) =>
      n <= |p.entries| && ReleaseRun(captured, p.releases).Ok?
      && EntryRun(ReleaseRun(captured, p.releases).value, p.entries[..n], a.job.created) == Ok((a.pending, a.changes))
    case Verified => Audited(a)
    case Logged => Audited(a)
    case _ => true
  }

  /** The pending stock is the executed plan, and has passed the audit. */
  ghost predicate Audited(a: Attempt)
  {
    && Execute(a.job.captured, a.job.plan, a.job.created) == Ok((a.pending, a.changes))
    && Accepted(a.job.captured, a.pending, a.job.plan, a.changes, a.job.created)
  }

  ghost predicate Guarded(w: World, a: Attempt)
  {
    && (!a.phase.Locked? ==> a.job.plan !in w.log)
    && (!a.phase.Locked? && !a.phase.Cleared? ==> w.durable == a.job.captured)
    && OnTrack(a)
  }

  ghost predicate Sound(w: World)
  {
    && w.flushing && Distinct(w.log)
    && (forall i :: 0 <= i < |w.attempts| ==> (Open(w.attempts[i].phase) <==> w.holder == Some(i)))
    && (w.holder.Some? ==> w.holder.value < |w.attempts|)
    && (forall i :: 0 <= i < |w.attempts| && Open(w.attempts[i].phase) ==> Guarded(w, w.attempts[i]))
  }

  lemma {:induction false} CallOnTrack(a: Attempt)
    requires Calling(a.phase) && !AllCalled(a) && OnTrack(a)
    ensures OnTrack(Called(a)) && Called(a).job == a.job && (Open(Called(a).phase) || Called(a).phase.Failed?)
    ensures !Called(a).phase.Locked? && !Called(a).phase.Cleared?
  {
    var p := a.job.plan;
    hide ReleaseStep, EntryStep;
    match a.phase {
      case Releasing(k) =>
        if k < |p.releases| {
          assert p.releases[..k + 1][..k] == p.releases[..k];
        } else {
          assert p.releases[..k] == p.releases && p.entries[..0] == [];
        }
      case Writing(n) =>
        if n < |p.entries| { assert p.entries[..n + 1][..n] == p.entries[..n]; }
      case _ =>
    }
  }

  /** When every call is done the pending stock is what executing the plan gives. */
  lemma {:induction false} CalledIsExecuted(a: Attempt)
    requires OnTrack(a) && AllCalled(a)
    ensures Execute(a.job.captured, a.job.plan, a.job.created) == Ok((a.pending, a.changes))
  {
    hide ReleaseRun, EntryRun;
    assert a.job.plan.entries[..a.phase.done] == a.job.plan.entries;
  }

  lemma {:induction false} OwnStep(w: World, a: Attempt, e: Event)
    requires w.flushing && Due(w, a, e) && !e.Arrive? && !e.Others? && !e.Commit?
    requires Open(a.phase) ==> Guarded(w, a)
    ensures var after := After(w, a, e);
      after.job == a.job && (Open(after.phase) ==> Guarded(w, after)) && (!e.Lock? && Open(after.phase) ==> Open(a.phase))
  {
    hide ReleaseRun, EntryRun, Execute, Accepted, Called;
    if e.Call? {
      CallOnTrack(a);
    } else if e.Verify? {
      CalledIsExecuted(a);
    } else if e.CheckEvidence? {
      NothingReleased(a.job);
    }
  }

  lemma {:induction false} NothingReleased(job: Job)
    ensures ReleaseRun(job.captured, job.plan.releases[..0]) == Ok(job.captured)
  {
  }

  lemma {:induction false} StepSound(w: World, e: Event)
    requires Sound(w) && Enabled(w, e)
    ensures Sound(Next(w, e))
  {
    hide Guarded, OnTrack, After, Accepted;
    if e.Arrive? || e.Others? {
      OutsideSound(w, e);
    } else if e.Commit? {
      CommitSound(w, e);
    } else {
      OwnStep(w, w.attempts[e.i], e);
      RunSound(w, e);
    }
  }

  lemma {:induction false} OutsideSound(w: World, e: Event)
    requires Sound(w) && Enabled(w, e) && (e.Arrive? || e.Others?)
    ensures Sound(Next(w, e))
  {
    hide Guarded, Distinct;
    var after := Next(w, e);
    forall i | 0 <= i < |after.attempts|
      ensures (Open(after.attempts[i].phase) <==> after.holder == Some(i)) && (Open(after.attempts[i].phase) ==> Guarded(after, after.attempts[i]))
    {
      if i < |w.attempts| {
        assert after.attempts[i] == w.attempts[i];
        if Open(w.attempts[i].phase) { SameGuard(w, after, w.attempts[i]); }
      }
    }
  }

  lemma {:induction false} SameGuard(w: World, v: World, a: Attempt)
    requires Guarded(w, a) && v.durable == w.durable && v.log == w.log
    ensures Guarded(v, a)
  {
    hide OnTrack;
  }

  lemma {:induction false} RunSound(w: World, e: Event)
    requires Sound(w) && Enabled(w, e) && !e.Arrive? && !e.Others? && !e.Commit?
    requires var after := After(w, w.attempts[e.i], e);
      (Open(after.phase) ==> Guarded(w, after)) && (!e.Lock? && Open(after.phase) ==> Open(w.attempts[e.i].phase))
    ensures Sound(Next(w, e))
  {
    hide Guarded, After, Distinct, Open;
    var after := Next(w, e);
    assert after.durable == w.durable && after.log == w.log;
    forall i | 0 <= i < |after.attempts|
      ensures (Open(after.attempts[i].phase) <==> after.holder == Some(i)) && (Open(after.attempts[i].phase) ==> Guarded(after, after.attempts[i]))
    {
      if i != e.i { assert after.attempts[i] == w.attempts[i]; }
      if Open(after.attempts[i].phase) { SameGuard(w, after, after.attempts[i]); }
    }
  }

  lemma {:induction false} CommitSound(w: World, e: Event)
    requires Sound(w) && Enabled(w, e) && e.Commit?
    ensures Sound(Next(w, e))
  {
    hide OnTrack;
    var after := Next(w, e);
    DistinctAppend(w.log, w.attempts[e.i].job.plan);
    forall i | 0 <= i < |after.attempts| ensures !Open(after.attempts[i].phase) {
      if i != e.i { assert after.attempts[i] == w.attempts[i]; }
    }
  }

  lemma {:induction false} AlwaysSound(w: World, es: seq<Event>)
    requires Fresh(w) && Runs(w, es).Some?
    ensures Sound(Runs(w, es).value)
  {
    hide Next, Guarded, Enabled;
    if es != [] {
      AlwaysSound(w, es[..|es| - 1]);
      StepSound(Runs(w, es[..|es| - 1]).value, es[|es| - 1]);
    }
  }

  // ----- what every interleaving keeps -----

  /** In every interleaving the tool changes durable stock and log only in a final commit: both
      at once, from the captured stock to the executed plan, which has passed the audit and was
      not on the log. Handler commits, failures and crashes leave both alone. */
  lemma {:induction false} OnlyAuditedCommits(w: World, es: seq<Event>, e: Event)
    requires Fresh(w) && Runs(w, es).Some? && Enabled(Runs(w, es).value, e) && !e.Others?
    ensures var now := Runs(w, es).value;
      var next := Next(now, e);
      if e.Commit? then
        var a := now.attempts[e.i];
        && now.durable == a.job.captured && a.job.plan !in now.log
        && Execute(now.durable, a.job.plan, a.job.created) == Ok((next.durable, a.changes))
        && Accepted(now.durable, next.durable, a.job.plan, a.changes, a.job.created)
        && next.log == now.log + [a.job.plan]
      else next.durable == now.durable && next.log == now.log
  {
    AlwaysSound(w, es);
    hide Execute, Accepted, After;
    var now := Runs(w, es).value;
    if e.Commit? { assert Guarded(now, now.attempts[e.i]); }
  }

  /** How many commits of a plan an interleaving contains. */
  ghost function Commits(w: World, es: seq<Event>, plan: Document): nat
  {
    if es == [] then 0
    else
      var l := |es| - 1;
      var before := Runs(w, es[..l]);
      Commits(w, es[..l], plan) +
        if before.Some? && Enabled(before.value, es[l]) && es[l].Commit? && before.value.attempts[es[l].i].job.plan == plan then 1 else 0
  }

  /** However many runs are tried and however they interleave, a plan is committed at most
      once, never if it was on the log before, and is on the log exactly when it has been. */
  lemma {:induction false} AtMostOnce(w: World, es: seq<Event>, plan: Document)
    requires Fresh(w) && Runs(w, es).Some?
    ensures Commits(w, es, plan) <= 1 && (plan in w.log ==> Commits(w, es, plan) == 0)
    ensures plan in Runs(w, es).value.log <==> plan in w.log || Commits(w, es, plan) == 1
  {
    if es != [] {
      var l := |es| - 1;
      AtMostOnce(w, es[..l], plan);
      if !es[l].Others? { OnlyAuditedCommits(w, es[..l], es[l]); }
      hide Execute, Accepted, After;
    }
  }

  /** At most one run is between its lock and its end. */
  lemma {:induction false} OneAtATime(w: World, es: seq<Event>, i: nat, j: nat)
    requires Fresh(w) && Runs(w, es).Some?
    requires var now := Runs(w, es).value; i < |now.attempts| && j < |now.attempts| && Open(now.attempts[i].phase) && Open(now.attempts[j].phase)
    ensures i == j
  {
    AlwaysSound(w, es);
    hide Guarded;
  }

  /** A run that starts from the captured stock holds, once all calls are done, exactly what
      the executor's session holds. */
  method Perform(job: Job) returns (after: Stock, changes: seq<Change>, failure: Option<Failure>)
    ensures match Execute(job.captured, job.plan, job.created)
      case Ok((st, cs)) => failure == None && after == st && changes == cs
      case Err(e) => failure == Some(e)
  {
    hide Execute;
    var session := new Session(job.captured);
    changes, failure := session.ExecutePlan(job.plan, job.created);
    after := session.Now();
  }

  lemma {:induction false} CallsArePerformed(w: World, es: seq<Event>, i: nat)
    requires Fresh(w) && Runs(w, es).Some? && i < |Runs(w, es).value.attempts| && AllCalled(Runs(w, es).value.attempts[i])
    ensures var a := Runs(w, es).value.attempts[i]; Execute(a.job.captured, a.job.plan, a.job.created) == Ok((a.pending, a.changes))
  {
    AlwaysSound(w, es);
    hide Execute, ReleaseRun, EntryRun;
    CalledIsExecuted(Runs(w, es).value.attempts[i]);
  }

  // ----- why handler commits are turned into flushes -----

  lemma {:induction false} Go(w: World, es: seq<Event>, e: Event)
    requires Runs(w, es).Some? && Enabled(Runs(w, es).value, e)
    ensures Runs(w, es + [e]) == Some(Next(Runs(w, es).value, e))
  {
    hide Enabled, Next;
    assert (es + [e])[..|es|] == es;
  }

  /** With an ordinary session a failure after the first handler call leaves its rows behind,
      without an audit and without a log entry. */
  lemma {:induction false} OrdinaryCommitsLeak(job: Job) returns (w: World, es: seq<Event>)
    requires job.plan.releases == [] && job.plan.entries != []
    requires EntryStep(job.captured, 0, job.plan.entries[0], job.created).Ok?
    ensures w == World(job.captured, [], None, [], false) && Runs(w, es).Some?
    ensures var end := Runs(w, es).value;
      end.durable == EntryStep(job.captured, 0, job.plan.entries[0], job.created).value.0 && end.log == [] && end.holder.None?
  {
    hide EntryStep, Accepted;
    w := World(job.captured, [], None, [], false);
    es := [];
    Go(w, es, Arrive(job));
    es := es + [Arrive(job)];
    Go(w, es, Lock(0));
    es := es + [Lock(0)];
    Go(w, es, CheckLog(0));
    es := es + [CheckLog(0)];
    Go(w, es, CheckEvidence(0));
    es := es + [CheckEvidence(0)];
    Go(w, es, Call(0));
    es := es + [Call(0)];
    Go(w, es, Call(0));
    es := es + [Call(0)];
    Go(w, es, HandlerCommit(0));
    es := es + [HandlerCommit(0)];
    Go(w, es, Fail(0));
    es := es + [Fail(0)];
  }
}
