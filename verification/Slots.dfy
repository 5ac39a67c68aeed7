/** The blue-green slot manager of one application host: the state record, the proxy file,
    the running router and the slot containers, with any external step able to fail. */
module Slots {
  import opened Base

  datatype Role = Backend | Frontend
  datatype Slot = Blue | Green
  datatype Place = Place(role: Role, slot: Slot)
  datatype Pair = Pair(slot: Slot, release: string)

  /** The state record; `rollback` is the pair that was active before. */
  datatype Record = Record(role: Role, active: Pair, rollback: Option<Pair>) {
    function At(): Place { Place(role, active.slot) }
  }

  /** `proxy` is where the proxy file points, `router` where the running router sends traffic. */
  datatype Host = Host(record: Option<Record>, proxy: Option<Place>, router: Option<Place>, containers: map<Place, string>)

  /** How far a command got. `Failed` is before it changed anything, `FailedSwitch` after it
      wrote the proxy file, `FailedReport` after it wrote the record. */
  datatype Outcome = Refused | Failed | FailedSwitch | FailedReport | Done

  datatype Event =
    | Stage(at: Place, release: string, outcome: Outcome)
    | Install(at: Place, release: string, outcome: Outcome)
    | Activate(at: Place, release: string, outcome: Outcome)
    | Restart

  // ----- what each command may do -----

  predicate MayActivate(h: Host, role: Role) { h.record.None? || h.record.value.role == role }

  function Activated(h: Host, at: Place, release: string): Record
  {
    Record(at.role, Pair(at.slot, release), if h.record.Some? then Some(h.record.value.active) else None)
  }

  ghost predicate ActivateStep(h: Host, at: Place, release: string, outcome: Outcome, after: Host)
  {
    match outcome
    case Refused => !MayActivate(h, at.role) && after == h
    case Failed => MayActivate(h, at.role) && after == h
    case FailedSwitch =>
      MayActivate(h, at.role) && at in h.containers &&
      (after == h.(proxy := Some(at)) || (h.router.Some? && after == h.(proxy := Some(at), router := Some(at))))
    case _ =>
      MayActivate(h, at.role) && at in h.containers && h.router.Some? &&
      after == h.(proxy := Some(at), router := Some(at), record := Some(Activated(h, at, release)))
  }

  /** What the external steps of an activation answer, in order; `reached` is whether the router
      took the file although its reload reported a failure. */
  datatype Results = Results(healthy: bool, valid: bool, written: bool, reloaded: bool, reached: bool,
                             stable: bool, recorded: bool, shown: bool)

  /** An activation for given answers: it stops at the first step that fails. */
  function Activating(h: Host, at: Place, release: string, x: Results): (Outcome, Host)
  {
    var proxied := h.(proxy := Some(at));
    var switched := proxied.(router := Some(at));
    if !MayActivate(h, at.role) then (Refused, h)
    else if at !in h.containers || !x.healthy || !x.valid || !x.written then (Failed, h)
    else if h.router.None? then (FailedSwitch, proxied)
    else if !x.reloaded then (FailedSwitch, if x.reached then switched else proxied)
    else if !x.stable || !x.recorded then (FailedSwitch, switched)
    else (if x.shown then Done else FailedReport, switched.(record := Some(Activated(h, at, release))))
  }

  /** Whatever the answers, an activation is one of the steps above; and every step above is
      an activation for some answers. */
  lemma {:induction false} ActivationsAreSteps(h: Host, at: Place, release: string, x: Results)
    ensures var (outcome, after) := Activating(h, at, release, x); ActivateStep(h, at, release, outcome, after)
  {
  }

  lemma {:induction false} StepsAreActivations(h: Host, at: Place, release: string, outcome: Outcome, after: Host) returns (x: Results)
    requires ActivateStep(h, at, release, outcome, after)
    ensures Activating(h, at, release, x) == (outcome, after)
  {
    x := match outcome
      case Refused => Results(false, false, false, false, false, false, false, false)
      case Failed => Results(false, false, false, false, false, false, false, false)
      case FailedSwitch => Results(true, true, true, false, after == h.(proxy := Some(at), router := Some(at)), false, false, false)
      case FailedReport => Results(true, true, true, true, true, true, true, false)
      case Done => Results(true, true, true, true, true, true, true, true);
  }

  /** Starting the router service does nothing when it already runs. */
  function Started(h: Host, at: Place): Option<Place> { if h.router.Some? then h.router else Some(at) }

  ghost predicate InstallStep(h: Host, at: Place, release: string, outcome: Outcome, after: Host)
  {
    match outcome
    case Refused => after == h
    case Failed => after == h
    case FailedSwitch =>
      at in h.containers && after.record == h.record && after.containers == h.containers && after.proxy == Some(at) &&
      (after.router == h.router || after.router == None || after.router == Started(h, at))
    case FailedReport => false
    case Done =>
      at in h.containers &&
      after == h.(proxy := Some(at), router := Started(h, at), record := Some(Record(at.role, Pair(at.slot, release), None)))
  }

  predicate Guarded(h: Host, at: Place) { h.record.Some? && h.record.value.At() == at }

  ghost predicate StageStep(h: Host, at: Place, release: string, outcome: Outcome, after: Host)
  {
    match outcome
    case Refused => Guarded(h, at) && after == h
    case Failed => after == h
    case FailedSwitch =>
      !Guarded(h, at) && (after == h.(containers := h.containers - {at}) || after == h.(containers := h.containers[at := release]))
    case _ => !Guarded(h, at) && after == h.(containers := h.containers[at := release])
  }

  /** The service manager restarts the router, which then reads the proxy file. */
  predicate RestartStep(h: Host, after: Host)
  {
    h.router.Some? && h.proxy.Some? && after == h.(router := h.proxy)
  }

  ghost predicate Step(h: Host, e: Event, after: Host)
  {
    match e
    case Stage(at, release, outcome) => StageStep(h, at, release, outcome, after)
    case Install(at, release, outcome) => InstallStep(h, at, release, outcome, after)
    case Activate(at, release, outcome) => ActivateStep(h, at, release, outcome, after)
    case Restart => RestartStep(h, after)
  }

  /** What the external steps of an installation answer, in order; `reached` is whether the
      router came up although enabling it reported a failure, `stopped` whether it can be
      stopped again. */
  datatype Installed = Installed(present: bool, healthy: bool, valid: bool, written: bool, unit: bool, legacyStops: bool,
                                 enabled: bool, reached: bool, stable: bool, stopped: bool, recorded: bool)

  function Installing(h: Host, at: Place, release: string, stopLegacy: bool, x: Installed): (Outcome, Host)
  {
    var proxied := h.(proxy := Some(at));
    var started := if x.enabled || x.reached then proxied.(router := Started(h, at)) else proxied;
    if !x.present then (Refused, h)
    else if at !in h.containers || !x.healthy || !x.valid || !x.written then (Failed, h)
    else if !x.unit || (stopLegacy && !x.legacyStops) then (FailedSwitch, proxied)
    else if !x.enabled || !x.stable then (FailedSwitch, if x.stopped then started.(router := None) else started)
    else if !x.recorded then (FailedSwitch, started)
    else (Done, started.(record := Some(Record(at.role, Pair(at.slot, release), None))))
  }

  lemma {:induction false} InstallationsAreSteps(h: Host, at: Place, release: string, stopLegacy: bool, x: Installed)
    ensures var (outcome, after) := Installing(h, at, release, stopLegacy, x); InstallStep(h, at, release, outcome, after)
  {
  }

  /** Every step of a run is an installation for some answers. */
  lemma {:induction false} StepsAreInstallations(h: Host, at: Place, release: string, outcome: Outcome, after: Host) returns (x: Installed)
    requires InstallStep(h, at, release, outcome, after)
    ensures Installing(h, at, release, false, x) == (outcome, after)
  {
    x := match outcome
      case Refused => Installed(false, false, false, false, false, false, false, false, false, false, false)
      case FailedSwitch =>
        if after.router == h.router then Installed(true, true, true, true, false, false, false, false, false, false, false)
        else Installed(true, true, true, true, true, true, false, true, false, after.router.None?, false)
      case Done => Installed(true, true, true, true, true, true, true, true, true, true, true)
      case _ => Installed(true, false, false, false, false, false, false, false, false, false, false);
  }

  /** An installation succeeds exactly when nothing it asks for fails; then the record names
      the slot without a rollback, and a router that did not run serves it. */
  lemma {:induction false} InstallSucceedsExactly(h: Host, at: Place, release: string, stopLegacy: bool, x: Installed)
    ensures var (outcome, after) := Installing(h, at, release, stopLegacy, x);
      && (outcome == Done <==>
            at in h.containers && x.present && x.healthy && x.valid && x.written && x.unit && (stopLegacy ==> x.legacyStops)
            && x.enabled && x.stable && x.recorded)
      && (outcome == Done ==>
            after == h.(proxy := Some(at), router := if h.router.None? then Some(at) else h.router, record := Some(Record(at.role, Pair(at.slot, release), None))))
      && (outcome != Done ==> after.record == h.record && after.containers == h.containers)
      && (outcome == FailedSwitch ==> after.proxy == Some(at) && (after.router == h.router || x.unit))
      && (outcome == FailedSwitch && x.unit && (stopLegacy ==> x.legacyStops) ==>
            after.router == if (!x.enabled || !x.stable) && x.stopped then None else if h.router.None? && (x.enabled || x.reached) then Some(at) else h.router)
  {
  }

  /** What the external steps of staging answer; `gone` is whether the old container vanished
      although removing it reported a failure. */
  datatype Staged = Staged(inspected: bool, seen: bool, removed: bool, gone: bool, created: bool, warm: bool)

  function Staging(h: Host, at: Place, release: string, x: Staged): (Outcome, Host)
  {
    var without := h.(containers := h.containers - {at});
    if !x.inspected then (Failed, h)
    else if Guarded(h, at) then (Refused, h)
    else if at in h.containers && !x.seen then (Failed, h)
    else if at in h.containers && !x.removed then (if x.gone then (FailedSwitch, without) else (Failed, h))
    else if !x.created then (if at in h.containers then (FailedSwitch, without) else (Failed, h))
    else (if x.warm then Done else FailedSwitch, h.(containers := h.containers[at := release]))
  }

  lemma {:induction false} StagingsAreSteps(h: Host, at: Place, release: string, x: Staged)
    ensures var (outcome, after) := Staging(h, at, release, x); StageStep(h, at, release, outcome, after)
  {
  }

  lemma {:induction false} StepsAreStagings(h: Host, at: Place, release: string, outcome: Outcome, after: Host) returns (x: Staged)
    requires StageStep(h, at, release, outcome, after) && outcome != FailedReport
    ensures Staging(h, at, release, x) == (outcome, after) || (outcome == FailedSwitch && at !in h.containers && after == h)
  {
    var without, staged := h.(containers := h.containers - {at}), h.(containers := h.containers[at := release]);
    x := match outcome
      case Refused => Staged(true, false, false, false, false, false)
      case FailedSwitch => if after == staged then Staged(true, true, true, true, true, false) else Staged(true, true, false, true, false, false)
      case Done => Staged(true, true, true, true, true, true)
      case _ => Staged(false, false, false, false, false, false);
    assert at !in h.containers ==> without.containers == h.containers;
  }

  /** Staging succeeds exactly when the slot is not the recorded one and nothing fails; then
      the slot runs the release and everything else is as it was. */
  lemma {:induction false} StageSucceedsExactly(h: Host, at: Place, release: string, x: Staged)
    ensures var (outcome, after) := Staging(h, at, release, x);
      && (outcome == Done <==>
            x.inspected && !(h.record.Some? && h.record.value.role == at.role && h.record.value.active.slot == at.slot)
            && (at in h.containers ==> x.seen && x.removed) && x.created && x.warm)
      && (outcome == Refused <==> x.inspected && h.record.Some? && h.record.value.role == at.role && h.record.value.active.slot == at.slot)
      && (outcome == Done ==> after == h.(containers := h.containers[at := release]))
      && (outcome == Failed ==> after == h)
      && (outcome == FailedSwitch <==>
            x.inspected && !Guarded(h, at) && if at in h.containers then x.seen && (if x.removed then !(x.created && x.warm) else x.gone) else x.created && !x.warm)
      && (outcome == FailedSwitch ==>
            after == if x.created && (at in h.containers ==> x.removed) then h.(containers := h.containers[at := release]) else h.(containers := h.containers - {at}))
  {
  }

  /** An activation succeeds exactly when a router runs, the slot runs, the record does not
      belong to the other role, and nothing fails; then all three name the slot. */
  lemma {:induction false} ActivateSucceedsExactly(h: Host, at: Place, release: string, x: Results)
    ensures var (outcome, after) := Activating(h, at, release, x);
      && (outcome == Done <==>
            (h.record.Some? ==> h.record.value.role == at.role) && at in h.containers && h.router.Some?
            && x.healthy && x.valid && x.written && x.reloaded && x.stable && x.recorded && x.shown)
      && (outcome == Done ==>
            after == h.(proxy := Some(at), router := Some(at),
                        record := Some(Record(at.role, Pair(at.slot, release), if h.record.Some? then Some(h.record.value.active) else None))))
  {
  }

  // ----- the commands, external steps included -----

  class Vm {
    var host: Host

    constructor (host: Host)
      ensures this.host == host
    {
      this.host := host;
    }

    method Activate(at: Place, release: string, x: Results) returns (outcome: Outcome)
      modifies this
      ensures (outcome, host) == Activating(old(host), at, release, x)
    {
      if host.record.Some? && host.record.value.role != at.role { return Refused; }
      var before := host.record;
      if at !in host.containers || !x.healthy { return Failed; }
      if !x.valid { return Failed; }
      if !x.written { return Failed; }
      host := host.(proxy := Some(at));
      if host.router.Some? && (x.reloaded || x.reached) { host := host.(router := host.proxy); }
      if !x.reloaded || host.router.None? { return FailedSwitch; }
      if !x.stable { return FailedSwitch; }
      if !x.recorded { return FailedSwitch; }
      host := host.(record := Some(Record(at.role, Pair(at.slot, release), if before.Some? then Some(before.value.active) else None)));
      outcome := if x.shown then Done else FailedReport;
    }

    method Install(at: Place, release: string, stopLegacy: bool, x: Installed) returns (outcome: Outcome)
      modifies this
      ensures (outcome, host) == Installing(old(host), at, release, stopLegacy, x)
    {
      if !x.present { return Refused; }
      if at !in host.containers || !x.healthy { return Failed; }
      if !x.valid { return Failed; }
      if !x.written { return Failed; }
      host := host.(proxy := Some(at));
      if !x.unit { return FailedSwitch; }
      if stopLegacy && !x.legacyStops { return FailedSwitch; }
      if host.router.None? && (x.enabled || x.reached) { host := host.(router := host.proxy); }
      if !x.enabled || !x.stable {
        if x.stopped { host := host.(router := None); }
        return FailedSwitch;
      }
      if !x.recorded { return FailedSwitch; }
      host := host.(record := Some(Record(at.role, Pair(at.slot, release), None)));
      outcome := Done;
    }

    method Stage(at: Place, release: string, x: Staged) returns (outcome: Outcome)
      modifies this
      ensures (outcome, host) == Staging(old(host), at, release, x)
    {
      if !x.inspected { return Failed; }
      if host.record.Some? && host.record.value.role == at.role && host.record.value.active.slot == at.slot { return Refused; }
      var had := at in host.containers;
      if had {
        if !x.seen { return Failed; }
        if !x.removed {
          if x.gone { host := host.(containers := host.containers - {at}); return FailedSwitch; }
          return Failed;
        }
        host := host.(containers := host.containers - {at});
      }
      if !x.created {
        return if had then FailedSwitch else Failed;
      }
      host := host.(containers := host.containers[at := release]);
      assert host.containers == old(host).containers[at := release];
      outcome := if x.warm then Done else FailedSwitch;
    }
  }

  // ----- runs -----

  ghost predicate Run(hs: seq<Host>, es: seq<Event>)
  {
    |hs| == |es| + 1 && forall i, j :: 0 <= i < |es| && j == i + 1 ==> Step(hs[i], es[i], hs[j])
  }

  /** Nothing is installed yet. */
  predicate Fresh(h: Host) { h.record.None? && h.router.None? }

  /** Record, proxy file and router name the same slot, and that slot runs. */
  predicate InStep(h: Host)
  {
    if h.record.None? then h.router.None?
    else h.proxy == Some(h.record.value.At()) && h.router == h.proxy && h.record.value.At() in h.containers
  }

  /** The event after which record and traffic may differ: a switch that failed half way, or
      an installation over a router that already runs and sends traffic elsewhere. */
  predicate Upsets(h: Host, e: Event)
  {
    match e
    case Activate(_, _, outcome) => outcome.FailedSwitch?
    case Install(at, _, outcome) => outcome.FailedSwitch? || (outcome.Done? && h.router.Some? && h.router != Some(at))
    case _ => false
  }

  predicate Settles(e: Event) { e.Activate? && (e.outcome.Done? || e.outcome.FailedReport?) }

  /** Some event upset the host since the record was last written by an activation. */
  ghost predicate Upset(hs: seq<Host>, es: seq<Event>)
    requires Run(hs, es)
  {
    es != [] &&
    var l := |es| - 1;
    !Settles(es[l]) && (Upsets(hs[l], es[l]) || Upset(hs[..l + 1], es[..l]))
  }

  lemma {:induction false} InStepKept(h: Host, e: Event, after: Host)
    requires Step(h, e, after) && InStep(h) && !Upsets(h, e)
    ensures InStep(after)
  {
  }

  /** Any activation that gets as far as the record brings the three together again. */
  lemma {:induction false} ActivateSettles(h: Host, e: Event, after: Host)
    requires Step(h, e, after) && Settles(e)
    ensures InStep(after) && after.record.value.At() == e.at
  {
  }

  /** In every run from a fresh host, with failures anywhere, record, proxy file and router
      agree, on a slot that runs, unless a switch failed (or a router was installed over a
      running one) and no activation has gone through since. */
  lemma {:induction false} AgreesUnlessUpset(hs: seq<Host>, es: seq<Event>)
    requires Run(hs, es) && Fresh(hs[0])
    ensures Upset(hs, es) || InStep(hs[|es|])
  {
    if es != [] {
      var l := |es| - 1;
      assert Step(hs[l], es[l], hs[l + 1]);
      if Settles(es[l]) {
        ActivateSettles(hs[l], es[l], hs[l + 1]);
      } else {
        hide Step, InStep, Upsets;
        AgreesUnlessUpset(hs[..l + 1], es[..l]);
        if !Upset(hs, es) { InStepKept(hs[l], es[l], hs[l + 1]); }
      }
    }
  }

  /** A failed switch from an agreeing host leaves it agreeing exactly when it was to the slot
      already active. */
  lemma {:induction false} FailedSwitchUpsetsExactly(h: Host, at: Place, release: string, after: Host)
    requires InStep(h) && h.record.Some? && ActivateStep(h, at, release, FailedSwitch, after)
    ensures InStep(after) <==> at == h.record.value.At()
  {
  }

  /** An installation that reports success leaves record and router in agreement exactly when
      no router was running, or it already served that slot: a running router is not reloaded. */
  lemma {:induction false} InstallAgreesExactly(h: Host, at: Place, release: string, after: Host)
    requires InstallStep(h, at, release, Done, after)
    ensures InStep(after) <==> h.router.None? || h.router == Some(at)
  {
  }

  /** For instance: installing green over a router that serves blue. */
  lemma {:induction false} InstallOverRunningRouter(h: Host, release: string) returns (after: Host)
    requires h.router == Some(Place(Backend, Blue)) && Place(Backend, Green) in h.containers
    ensures InstallStep(h, Place(Backend, Green), release, Done, after)
    ensures after.record.value.At() == Place(Backend, Green) && after.router == Some(Place(Backend, Blue))
  {
    var at := Place(Backend, Green);
    after := h.(proxy := Some(at), record := Some(Record(Backend, Pair(Green, release), None)));
  }

  /** Every step up to writing the record succeeds. */
  predicate ReachesRecord(h: Host, at: Place, x: Results)
  {
    && MayActivate(h, at.role) && at in h.containers && h.router.Some?
    && x.healthy && x.valid && x.written && x.reloaded && x.stable && x.recorded
  }

  /** A failing activation changes the record if and only if every step up to writing it
      succeeds and it does not hold this very switch already. */
  lemma {:induction false} FailedActivateChangesRecordExactly(h: Host, at: Place, release: string, x: Results)
    requires !Activating(h, at, release, x).0.Done?
    ensures Activating(h, at, release, x).1.record != h.record <==>
      ReachesRecord(h, at, x) && h.record != Some(Activated(h, at, release))
  {
  }

  /** Switching a third time to the pair that is both active and its own rollback. */
  lemma {:induction false} RepeatedSwitchKeepsRecord(h: Host, at: Place, release: string)
    ensures h.record == Some(Activated(h, at, release)) <==>
      h.record == Some(Record(at.role, Pair(at.slot, release), Some(Pair(at.slot, release))))
  {
    if h.record == Some(Activated(h, at, release)) { assert h.record.value.active == Pair(at.slot, release); }
  }

  /** For instance an activation of the other slot whose final report fails. */
  lemma {:induction false} FailedReportChangesRecord(h: Host, release: string) returns (after: Host)
    requires InStep(h) && h.record.Some? && h.record.value.At() == Place(Backend, Blue) && Place(Backend, Green) in h.containers
    ensures Activating(h, Place(Backend, Green), release, Results(true, true, true, true, true, true, true, false)) == (FailedReport, after)
    ensures after.record != h.record
  {
    var at := Place(Backend, Green);
    after := h.(proxy := Some(at), router := Some(at), record := Some(Activated(h, at, release)));
  }

  /** While record and router agree, staging never touches the container that serves. */
  lemma {:induction false} StageSparesServing(h: Host, at: Place, release: string, outcome: Outcome, after: Host)
    requires InStep(h) && StageStep(h, at, release, outcome, after) && h.router.Some?
    ensures h.router.value in after.containers && after.containers[h.router.value] == h.containers[h.router.value]
    ensures after.router == h.router && after.record == h.record
  {
  }

  /** Staging can remove the container that serves exactly when the record does not name it. */
  lemma {:induction false} StageHitsServingExactly(h: Host, at: Place, release: string)
    requires h.router == Some(at) && at in h.containers
    ensures (exists outcome, after :: StageStep(h, at, release, outcome, after) && at !in after.containers) <==> !Guarded(h, at)
  {
    var gone := h.(containers := h.containers - {at});
    if !Guarded(h, at) {
      assert StageStep(h, at, release, FailedSwitch, gone) && at !in gone.containers;
    }
  }

  /** For instance after a switch that failed once the router had taken the new file. */
  lemma {:induction false} StageAfterFailedSwitch(h: Host, release: string) returns (upset: Host, after: Host)
    requires InStep(h) && h.record.Some? && h.record.value.At() == Place(Backend, Blue) && Place(Backend, Green) in h.containers
    ensures Step(h, Activate(Place(Backend, Green), release, FailedSwitch), upset)
    ensures Step(upset, Stage(Place(Backend, Green), release, FailedSwitch), after)
    ensures upset.router == Some(Place(Backend, Green)) && Place(Backend, Green) !in after.containers
  {
    var at := Place(Backend, Green);
    upset := h.(proxy := Some(at), router := Some(at));
    after := upset.(containers := upset.containers - {at});
  }

  // ----- what the rollback fields say -----

  /** The pairs the record has named, in order; an installation starts over. */
  ghost function History(es: seq<Event>): seq<Pair>
  {
    if es == [] then []
    else
      var l := |es| - 1;
      var e, before := es[l], History(es[..l]);
      if Settles(e) then before + [Pair(e.at.slot, e.release)]
      else if e.Install? && e.outcome.Done? then [Pair(e.at.slot, e.release)]
      else before
  }

  /** In every run the record names the pair of the last activation, and as its rollback the
      pair that was active before it. */
  lemma {:induction false} RollbackIsPrevious(hs: seq<Host>, es: seq<Event>)
    requires Run(hs, es) && Fresh(hs[0])
    ensures var log, r := History(es), hs[|es|].record;
      (log == [] ==> r.None?) && (log != [] ==> r.Some? && r.value.active == log[|log| - 1])
      && (|log| == 1 ==> r.value.rollback == None) && (|log| > 1 ==> r.value.rollback == Some(log[|log| - 2]))
  {
    if es != [] {
      var l := |es| - 1;
      RollbackIsPrevious(hs[..l + 1], es[..l]);
      assert Step(hs[l], es[l], hs[l + 1]);
      hide Step;
      RecordAfter(hs[l], es[l], hs[l + 1]);
    }
  }

  lemma {:induction false} RecordAfter(h: Host, e: Event, after: Host)
    requires Step(h, e, after)
    ensures after.record ==
      if Settles(e) then Some(Activated(h, e.at, e.release))
      else if e.Install? && e.outcome.Done? then Some(Record(e.at.role, Pair(e.at.slot, e.release), None))
      else h.record
  {
  }
}
