/** Ticks leave no trace, and hosts do not influence each other. */
module Isolation {
  import opened Wrappers
  import opened IncidentState
  import opened JobSpec
  import opened Invariant
  import opened TimerLoop
  import opened Observing
  import opened Runs

  /** One host, or (None) all of them. */
  type Scope = Option<string>

  predicate InScope(scope: Scope, host: string) {
    scope.None? || scope.value == host
  }

  function RestrictTrackers(m: map<Key, Tracker>, scope: Scope): map<Key, Tracker> {
    map k | k in m && InScope(scope, k.host) :: m[k]
  }

  function RestrictIncidents(m: map<IncidentId, Incident>, scope: Scope): map<IncidentId, Incident> {
    map id | id in m && InScope(scope, id.host) :: m[id]
  }

  function Restrict(c: Core, scope: Scope): Core {
    Core(RestrictTrackers(c.trackers, scope), RestrictIncidents(c.incidents, scope))
  }

  /** Only the evidence about the scope: no ticks, no delivery marks, no other hosts. */
  function EvidenceIn(scope: Scope, events: seq<Event>): seq<Event> {
    if events == [] then []
    else if events[0].Observed? && InScope(scope, events[0].observation.evidence.hostname) then
      [events[0]] + EvidenceIn(scope, events[1..])
    else EvidenceIn(scope, events[1..])
  }

  lemma RestrictKeepsInv(wan: string, c: Core, now: Time, scope: Scope)
    requires CoreInv(wan, c, now)
    ensures CoreInv(wan, Restrict(c, scope), now)
  {
    var c' := Restrict(c, scope);
    forall k | k in c'.trackers ensures TrackerOk(c', k) { assert TrackerOk(c, k); }
    forall id | id in c'.incidents ensures IncidentOk(id, c'.incidents[id], now) {
      assert IncidentOk(id, c.incidents[id], now);
    }
    forall id | id in c'.incidents && c'.incidents[id].resolvedAt.None? ensures OwnedBy(c', id, KeyOf(id)) {
      assert OwnedBy(c, id, KeyOf(id));
    }
    forall id, k | id in c'.incidents && Waiting(c', k) ensures PastBefore(wan, c', c'.incidents[id], k) {
      assert Waiting(c, k) && PastBefore(wan, c, c.incidents[id], k);
    }
    forall i, j | i in c'.incidents && j in c'.incidents && i != j && KeyOf(i) == KeyOf(j)
      ensures OneAfterTheOther(c'.incidents[i], c'.incidents[j])
    {
      assert OneAfterTheOther(c.incidents[i], c.incidents[j]);
    }
  }

  lemma SettledTrackerRestrict(wan: string, c: Core, now: Time, t: Time, scope: Scope, k: Key)
    requires CoreInv(wan, c, now) && k in c.trackers && InScope(scope, k.host)
    ensures SettledTracker(Restrict(c, scope), k, t) == SettledTracker(c, k, t)
  {
    assert TrackerOk(c, k);
  }

  lemma SettledIncidentRestrict(wan: string, c: Core, now: Time, t: Time, scope: Scope, id: IncidentId)
    requires CoreInv(wan, c, now) && id in c.incidents && InScope(scope, id.host)
    ensures SettledIncident(Restrict(c, scope), id, t) == SettledIncident(c, id, t)
  {
    assert IncidentOk(id, c.incidents[id], now);
    if KeyOf(id) in c.trackers { assert TrackerOk(c, KeyOf(id)); }
  }

  lemma SettleRestrictTrackers(wan: string, c: Core, now: Time, t: Time, scope: Scope)
    requires CoreInv(wan, c, now)
    ensures Settle(Restrict(c, scope), t).trackers == RestrictTrackers(Settle(c, t).trackers, scope)
  {
    forall k | k in c.trackers && InScope(scope, k.host)
      ensures SettledTracker(Restrict(c, scope), k, t) == SettledTracker(c, k, t)
    {
      SettledTrackerRestrict(wan, c, now, t, scope, k);
    }
  }

  lemma SettleRestrictIncidents(wan: string, c: Core, now: Time, t: Time, scope: Scope)
    requires CoreInv(wan, c, now)
    ensures Settle(Restrict(c, scope), t).incidents == RestrictIncidents(Settle(c, t).incidents, scope)
  {
    forall id | id in c.incidents && InScope(scope, id.host)
      ensures SettledIncident(Restrict(c, scope), id, t) == SettledIncident(c, id, t)
    {
      SettledIncidentRestrict(wan, c, now, t, scope, id);
    }
  }

  /** A host's timers depend on that host alone. */
  lemma SettleRestrict(wan: string, c: Core, now: Time, t: Time, scope: Scope)
    requires CoreInv(wan, c, now)
    ensures Settle(Restrict(c, scope), t) == Restrict(Settle(c, t), scope)
  {
    SettleRestrictTrackers(wan, c, now, t, scope);
    SettleRestrictIncidents(wan, c, now, t, scope);
  }

  lemma RestrictTrackerUpdate(m: map<Key, Tracker>, scope: Scope, k: Key, t: Tracker)
    ensures RestrictTrackers(m[k := t], scope) ==
      if InScope(scope, k.host) then RestrictTrackers(m, scope)[k := t] else RestrictTrackers(m, scope)
  {
  }

  lemma RestrictIncidentUpdate(m: map<IncidentId, Incident>, scope: Scope, id: IncidentId, i: Incident)
    ensures RestrictIncidents(m[id := i], scope) ==
      if InScope(scope, id.host) then RestrictIncidents(m, scope)[id := i] else RestrictIncidents(m, scope)
    ensures RestrictIncidents(m - {id}, scope) ==
      if InScope(scope, id.host) then RestrictIncidents(m, scope) - {id} else RestrictIncidents(m, scope)
  {
  }

  lemma RestrictArm(c: Core, e: Evidence, scope: Scope)
    ensures Restrict(ArmTracker(c, e), scope) ==
      if InScope(scope, e.hostname) then ArmTracker(Restrict(c, scope), e) else Restrict(c, scope)
  {
    var t' := ArmTracker(c, e).trackers[EvidenceKey(e)];
    RestrictTrackerUpdate(c.trackers, scope, EvidenceKey(e), t');
  }

  lemma RestrictAccept(cfg: Config, c: Core, now: Time, o: Observation, scope: Scope)
    requires CoreInv(cfg.iface, c, now)
    ensures Restrict(Accept(cfg, c, o), scope) ==
      if InScope(scope, o.evidence.hostname) then Accept(cfg, Restrict(c, scope), o) else Restrict(c, scope)
  {
    var k := EvidenceKey(o.evidence);
    var t := TrackerAt(c, k);
    if k in c.trackers { assert TrackerOk(c, k); }
    RestrictTrackerUpdate(c.trackers, scope, k, AcceptedTracker(t, o));
    if Starts(t, o) {
      RestrictIncidentUpdate(c.incidents, scope, NewIncidentId(o.evidence), NewIncident(cfg, o));
    } else if Busy(t) {
      var id := t.incidentId.value;
      assert IncidentOk(id, c.incidents[id], now);
      RestrictIncidentUpdate(c.incidents, scope, id, AcceptedIncident(t, c.incidents[id], o));
    }
  }

  /** Evidence about the scope acts on the scope as if nothing else existed. */
  lemma RestrictObserve(cfg: Config, c: Core, clock: Time, o: Observation, scope: Scope)
    requires CoreInv(cfg.iface, c, clock) && clock <= o.evidence.at && InScope(scope, o.evidence.hostname)
    ensures Restrict(ObserveCore(cfg, c, o), scope) == ObserveCore(cfg, Restrict(c, scope), o)
  {
    var e := o.evidence;
    if Stale(c, e) {
    } else if e.observeOnly {
      RestrictArm(c, e, scope);
    } else {
      CoreInvLater(cfg.iface, c, clock, e.at);
      SettleRestrict(cfg.iface, c, clock, e.at, scope);
      SettleKeepsInv(cfg.iface, c, e.at);
      RestrictAccept(cfg, Settle(c, e.at), e.at, o, scope);
    }
  }

  /** Evidence about another host acts on the scope as a tick, or not at all. */
  lemma OtherHostTicks(cfg: Config, c: Core, clock: Time, o: Observation, scope: Scope)
    requires CoreInv(cfg.iface, c, clock) && clock <= o.evidence.at && !InScope(scope, o.evidence.hostname)
    ensures
      || Restrict(ObserveCore(cfg, c, o), scope) == Restrict(c, scope)
      || Restrict(ObserveCore(cfg, c, o), scope) == Restrict(Settle(c, o.evidence.at), scope)
  {
    var e := o.evidence;
    if Stale(c, e) {
    } else if e.observeOnly {
      RestrictArm(c, e, scope);
    } else {
      CoreInvLater(cfg.iface, c, clock, e.at);
      SettleKeepsInv(cfg.iface, c, e.at);
      RestrictAccept(cfg, Settle(c, e.at), e.at, o, scope);
    }
  }

  lemma SettleKeepsLast(c: Core, t: Time, k: Key)
    ensures TrackerAt(Settle(c, t), k).lastEvidenceAt == TrackerAt(c, k).lastEvidenceAt
    ensures k in Settle(c, t).trackers <==> k in c.trackers
  {
  }

  lemma SettledTrackerArm(wan: string, c: Core, clock: Time, t: Time, e: Evidence, k: Key)
    requires CoreInv(wan, c, clock) && k in ArmTracker(c, e).trackers
    ensures k in ArmTracker(Settle(c, t), e).trackers
    ensures SettledTracker(ArmTracker(c, e), k, t) == ArmTracker(Settle(c, t), e).trackers[k]
  {
    if k in c.trackers { assert TrackerOk(c, k); }
  }

  lemma SettledIncidentArm(wan: string, c: Core, clock: Time, t: Time, e: Evidence, id: IncidentId)
    requires CoreInv(wan, c, clock) && id in c.incidents
    ensures SettledIncident(ArmTracker(c, e), id, t) == SettledIncident(c, id, t)
  {
    assert IncidentOk(id, c.incidents[id], clock);
    var k, c' := KeyOf(id), ArmTracker(c, e);
    if k in c.trackers {
      assert TrackerOk(c, k);
      assert Waiting(c', k) <==> Waiting(c, k);
      assert DueBy(c', k, t) <==> DueBy(c, k, t);
    } else {
      assert !DueBy(c', k, t);
    }
  }

  lemma SettleArm(wan: string, c: Core, clock: Time, t: Time, e: Evidence)
    requires CoreInv(wan, c, clock)
    ensures Settle(ArmTracker(c, e), t) == ArmTracker(Settle(c, t), e)
  {
    var c' := ArmTracker(c, e);
    forall k | k in c'.trackers ensures SettledTracker(c', k, t) == ArmTracker(Settle(c, t), e).trackers[k] {
      SettledTrackerArm(wan, c, clock, t, e, k);
    }
    forall id | id in c'.incidents ensures SettledIncident(c', id, t) == SettledIncident(c, id, t) {
      SettledIncidentArm(wan, c, clock, t, e, id);
    }
    assert Settle(c', t).trackers == ArmTracker(Settle(c, t), e).trackers;
    assert Settle(c', t).incidents == ArmTracker(Settle(c, t), e).incidents;
  }

  /** Observing after some timers have fired, and observing before, settle to the same state. */
  lemma ObserveForgetsTicks(cfg: Config, a: Core, b: Core, clock: Time, o: Observation)
    requires ConfigOk(cfg) && CoreInv(cfg.iface, a, clock) && CoreInv(cfg.iface, b, clock) && clock <= o.evidence.at
    requires Settle(a, o.evidence.at) == Settle(b, o.evidence.at)
    ensures Settle(ObserveCore(cfg, a, o), o.evidence.at) == Settle(ObserveCore(cfg, b, o), o.evidence.at)
  {
    var e := o.evidence;
    SettleKeepsLast(a, e.at, EvidenceKey(e));
    SettleKeepsLast(b, e.at, EvidenceKey(e));
    assert Stale(a, e) <==> Stale(b, e);
    if !Stale(a, e) && e.observeOnly {
      SettleArm(cfg.iface, a, clock, e.at, e);
      SettleArm(cfg.iface, b, clock, e.at, e);
    }
  }

  /** The simulation: what the scope shows of the full run, once settled, is the settled run of its own evidence. */
  ghost predicate Mirrors(scope: Scope, full: Core, alone: Core, clock: Time) {
    Settle(Restrict(full, scope), clock) == Settle(alone, clock)
  }

  lemma MirrorsLater(wan: string, scope: Scope, full: Core, alone: Core, clock: Time, t: Time)
    requires CoreInv(wan, full, clock) && CoreInv(wan, alone, clock) && clock <= t
    requires Mirrors(scope, full, alone, clock)
    ensures Mirrors(scope, full, alone, t)
  {
    RestrictKeepsInv(wan, full, clock, scope);
    SettleComposes(wan, Restrict(full, scope), clock, clock, t);
    SettleComposes(wan, alone, clock, clock, t);
  }

  /** A tick, seen from the scope, changes nothing that settling would not. */
  lemma TickMirrors(wan: string, scope: Scope, full: Core, alone: Core, clock: Time, t: Time)
    requires CoreInv(wan, full, clock) && CoreInv(wan, alone, clock) && clock <= t
    requires Mirrors(scope, full, alone, clock)
    ensures Settle(Restrict(Settle(full, t), scope), t) == Settle(alone, t)
  {
    MirrorsLater(wan, scope, full, alone, clock, t);
    RestrictKeepsInv(wan, full, clock, scope);
    SettleRestrict(wan, full, clock, t, scope);
    SettleComposes(wan, Restrict(full, scope), clock, t, t);
  }

  lemma ObserveMirrors(cfg: Config, scope: Scope, full: Core, alone: Core, clock: Time, o: Observation)
    requires ConfigOk(cfg) && CoreInv(cfg.iface, full, clock) && CoreInv(cfg.iface, alone, clock)
    requires clock <= o.evidence.at
    requires Mirrors(scope, full, alone, clock)
    ensures
      var alone' := if InScope(scope, o.evidence.hostname) then ObserveCore(cfg, alone, o) else alone;
      Mirrors(scope, ObserveCore(cfg, full, o), alone', o.evidence.at)
  {
    var t := o.evidence.at;
    MirrorsLater(cfg.iface, scope, full, alone, clock, t);
    if InScope(scope, o.evidence.hostname) {
      RestrictKeepsInv(cfg.iface, full, clock, scope);
      RestrictObserve(cfg, full, clock, o, scope);
      ObserveForgetsTicks(cfg, Restrict(full, scope), alone, clock, o);
    } else {
      OtherHostTicks(cfg, full, clock, o, scope);
      TickMirrors(cfg.iface, scope, full, alone, clock, t);
    }
  }

  lemma {:induction false} RunsMirror(cfg: Config, scope: Scope, full: State, alone: State, clock: Time,
                                      events: seq<Event>)
    requires ConfigOk(cfg) && Inv(cfg, full, clock) && Inv(cfg, alone, clock) && Monotone(clock, events)
    requires Mirrors(scope, full.core, alone.core, clock)
    ensures
      var last := Clock(clock, events);
      && Inv(cfg, Run(cfg, full, events), last) && Inv(cfg, Run(cfg, alone, EvidenceIn(scope, events)), last)
      && Mirrors(scope, Run(cfg, full, events).core, Run(cfg, alone, EvidenceIn(scope, events)).core, last)
    decreases |events|
  {
    if events != [] {
      var ev, t := events[0], After(clock, events[0]);
      StepKeepsInv(cfg, full, clock, ev);
      CoreInvLater(cfg.iface, alone.core, clock, t);
      var alone' := alone;
      match ev {
        case Tick(now) => TickMirrors(cfg.iface, scope, full.core, alone.core, clock, now);
        case Observed(o) =>
          ObserveMirrors(cfg, scope, full.core, alone.core, clock, o);
          if InScope(scope, o.evidence.hostname) {
            StepKeepsInv(cfg, alone, clock, ev);
            alone' := Step(cfg, alone, ev);
            assert ([ev] + EvidenceIn(scope, events[1..]))[1..] == EvidenceIn(scope, events[1..]);
          }
        case _ =>
      }
      RunsMirror(cfg, scope, Step(cfg, full, ev), alone', t, events[1..]);
    }
  }

  /** The incidents agree on a scope, and every incident is filed under its own host. */
  ghost predicate Agree(scope: Scope, all: map<IncidentId, Incident>, own: map<IncidentId, Incident>) {
    && (forall id :: id in own <==> id in all && InScope(scope, id.host))
    && (forall id :: id in own ==> own[id] == all[id])
    && (forall id :: id in all ==> all[id].hostname == id.host)
  }

  lemma AgreeWanted(wan: string, scope: Scope, all: map<IncidentId, Incident>, own: map<IncidentId, Incident>, j: JobId)
    requires Agree(scope, all, own)
    ensures Wanted(wan, own, j) <==> Wanted(wan, all, j) && InScope(scope, JobIncident(j).host)
    ensures Wanted(wan, own, j) ==> WantedAt(wan, own, j) == WantedAt(wan, all, j)
  {
    if j.Lifecycle? && j.incident in own && own[j.incident].activatedAt.Some? {
      var i := own[j.incident];
      forall p ensures PrimaryDown(wan, own, i.hostname, i.activatedAt.value, p)
        <==> PrimaryDown(wan, all, i.hostname, i.activatedAt.value, p)
      {
      }
    }
  }

  /** Two states whose incidents agree on a scope have the same jobs there. */
  lemma SameIncidentsSameJobs(cfg: Config, scope: Scope, full: State, alone: State, clock: Time, j: JobId)
    requires Inv(cfg, full, clock) && Inv(cfg, alone, clock)
    requires Restrict(full.core, scope) == alone.core
    ensures j in alone.jobs <==> j in full.jobs && InScope(scope, JobIncident(j).host)
    ensures j in alone.jobs ==> alone.jobs[j].createdAt == full.jobs[j].createdAt
  {
    var all, own := full.core.incidents, alone.core.incidents;
    forall id | id in all ensures all[id].hostname == id.host { assert IncidentOk(id, all[id], clock); }
    AgreeWanted(cfg.iface, scope, all, own, j);
  }

  /** Host isolation and tick erasure: after any monotone run followed by a tick, the trackers, incidents and jobs
      of a scope are those of a run on the scope's evidence alone, without ticks, followed by the same tick. */
  lemma HostIsolation(cfg: Config, start: Time, events: seq<Event>, scope: Scope, end: Time)
    requires ConfigOk(cfg) && Monotone(start, events) && Clock(start, events) <= end
    ensures
      var full := Settled(cfg.iface, Run(cfg, EMPTY_STATE, events), end);
      var alone := Settled(cfg.iface, Run(cfg, EMPTY_STATE, EvidenceIn(scope, events)), end);
      && Restrict(full.core, scope) == alone.core
      && (forall j :: j in alone.jobs <==> j in full.jobs && InScope(scope, JobIncident(j).host))
      && (forall j :: j in alone.jobs ==> alone.jobs[j].createdAt == full.jobs[j].createdAt)
  {
    EmptyInv(cfg, start);
    assert Restrict(EMPTY_CORE, scope) == EMPTY_CORE;
    RunsMirror(cfg, scope, EMPTY_STATE, EMPTY_STATE, start, events);
    var full, alone, last := Run(cfg, EMPTY_STATE, events), Run(cfg, EMPTY_STATE, EvidenceIn(scope, events)),
      Clock(start, events);
    MirrorsLater(cfg.iface, scope, full.core, alone.core, last, end);
    SettleRestrict(cfg.iface, full.core, last, end, scope);
    TickKeepsInv(cfg, full, last, end);
    TickKeepsInv(cfg, alone, last, end);
    forall j
      ensures j in Settled(cfg.iface, alone, end).jobs <==>
        j in Settled(cfg.iface, full, end).jobs && InScope(scope, JobIncident(j).host)
      ensures j in Settled(cfg.iface, alone, end).jobs ==>
        Settled(cfg.iface, alone, end).jobs[j].createdAt == Settled(cfg.iface, full, end).jobs[j].createdAt
    {
      SameIncidentsSameJobs(cfg, scope, Settled(cfg.iface, full, end), Settled(cfg.iface, alone, end), end, j);
    }
  }
}
