/** What the timers and one observation do, case by case and field by field, however late the observation comes. The
    cases are told by the state of the incident an interface is busy with, apart from the engine's own phases. */
module EvidenceCases {
  import opened Wrappers
  import opened IncidentState
  import opened Invariant
  import opened Observing
  import opened AnyState

  /** The tracker of an interface where nothing is wrong. */
  function Well(lastEvidenceAt: Time): Tracker {
    Tracker(PhaseHealthy, 0, 0, lastEvidenceAt, "", "", None, false, false)
  }

  /** The interface is busy with the incident. */
  predicate BusyWith(c: Core, k: Key, id: IncidentId) {
    k in c.trackers && c.trackers[k].incidentId == Some(id) && id in c.incidents
  }

  /** The interface is not busy with an incident. */
  predicate Free(c: Core, k: Key) {
    k in c.trackers ==> c.trackers[k].incidentId.None?
  }

  lemma BusyOrFree(c: Core, k: Key)
    requires Shaped(c)
    ensures Free(c, k) || BusyWith(c, k, c.trackers[k].incidentId.value)
    ensures Free(c, k) && k in c.trackers ==> c.trackers[k] == Well(c.trackers[k].lastEvidenceAt)
  {
    if k in c.trackers { assert TrackerOk(c, k); }
  }

  // ---------- the timers ----------

  /** A failure becomes an outage once its debounce has passed, and a recovery ends it once its own has; each is dated
      from its deadline. Until then nothing changes. */
  predicate TimerFires(t: Tracker, i: Incident, now: Time, t': Tracker, i': Incident) {
    if i.state == StatePendingFailure && i.startedAt + i.downAfter <= now then
      && t' == t.(phase := PhaseActive)
      && i' == i.(state := StateActive, activatedAt := Some(i.startedAt + i.downAfter))
    else if i.state == StatePendingRecovery && t.recoverySince + i.recoveredAfter <= now then
      && i.recoveryFirstAt == Some(t.recoverySince) && t' == Well(t.lastEvidenceAt)
      && i' == i.(state := StateResolved, resolvedAt := Some(t.recoverySince + i.recoveredAfter))
    else
      t' == t && i' == i
  }

  lemma SettledExact(c: Core, now: Time, k: Key, id: IncidentId)
    requires Shaped(c) && BusyWith(c, k, id)
    ensures TimerFires(c.trackers[k], c.incidents[id], now, Settle(c, now).trackers[k], Settle(c, now).incidents[id])
  {
    assert TrackerOk(c, k) && IncidentShaped(id, c.incidents[id]);
  }

  /** The timer of an interface that is busy with an incident, exactly. */
  lemma TimerExact(wan: string, s: State, now: Time, s': State, k: Key, id: IncidentId)
    requires Shaped(s.core) && Advances(wan, s, now, s') && BusyWith(s.core, k, id)
    ensures k in s'.core.trackers && id in s'.core.incidents
    ensures TimerFires(s.core.trackers[k], s.core.incidents[id], now, s'.core.trackers[k], s'.core.incidents[id])
  {
    AdvancesToSettled(wan, s, now, s');
    SettledExact(s.core, now, k, id);
  }

  /** The timers change nothing else. */
  lemma TimersElsewhere(wan: string, s: State, now: Time, s': State)
    requires Shaped(s.core) && Advances(wan, s, now, s')
    ensures s'.core.trackers.Keys == s.core.trackers.Keys && s'.core.incidents.Keys == s.core.incidents.Keys
    ensures forall k :: k in s.core.trackers && Free(s.core, k) ==> s'.core.trackers[k] == s.core.trackers[k]
    ensures forall id :: id in s.core.incidents && s.core.incidents[id].state == StateResolved ==>
      s'.core.incidents[id] == s.core.incidents[id]
  {
    AdvancesToSettled(wan, s, now, s');
    forall id | id in s.core.incidents && s.core.incidents[id].state == StateResolved
      ensures s'.core.incidents[id] == s.core.incidents[id]
    {
      assert IncidentShaped(id, s.core.incidents[id]);
      if KeyOf(id) in s.core.trackers { assert TrackerOk(s.core, KeyOf(id)); }
    }
  }

  /** A pending tracker whose incident is missing is dropped when it is picked, and nothing else changes. */
  lemma OrphanExact(wan: string, s: State, now: Time, f: Firing)
    requires LegalFiring(wan, s.core, now, f)
    requires s.core.trackers[f.key].incidentId.None? || s.core.trackers[f.key].incidentId.value !in s.core.incidents
    ensures Fire(wan, s, f) == s.(core := s.core.(trackers := s.core.trackers - {f.key}))
  {
  }

  // ---------- one observation ----------

  /** The interface the evidence is about. */
  function About(e: Evidence): Key { Key(e.hostname, e.iface) }

  /** The interface's own last evidence is not newer. */
  predicate NotLate(c: Core, e: Evidence) {
    About(e) in c.trackers ==> c.trackers[About(e)].lastEvidenceAt == 0 || c.trackers[About(e)].lastEvidenceAt <= e.at
  }

  /** Late evidence about the interface changes nothing, not even the timers. */
  lemma LateExact(cfg: Config, s: State, o: Observation, s': State)
    requires !NotLate(s.core, o.evidence)
    ensures Observes(cfg, s, o, s') <==> s' == s
  {
  }

  /** Evidence that is only to be noted sets the time of the interface's last evidence, and changes nothing else. */
  lemma NotedExact(cfg: Config, s: State, o: Observation, s': State)
    requires Shaped(s.core) && NotLate(s.core, o.evidence) && o.evidence.observeOnly
    ensures
      var k, at, c := About(o.evidence), o.evidence.at, s.core;
      var noted := if k in c.trackers then c.trackers[k].(lastEvidenceAt := at) else Well(at);
      Observes(cfg, s, o, s') <==> s' == s.(core := c.(trackers := c.trackers[k := noted]))
  {
    BusyOrFree(s.core, About(o.evidence));
    if About(o.evidence) in s.core.trackers { assert TrackerOk(s.core, About(o.evidence)); }
  }

  /** The names with the last one added, unless it is there already; no name is never listed. */
  function Listed(names: seq<string>, name: string): seq<string> {
    if name == "" || (names != [] && names[|names| - 1] == name) then names else names + [name]
  }

  /** The incident with the observation as its last evidence. */
  function Noted(i: Incident, o: Observation): Incident {
    i.(lastEvidenceAt := o.evidence.at, evidenceIds := Listed(i.evidenceIds, o.evidence.messageId),
       evidenceRefs := Listed(i.evidenceRefs, o.sourceRef))
  }

  /** Online evidence about the interface: a failure that was pending never was; an outage recovers from now on; a
      recovery goes on. */
  function Recovering(c: Core, o: Observation, k: Key, id: IncidentId): Core
    requires BusyWith(c, k, id)
  {
    var t, i, at := c.trackers[k], c.incidents[id], o.evidence.at;
    match i.state
    case StatePendingFailure => Core(c.trackers[k := Well(at)], c.incidents - {id})
    case StateActive =>
      Core(c.trackers[k := t.(phase := PhasePendingRecovery, recoverySince := at, lastEvidenceAt := at)],
           c.incidents[id := Noted(i, o).(state := StatePendingRecovery, recoveryFirstAt := Some(at))])
    case _ => Core(c.trackers[k := t.(lastEvidenceAt := at)], c.incidents[id := Noted(i, o)])
  }

  /** What online evidence makes of the state the timers left: nothing when the primary interface failed by
      reachability and the evidence is not about that; otherwise it counts. */
  function AfterOnline(wan: string, c: Core, o: Observation): Core {
    var k := About(o.evidence);
    if k.iface == wan && k in c.trackers && c.trackers[k].reachabilityDown && !o.evidence.reachability then c
    else if k in c.trackers && c.trackers[k].incidentId.Some? && c.trackers[k].incidentId.value in c.incidents then
      Recovering(c, o, k, c.trackers[k].incidentId.value)
    else c.(trackers := c.trackers[k := Well(o.evidence.at)])
  }

  /** The tracker that stays down: a failure still pending is one to be notified if any of its evidence is; a recovery
      is over. */
  function DownTracker(t: Tracker, i: Incident, o: Observation): Tracker {
    var e := o.evidence;
    var seen := t.(lastEvidenceAt := e.at, reachabilityDown := t.reachabilityDown || e.reachability);
    match i.state
    case StatePendingFailure => seen.(notify := t.notify || o.notifyEligible)
    case StatePendingRecovery => seen.(phase := PhaseActive, recoverySince := 0)
    case _ => seen
  }

  /** Its incident: the outage goes on. */
  function DownIncident(i: Incident, o: Observation): Incident {
    match i.state
    case StatePendingFailure => Noted(i, o).(notify := i.notify || o.notifyEligible)
    case StatePendingRecovery => Noted(i, o).(state := StateActive, recoveryFirstAt := None)
    case _ => Noted(i, o)
  }

  /** Offline evidence about an interface that is busy with an incident. */
  function StayingDown(c: Core, o: Observation, k: Key, id: IncidentId): Core
    requires BusyWith(c, k, id)
  {
    Core(c.trackers[k := DownTracker(c.trackers[k], c.incidents[id], o)],
         c.incidents[id := DownIncident(c.incidents[id], o)])
  }

  /** Offline evidence about an interface where nothing is wrong: a failure is pending from now on, in a new incident
      with the thresholds of today. */
  function Failing(cfg: Config, c: Core, o: Observation): Core {
    var e := o.evidence;
    var id := IncidentId(e.hostname, e.iface, e.at, e.messageId);
    var t := Tracker(PhasePendingFailure, e.at, 0, e.at, e.messageId, o.sourceRef, Some(id), o.notifyEligible,
                     e.reachability);
    var i := Incident(id, e.hostname, e.iface, StatePendingFailure, e.at, None, None, None, e.at,
                      Listed([], e.messageId), Listed([], o.sourceRef), cfg.downAfter, cfg.recoveredAfter,
                      o.notifyEligible);
    Core(c.trackers[About(e) := t], c.incidents[id := i])
  }

  /** What offline evidence makes of the state the timers left. */
  function AfterOffline(cfg: Config, c: Core, o: Observation): Core {
    var k := About(o.evidence);
    if k in c.trackers && c.trackers[k].incidentId.Some? && c.trackers[k].incidentId.value in c.incidents then
      StayingDown(c, o, k, c.trackers[k].incidentId.value)
    else Failing(cfg, c, o)
  }

  lemma AcceptFree(cfg: Config, c: Core, o: Observation)
    requires Shaped(c) && Free(c, About(o.evidence))
    ensures Accept(cfg, c, o) ==
      if o.evidence.online then c.(trackers := c.trackers[About(o.evidence) := Well(o.evidence.at)])
      else Failing(cfg, c, o)
  {
    BusyOrFree(c, About(o.evidence));
  }

  lemma AcceptBusyOnline(cfg: Config, c: Core, o: Observation, id: IncidentId)
    requires Shaped(c) && BusyWith(c, About(o.evidence), id) && o.evidence.online
    ensures Accept(cfg, c, o) == Recovering(c, o, About(o.evidence), id)
  {
    assert TrackerOk(c, About(o.evidence)) && IncidentShaped(id, c.incidents[id]);
  }

  lemma AcceptedDown(t: Tracker, i: Incident, o: Observation)
    requires InStep(t, i) && !o.evidence.online
    ensures AcceptedTracker(t, o) == DownTracker(t, i, o) && AcceptedIncident(t, i, o) == DownIncident(i, o)
  {
  }

  lemma AcceptBusyOffline(cfg: Config, c: Core, o: Observation, id: IncidentId)
    requires Shaped(c) && BusyWith(c, About(o.evidence), id) && !o.evidence.online
    ensures Accept(cfg, c, o) == StayingDown(c, o, About(o.evidence), id)
  {
    assert TrackerOk(c, About(o.evidence)) && IncidentShaped(id, c.incidents[id]);
    AcceptedDown(c.trackers[About(o.evidence)], c.incidents[id], o);
  }

  lemma AcceptExact(cfg: Config, c: Core, o: Observation)
    requires Shaped(c)
    ensures AcceptUnlessGated(cfg, c, o) ==
      if o.evidence.online then AfterOnline(cfg.iface, c, o) else AfterOffline(cfg, c, o)
  {
    BusyOrFree(c, About(o.evidence));
    if Free(c, About(o.evidence)) {
      AcceptFree(cfg, c, o);
    } else if o.evidence.online {
      AcceptBusyOnline(cfg, c, o, c.trackers[About(o.evidence)].incidentId.value);
    } else {
      AcceptBusyOffline(cfg, c, o, c.trackers[About(o.evidence)].incidentId.value);
    }
  }

  /** Evidence that is not late lets the timers due by it fire first, and then counts as online or offline evidence
      does: that and nothing else is what observing it may lead to. */
  lemma EvidenceExact(cfg: Config, s: State, o: Observation, s': State)
    requires ConfigOk(cfg) && Shaped(s.core) && NotLate(s.core, o.evidence) && !o.evidence.observeOnly
    ensures Observes(cfg, s, o, s') <==> exists mid ::
      && Advances(cfg.iface, s, o.evidence.at, mid)
      && s' == mid.(core := if o.evidence.online then AfterOnline(cfg.iface, mid.core, o)
                            else AfterOffline(cfg, mid.core, o))
  {
    forall mid | Advances(cfg.iface, s, o.evidence.at, mid)
      ensures AcceptUnlessGated(cfg, mid.core, o) ==
        if o.evidence.online then AfterOnline(cfg.iface, mid.core, o) else AfterOffline(cfg, mid.core, o)
    {
      AdvancesToSettled(cfg.iface, s, o.evidence.at, mid);
      AcceptExact(cfg, mid.core, o);
    }
  }

  /** Online evidence that counts is the interface's last evidence; a failure that is still pending is gone with it, and
      an outage is recovering since. */
  predicate Counts(c: Core, o: Observation, c': Core, id: IncidentId) {
    && About(o.evidence) in c'.trackers && c'.trackers[About(o.evidence)].lastEvidenceAt == o.evidence.at
    && (BusyWith(c, About(o.evidence), id) ==>
          match c.incidents[id].state
          case StatePendingFailure => id !in c'.incidents
          case StateActive =>
            && id in c'.incidents && c'.incidents[id].state == StatePendingRecovery
            && c'.incidents[id].recoveryFirstAt == Some(o.evidence.at)
          case _ => id in c'.incidents && c'.incidents[id].state == c.incidents[id].state)
  }

  /** An interface is held down against evidence that is not about reachability. */
  predicate HeldDown(wan: string, c: Core, e: Evidence) {
    e.iface == wan && About(e) in c.trackers && c.trackers[About(e)].reachabilityDown && !e.reachability
  }

  lemma AfterOnlineCounts(wan: string, c: Core, o: Observation, id: IncidentId)
    requires !HeldDown(wan, c, o.evidence)
    ensures Counts(c, o, AfterOnline(wan, c, o), id)
  {
  }

  /** Only the primary interface is held down, by a failure of its reachability, and only against evidence that is not
      about that: such evidence changes nothing. All other online evidence counts. */
  lemma OnlineCounts(cfg: Config, s: State, o: Observation, mid: State, s': State, id: IncidentId)
    requires ConfigOk(cfg) && Shaped(s.core) && NotLate(s.core, o.evidence) && !o.evidence.observeOnly
    requires Advances(cfg.iface, s, o.evidence.at, mid) && Observes(cfg, s, o, s') && o.evidence.online
    ensures if HeldDown(cfg.iface, mid.core, o.evidence) then s'.core == mid.core else Counts(mid.core, o, s'.core, id)
  {
    AdvancesToSettled(cfg.iface, s, o.evidence.at, mid);
    ObservesCore(cfg, s, o, s');
    AcceptExact(cfg, mid.core, o);
    if !HeldDown(cfg.iface, mid.core, o.evidence) { AfterOnlineCounts(cfg.iface, mid.core, o, id); }
  }
}
