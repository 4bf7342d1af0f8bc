/** Evidence older than a tick: what it can do to an outage, in any execution of the engine. */
module LateEvidence {
  import opened Wrappers
  import opened IncidentState
  import opened Invariant
  import opened Observing
  import opened Runs
  import opened AnyState
  import opened Histories

  /** An active incident, in its own tracker's hands. The clock plays no part. */
  predicate ActiveSince(c: Core, k: Key, id: IncidentId, activated: Time) {
    && OwnedBy(c, id, k) && c.trackers[k].phase == PhaseActive
    && id in c.incidents && c.incidents[id].activatedAt == Some(activated)
  }

  lemma ObservedThenTicked(cfg: Config, s: State, o: Observation, now: Time, s': State) returns (mid: State)
    requires Executes(cfg, s, [Observed(o), Tick(now)], s')
    ensures Observes(cfg, s, o, mid) && Advances(cfg.iface, mid, now, s')
  {
    var events := [Observed(o), Tick(now)];
    mid :| Takes(cfg, s, events[0], mid) && Executes(cfg, mid, events[1..], s');
    assert events[1..] == [Tick(now)] && [Tick(now)][1..] == [];
    var last :| Takes(cfg, mid, Tick(now), last) && Executes(cfg, last, [], s');
  }

  /** The incident recovers from the instant, in its own tracker's hands. */
  predicate RecoversFrom(c: Core, k: Key, id: IncidentId, activated: Time, at: Time, length: Time) {
    && OwnedBy(c, id, k) && c.trackers[k].phase == PhasePendingRecovery && c.trackers[k].recoverySince == at
    && id in c.incidents && KeyOf(id) == k && IncidentShaped(id, c.incidents[id])
    && c.incidents[id].activatedAt == Some(activated) && c.incidents[id].recoveredAfter == length
  }

  lemma LateStarts(cfg: Config, c: Core, o: Observation, k: Key, id: IncidentId, activated: Time)
    requires Shaped(c) && ActiveSince(c, k, id, activated) && ConfigOk(cfg)
    requires EvidenceKey(o.evidence) == k && o.evidence.online && Accepts(cfg, c, o)
    ensures
      RecoversFrom(ObserveCore(cfg, c, o), k, id, activated, o.evidence.at, c.incidents[id].recoveredAfter)
  {
    assert TrackerOk(c, k) && IncidentShaped(id, c.incidents[id]);
    var c1 := Settle(c, o.evidence.at);
    assert !DueBy(c, k, o.evidence.at);
    assert c1.trackers[k] == c.trackers[k] && c1.incidents[id] == c.incidents[id];
    assert ObserveCore(cfg, c, o).incidents[id] == AcceptedIncident(c1.trackers[k], c1.incidents[id], o);
  }

  lemma RecoveryEnds(c: Core, k: Key, id: IncidentId, activated: Time, at: Time, length: Time, now: Time)
    requires RecoversFrom(c, k, id, activated, at, length) && at + length <= now
    ensures
      var i := Settle(c, now).incidents;
      && id in i && i[id].activatedAt == Some(activated)
      && i[id].resolvedAt.Some? && i[id].resolvedAt.value == at + length
  {
    assert DueBy(c, k, now);
  }

  /** However late accepted recovery evidence about an active incident is, the incident resolves at exactly its time
      plus the recovery debounce; so after the activation exactly when the evidence is later than the activation less
      the debounce. */
  lemma ResolutionAfterActivation(cfg: Config, s: State, o: Observation, k: Key, id: IncidentId, activated: Time,
                                  now: Time, mid: State, s': State)
    requires ConfigOk(cfg) && Shaped(s.core) && ActiveSince(s.core, k, id, activated)
    requires EvidenceKey(o.evidence) == k && o.evidence.online && Accepts(cfg, s.core, o)
    requires o.evidence.at + s.core.incidents[id].recoveredAfter <= now
    requires Observes(cfg, s, o, mid) && Advances(cfg.iface, mid, now, s')
    ensures id in s'.core.incidents && s'.core.incidents[id].activatedAt == Some(activated)
    ensures s'.core.incidents[id].resolvedAt.Some?
    ensures s'.core.incidents[id].resolvedAt.value == o.evidence.at + s.core.incidents[id].recoveredAfter
    ensures activated < s'.core.incidents[id].resolvedAt.value <==>
      activated - s.core.incidents[id].recoveredAfter < o.evidence.at
  {
    ObservesCore(cfg, s, o, mid);
    AdvancesToSettled(cfg.iface, mid, now, s');
    LateStarts(cfg, s.core, o, k, id, activated);
    RecoveryEnds(mid.core, k, id, activated, o.evidence.at, s.core.incidents[id].recoveredAfter, now);
  }

  /** Once a failure is activated, online evidence about it is accepted however late it is, as long as the tracker saw
      nothing newer and the gate is open. */
  lemma LateIsAccepted(cfg: Config, c: Core, o: Observation, k: Key, id: IncidentId, activated: Time)
    requires ActiveSince(c, k, id, activated) && EvidenceKey(o.evidence) == k
    requires c.trackers[k].lastEvidenceAt <= o.evidence.at && !o.evidence.observeOnly
    requires !c.trackers[k].reachabilityDown || o.evidence.reachability
    ensures Accepts(cfg, c, o)
  {
    assert !DueBy(c, k, o.evidence.at);
    assert Settle(c, o.evidence.at).trackers[k] == c.trackers[k];
  }

  lemma FailureStarts(cfg: Config, down: Observation)
    requires !down.evidence.online && !down.evidence.observeOnly
    ensures
      var k, id := EvidenceKey(down.evidence), NewIncidentId(down.evidence);
      ObserveCore(cfg, EMPTY_CORE, down) == Core(map[k := NewTracker(down)], map[id := NewIncident(cfg, down)])
  {
    assert Settle(EMPTY_CORE, down.evidence.at) == EMPTY_CORE;
  }

  /** One unanswered failure, and the tick that activates it. */
  lemma FirstFailure(cfg: Config, down: Observation, now: Time, mid: State, s: State)
    requires ConfigOk(cfg) && !down.evidence.online && !down.evidence.observeOnly
    requires down.evidence.at + cfg.downAfter <= now
    requires Observes(cfg, EMPTY_STATE, down, mid) && Advances(cfg.iface, mid, now, s)
    ensures
      var k, id := EvidenceKey(down.evidence), NewIncidentId(down.evidence);
      && Shaped(s.core) && ActiveSince(s.core, k, id, down.evidence.at + cfg.downAfter)
      && s.core.trackers[k].lastEvidenceAt == down.evidence.at
      && s.core.trackers[k].reachabilityDown == down.evidence.reachability
      && s.core.incidents[id].recoveredAfter == cfg.recoveredAfter
  {
    FailureStarts(cfg, down);
    assert DueBy(mid.core, EvidenceKey(down.evidence), now) by { ObservesCore(cfg, EMPTY_STATE, down, mid); }
    ObservesCore(cfg, EMPTY_STATE, down, mid);
    AdvancesToSettled(cfg.iface, mid, now, s);
  }

  lemma NotMonotone(early: seq<Event>, late: seq<Event>)
    requires |early| == 2 && late != [] && early[1].Tick? && After(early[1].now, late[0]) < early[1].now
    ensures !Monotone(0, early + late)
  {
    var rest := (early + late)[1..];
    assert rest[0] == early[1] && rest[1..] == late;
    assert !Monotone(early[1].now, late);
    assert !Monotone(After(0, early[0]), rest);
  }

  /** Executions that are not monotone: evidence of a recovery that arrives after a tick has passed it by ends the
      incident before it began, however the maps are iterated. */
  lemma LateEvidenceInverts(cfg: Config, down: Observation, up: Observation, s: State)
    requires cfg == Config("wan", 60, 10)
    requires down == Observation(Evidence("router", "wan", false, 1, "down", false, false), true, "a:1")
    requires up == Observation(Evidence("router", "wan", true, 2, "up", false, false), true, "a:2")
    requires Executes(cfg, EMPTY_STATE, [Observed(down), Tick(100)] + [Observed(up), Tick(100)], s)
    ensures
      var id := NewIncidentId(down.evidence);
      && !Monotone(0, [Observed(down), Tick(100)] + [Observed(up), Tick(100)])
      && id in s.core.incidents && s.core.incidents[id].activatedAt == Some(61)
      && s.core.incidents[id].resolvedAt == Some(12)
  {
    var early, late := [Observed(down), Tick(100)], [Observed(up), Tick(100)];
    var mid := ExecutesSplit(cfg, EMPTY_STATE, early, late, s);
    var failing := ObservedThenTicked(cfg, EMPTY_STATE, down, 100, mid);
    FirstFailure(cfg, down, 100, failing, mid);
    var recovering := ObservedThenTicked(cfg, mid, up, 100, s);
    var k, id := EvidenceKey(down.evidence), NewIncidentId(down.evidence);
    LateIsAccepted(cfg, mid.core, up, k, id, 61);
    ResolutionAfterActivation(cfg, mid, up, k, id, 61, 100, recovering, s);
    NotMonotone(early, late);
  }
}
