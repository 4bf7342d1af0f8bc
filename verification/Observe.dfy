/** How one piece of connectivity evidence changes the derived state. */
module Observing {
  import opened Wrappers
  import opened IncidentState
  import opened JobSpec
  import opened Invariant
  import opened TimerLoop

  datatype Config = Config(iface: string, downAfter: Time, recoveredAfter: Time)

  predicate ConfigOk(cfg: Config) { cfg.downAfter > 0 && cfg.recoveredAfter > 0 }

  datatype Evidence = Evidence(
    hostname: string,
    iface: string,
    online: bool,
    at: Time,
    messageId: string,
    reachability: bool,
    observeOnly: bool)

  datatype Observation = Observation(evidence: Evidence, notifyEligible: bool, sourceRef: string)

  function EvidenceKey(e: Evidence): Key { Key(e.hostname, e.iface) }

  function AppendEvidence(ids: seq<string>, id: string): seq<string> {
    if id == "" then ids
    else if |ids| > 0 && ids[|ids| - 1] == id then ids
    else ids + [id]
  }

  function NoteEvidence(i: Incident, o: Observation): Incident {
    i.(lastEvidenceAt := o.evidence.at,
       evidenceIds := AppendEvidence(i.evidenceIds, o.evidence.messageId),
       evidenceRefs := AppendEvidence(i.evidenceRefs, o.sourceRef))
  }

  function NewIncidentId(e: Evidence): IncidentId {
    IncidentId(e.hostname, e.iface, e.at, e.messageId)
  }

  function NewIncident(cfg: Config, o: Observation): Incident {
    var e := o.evidence;
    Incident(NewIncidentId(e), e.hostname, e.iface, StatePendingFailure, e.at, None, None, None, e.at,
             AppendEvidence([], e.messageId), AppendEvidence([], o.sourceRef),
             cfg.downAfter, cfg.recoveredAfter, o.notifyEligible)
  }

  function NewTracker(o: Observation): Tracker {
    var e := o.evidence;
    Tracker(PhasePendingFailure, e.at, ZERO_TIME, e.at, e.messageId, o.sourceRef, Some(NewIncidentId(e)),
            o.notifyEligible, e.reachability)
  }

  /** Older than the tracker's last evidence. */
  predicate Stale(c: Core, e: Evidence) {
    var last := TrackerAt(c, EvidenceKey(e)).lastEvidenceAt;
    last != ZERO_TIME && e.at < last
  }

  /** A primary interface that failed by reachability does not recover on an interface-only message. */
  predicate Gated(cfg: Config, c: Core, e: Evidence) {
    e.online && e.iface == cfg.iface && TrackerAt(c, EvidenceKey(e)).reachabilityDown && !e.reachability
  }

  function ArmTracker(c: Core, e: Evidence): Core {
    var t := TrackerAt(c, EvidenceKey(e));
    var t' := t.(phase := if t.phase == PhaseNone then PhaseHealthy else t.phase, lastEvidenceAt := e.at);
    c.(trackers := c.trackers[EvidenceKey(e) := t'])
  }

  predicate Starts(t: Tracker, o: Observation) {
    !o.evidence.online && (t.phase == PhaseNone || t.phase == PhaseHealthy)
  }

  predicate Cancels(t: Tracker, o: Observation) {
    o.evidence.online && t.phase == PhasePendingFailure
  }

  predicate Busy(t: Tracker) {
    t.phase != PhaseNone && t.phase != PhaseHealthy
  }

  /** The tracker after accepted evidence. */
  function AcceptedTracker(t: Tracker, o: Observation): Tracker {
    var e := o.evidence;
    var seen := t.(lastEvidenceAt := e.at);
    if !e.online then
      var down := seen.(reachabilityDown := t.reachabilityDown || e.reachability);
      match t.phase
      case PhaseNone | PhaseHealthy => NewTracker(o)
      case PhasePendingFailure => down.(notify := t.notify || o.notifyEligible)
      case PhasePendingRecovery => down.(phase := PhaseActive, recoverySince := ZERO_TIME)
      case PhaseActive => down
    else
      match t.phase
      case PhaseNone | PhasePendingFailure => HealthyTracker(e.at)
      case PhaseActive => seen.(phase := PhasePendingRecovery, recoverySince := e.at)
      case PhaseHealthy | PhasePendingRecovery => seen
  }

  /** The tracker's own incident after accepted evidence that neither starts nor cancels it. */
  function AcceptedIncident(t: Tracker, i: Incident, o: Observation): Incident {
    var noted := NoteEvidence(i, o);
    if !o.evidence.online then
      match t.phase
      case PhasePendingFailure => noted.(notify := t.notify || o.notifyEligible)
      case PhasePendingRecovery => noted.(state := StateActive, recoveryFirstAt := None)
      case _ => noted
    else if t.phase == PhaseActive then
      noted.(state := StatePendingRecovery, recoveryFirstAt := Some(o.evidence.at))
    else
      noted
  }

  function AcceptedIncidents(cfg: Config, c: Core, o: Observation): map<IncidentId, Incident> {
    var t := TrackerAt(c, EvidenceKey(o.evidence));
    if Starts(t, o) then c.incidents[NewIncidentId(o.evidence) := NewIncident(cfg, o)]
    else if Cancels(t, o) then
      if t.incidentId.Some? then c.incidents - {t.incidentId.value} else c.incidents
    else if Busy(t) && OwnsIncident(c, t) then
      var i := c.incidents[t.incidentId.value];
      c.incidents[i.id := AcceptedIncident(t, i, o)]
    else c.incidents
  }

  /** Accepted evidence, on a state whose due timers have fired. */
  function Accept(cfg: Config, c: Core, o: Observation): Core {
    var k := EvidenceKey(o.evidence);
    Core(c.trackers[k := AcceptedTracker(TrackerAt(c, k), o)], AcceptedIncidents(cfg, c, o))
  }

  /** Evidence on a state whose timers due by the evidence have fired. */
  function AcceptUnlessGated(cfg: Config, c: Core, o: Observation): Core {
    if Gated(cfg, c, o.evidence) then c else Accept(cfg, c, o)
  }

  function ObserveCore(cfg: Config, c: Core, o: Observation): Core {
    if Stale(c, o.evidence) then c
    else if o.evidence.observeOnly then ArmTracker(c, o.evidence)
    else AcceptUnlessGated(cfg, Settle(c, o.evidence.at), o)
  }

  ghost function Observe(cfg: Config, s: State, o: Observation): State {
    if Stale(s.core, o.evidence) || o.evidence.observeOnly then s.(core := ObserveCore(cfg, s.core, o))
    else Settled(cfg.iface, s, o.evidence.at).(core := ObserveCore(cfg, s.core, o))
  }

  // ---------- evidence keeps who owns what, however late it comes ----------

  /** The incident the evidence is about. */
  function SubjectOf(c: Core, e: Evidence): IncidentId {
    var t := TrackerAt(c, EvidenceKey(e));
    if t.incidentId.Some? then t.incidentId.value else NewIncidentId(e)
  }

  /** What accepted evidence changes: one tracker, and the incident it owns afterwards or before. */
  ghost predicate Touches(c: Core, c': Core, k: Key, id: IncidentId) {
    && k in c'.trackers && KeyOf(id) == k
    && (forall k' :: k' != k ==> (k' in c.trackers <==> k' in c'.trackers))
    && (forall k' :: k' in c.trackers && k' != k ==> c'.trackers[k'] == c.trackers[k'])
    && (forall j :: j != id ==> (j in c.incidents <==> j in c'.incidents))
    && (forall j :: j in c.incidents && j != id ==> c'.incidents[j] == c.incidents[j])
  }

  /** A change of one tracker and one incident that keeps who owns what. */
  ghost predicate OwnershipStep(c: Core, c': Core, k: Key, id: IncidentId) {
    && Touches(c, c', k, id)
    && TrackerOk(c', k)
    && (id in c'.incidents ==>
          IncidentShaped(id, c'.incidents[id]) && (c'.incidents[id].resolvedAt.None? ==> OwnedBy(c', id, k)))
    && (k in c.trackers && c.trackers[k].incidentId.Some? ==> c.trackers[k].incidentId.value == id)
  }

  lemma OwnershipStepKeepsShape(c: Core, c': Core, k: Key, id: IncidentId)
    requires Shaped(c) && OwnershipStep(c, c', k, id)
    ensures Shaped(c')
  {
    forall k' | k' in c'.trackers ensures TrackerOk(c', k') {
      if k' != k { assert TrackerOk(c, k'); }
    }
    forall j | j in c'.incidents ensures IncidentShaped(j, c'.incidents[j]) {
      if j != id { assert IncidentShaped(j, c.incidents[j]); }
    }
    forall j | j in c'.incidents && c'.incidents[j].resolvedAt.None? ensures OwnedBy(c', j, KeyOf(j)) {
      if j != id { assert OwnedBy(c, j, KeyOf(j)); }
    }
  }

  lemma ArmKeepsShape(c: Core, e: Evidence)
    requires Shaped(c)
    ensures Shaped(ArmTracker(c, e))
  {
    var c' := ArmTracker(c, e);
    forall k | k in c'.trackers ensures TrackerOk(c', k) {
      if k in c.trackers { assert TrackerOk(c, k); }
    }
    forall id | id in c'.incidents && c'.incidents[id].resolvedAt.None? ensures OwnedBy(c', id, KeyOf(id)) {
      assert OwnedBy(c, id, KeyOf(id));
    }
  }

  /** A busy tracker and its incident stay in step. */
  lemma AcceptedStaysInStep(t: Tracker, i: Incident, o: Observation)
    requires InStep(t, i) && IncidentShaped(i.id, i) && Busy(t) && !Cancels(t, o)
    ensures InStep(AcceptedTracker(t, o), AcceptedIncident(t, i, o))
    ensures IncidentShaped(i.id, AcceptedIncident(t, i, o))
    ensures Busy(AcceptedTracker(t, o))
  {
  }

  lemma BusyKeepsOwnership(cfg: Config, c: Core, o: Observation)
    requires Shaped(c)
    requires var t := TrackerAt(c, EvidenceKey(o.evidence)); Busy(t) && !Cancels(t, o)
    ensures OwnershipStep(c, Accept(cfg, c, o), EvidenceKey(o.evidence), SubjectOf(c, o.evidence))
  {
    var k := EvidenceKey(o.evidence);
    var t := TrackerAt(c, k);
    assert k in c.trackers && TrackerOk(c, k);
    var id := t.incidentId.value;
    assert IncidentShaped(id, c.incidents[id]);
    AcceptedStaysInStep(t, c.incidents[id], o);
    var t', i' := AcceptedTracker(t, o), AcceptedIncident(t, c.incidents[id], o);
    assert Accept(cfg, c, o) == Core(c.trackers[k := t'], c.incidents[id := i']);
  }

  lemma IdleKeepsOwnership(c: Core, k: Key, id: IncidentId, at: Time)
    requires Shaped(c) && KeyOf(id) == k && (k in c.trackers ==> Idle(c.trackers[k]))
    ensures OwnershipStep(c, c.(trackers := c.trackers[k := HealthyTracker(at)]), k, id)
  {
    if id in c.incidents {
      assert IncidentShaped(id, c.incidents[id]);
      assert c.incidents[id].resolvedAt.None? ==> OwnedBy(c, id, KeyOf(id));
    }
  }

  /** Accepted evidence keeps who owns what. */
  lemma AcceptKeepsShape(cfg: Config, c: Core, o: Observation)
    requires ConfigOk(cfg) && Shaped(c)
    ensures Shaped(Accept(cfg, c, o))
  {
    var k, id, c' := EvidenceKey(o.evidence), SubjectOf(c, o.evidence), Accept(cfg, c, o);
    var t := TrackerAt(c, k);
    if k in c.trackers { assert TrackerOk(c, k); }
    if Starts(t, o) {
      assert c' == Core(c.trackers[k := NewTracker(o)], c.incidents[id := NewIncident(cfg, o)]);
    } else if Cancels(t, o) {
      assert c' == Core(c.trackers[k := HealthyTracker(o.evidence.at)], c.incidents - {id});
    } else if Busy(t) {
      BusyKeepsOwnership(cfg, c, o);
    } else {
      assert AcceptedTracker(t, o) == HealthyTracker(o.evidence.at);
      IdleKeepsOwnership(c, k, id, o.evidence.at);
    }
    OwnershipStepKeepsShape(c, c', k, id);
  }

  // ---------- evidence keeps the invariant ----------

  lemma ArmKeepsInv(wan: string, c: Core, now: Time, e: Evidence)
    requires CoreInv(wan, c, now) && e.at <= now
    ensures CoreInv(wan, ArmTracker(c, e), now)
  {
    var c' := ArmTracker(c, e);
    ArmKeepsShape(c, e);
    forall id, k | id in c'.incidents && Waiting(c', k) ensures PastBefore(wan, c', c'.incidents[id], k) {
      assert Waiting(c, k) && PastBefore(wan, c, c.incidents[id], k);
    }
  }

  /** Same outage, same start, same notification choice. */
  predicate SameOutage(i: Incident, i': Incident) {
    && i'.activatedAt == i.activatedAt && i'.resolvedAt == i.resolvedAt && i'.startedAt == i.startedAt
    && i'.hostname == i.hostname && i'.iface == i.iface
    && (i.activatedAt.Some? ==> i'.notify == i.notify)
  }

  /** How the subject of the evidence may change. */
  ghost predicate SubjectStep(c: Core, c': Core, id: IncidentId, now: Time) {
    && (id in c.incidents && id in c'.incidents ==> SameOutage(c.incidents[id], c'.incidents[id]))
    && (id in c.incidents && id !in c'.incidents ==> c.incidents[id].activatedAt.None?)
    && (id !in c.incidents && id in c'.incidents ==>
          c'.incidents[id].activatedAt.None? && c'.incidents[id].resolvedAt.None? && c'.incidents[id].startedAt == now)
  }

  /** A summary of accepted evidence, enough for the invariant and for the jobs. */
  ghost predicate EvidenceStep(c: Core, c': Core, k: Key, id: IncidentId, now: Time) {
    && OwnershipStep(c, c', k, id)
    && SubjectStep(c, c', id, now)
    && c'.trackers[k].lastEvidenceAt == now
    && (id in c'.incidents ==> IncidentOk(id, c'.incidents[id], now))
    && (Waiting(c', k) && !(Waiting(c, k) && KeyDue(c, k) == KeyDue(c', k)) ==> now < KeyDue(c', k))
    && (id !in c.incidents && id in c'.incidents ==>
          forall j :: j in c.incidents && KeyOf(j) == k ==>
            c.incidents[j].resolvedAt.Some? && c.incidents[j].resolvedAt.value <= now)
  }

  /** When the tracker is idle, the incidents of its key are resolved and the new id is unused. */
  lemma NewIdIsNew(cfg: Config, c: Core, now: Time, o: Observation)
    requires CoreInv(cfg.iface, c, now) && now == o.evidence.at
    requires TrackerAt(c, EvidenceKey(o.evidence)).incidentId.None?
    ensures NewIncidentId(o.evidence) !in c.incidents
    ensures forall id :: id in c.incidents && KeyOf(id) == EvidenceKey(o.evidence) ==>
      c.incidents[id].resolvedAt.Some? && c.incidents[id].resolvedAt.value <= now
  {
    forall id | id in c.incidents && KeyOf(id) == EvidenceKey(o.evidence)
      ensures c.incidents[id].resolvedAt.Some? && c.incidents[id].resolvedAt.value <= now
      ensures id.started < now
    {
      assert IncidentOk(id, c.incidents[id], now);
      assert c.incidents[id].resolvedAt.None? ==> OwnedBy(c, id, KeyOf(id));
    }
  }

  /** Replacing the tracker and its incident together. */
  lemma UpdateIsEvidenceStep(c: Core, k: Key, t: Tracker, id: IncidentId, i: Incident, now: Time)
    requires k in c.trackers && c.trackers[k].incidentId == Some(id) && KeyOf(id) == k && id in c.incidents
    requires InStep(t, i) && IncidentOk(id, i, now) && SameOutage(c.incidents[id], i) && t.lastEvidenceAt == now
    requires Pending(t) && !(Pending(c.trackers[k]) && DueAt(c.trackers[k], c.incidents[id]) == DueAt(t, i)) ==>
      now < DueAt(t, i)
    ensures EvidenceStep(c, Core(c.trackers[k := t], c.incidents[id := i]), k, id, now)
  {
  }

  lemma StartIsEvidenceStep(cfg: Config, c: Core, now: Time, o: Observation)
    requires ConfigOk(cfg) && CoreInv(cfg.iface, c, now) && now == o.evidence.at
    requires TrackerAt(c, EvidenceKey(o.evidence)).incidentId.None?
    ensures
      var k, id := EvidenceKey(o.evidence), NewIncidentId(o.evidence);
      EvidenceStep(c, Core(c.trackers[k := NewTracker(o)], c.incidents[id := NewIncident(cfg, o)]), k, id, now)
  {
    NewIdIsNew(cfg, c, now, o);
  }

  lemma IdleIsEvidenceStep(cfg: Config, c: Core, now: Time, o: Observation)
    requires CoreInv(cfg.iface, c, now) && now == o.evidence.at
    requires TrackerAt(c, EvidenceKey(o.evidence)).incidentId.None?
    ensures
      var k, id := EvidenceKey(o.evidence), NewIncidentId(o.evidence);
      EvidenceStep(c, c.(trackers := c.trackers[k := HealthyTracker(now)]), k, id, now)
  {
    NewIdIsNew(cfg, c, now, o);
  }

  lemma CancelIsEvidenceStep(wan: string, c: Core, now: Time, k: Key, id: IncidentId)
    requires CoreInv(wan, c, now)
    requires k in c.trackers && c.trackers[k].incidentId == Some(id) && c.trackers[k].phase == PhasePendingFailure
    ensures EvidenceStep(c, Core(c.trackers[k := HealthyTracker(now)], c.incidents - {id}), k, id, now)
  {
    assert TrackerOk(c, k);
  }

  /** A busy tracker and its incident move together. */
  lemma AcceptedInStep(t: Tracker, i: Incident, o: Observation)
    requires InStep(t, i) && IncidentOk(i.id, i, o.evidence.at) && Busy(t) && !Cancels(t, o)
    ensures
      var t', i' := AcceptedTracker(t, o), AcceptedIncident(t, i, o);
      && InStep(t', i') && IncidentOk(i.id, i', o.evidence.at) && SameOutage(i, i')
      && t'.lastEvidenceAt == o.evidence.at
      && (Pending(t') && !(Pending(t) && DueAt(t, i) == DueAt(t', i')) ==> o.evidence.at < DueAt(t', i'))
  {
  }

  lemma BusyIsEvidenceStep(cfg: Config, c: Core, now: Time, o: Observation)
    requires CoreInv(cfg.iface, c, now) && now == o.evidence.at
    requires var t := TrackerAt(c, EvidenceKey(o.evidence)); Busy(t) && !Cancels(t, o)
    ensures EvidenceStep(c, Accept(cfg, c, o), EvidenceKey(o.evidence), SubjectOf(c, o.evidence), now)
  {
    var k := EvidenceKey(o.evidence);
    var t := TrackerAt(c, k);
    assert k in c.trackers && TrackerOk(c, k);
    var id := t.incidentId.value;
    var i := c.incidents[id];
    assert IncidentOk(id, i, now);
    AcceptedInStep(t, i, o);
    UpdateIsEvidenceStep(c, k, AcceptedTracker(t, o), id, AcceptedIncident(t, i, o), now);
  }

  lemma AcceptIsEvidenceStep(cfg: Config, c: Core, now: Time, o: Observation)
    requires ConfigOk(cfg) && CoreInv(cfg.iface, c, now) && now == o.evidence.at
    ensures EvidenceStep(c, Accept(cfg, c, o), EvidenceKey(o.evidence), SubjectOf(c, o.evidence), now)
  {
    var k := EvidenceKey(o.evidence);
    var t := TrackerAt(c, k);
    if k in c.trackers { assert TrackerOk(c, k); }
    if Starts(t, o) {
      StartIsEvidenceStep(cfg, c, now, o);
    } else if Cancels(t, o) {
      CancelIsEvidenceStep(cfg.iface, c, now, k, t.incidentId.value);
    } else if !Busy(t) {
      assert AcceptedTracker(t, o) == HealthyTracker(now);
      IdleIsEvidenceStep(cfg, c, now, o);
    } else {
      BusyIsEvidenceStep(cfg, c, now, o);
    }
  }

  lemma StepKeepsTimes(wan: string, c: Core, c': Core, k: Key, id: IncidentId, now: Time)
    requires CoreInv(wan, c, now) && EvidenceStep(c, c', k, id, now)
    ensures EvidenceSeen(c', now) && Shaped(c') && IncidentsOk(c', now)
  {
    OwnershipStepKeepsShape(c, c', k, id);
    forall j | j in c'.incidents ensures IncidentOk(j, c'.incidents[j], now) {
      if j != id { assert IncidentOk(j, c.incidents[j], now); }
    }
  }

  lemma StepKeepsSequence(wan: string, c: Core, c': Core, k: Key, id: IncidentId, now: Time)
    requires CoreInv(wan, c, now) && EvidenceStep(c, c', k, id, now)
    ensures Sequential(c')
  {
    forall i, j | i in c'.incidents && j in c'.incidents && i != j && KeyOf(i) == KeyOf(j)
      ensures OneAfterTheOther(c'.incidents[i], c'.incidents[j])
    {
      assert i in c.incidents && j in c.incidents ==> OneAfterTheOther(c.incidents[i], c.incidents[j]);
    }
  }

  lemma StepKeepsTimers(wan: string, c: Core, c': Core, k: Key, id: IncidentId, now: Time)
    requires CoreInv(wan, c, now) && EvidenceStep(c, c', k, id, now) && NothingDue(c, now)
    ensures TimersAhead(wan, c') && NothingDue(c', now)
  {
    StepKeepsTimes(wan, c, c', k, id, now);
    forall k' | Waiting(c', k') ensures now < KeyDue(c', k') {
      if k' != k {
        assert TrackerOk(c, k') && TrackerOk(c', k');
        assert Waiting(c, k') && !DueBy(c, k', now);
      } else {
        assert !DueBy(c, k, now);
      }
    }
    forall j, k' | j in c'.incidents && Waiting(c', k') ensures PastBefore(wan, c', c'.incidents[j], k') {
      assert IncidentOk(j, c'.incidents[j], now);
    }
    forall k' ensures !Orphaned(c', k') {
      assert k' in c'.trackers ==> TrackerOk(c', k');
    }
  }

  lemma StepKeepsCoverage(wan: string, c: Core, c': Core, k: Key, id: IncidentId, now: Time, host: string, at: Time,
                          p: IncidentId)
    requires EvidenceStep(c, c', k, id, now)
    ensures PrimaryDown(wan, c'.incidents, host, at, p) <==> PrimaryDown(wan, c.incidents, host, at, p)
  {
  }

  /** Evidence by itself wants no job and gives up none. */
  lemma StepKeepsWanted(wan: string, c: Core, c': Core, k: Key, id: IncidentId, now: Time, j: JobId)
    requires EvidenceStep(c, c', k, id, now)
    ensures Wanted(wan, c'.incidents, j) <==> Wanted(wan, c.incidents, j)
    ensures Wanted(wan, c.incidents, j) ==> WantedAt(wan, c'.incidents, j) == WantedAt(wan, c.incidents, j)
  {
    if j.Lifecycle? && j.incident in c.incidents && c.incidents[j.incident].activatedAt.Some? {
      var i := c.incidents[j.incident];
      forall p ensures PrimaryDown(wan, c'.incidents, i.hostname, i.activatedAt.value, p)
        <==> PrimaryDown(wan, c.incidents, i.hostname, i.activatedAt.value, p)
      {
        StepKeepsCoverage(wan, c, c', k, id, now, i.hostname, i.activatedAt.value, p);
      }
    }
  }

  /** Accepted evidence keeps the invariant, leaves nothing due, and wants the same jobs. */
  lemma AcceptKeepsInv(cfg: Config, c: Core, now: Time, o: Observation)
    requires ConfigOk(cfg) && CoreInv(cfg.iface, c, now) && now == o.evidence.at && NothingDue(c, now)
    ensures CoreInv(cfg.iface, Accept(cfg, c, o), now) && NothingDue(Accept(cfg, c, o), now)
    ensures forall j :: Wanted(cfg.iface, Accept(cfg, c, o).incidents, j) <==> Wanted(cfg.iface, c.incidents, j)
    ensures forall j :: Wanted(cfg.iface, c.incidents, j) ==>
      WantedAt(cfg.iface, Accept(cfg, c, o).incidents, j) == WantedAt(cfg.iface, c.incidents, j)
  {
    AcceptIsEvidenceStep(cfg, c, now, o);
    var k, id := EvidenceKey(o.evidence), SubjectOf(c, o.evidence);
    var c' := Accept(cfg, c, o);
    StepKeepsTimes(cfg.iface, c, c', k, id, now);
    StepKeepsSequence(cfg.iface, c, c', k, id, now);
    StepKeepsTimers(cfg.iface, c, c', k, id, now);
    forall j
      ensures Wanted(cfg.iface, c'.incidents, j) <==> Wanted(cfg.iface, c.incidents, j)
      ensures Wanted(cfg.iface, c.incidents, j) ==>
        WantedAt(cfg.iface, c'.incidents, j) == WantedAt(cfg.iface, c.incidents, j)
    {
      StepKeepsWanted(cfg.iface, c, c', k, id, now, j);
    }
  }

  /** Evidence no earlier than the clock keeps the invariant and the exactness of the jobs. */
  lemma ObserveKeepsInv(cfg: Config, s: State, clock: Time, o: Observation)
    requires ConfigOk(cfg) && CoreInv(cfg.iface, s.core, clock) && JobsExact(cfg.iface, s) && clock <= o.evidence.at
    ensures CoreInv(cfg.iface, Observe(cfg, s, o).core, o.evidence.at)
    ensures JobsExact(cfg.iface, Observe(cfg, s, o))
  {
    var e := o.evidence;
    CoreInvLater(cfg.iface, s.core, clock, e.at);
    if Stale(s.core, e) {
    } else if e.observeOnly {
      ArmKeepsInv(cfg.iface, s.core, e.at, e);
    } else {
      SettledProperties(cfg.iface, s, e.at);
      var s1 := Settled(cfg.iface, s, e.at);
      JobsGrowKeepsExact(cfg.iface, s, s1);
      if !Gated(cfg, s1.core, e) {
        AcceptKeepsInv(cfg, s1.core, e.at, o);
      }
    }
  }
}
