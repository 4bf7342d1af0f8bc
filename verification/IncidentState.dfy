/** The derived state of the incident engine: trackers, incidents and notification jobs.
    Every timer firing and the closed form of settling all timers up to an instant are defined here. */
module IncidentState {
  import opened Wrappers

  /** Instants and durations are integers (nanoseconds); ZERO_TIME is Go's zero time. */
  type Time = int
  const ZERO_TIME: Time := 0

  /** Trackers are kept per host and interface. */
  datatype Key = Key(host: string, iface: string)

  /** incidentID hashes these four parts; the hash is taken to be injective. */
  datatype IncidentId = IncidentId(host: string, iface: string, started: Time, messageId: string)

  datatype Phase = PhaseNone | PhaseHealthy | PhasePendingFailure | PhaseActive | PhasePendingRecovery

  datatype Stage = StatePendingFailure | StateActive | StatePendingRecovery | StateResolved

  datatype Tracker = Tracker(
    phase: Phase,
    pendingSince: Time,
    recoverySince: Time,
    lastEvidenceAt: Time,
    startMessageId: string,
    startSourceRef: string,
    incidentId: Option<IncidentId>,
    notify: bool,
    reachabilityDown: bool)

  datatype Incident = Incident(
    id: IncidentId,
    hostname: string,
    iface: string,
    state: Stage,
    startedAt: Time,
    activatedAt: Option<Time>,
    recoveryFirstAt: Option<Time>,
    resolvedAt: Option<Time>,
    lastEvidenceAt: Time,
    evidenceIds: seq<string>,
    evidenceRefs: seq<string>,
    downAfter: Time,
    recoveredAfter: Time,
    notify: bool)

  datatype Kind = Opened | Resolved | FallbackOpened | FallbackResolved | FallbackEscalated

  /** Job identifiers: "incident:kind", or "fallback:fallback_escalated:primary". */
  datatype JobId =
    | Lifecycle(incident: IncidentId, kind: Kind)
    | Escalation(fallback: IncidentId, primary: IncidentId)

  datatype Job = Job(
    id: JobId,
    incidentId: IncidentId,
    kind: Kind,
    createdAt: Time,
    attempts: nat,
    nextAt: Time,
    lastError: string,
    sentAt: Option<Time>,
    adapter: string,
    externalId: string,
    permanent: bool)

  /** What evidence alone determines. */
  datatype Core = Core(trackers: map<Key, Tracker>, incidents: map<IncidentId, Incident>)

  datatype State = State(core: Core, jobs: map<JobId, Job>)

  const NO_TRACKER := Tracker(PhaseNone, ZERO_TIME, ZERO_TIME, ZERO_TIME, "", "", None, false, false)
  const EMPTY_CORE := Core(map[], map[])
  const EMPTY_STATE := State(EMPTY_CORE, map[])

  function HealthyTracker(lastEvidenceAt: Time): Tracker {
    NO_TRACKER.(phase := PhaseHealthy, lastEvidenceAt := lastEvidenceAt)
  }

  /** Go's map lookup: a missing tracker reads as the zero value. */
  function TrackerAt(c: Core, k: Key): Tracker {
    if k in c.trackers then c.trackers[k] else NO_TRACKER
  }

  function JobKind(j: JobId): Kind {
    match j
    case Lifecycle(_, kind) => kind
    case Escalation(_, _) => FallbackEscalated
  }

  function JobIncident(j: JobId): IncidentId {
    match j
    case Lifecycle(i, _) => i
    case Escalation(f, _) => f
  }

  function NewJob(j: JobId, at: Time): Job {
    Job(j, JobIncident(j), JobKind(j), at, 0, at, "", None, "", "", false)
  }

  function Enqueue(jobs: map<JobId, Job>, j: JobId, at: Time): map<JobId, Job> {
    if j in jobs then jobs else jobs[j := NewJob(j, at)]
  }

  // ---------- timers ----------

  predicate Pending(t: Tracker) {
    t.phase == PhasePendingFailure || t.phase == PhasePendingRecovery
  }

  predicate OwnsIncident(c: Core, t: Tracker) {
    t.incidentId.Some? && t.incidentId.value in c.incidents
  }

  /** A pending tracker whose incident is missing. */
  predicate Orphaned(c: Core, k: Key) {
    k in c.trackers && Pending(c.trackers[k]) && !OwnsIncident(c, c.trackers[k])
  }

  function DueAt(t: Tracker, i: Incident): Time {
    if t.phase == PhasePendingFailure then t.pendingSince + i.downAfter else t.recoverySince + i.recoveredAfter
  }

  /** Recoveries fire first, then primary failures, then fallback failures. */
  function Priority(wan: string, t: Tracker, i: Incident): nat {
    if t.phase != PhasePendingFailure then 0 else if i.iface == wan then 1 else 2
  }

  predicate Waiting(c: Core, k: Key) {
    k in c.trackers && Pending(c.trackers[k]) && OwnsIncident(c, c.trackers[k])
  }

  function OwnIncident(c: Core, k: Key): Incident
    requires Waiting(c, k)
  {
    c.incidents[c.trackers[k].incidentId.value]
  }

  function KeyDue(c: Core, k: Key): Time
    requires Waiting(c, k)
  {
    DueAt(c.trackers[k], OwnIncident(c, k))
  }

  function KeyPriority(wan: string, c: Core, k: Key): nat
    requires Waiting(c, k)
  {
    Priority(wan, c.trackers[k], OwnIncident(c, k))
  }

  predicate DueBy(c: Core, k: Key, now: Time) {
    Waiting(c, k) && KeyDue(c, k) <= now
  }

  predicate NoLater(at: Time, priority: nat, at': Time, priority': nat) {
    at < at' || (at == at' && priority <= priority')
  }

  predicate KeyNoLater(wan: string, c: Core, k: Key, k': Key)
    requires Waiting(c, k) && Waiting(c, k')
  {
    NoLater(KeyDue(c, k), KeyPriority(wan, c, k), KeyDue(c, k'), KeyPriority(wan, c, k'))
  }

  /** The trackers nextDueTrackerLocked may return, whatever the order of the map iteration. */
  ghost predicate LegalPick(wan: string, c: Core, now: Time, k: Key) {
    if exists o :: Orphaned(c, o) then
      Orphaned(c, k)
    else
      && DueBy(c, k, now)
      && forall k' :: DueBy(c, k', now) ==> KeyNoLater(wan, c, k, k')
  }

  ghost predicate NothingDue(c: Core, now: Time) {
    forall k :: !Orphaned(c, k) && !DueBy(c, k, now)
  }

  function FiredTracker(t: Tracker): Tracker {
    if t.phase == PhasePendingFailure then t.(phase := PhaseActive) else HealthyTracker(t.lastEvidenceAt)
  }

  function FiredIncident(t: Tracker, i: Incident): Incident {
    if t.phase == PhasePendingFailure
    then i.(state := StateActive, activatedAt := Some(DueAt(t, i)), notify := t.notify)
    else i.(state := StateResolved, resolvedAt := Some(DueAt(t, i)))
  }

  function FireCore(c: Core, k: Key): Core
    requires k in c.trackers
  {
    var t := c.trackers[k];
    if !OwnsIncident(c, t) then
      c.(trackers := c.trackers - {k})
    else
      var i := c.incidents[t.incidentId.value];
      Core(c.trackers[k := FiredTracker(t)], c.incidents[i.id := FiredIncident(t, i)])
  }

  /** The incident is down (activated and not yet resolved) at the instant. */
  predicate Covers(i: Incident, at: Time) {
    i.activatedAt.Some? && i.activatedAt.value <= at && (i.resolvedAt.Some? ==> at < i.resolvedAt.value)
  }

  predicate PrimaryDown(wan: string, incidents: map<IncidentId, Incident>, host: string, at: Time, p: IncidentId) {
    p in incidents && incidents[p].hostname == host && incidents[p].iface == wan && Covers(incidents[p], at)
  }

  /** What primaryDownAtLocked may return: any covering primary incident, or none if there is none. */
  ghost predicate LegalChoice(wan: string, incidents: map<IncidentId, Incident>, host: string, at: Time,
                              choice: Option<IncidentId>)
  {
    match choice
    case Some(p) => PrimaryDown(wan, incidents, host, at, p)
    case None => forall p :: !PrimaryDown(wan, incidents, host, at, p)
  }

  predicate Escalates(wan: string, i: Incident, host: string) {
    i.hostname == host && i.iface != wan && i.notify && (i.state == StateActive || i.state == StatePendingRecovery)
  }

  function EscalateFallbacks(wan: string, incidents: map<IncidentId, Incident>, host: string, p: IncidentId, at: Time,
                             jobs: map<JobId, Job>): map<JobId, Job>
  {
    (map f | f in incidents
     && Escalates(wan, incidents[f], host) ::
       Escalation(incidents[f].id, p) := NewJob(Escalation(incidents[f].id, p), at)) + jobs
  }

  /** The opening job of incident i; choice is the primary found down. */
  function OwnOpenJobs(wan: string, incidents: map<IncidentId, Incident>, i: Incident, at: Time,
                       choice: Option<IncidentId>, jobs: map<JobId, Job>): map<JobId, Job>
  {
    if !i.notify then jobs
    else if i.iface == wan then Enqueue(jobs, Lifecycle(i.id, Opened), at)
    else match choice
      case Some(p) => if p in incidents then Enqueue(jobs, Escalation(i.id, incidents[p].id), at) else jobs
      case None => Enqueue(jobs, Lifecycle(i.id, FallbackOpened), at)
  }

  /** The jobs after incident i (already updated by the firing) left the failure debounce. */
  function OpenJobs(wan: string, incidents: map<IncidentId, Incident>, i: Incident, at: Time,
                    choice: Option<IncidentId>, jobs: map<JobId, Job>): map<JobId, Job>
  {
    var own := OwnOpenJobs(wan, incidents, i, at, choice, jobs);
    if i.iface == wan then EscalateFallbacks(wan, incidents, i.hostname, i.id, at, own) else own
  }

  function CloseJobs(wan: string, i: Incident, at: Time, jobs: map<JobId, Job>): map<JobId, Job> {
    if !i.notify then jobs
    else Enqueue(jobs, Lifecycle(i.id, if i.iface == wan then Resolved else FallbackResolved), at)
  }

  /** One firing of the timer loop: the tracker picked, and the primary incident found down. */
  datatype Firing = Firing(key: Key, choice: Option<IncidentId>)

  function FireJobs(wan: string, c: Core, f: Firing, jobs: map<JobId, Job>): map<JobId, Job>
    requires f.key in c.trackers
  {
    var t := c.trackers[f.key];
    if !OwnsIncident(c, t) then jobs
    else
      var c' := FireCore(c, f.key);
      var i := FiredIncident(t, c.incidents[t.incidentId.value]);
      var at := DueAt(t, i);
      if t.phase == PhasePendingFailure then
        OpenJobs(wan, c'.incidents, i, at, f.choice, jobs)
      else
        CloseJobs(wan, i, at, jobs)
  }

  function Fire(wan: string, s: State, f: Firing): State
    requires f.key in s.core.trackers
  {
    State(FireCore(s.core, f.key), FireJobs(wan, s.core, f, s.jobs))
  }

  /** Does this firing look for a primary incident that is down? */
  predicate ConsultsPrimary(wan: string, c: Core, k: Key) {
    && Waiting(c, k)
    && c.trackers[k].phase == PhasePendingFailure
    && c.trackers[k].notify
    && OwnIncident(c, k).iface != wan
  }

  ghost predicate LegalFiring(wan: string, c: Core, now: Time, f: Firing) {
    && LegalPick(wan, c, now, f.key)
    && (ConsultsPrimary(wan, c, f.key) ==>
      LegalChoice(wan, FireCore(c, f.key).incidents, OwnIncident(c, f.key).hostname, KeyDue(c, f.key), f.choice))
  }

  /** The states reached by firing a sequence of timers, each one legally. */
  ghost predicate Reaches(wan: string, s: State, now: Time, trace: seq<Firing>, s': State)
    decreases |trace|
  {
    if trace == [] then s' == s
    else LegalFiring(wan, s.core, now, trace[0]) && Reaches(wan, Fire(wan, s, trace[0]), now, trace[1..], s')
  }

  // ---------- the closed form of the timer loop ----------

  function SettledTracker(c: Core, k: Key, now: Time): Tracker
    requires k in c.trackers
  {
    if DueBy(c, k, now) then FiredTracker(c.trackers[k]) else c.trackers[k]
  }

  function SettledIncident(c: Core, id: IncidentId, now: Time): Incident
    requires id in c.incidents
  {
    var i := c.incidents[id];
    var k := Key(i.hostname, i.iface);
    if DueBy(c, k, now) && c.trackers[k].incidentId == Some(id) then FiredIncident(c.trackers[k], i) else i
  }

  /** Every timer due by the instant, fired at once. */
  function Settle(c: Core, now: Time): Core {
    Core(map k | k in c.trackers :: SettledTracker(c, k, now),
         map id | id in c.incidents :: SettledIncident(c, id, now))
  }
}
