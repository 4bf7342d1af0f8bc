/** What the notification jobs should be, stated on the incidents' outage intervals alone. */
module JobSpec {
  import opened IncidentState

  /** Two outages share an instant. */
  predicate Overlap(f: Incident, p: Incident) {
    && f.activatedAt.Some? && p.activatedAt.Some?
    && (f.resolvedAt.Some? ==> p.activatedAt.value < f.resolvedAt.value)
    && (p.resolvedAt.Some? ==> f.activatedAt.value < p.resolvedAt.value)
  }

  predicate EscalationWanted(wan: string, f: Incident, p: Incident) {
    f.hostname == p.hostname && f.iface != wan && p.iface == wan && f.notify && Overlap(f, p)
  }

  function Later(a: Time, b: Time): Time { if a < b then b else a }

  ghost predicate Wanted(wan: string, incidents: map<IncidentId, Incident>, j: JobId) {
    match j
    case Lifecycle(id, kind) =>
      && id in incidents
      && incidents[id].notify
      && incidents[id].activatedAt.Some?
      && (match kind
          case Opened => incidents[id].iface == wan
          case Resolved => incidents[id].iface == wan && incidents[id].resolvedAt.Some?
          case FallbackOpened => incidents[id].iface != wan
            && forall p :: !PrimaryDown(wan, incidents, incidents[id].hostname, incidents[id].activatedAt.value, p)
          case FallbackResolved => incidents[id].iface != wan && incidents[id].resolvedAt.Some?
          case FallbackEscalated => false)
    case Escalation(f, p) =>
      f in incidents && p in incidents && EscalationWanted(wan, incidents[f], incidents[p])
  }

  /** When a wanted job is created. */
  ghost function WantedAt(wan: string, incidents: map<IncidentId, Incident>, j: JobId): Time
    requires Wanted(wan, incidents, j)
  {
    match j
    case Lifecycle(id, kind) =>
      if kind == Resolved || kind == FallbackResolved then
        incidents[id].resolvedAt.value
      else
        incidents[id].activatedAt.value
    case Escalation(f, p) => Later(incidents[f].activatedAt.value, incidents[p].activatedAt.value)
  }

  /** The job describes what its identifier says. */
  predicate JobShape(j: JobId, job: Job) {
    job.id == j && job.incidentId == JobIncident(j) && job.kind == JobKind(j)
  }

  /** The jobs are exactly the wanted ones, each with the wanted creation time. */
  ghost predicate JobsExact(wan: string, s: State) {
    && (forall j :: j in s.jobs <==> Wanted(wan, s.core.incidents, j))
    && (forall j :: j in s.jobs ==> JobShape(j, s.jobs[j]) && s.jobs[j].createdAt == WantedAt(wan, s.core.incidents, j))
  }

  /** jobs' is jobs plus exactly the jobs wanted under incidents' but not under incidents, each one fresh. */
  ghost predicate JobsGrow(wan: string, incidents: map<IncidentId, Incident>, incidents': map<IncidentId, Incident>,
                           jobs: map<JobId, Job>, jobs': map<JobId, Job>) {
    && (forall j :: Wanted(wan, incidents, j) ==>
          Wanted(wan, incidents', j) && WantedAt(wan, incidents', j) == WantedAt(wan, incidents, j))
    && (forall j :: j in jobs' <==> j in jobs || (Wanted(wan, incidents', j) && !Wanted(wan, incidents, j)))
    && (forall j :: j in jobs ==> j in jobs' && jobs'[j] == jobs[j])
    && (forall j :: j in jobs' && j !in jobs ==>
        Wanted(wan, incidents', j) && jobs'[j] == NewJob(j, WantedAt(wan, incidents', j)))
  }

  lemma JobsGrowTransitive(wan: string, incs0: map<IncidentId, Incident>, incs1: map<IncidentId, Incident>,
                           incs2: map<IncidentId, Incident>, jobs0: map<JobId, Job>, jobs1: map<JobId, Job>,
                           jobs2: map<JobId, Job>)
    requires JobsGrow(wan, incs0, incs1, jobs0, jobs1)
    requires JobsGrow(wan, incs1, incs2, jobs1, jobs2)
    ensures JobsGrow(wan, incs0, incs2, jobs0, jobs2)
  {
  }

  lemma JobsGrowKeepsExact(wan: string, s: State, s': State)
    requires JobsExact(wan, s)
    requires JobsGrow(wan, s.core.incidents, s'.core.incidents, s.jobs, s'.jobs)
    ensures JobsExact(wan, s')
  {
  }

  lemma GrownFromNothing(wan: string, s: State)
    requires JobsGrow(wan, map[], s.core.incidents, map[], s.jobs)
    ensures JobsExact(wan, s)
  {
    forall j ensures !Wanted(wan, map[], j) {}
  }

  /** The growth relation determines the new jobs. */
  lemma JobsGrowUnique(wan: string, incs: map<IncidentId, Incident>, incs': map<IncidentId, Incident>,
                       jobs: map<JobId, Job>, a: map<JobId, Job>, b: map<JobId, Job>)
    requires JobsGrow(wan, incs, incs', jobs, a)
    requires JobsGrow(wan, incs, incs', jobs, b)
    ensures a == b
  {
  }
}
