/** One firing of the timer loop creates exactly the jobs that the interval specification newly wants. */
module FiringJobs {
  import opened Wrappers
  import opened IncidentState
  import opened JobSpec
  import opened Invariant

  /** Being down at an instant before the firing's due time does not depend on the firing. */
  lemma PastCoverageUnchanged(wan: string, c: Core, now: Time, k: Key, host: string, q: IncidentId, p: IncidentId)
    requires CoreInv(wan, c, now) && LegalPick(wan, c, now, k)
    requires q in c.incidents && c.incidents[q].activatedAt.Some? && c.incidents[q].iface != wan
    ensures
      var at := c.incidents[q].activatedAt.value;
      PrimaryDown(wan, FireCore(c, k).incidents, host, at, p) <==> PrimaryDown(wan, c.incidents, host, at, p)
  {
    FireChanges(wan, c, now, k);
    assert PastBefore(wan, c, c.incidents[q], k);
    assert TrackerOk(c, k);
  }

  /** A pair that overlaps keeps overlapping, from the same instant. */
  lemma OverlapUnchanged(wan: string, c: Core, now: Time, k: Key, f: IncidentId, p: IncidentId)
    requires CoreInv(wan, c, now) && LegalPick(wan, c, now, k)
    requires f in c.incidents && p in c.incidents && EscalationWanted(wan, c.incidents[f], c.incidents[p])
    ensures
      var incidents := FireCore(c, k).incidents;
      && EscalationWanted(wan, incidents[f], incidents[p])
      && incidents[f].activatedAt == c.incidents[f].activatedAt
      && incidents[p].activatedAt == c.incidents[p].activatedAt
  {
    FireChanges(wan, c, now, k);
    assert TrackerOk(c, k);
    assert PastBefore(wan, c, c.incidents[f], k) && PastBefore(wan, c, c.incidents[p], k);
  }

  lemma FiringKeepsWanted(wan: string, c: Core, now: Time, k: Key, j: JobId)
    requires CoreInv(wan, c, now) && LegalPick(wan, c, now, k)
    requires Wanted(wan, c.incidents, j)
    ensures Wanted(wan, FireCore(c, k).incidents, j)
    ensures WantedAt(wan, FireCore(c, k).incidents, j) == WantedAt(wan, c.incidents, j)
  {
    FireChanges(wan, c, now, k);
    assert TrackerOk(c, k);
    match j
    case Lifecycle(id, kind) =>
      assert IncidentOk(id, c.incidents[id], now);
      if kind == FallbackOpened {
        forall p
          ensures !PrimaryDown(wan, FireCore(c, k).incidents, c.incidents[id].hostname,
                               c.incidents[id].activatedAt.value, p)
        {
          PastCoverageUnchanged(wan, c, now, k, c.incidents[id].hostname, id, p);
        }
      }
    case Escalation(f, p) =>
      OverlapUnchanged(wan, c, now, k, f, p);
  }

  /** The jobs newly wanted when incident i is activated. */
  predicate OpenFresh(wan: string, incidents: map<IncidentId, Incident>, i: Incident, choice: Option<IncidentId>,
                      j: JobId)
  {
    if i.iface != wan then
      i.notify && j == (if choice.Some? then Escalation(i.id, choice.value) else Lifecycle(i.id, FallbackOpened))
    else
      || (i.notify && j == Lifecycle(i.id, Opened))
      || (j.Escalation? && j.primary == i.id && j.fallback in incidents
          && Escalates(wan, incidents[j.fallback], i.hostname))
  }

  predicate CloseFresh(wan: string, i: Incident, j: JobId) {
    i.notify && j == Lifecycle(i.id, if i.iface == wan then Resolved else FallbackResolved)
  }

  /** The jobs that one firing makes newly wanted. */
  predicate Fresh(wan: string, c: Core, f: Firing, j: JobId)
    requires Waiting(c, f.key)
  {
    var t := c.trackers[f.key];
    var i := FiredIncident(t, OwnIncident(c, f.key));
    if t.phase == PhasePendingRecovery then CloseFresh(wan, i, j)
    else OpenFresh(wan, FireCore(c, f.key).incidents, i, f.choice, j)
  }

  lemma RecoveryFresh(wan: string, c: Core, now: Time, f: Firing, j: JobId)
    requires CoreInv(wan, c, now) && LegalFiring(wan, c, now, f)
    requires Waiting(c, f.key) && c.trackers[f.key].phase == PhasePendingRecovery
    ensures Fresh(wan, c, f, j) <==> Wanted(wan, FireCore(c, f.key).incidents, j) && !Wanted(wan, c.incidents, j)
  {
    FireChanges(wan, c, now, f.key);
    assert TrackerOk(c, f.key);
    var id := c.trackers[f.key].incidentId.value;
    assert IncidentOk(id, c.incidents[id], now);
    match j
    case Lifecycle(other, kind) =>
      if other in c.incidents && c.incidents[other].activatedAt.Some? && c.incidents[other].iface != wan {
        forall p
          ensures PrimaryDown(wan, FireCore(c, f.key).incidents, c.incidents[other].hostname,
                              c.incidents[other].activatedAt.value, p)
          <==> PrimaryDown(wan, c.incidents, c.incidents[other].hostname, c.incidents[other].activatedAt.value, p)
        {
          PastCoverageUnchanged(wan, c, now, f.key, c.incidents[other].hostname, other, p);
        }
      }
    case Escalation(g, p) =>
      assert FireCore(c, f.key).incidents.Keys == c.incidents.Keys;
  }

  lemma FallbackLifecycleFresh(wan: string, c: Core, now: Time, f: Firing, j: JobId)
    requires CoreInv(wan, c, now) && LegalFiring(wan, c, now, f) && j.Lifecycle?
    requires Waiting(c, f.key) && c.trackers[f.key].phase == PhasePendingFailure && OwnIncident(c, f.key).iface != wan
    ensures Fresh(wan, c, f, j) <==> Wanted(wan, FireCore(c, f.key).incidents, j) && !Wanted(wan, c.incidents, j)
  {
    FireChanges(wan, c, now, f.key);
    assert TrackerOk(c, f.key);
    var c', id, other := FireCore(c, f.key), c.trackers[f.key].incidentId.value, j.incident;
    assert IncidentOk(id, c.incidents[id], now);
    if other in c.incidents && other != id && c.incidents[other].activatedAt.Some? && c.incidents[other].iface != wan {
      forall p
        ensures PrimaryDown(wan, c'.incidents, c.incidents[other].hostname, c.incidents[other].activatedAt.value, p)
        <==> PrimaryDown(wan, c.incidents, c.incidents[other].hostname, c.incidents[other].activatedAt.value, p)
      {
        PastCoverageUnchanged(wan, c, now, f.key, c.incidents[other].hostname, other, p);
      }
    }
  }

  lemma FallbackEscalationFresh(wan: string, c: Core, now: Time, f: Firing, j: JobId)
    requires CoreInv(wan, c, now) && LegalFiring(wan, c, now, f) && j.Escalation?
    requires Waiting(c, f.key) && c.trackers[f.key].phase == PhasePendingFailure && OwnIncident(c, f.key).iface != wan
    ensures Fresh(wan, c, f, j) <==> Wanted(wan, FireCore(c, f.key).incidents, j) && !Wanted(wan, c.incidents, j)
  {
    FireChanges(wan, c, now, f.key);
    assert TrackerOk(c, f.key);
    var c', id, at := FireCore(c, f.key), c.trackers[f.key].incidentId.value, KeyDue(c, f.key);
    var g, p := j.fallback, j.primary;
    assert IncidentOk(id, c.incidents[id], now);
    if g == id && p in c.incidents {
      assert PastBefore(wan, c, c.incidents[p], f.key);
      assert EscalationWanted(wan, c'.incidents[g], c'.incidents[p]) <==>
        c'.incidents[g].notify && PrimaryDown(wan, c'.incidents, c.incidents[id].hostname, at, p);
      if c'.incidents[g].notify && f.choice.Some? && PrimaryDown(wan, c'.incidents, c.incidents[id].hostname, at, p) {
        FireKeepsInv(wan, c, now, f.key);
        OnePrimaryDown(wan, c', now, c.incidents[id].hostname, at, p, f.choice.value);
      }
    }
  }

  lemma FallbackFailureFresh(wan: string, c: Core, now: Time, f: Firing, j: JobId)
    requires CoreInv(wan, c, now) && LegalFiring(wan, c, now, f)
    requires Waiting(c, f.key) && c.trackers[f.key].phase == PhasePendingFailure && OwnIncident(c, f.key).iface != wan
    ensures Fresh(wan, c, f, j) <==> Wanted(wan, FireCore(c, f.key).incidents, j) && !Wanted(wan, c.incidents, j)
  {
    match j
    case Lifecycle(_, _) => FallbackLifecycleFresh(wan, c, now, f, j);
    case Escalation(_, _) => FallbackEscalationFresh(wan, c, now, f, j);
  }

  lemma PrimaryFailureFresh(wan: string, c: Core, now: Time, f: Firing, j: JobId)
    requires CoreInv(wan, c, now) && LegalFiring(wan, c, now, f)
    requires Waiting(c, f.key) && c.trackers[f.key].phase == PhasePendingFailure && OwnIncident(c, f.key).iface == wan
    ensures Fresh(wan, c, f, j) <==> Wanted(wan, FireCore(c, f.key).incidents, j) && !Wanted(wan, c.incidents, j)
  {
    FireChanges(wan, c, now, f.key);
    assert TrackerOk(c, f.key);
    var c' := FireCore(c, f.key);
    var id := c.trackers[f.key].incidentId.value;
    assert c'.incidents.Keys == c.incidents.Keys;
    assert IncidentOk(id, c.incidents[id], now);
    match j
    case Lifecycle(other, kind) =>
      if other in c.incidents && c.incidents[other].activatedAt.Some? && c.incidents[other].iface != wan {
        forall p
          ensures PrimaryDown(wan, c'.incidents, c.incidents[other].hostname, c.incidents[other].activatedAt.value, p)
          <==> PrimaryDown(wan, c.incidents, c.incidents[other].hostname, c.incidents[other].activatedAt.value, p)
        {
          PastCoverageUnchanged(wan, c, now, f.key, c.incidents[other].hostname, other, p);
        }
      }
    case Escalation(g, p) =>
      if g in c.incidents {
        assert PastBefore(wan, c, c.incidents[g], f.key);
        assert IncidentOk(g, c.incidents[g], now);
      }
  }

  lemma FreshIsNewlyWanted(wan: string, c: Core, now: Time, f: Firing, j: JobId)
    requires CoreInv(wan, c, now) && LegalFiring(wan, c, now, f)
    ensures Waiting(c, f.key)
    ensures Fresh(wan, c, f, j) <==> Wanted(wan, FireCore(c, f.key).incidents, j) && !Wanted(wan, c.incidents, j)
  {
    FireChanges(wan, c, now, f.key);
    if c.trackers[f.key].phase == PhasePendingRecovery {
      RecoveryFresh(wan, c, now, f, j);
    } else if OwnIncident(c, f.key).iface == wan {
      PrimaryFailureFresh(wan, c, now, f, j);
    } else {
      FallbackFailureFresh(wan, c, now, f, j);
    }
  }

  /** Newly wanted jobs are wanted from the instant the timer was due. */
  lemma FreshAtDue(wan: string, c: Core, now: Time, f: Firing, j: JobId)
    requires CoreInv(wan, c, now) && LegalFiring(wan, c, now, f) && Waiting(c, f.key) && Fresh(wan, c, f, j)
    requires Wanted(wan, FireCore(c, f.key).incidents, j)
    ensures WantedAt(wan, FireCore(c, f.key).incidents, j) == KeyDue(c, f.key)
  {
    FireChanges(wan, c, now, f.key);
    assert TrackerOk(c, f.key);
    if j.Escalation? {
      assert j.fallback in c.incidents ==> PastBefore(wan, c, c.incidents[j.fallback], f.key);
      assert j.primary in c.incidents ==> PastBefore(wan, c, c.incidents[j.primary], f.key);
    }
  }

  lemma EscalateFallbacksAdds(wan: string, incidents: map<IncidentId, Incident>, host: string, p: IncidentId, at: Time,
                              jobs: map<JobId, Job>, j: JobId)
    requires forall g :: g in incidents ==> incidents[g].id == g
    ensures
      var jobs' := EscalateFallbacks(wan, incidents, host, p, at, jobs);
      && (j in jobs' <==>
          j in jobs
            || (j.Escalation? && j.primary == p && j.fallback in incidents
                && Escalates(wan, incidents[j.fallback], host)))
      && (j in jobs' ==> jobs'[j] == if j in jobs then jobs[j] else NewJob(j, at))
  {
  }

  lemma OpenJobsAdds(wan: string, incidents: map<IncidentId, Incident>, i: Incident, at: Time,
                     choice: Option<IncidentId>, jobs: map<JobId, Job>, j: JobId)
    requires forall g :: g in incidents ==> incidents[g].id == g
    requires i.notify && i.iface != wan && choice.Some? ==> choice.value in incidents
    ensures
      var jobs' := OpenJobs(wan, incidents, i, at, choice, jobs);
      && (j in jobs' <==> j in jobs || OpenFresh(wan, incidents, i, choice, j))
      && (j in jobs' ==> jobs'[j] == if j in jobs then jobs[j] else NewJob(j, at))
  {
    if i.iface == wan {
      var own := if i.notify then Enqueue(jobs, Lifecycle(i.id, Opened), at) else jobs;
      EscalateFallbacksAdds(wan, incidents, i.hostname, i.id, at, own, j);
    }
  }

  lemma FireJobsUnfolds(wan: string, c: Core, f: Firing, jobs: map<JobId, Job>)
    requires Waiting(c, f.key)
    ensures
      var t := c.trackers[f.key];
      var i := FiredIncident(t, OwnIncident(c, f.key));
      FireJobs(wan, c, f, jobs) ==
        if t.phase == PhasePendingFailure then
          OpenJobs(wan, FireCore(c, f.key).incidents, i, KeyDue(c, f.key), f.choice, jobs)
        else CloseJobs(wan, i, KeyDue(c, f.key), jobs)
  {
  }

  /** The firing's code adds the fresh jobs and touches no other. */
  lemma FireJobsAddsFresh(wan: string, c: Core, now: Time, f: Firing, jobs: map<JobId, Job>, j: JobId)
    requires CoreInv(wan, c, now) && LegalFiring(wan, c, now, f)
    ensures Waiting(c, f.key)
    ensures j in FireJobs(wan, c, f, jobs) <==> j in jobs || Fresh(wan, c, f, j)
    ensures j in FireJobs(wan, c, f, jobs) ==>
      FireJobs(wan, c, f, jobs)[j] == if j in jobs then jobs[j] else NewJob(j, KeyDue(c, f.key))
  {
    FireChanges(wan, c, now, f.key);
    FireJobsUnfolds(wan, c, f, jobs);
    var incidents := FireCore(c, f.key).incidents;
    var t := c.trackers[f.key];
    var i := FiredIncident(t, OwnIncident(c, f.key));
    if t.phase == PhasePendingFailure {
      FireKeepsInv(wan, c, now, f.key);
      assert TrackerOk(c, f.key);
      OpenJobsAdds(wan, incidents, i, KeyDue(c, f.key), f.choice, jobs, j);
    }
  }

  /** A legal firing grows the jobs by exactly what the interval specification newly wants. */
  lemma FireGrowsJobs(wan: string, s: State, now: Time, f: Firing)
    requires CoreInv(wan, s.core, now) && LegalFiring(wan, s.core, now, f)
    ensures JobsGrow(wan, s.core.incidents, Fire(wan, s, f).core.incidents, s.jobs, Fire(wan, s, f).jobs)
  {
    var c := s.core;
    FireChanges(wan, c, now, f.key);
    forall j
      ensures j in FireJobs(wan, c, f, s.jobs) <==> j in s.jobs || Fresh(wan, c, f, j)
      ensures j in FireJobs(wan, c, f, s.jobs) ==>
        FireJobs(wan, c, f, s.jobs)[j] == if j in s.jobs then s.jobs[j] else NewJob(j, KeyDue(c, f.key))
    {
      FireJobsAddsFresh(wan, c, now, f, s.jobs, j);
    }
    forall j | Wanted(wan, c.incidents, j)
      ensures Wanted(wan, FireCore(c, f.key).incidents, j)
      ensures WantedAt(wan, FireCore(c, f.key).incidents, j) == WantedAt(wan, c.incidents, j)
    {
      FiringKeepsWanted(wan, c, now, f.key, j);
    }
    forall j
      ensures Fresh(wan, c, f, j) <==> Wanted(wan, FireCore(c, f.key).incidents, j) && !Wanted(wan, c.incidents, j)
      ensures Fresh(wan, c, f, j) ==> WantedAt(wan, FireCore(c, f.key).incidents, j) == KeyDue(c, f.key)
    {
      FreshIsNewlyWanted(wan, c, now, f, j);
      if Fresh(wan, c, f, j) { FreshAtDue(wan, c, now, f, j); }
    }
  }
}
