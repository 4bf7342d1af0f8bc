/** The incident service: the maps it updates in place, and the loops that do it.
    Each method is proved against the functions of the state modules. */
module IncidentService {
  import opened Wrappers
  import opened IncidentState
  import opened Invariant
  import opened FiringJobs
  import opened TimerLoop
  import opened Observing
  import opened Runs
  import opened Rebuilding
  import opened AnyState
  import opened AppendReader

  datatype Snapshot = Snapshot(state: State, cursors: map<string, Cursor>, bootstrapped: bool, lastCheckpointAt: Time)

  lemma {:induction false} ReachesSnoc(wan: string, s: State, now: Time, trace: seq<Firing>, s1: State, f: Firing)
    requires Reaches(wan, s, now, trace, s1) && LegalFiring(wan, s1.core, now, f)
    ensures f.key in s1.core.trackers
    ensures Reaches(wan, s, now, trace + [f], Fire(wan, s1, f))
    decreases |trace|
  {
    if trace == [] {
      assert [f][1..] == [];
      assert Reaches(wan, Fire(wan, s1, f), now, [], Fire(wan, s1, f));
    } else {
      ReachesSnoc(wan, Fire(wan, s, trace[0]), now, trace[1..], s1, f);
      assert (trace + [f])[1..] == trace[1..] + [f];
    }
  }

  /** Every job is filed under its own id. */
  ghost predicate JobsKeyed(jobs: map<JobId, Job>) {
    forall j :: j in jobs ==> jobs[j].id == j
  }

  lemma OpenKeepsKeyed(wan: string, incidents: map<IncidentId, Incident>, i: Incident, at: Time,
                       choice: Option<IncidentId>, jobs: map<JobId, Job>)
    requires JobsKeyed(jobs)
    ensures JobsKeyed(OpenJobs(wan, incidents, i, at, choice, jobs))
  {
  }

  lemma FireKeepsKeyed(wan: string, s: State, f: Firing)
    requires f.key in s.core.trackers && JobsKeyed(s.jobs)
    ensures JobsKeyed(Fire(wan, s, f).jobs)
  {
    var t := s.core.trackers[f.key];
    if OwnsIncident(s.core, t) {
      var i := FiredIncident(t, s.core.incidents[t.incidentId.value]);
      OpenKeepsKeyed(wan, FireCore(s.core, f.key).incidents, i, DueAt(t, i), f.choice, s.jobs);
      assert JobsKeyed(CloseJobs(wan, i, DueAt(t, i), s.jobs));
    }
  }

  lemma {:induction false} ReachesKeyed(wan: string, s: State, now: Time, trace: seq<Firing>, s': State)
    requires Reaches(wan, s, now, trace, s') && JobsKeyed(s.jobs)
    ensures JobsKeyed(s'.jobs)
    decreases |trace|
  {
    if trace != [] {
      FireKeepsKeyed(wan, s, trace[0]);
      ReachesKeyed(wan, Fire(wan, s, trace[0]), now, trace[1..], s');
    }
  }

  /** Incident f is to be escalated because of primary p, under job j. */
  predicate EscalationOf(wan: string, incidents: map<IncidentId, Incident>, host: string, p: IncidentId, j: JobId,
                         f: IncidentId)
  {
    f in incidents && Escalates(wan, incidents[f], host) && j == Escalation(incidents[f].id, p)
  }

  /** jobs' is jobs with the escalation of every fallback outside rest. */
  ghost predicate EscalatedBut(wan: string, incidents: map<IncidentId, Incident>, host: string, p: IncidentId, at: Time,
                               rest: set<IncidentId>, jobs: map<JobId, Job>, jobs': map<JobId, Job>) {
    && (forall j :: j in jobs' <==> j in jobs || exists f :: f !in rest && EscalationOf(wan, incidents, host, p, j, f))
    && (forall j :: j in jobs' ==> jobs'[j] == if j in jobs then jobs[j] else NewJob(j, at))
  }

  lemma EscalatedOneMore(wan: string, incidents: map<IncidentId, Incident>, host: string, p: IncidentId, at: Time,
                         rest: set<IncidentId>, id: IncidentId, jobs: map<JobId, Job>, before: map<JobId, Job>,
                         after: map<JobId, Job>)
    requires EscalatedBut(wan, incidents, host, p, at, rest, jobs, before) && id in rest && id in incidents
    requires after ==
      if Escalates(wan, incidents[id], host) then Enqueue(before, Escalation(incidents[id].id, p), at) else before
    ensures EscalatedBut(wan, incidents, host, p, at, rest - {id}, jobs, after)
  {
    forall j
      ensures j in after <==> j in jobs || exists f :: f !in rest - {id} && EscalationOf(wan, incidents, host, p, j, f)
    {
      if j in before && j !in jobs {
        var f :| f !in rest && EscalationOf(wan, incidents, host, p, j, f);
        assert f !in rest - {id};
      }
      if j in after && j !in before {
        assert id !in rest - {id} && EscalationOf(wan, incidents, host, p, j, id);
      }
      if f :| f !in rest - {id} && EscalationOf(wan, incidents, host, p, j, f) {
        assert f == id || f !in rest;
      }
    }
  }

  lemma EscalatedAll(wan: string, incidents: map<IncidentId, Incident>, host: string, p: IncidentId, at: Time,
                     jobs: map<JobId, Job>, jobs': map<JobId, Job>)
    requires EscalatedBut(wan, incidents, host, p, at, {}, jobs, jobs')
    ensures jobs' == EscalateFallbacks(wan, incidents, host, p, at, jobs)
  {
    var a := EscalateFallbacks(wan, incidents, host, p, at, jobs);
    forall j ensures j in a <==> j in jobs' {
      if j in jobs' && j !in jobs {
        var f :| f !in {} && EscalationOf(wan, incidents, host, p, j, f);
      }
      if j in a && j !in jobs {
        var f :| f in incidents && Escalates(wan, incidents[f], host) && Escalation(incidents[f].id, p) == j;
        assert EscalationOf(wan, incidents, host, p, j, f);
      }
    }
  }

  /** The job is a later escalation for one of the primaries in rest. */
  predicate StillToCome(wan: string, i: Incident, choice: Option<IncidentId>, rest: set<IncidentId>, j: JobId) {
    j.Escalation? && j != OpeningJob(wan, i, choice) && j.primary in rest
  }

  /** The back-fill of incident i, with its escalations still to come for the primaries in rest. */
  ghost predicate BackfilledBut(wan: string, incidents: map<IncidentId, Incident>, i: Incident,
                                choice: Option<IncidentId>, rest: set<IncidentId>, jobs: map<JobId, Job>,
                                jobs': map<JobId, Job>)
  {
    && (forall j :: j in jobs' ==> j in jobs || Backfills(wan, incidents, i, choice, j))
    && (forall j :: j in jobs ==> j in jobs' && jobs'[j] == jobs[j])
    && (forall j :: Backfills(wan, incidents, i, choice, j) && !StillToCome(wan, i, choice, rest, j) ==> j in jobs')
    && (forall j :: j in jobs' && j !in jobs ==> jobs'[j] == NewJob(j, BackfillAt(wan, incidents, i, choice, j)))
  }

  lemma BackfillStarts(wan: string, incidents: map<IncidentId, Incident>, i: Incident, choice: Option<IncidentId>,
                       jobs: map<JobId, Job>, jobs': map<JobId, Job>)
    requires i.notify && i.activatedAt.Some?
    requires jobs' ==
      var first := Enqueue(jobs, OpeningJob(wan, i, choice), i.activatedAt.value);
      if i.state == StateResolved && i.resolvedAt.Some? then
        Enqueue(first, ClosingJob(wan, i), i.resolvedAt.value)
      else
        first
    ensures BackfilledBut(wan, incidents, i, choice, incidents.Keys, jobs, jobs')
    ensures i.iface == wan ==> BackfilledBut(wan, incidents, i, choice, {}, jobs, jobs')
  {
  }

  lemma BackfillContinues(wan: string, incidents: map<IncidentId, Incident>, i: Incident, choice: Option<IncidentId>,
                          rest: set<IncidentId>, p: IncidentId, jobs: map<JobId, Job>, before: map<JobId, Job>,
                          after: map<JobId, Job>)
    requires i.notify && i.activatedAt.Some? && i.iface != wan && p in rest && p in incidents
    requires BackfilledBut(wan, incidents, i, choice, rest, jobs, before)
    requires after ==
      if BackfillEscalates(wan, i, incidents[p]) then
        Enqueue(before, Escalation(i.id, p), incidents[p].activatedAt.value)
      else
        before
    requires OpeningJob(wan, i, choice) in before
    ensures BackfilledBut(wan, incidents, i, choice, rest - {p}, jobs, after)
    ensures OpeningJob(wan, i, choice) in after
  {
  }

  /** The incidents after the merge of those outside rest. */
  ghost predicate MergedBut(incidents: map<IncidentId, Incident>, previous: map<IncidentId, Incident>,
                            rest: set<IncidentId>, merged: map<IncidentId, Incident>)
  {
    && merged.Keys == incidents.Keys
    && (forall id :: id in merged ==>
          merged[id] == if id in rest || id !in previous then incidents[id]
                        else incidents[id].(notify := incidents[id].notify || previous[id].notify))
  }

  lemma MergedOneMore(incidents: map<IncidentId, Incident>, previous: map<IncidentId, Incident>, rest: set<IncidentId>,
                      merged: map<IncidentId, Incident>, id: IncidentId, merged': map<IncidentId, Incident>)
    requires MergedBut(incidents, previous, rest, merged) && id in rest && id in incidents
    requires merged' ==
      if id in previous then merged[id := merged[id].(notify := merged[id].notify || previous[id].notify)] else merged
    ensures MergedBut(incidents, previous, rest - {id}, merged')
  {
  }

  lemma MergedAll(incidents: map<IncidentId, Incident>, previous: map<IncidentId, Incident>,
                  merged: map<IncidentId, Incident>)
    requires MergedBut(incidents, previous, {}, merged)
    ensures merged == MergeIncidents(incidents, previous)
  {
  }

  /** The pending-failure branch, put together, is one firing. */
  lemma OpeningFires(wan: string, s: State, key: Key, choice: Option<IncidentId>, s': State)
    requires Waiting(s.core, key) && s.core.trackers[key].phase == PhasePendingFailure
    requires
      var i := FiredIncident(s.core.trackers[key], OwnIncident(s.core, key));
      && s'.core == Core(s.core.trackers[key := FiredTracker(s.core.trackers[key])], s.core.incidents[i.id := i])
      && s'.jobs == OpenJobs(wan, s'.core.incidents, i, KeyDue(s.core, key), choice, s.jobs)
    ensures s' == Fire(wan, s, Firing(key, choice))
  {
    FireJobsUnfolds(wan, s.core, Firing(key, choice), s.jobs);
  }

  class Service {
    const cfg: Config
    var trackers: map<Key, Tracker>
    var incidents: map<IncidentId, Incident>
    var jobs: map<JobId, Job>
    var cursors: map<string, Cursor>
    var bootstrapped: bool
    var lastCheckpointAt: Time
    /** What the persistence would load: the last snapshot saved successfully. */
    var saved: Option<Snapshot>

    constructor (cfg: Config)
      requires ConfigOk(cfg)
      ensures this.cfg == cfg
      ensures Derived() == EMPTY_STATE && cursors == map[] && !bootstrapped && saved.None?
    {
      this.cfg := cfg;
      trackers, incidents, jobs, cursors := map[], map[], map[], map[];
      bootstrapped, lastCheckpointAt, saved := false, ZERO_TIME, None;
    }

    function KnownCore(): Core
      reads this
    {
      Core(trackers, incidents)
    }

    function Derived(): State
      reads this
    {
      State(KnownCore(), jobs)
    }

    function Current(): Snapshot
      reads this
    {
      Snapshot(Derived(), cursors, bootstrapped, lastCheckpointAt)
    }

    // ---------- the timer loop ----------

    method NextDueTracker(now: Time) returns (key: Key, found: bool)
      ensures found <==> !NothingDue(KnownCore(), now)
      ensures found ==> LegalPick(cfg.iface, KnownCore(), now, key)
    {
      ghost var c := KnownCore();
      key, found := Key("", ""), false;
      var selectedAt, selectedPriority := ZERO_TIME, 0;
      var rest := trackers.Keys;
      while rest != {}
        invariant rest <= trackers.Keys
        invariant forall k :: k in trackers && k !in rest ==> !Orphaned(c, k)
        invariant found <==> exists k :: k !in rest && DueBy(c, k, now)
        invariant found ==> key !in rest && DueBy(c, key, now)
        invariant found ==> selectedAt == KeyDue(c, key) && selectedPriority == KeyPriority(cfg.iface, c, key)
        invariant found ==> forall k :: k !in rest && DueBy(c, k, now) ==> KeyNoLater(cfg.iface, c, key, k)
        decreases |rest|
      {
        var k :| k in rest;
        rest := rest - {k};
        var current := trackers[k];
        if Pending(current) {
          if current.incidentId.None? || current.incidentId.value !in incidents {
            assert Orphaned(c, k);
            return k, true;
          }
          var incident := incidents[current.incidentId.value];
          var dueAt :=
            if current.phase == PhasePendingFailure then current.pendingSince + incident.downAfter
            else current.recoverySince + incident.recoveredAfter;
          if dueAt <= now {
            assert DueBy(c, k, now);
            var priority := 0;
            if current.phase == PhasePendingFailure {
              priority := if incident.iface == cfg.iface then 1 else 2;
            }
            if !found || dueAt < selectedAt || (dueAt == selectedAt && priority < selectedPriority) {
              key, selectedAt, found, selectedPriority := k, dueAt, true, priority;
            }
          }
        }
      }
    }

    method PrimaryDownAt(hostname: string, at: Time) returns (primary: Option<IncidentId>)
      ensures LegalChoice(cfg.iface, incidents, hostname, at, primary)
    {
      var rest := incidents.Keys;
      while rest != {}
        invariant rest <= incidents.Keys
        invariant forall p :: p !in rest ==> !PrimaryDown(cfg.iface, incidents, hostname, at, p)
        decreases |rest|
      {
        var id :| id in rest;
        rest := rest - {id};
        var incident := incidents[id];
        if incident.hostname == hostname && incident.iface == cfg.iface && incident.activatedAt.Some?
          && incident.activatedAt.value <= at
        {
          if incident.resolvedAt.None? || at < incident.resolvedAt.value {
            return Some(id);
          }
        }
      }
      return None;
    }

    method EnqueueJob(j: JobId, at: Time)
      modifies this`jobs
      ensures jobs == Enqueue(old(jobs), j, at)
    {
      if j !in jobs {
        jobs := jobs[j := Job(j, JobIncident(j), JobKind(j), at, 0, at, "", None, "", "", false)];
      }
    }

    method EscalateAllFallbacks(hostname: string, primary: IncidentId, at: Time)
      modifies this`jobs
      ensures jobs == EscalateFallbacks(cfg.iface, incidents, hostname, primary, at, old(jobs))
    {
      var rest := incidents.Keys;
      while rest != {}
        invariant rest <= incidents.Keys
        invariant EscalatedBut(cfg.iface, incidents, hostname, primary, at, rest, old(jobs), jobs)
        decreases |rest|
      {
        var id :| id in rest;
        ghost var before, todo := jobs, rest;
        rest := rest - {id};
        var incident := incidents[id];
        if incident.hostname == hostname && incident.iface != cfg.iface && incident.notify {
          if incident.state == StateActive || incident.state == StatePendingRecovery {
            EnqueueJob(Escalation(incident.id, primary), at);
          }
        }
        EscalatedOneMore(cfg.iface, incidents, hostname, primary, at, todo, id, old(jobs), before, jobs);
      }
      EscalatedAll(cfg.iface, incidents, hostname, primary, at, old(jobs), jobs);
    }

    /** The opening job of an incident that was just activated: an escalation if a primary is down. */
    method EnqueueOpening(incident: Incident, activated: Time) returns (ghost choice: Option<IncidentId>)
      modifies this`jobs
      ensures jobs == OwnOpenJobs(cfg.iface, incidents, incident, activated, choice, old(jobs))
      ensures incident.notify && incident.iface != cfg.iface ==>
        LegalChoice(cfg.iface, incidents, incident.hostname, activated, choice)
    {
      choice := None;
      if incident.notify {
        if incident.iface == cfg.iface {
          EnqueueJob(Lifecycle(incident.id, Opened), activated);
        } else {
          var primary := PrimaryDownAt(incident.hostname, activated);
          choice := primary;
          if primary.Some? {
            EnqueueJob(Escalation(incident.id, incidents[primary.value].id), activated);
          } else {
            EnqueueJob(Lifecycle(incident.id, FallbackOpened), activated);
          }
        }
      }
    }

    /** The pending-failure branch of the timer loop. */
    method OpenIncident(key: Key) returns (ghost choice: Option<IncidentId>)
      requires Waiting(KnownCore(), key) && trackers[key].phase == PhasePendingFailure
      modifies this`trackers, this`incidents, this`jobs
      ensures Derived() == Fire(cfg.iface, old(Derived()), Firing(key, choice))
      ensures ConsultsPrimary(cfg.iface, old(KnownCore()), key) ==>
        LegalChoice(cfg.iface, incidents, old(OwnIncident(KnownCore(), key)).hostname, old(KeyDue(KnownCore(), key)),
                    choice)
    {
      ghost var s := Derived();
      var current := trackers[key];
      var incident := incidents[current.incidentId.value];
      var activated := current.pendingSince + incident.downAfter;
      incident := incident.(state := StateActive, activatedAt := Some(activated), notify := current.notify);
      incidents := incidents[incident.id := incident];
      trackers := trackers[key := current.(phase := PhaseActive)];
      choice := EnqueueOpening(incident, activated);
      if incident.iface == cfg.iface {
        EscalateAllFallbacks(incident.hostname, incident.id, activated);
      }
      OpeningFires(cfg.iface, s, key, choice, Derived());
    }

    /** The pending-recovery branch of the timer loop. */
    method CloseIncident(key: Key)
      requires Waiting(KnownCore(), key) && trackers[key].phase == PhasePendingRecovery
      modifies this`trackers, this`incidents, this`jobs
      ensures Derived() == Fire(cfg.iface, old(Derived()), Firing(key, None))
    {
      ghost var c := KnownCore();
      var current := trackers[key];
      var incident := incidents[current.incidentId.value];
      var resolved := current.recoverySince + incident.recoveredAfter;
      incident := incident.(state := StateResolved, resolvedAt := Some(resolved));
      incidents := incidents[incident.id := incident];
      if incident.notify {
        EnqueueJob(Lifecycle(incident.id, if incident.iface != cfg.iface then FallbackResolved else Resolved),
                   resolved);
      }
      trackers := trackers[key := HealthyTracker(current.lastEvidenceAt)];
      assert KnownCore() == FireCore(c, key);
    }

    /** Fires every due timer; ends with none due, whatever the state, after a legal run of firings. */
    method Advance(now: Time) returns (changed: bool, ghost trace: seq<Firing>)
      modifies this`trackers, this`incidents, this`jobs
      ensures Reaches(cfg.iface, old(Derived()), now, trace, Derived()) && NothingDue(KnownCore(), now)
      ensures changed <==> !NothingDue(old(KnownCore()), now)
      ensures !changed ==> Derived() == old(Derived())
      ensures CoreInv(cfg.iface, old(KnownCore()), now) ==> Derived() == Settled(cfg.iface, old(Derived()), now)
      ensures JobsKeyed(old(jobs)) ==> JobsKeyed(jobs)
    {
      changed, trace := false, [];
      ghost var start := Derived();
      var key, found := NextDueTracker(now);
      while found
        invariant Reaches(cfg.iface, start, now, trace, Derived())
        invariant changed <==> trace != []
        invariant found <==> !NothingDue(KnownCore(), now)
        invariant found ==> LegalPick(cfg.iface, KnownCore(), now, key)
        decreases |PendingKeys(KnownCore())|
      {
        ghost var before := Derived();
        ghost var f := Firing(key, None);
        FireShrinks(KnownCore(), key);
        var current := trackers[key];
        if current.incidentId.None? || current.incidentId.value !in incidents {
          trackers := trackers - {key};
        } else if current.phase == PhasePendingFailure {
          ghost var choice := OpenIncident(key);
          f := Firing(key, choice);
        } else {
          CloseIncident(key);
        }
        assert Derived() == Fire(cfg.iface, before, f);
        ReachesSnoc(cfg.iface, start, now, trace, before, f);
        trace := trace + [f];
        changed := true;
        key, found := NextDueTracker(now);
      }
      if JobsKeyed(start.jobs) {
        ReachesKeyed(cfg.iface, start, now, trace, Derived());
      }
      if CoreInv(cfg.iface, start.core, now) {
        RunsConverge(cfg.iface, start, now, trace, Derived());
      }
    }

    method Save(ok: bool) returns (success: bool)
      modifies this`saved
      ensures success == ok
      ensures saved == if ok then Some(Current()) else old(saved)
    {
      if ok { saved := Some(Current()); }
      return ok;
    }

    method Tick(now: Time, saveOk: bool) returns (success: bool)
      modifies this`trackers, this`incidents, this`jobs, this`saved
      ensures Advances(cfg.iface, old(Derived()), now, Derived())
      ensures CoreInv(cfg.iface, old(KnownCore()), now) ==> Derived() == Settled(cfg.iface, old(Derived()), now)
      ensures NothingDue(old(KnownCore()), now) ==> success && Current() == old(Current()) && saved == old(saved)
      ensures !NothingDue(old(KnownCore()), now) ==>
        success == saveOk && saved == if saveOk then Some(Current()) else old(saved)
      ensures JobsKeyed(old(jobs)) ==> JobsKeyed(jobs)
    {
      ghost var start := Derived();
      var changed, trace := Advance(now);
      assert Advances(cfg.iface, start, now, Derived()) by { assert Reaches(cfg.iface, start, now, trace, Derived()); }
      if !changed { return true; }
      success := Save(saveOk);
    }

    // ---------- evidence ----------

    function Lookup(key: Key): (t: Tracker)
      reads this
      ensures t == TrackerAt(KnownCore(), key)
    {
      if key in trackers then trackers[key] else NO_TRACKER
    }

    /** Adds evidence to the tracker's incident, if it exists, moving it to the given stage. */
    method TouchIncident(current: Tracker, o: Observation, state: Stage, recovery: Option<Time>, notify: bool)
      modifies this`incidents
      ensures incidents ==
        if OwnsIncident(old(KnownCore()), current) then
          var i := old(incidents)[current.incidentId.value];
          old(incidents)[i.id := NoteEvidence(i, o).(state := state, recoveryFirstAt := recovery, notify := notify)]
        else old(incidents)
    {
      if current.incidentId.Some? && current.incidentId.value in incidents {
        var incident := incidents[current.incidentId.value];
        incident :=
          incident.(state := state, recoveryFirstAt := recovery, notify := notify, lastEvidenceAt := o.evidence.at);
        incident := incident.(evidenceIds := AppendEvidence(incident.evidenceIds, o.evidence.messageId));
        incident := incident.(evidenceRefs := AppendEvidence(incident.evidenceRefs, o.sourceRef));
        incidents := incidents[incident.id := incident];
      }
    }

    /** The incident's own stage, recovery and notification choice, or harmless defaults when it is missing. */
    function OwnOr(current: Tracker): (Stage, Option<Time>, bool)
      reads this
    {
      if OwnsIncident(KnownCore(), current) then
        var i := incidents[current.incidentId.value];
        (i.state, i.recoveryFirstAt, i.notify)
      else (StateActive, None, false)
    }

    /** The switch on polarity and phase. */
    method AcceptEvidence(o: Observation)
      modifies this`trackers, this`incidents
      ensures KnownCore() == Accept(cfg, old(KnownCore()), o)
    {
      var e := o.evidence;
      var key := EvidenceKey(e);
      var current := Lookup(key);
      var own := OwnOr(current);
      current := current.(lastEvidenceAt := e.at);
      if !e.online {
        match current.phase {
          case PhaseNone | PhaseHealthy =>
            var id := IncidentId(e.hostname, e.iface, e.at, e.messageId);
            current :=
              Tracker(PhasePendingFailure, e.at, ZERO_TIME, e.at, e.messageId, o.sourceRef, Some(id), o.notifyEligible,
                      e.reachability);
            incidents := incidents[id := NewIncident(cfg, o)];
          case PhasePendingFailure =>
            current :=
              current.(reachabilityDown := current.reachabilityDown || e.reachability,
                       notify := current.notify || o.notifyEligible);
            TouchIncident(current, o, own.0, own.1, current.notify);
          case PhasePendingRecovery =>
            current :=
              current.(phase := PhaseActive, recoverySince := ZERO_TIME,
                       reachabilityDown := current.reachabilityDown || e.reachability);
            TouchIncident(current, o, StateActive, None, own.2);
          case PhaseActive =>
            current := current.(reachabilityDown := current.reachabilityDown || e.reachability);
            TouchIncident(current, o, own.0, own.1, own.2);
        }
      } else {
        match current.phase {
          case PhaseNone =>
            current := HealthyTracker(e.at);
          case PhaseHealthy =>
          case PhasePendingFailure =>
            if current.incidentId.Some? { incidents := incidents - {current.incidentId.value}; }
            current := HealthyTracker(e.at);
          case PhaseActive =>
            current := current.(phase := PhasePendingRecovery, recoverySince := e.at);
            TouchIncident(current, o, StatePendingRecovery, Some(e.at), own.2);
          case PhasePendingRecovery =>
            TouchIncident(current, o, own.0, own.1, own.2);
        }
      }
      trackers := trackers[key := current];
    }

    method ObserveEvidence(o: Observation)
      modifies this`trackers, this`incidents, this`jobs
      ensures Observes(cfg, old(Derived()), o, Derived())
      ensures CoreInv(cfg.iface, old(KnownCore()), o.evidence.at) ==> Derived() == Observe(cfg, old(Derived()), o)
      ensures JobsKeyed(old(jobs)) ==> JobsKeyed(jobs)
    {
      var e := o.evidence;
      var key := EvidenceKey(e);
      var current := Lookup(key);
      if current.lastEvidenceAt != ZERO_TIME && e.at < current.lastEvidenceAt {
        return;
      }
      if e.observeOnly {
        if current.phase == PhaseNone { current := current.(phase := PhaseHealthy); }
        current := current.(lastEvidenceAt := e.at);
        trackers := trackers[key := current];
        return;
      }
      ghost var start := Derived();
      ghost var trace;
      var _, trace' := Advance(e.at);
      trace := trace';
      ghost var mid := Derived();
      assert Advances(cfg.iface, start, e.at, mid) by { assert Reaches(cfg.iface, start, e.at, trace, mid); }
      current := Lookup(key);
      if !(e.online && e.iface == cfg.iface && current.reachabilityDown && !e.reachability) {
        AcceptEvidence(o);
      }
      assert Derived() == mid.(core := AcceptUnlessGated(cfg, mid.core, o));
      if CoreInv(cfg.iface, start.core, e.at) { ObservesIsObserve(cfg, start, o, Derived()); }
    }

    /** Observes a batch in order. Monotone evidence from an instant on refines the run of the batch. */
    method ObserveAll(observations: seq<Observation>, ghost clock: Time)
      requires ConfigOk(cfg)
      modifies this`trackers, this`incidents, this`jobs
      ensures ObservesAll(cfg, old(Derived()), observations, Derived())
      ensures Inv(cfg, old(Derived()), clock) && Monotone(clock, Events(observations)) ==>
        Derived() == Run(cfg, old(Derived()), Events(observations))
      ensures JobsKeyed(old(jobs)) ==> JobsKeyed(jobs)
    {
      ghost var start := Derived();
      ghost var past: seq<Observation> := [];
      var n := 0;
      while n < |observations|
        invariant n <= |observations| && past == observations[..n]
        invariant ObservesAll(cfg, start, past, Derived())
        invariant JobsKeyed(old(jobs)) ==> JobsKeyed(jobs)
      {
        ghost var mid := Derived();
        ObserveEvidence(observations[n]);
        ObservesOneMore(cfg, start, past, mid, observations[n], Derived());
        assert observations[..n + 1] == past + [observations[n]];
        past := observations[..n + 1];
        n := n + 1;
      }
      assert past == observations;
      if Inv(cfg, start, clock) && Monotone(clock, Events(observations)) {
        ExecutesIsRun(cfg, start, clock, Events(observations), Derived());
      }
    }

    // ---------- operations ----------

    method ObserveOne(o: Observation, saveOk: bool) returns (success: bool)
      modifies this`trackers, this`incidents, this`jobs, this`saved
      ensures Observes(cfg, old(Derived()), o, Derived())
      ensures CoreInv(cfg.iface, old(KnownCore()), o.evidence.at) ==> Derived() == Observe(cfg, old(Derived()), o)
      ensures success == saveOk && saved == if saveOk then Some(Current()) else old(saved)
      ensures JobsKeyed(old(jobs)) ==> JobsKeyed(jobs)
    {
      ObserveEvidence(o);
      success := Save(saveOk);
    }

    /** Evidence-derived state and source cursors are checkpointed together. */
    method Apply(observations: seq<Observation>, next: map<string, Cursor>, checkpointAt: Time, saveOk: bool,
                 ghost clock: Time) returns (success: bool)
      requires ConfigOk(cfg)
      modifies this
      ensures ObservesAll(cfg, old(Derived()), observations, Derived())
      ensures Inv(cfg, old(Derived()), clock) && Monotone(clock, Events(observations)) ==>
        Derived() == Run(cfg, old(Derived()), Events(observations))
      ensures cursors == next && bootstrapped && lastCheckpointAt == checkpointAt
      ensures success == saveOk && saved == if saveOk then Some(Current()) else old(saved)
      ensures JobsKeyed(old(jobs)) ==> JobsKeyed(jobs)
    {
      ObserveAll(observations, clock);
      cursors := next;
      bootstrapped := true;
      lastCheckpointAt := checkpointAt;
      success := Save(saveOk);
    }

    // ---------- rebuild ----------

    method MergeIncidentNotifications(previous: map<IncidentId, Incident>)
      modifies this`incidents
      ensures incidents == MergeIncidents(old(incidents), previous)
    {
      var rest := incidents.Keys;
      while rest != {}
        invariant rest <= incidents.Keys
        invariant MergedBut(old(incidents), previous, rest, incidents)
        decreases |rest|
      {
        var id :| id in rest;
        ghost var before := incidents;
        if id in previous {
          incidents := incidents[id := incidents[id].(notify := incidents[id].notify || previous[id].notify)];
        }
        MergedOneMore(old(incidents), previous, rest, before, id, incidents);
        rest := rest - {id};
      }
      MergedAll(old(incidents), previous, incidents);
    }

    method MergeTrackerNotifications()
      modifies this`trackers
      ensures trackers == MergeTrackers(old(trackers), incidents)
    {
      var keys := trackers.Keys;
      while keys != {}
        invariant keys <= trackers.Keys == old(trackers).Keys
        invariant forall k :: k in trackers ==>
          trackers[k] == if k in keys then old(trackers)[k] else MergeTrackers(old(trackers), incidents)[k]
        decreases |keys|
      {
        var k :| k in keys;
        keys := keys - {k};
        var current := trackers[k];
        if current.incidentId.Some? && current.incidentId.value in incidents {
          trackers := trackers[k := current.(notify := incidents[current.incidentId.value].notify)];
        }
      }
    }

    method KeepSurvivingJobs(previous: map<JobId, Job>)
      modifies this`jobs
      ensures jobs == old(jobs) + SurvivingJobs(previous, incidents)
    {
      var rest := previous.Keys;
      while rest != {}
        invariant rest <= previous.Keys
        invariant jobs == old(jobs) + (map j | j in SurvivingJobs(previous, incidents) && j !in rest :: previous[j])
        decreases |rest|
      {
        var id :| id in rest;
        rest := rest - {id};
        if previous[id].incidentId in incidents {
          jobs := jobs[id := previous[id]];
        }
      }
      assert SurvivingJobs(previous, incidents)
        == (map j | j in SurvivingJobs(previous, incidents) && j !in rest :: previous[j]);
    }

    /** The back-fill of one incident's own opening and closing jobs. */
    method BackfillLifecycle(incident: Incident) returns (ghost choice: Option<IncidentId>)
      requires OwnIds(incidents) && incident.notify && incident.activatedAt.Some?
      modifies this`jobs
      ensures incident.iface != cfg.iface ==>
        LegalChoice(cfg.iface, incidents, incident.hostname, incident.activatedAt.value, choice)
      ensures jobs ==
        var first := Enqueue(old(jobs), OpeningJob(cfg.iface, incident, choice), incident.activatedAt.value);
        if incident.state == StateResolved && incident.resolvedAt.Some?
        then Enqueue(first, ClosingJob(cfg.iface, incident), incident.resolvedAt.value) else first
      ensures JobsKeyed(old(jobs)) ==> JobsKeyed(jobs)
    {
      choice := None;
      var activated := incident.activatedAt.value;
      if incident.iface != cfg.iface {
        var primary := PrimaryDownAt(incident.hostname, activated);
        choice := primary;
        if primary.Some? {
          EnqueueJob(Escalation(incident.id, incidents[primary.value].id), activated);
        } else {
          EnqueueJob(Lifecycle(incident.id, FallbackOpened), activated);
        }
      } else {
        EnqueueJob(Lifecycle(incident.id, Opened), activated);
      }
      if incident.state == StateResolved && incident.resolvedAt.Some? {
        EnqueueJob(Lifecycle(incident.id, if incident.iface != cfg.iface then FallbackResolved else Resolved),
                   incident.resolvedAt.value);
      }
    }

    /** The back-fill of one fallback incident's later escalations. */
    method BackfillEscalations(incident: Incident, ghost choice: Option<IncidentId>, ghost start: map<JobId, Job>)
      requires OwnIds(incidents) && incident.notify && incident.activatedAt.Some? && incident.iface != cfg.iface
      requires BackfilledBut(cfg.iface, incidents, incident, choice, incidents.Keys, start, jobs)
      requires OpeningJob(cfg.iface, incident, choice) in jobs
      modifies this`jobs
      ensures BackfilledBut(cfg.iface, incidents, incident, choice, {}, start, jobs)
      ensures JobsKeyed(old(jobs)) ==> JobsKeyed(jobs)
    {
      var rest := incidents.Keys;
      while rest != {}
        invariant rest <= incidents.Keys
        invariant BackfilledBut(cfg.iface, incidents, incident, choice, rest, start, jobs)
        invariant OpeningJob(cfg.iface, incident, choice) in jobs
        invariant JobsKeyed(old(jobs)) ==> JobsKeyed(jobs)
        decreases |rest|
      {
        var p :| p in rest;
        var primary := incidents[p];
        ghost var before := jobs;
        if primary.hostname == incident.hostname && primary.iface == cfg.iface && primary.activatedAt.Some?
          && primary.activatedAt.value > incident.activatedAt.value
        {
          if incident.resolvedAt.None? || primary.activatedAt.value < incident.resolvedAt.value {
            EnqueueJob(Escalation(incident.id, primary.id), primary.activatedAt.value);
          }
        }
        BackfillContinues(cfg.iface, incidents, incident, choice, rest, p, start, before, jobs);
        rest := rest - {p};
      }
    }

    /** The back-fill of one incident. */
    method BackfillIncident(id: IncidentId) returns (ghost choice: Option<IncidentId>)
      requires OwnIds(incidents) && id in incidents
      modifies this`jobs
      ensures LegalFor(cfg.iface, incidents, id, choice)
      ensures BackfilledBut(cfg.iface, incidents, incidents[id], choice, {}, old(jobs), jobs)
      ensures JobsKeyed(old(jobs)) ==> JobsKeyed(jobs)
    {
      var incident := incidents[id];
      choice := None;
      if !incident.notify || incident.activatedAt.None? {
        return;
      }
      choice := BackfillLifecycle(incident);
      BackfillStarts(cfg.iface, incidents, incident, choice, old(jobs), jobs);
      if incident.iface != cfg.iface {
        BackfillEscalations(incident, choice, old(jobs));
      }
    }

    /** The back-fill loop: it adds the back-fill of every incident, each with a legal choice of primary, and nothing
        else. Within the invariant these are exactly the wanted jobs that are missing. */
    method Backfill(ghost now: Time) returns (ghost choices: map<IncidentId, Option<IncidentId>>)
      requires OwnIds(incidents)
      modifies this`jobs
      ensures choices.Keys == incidents.Keys && LegalChoices(cfg.iface, incidents, choices)
      ensures FillsAll(cfg.iface, incidents, choices, {}, old(jobs), jobs)
      ensures CoreInv(cfg.iface, KnownCore(), now) ==> jobs == GrownJobs(cfg.iface, map[], incidents, old(jobs))
      ensures JobsKeyed(old(jobs)) ==> JobsKeyed(jobs)
    {
      choices := map[];
      var rest := incidents.Keys;
      while rest != {}
        invariant rest <= incidents.Keys && choices.Keys == incidents.Keys - rest
        invariant LegalChoices(cfg.iface, incidents, choices)
        invariant FillsAll(cfg.iface, incidents, choices, rest, old(jobs), jobs)
        invariant JobsKeyed(old(jobs)) ==> JobsKeyed(jobs)
        decreases |rest|
      {
        var id :| id in rest;
        ghost var before := jobs;
        ghost var choice := BackfillIncident(id);
        FillsOneMore(cfg.iface, incidents, choices, rest, id, choice, old(jobs), before, jobs);
        choices := choices[id := choice];
        rest := rest - {id};
      }
      if CoreInv(cfg.iface, KnownCore(), now) {
        FillsAllIsGrown(cfg.iface, KnownCore(), now, choices, old(jobs), jobs);
      }
    }

    /** Keeps what was known about incidents found again. */
    method MergePrevious(previous: State)
      modifies this`trackers, this`incidents, this`jobs
      ensures KnownCore() == MergeCore(old(KnownCore()), previous.core)
      ensures jobs == old(jobs) + SurvivingJobs(previous.jobs, incidents)
      ensures JobsKeyed(old(jobs)) && JobsKeyed(previous.jobs) ==> JobsKeyed(jobs)
    {
      MergeIncidentNotifications(previous.core.incidents);
      MergeTrackerNotifications();
      KeepSurvivingJobs(previous.jobs);
    }

    /** Empties the state and observes the whole log again. */
    method ReplayFromNothing(observations: seq<Observation>, ghost clock: Time)
      requires ConfigOk(cfg)
      modifies this`trackers, this`incidents, this`jobs
      ensures ObservesAll(cfg, EMPTY_STATE, observations, Derived())
      ensures JobsKeyed(jobs)
    {
      trackers, incidents, jobs := map[], map[], map[];
      ObserveAll(observations, clock);
    }

    /** Replays the whole log, keeps the notification choices and jobs of incidents found again, and back-fills. */
    method RebuildDerived(observations: seq<Observation>, ghost clock: Time)
      requires ConfigOk(cfg)
      modifies this`trackers, this`incidents, this`jobs
      ensures Rebuilds(cfg, old(Derived()), observations, Derived())
      ensures Monotone(clock, Events(observations)) ==> Derived() == Rebuilt(cfg, old(Derived()), Events(observations))
      ensures JobsKeyed(old(jobs)) ==> JobsKeyed(jobs)
    {
      var previous := State(Core(trackers, incidents), jobs);
      ReplayFromNothing(observations, clock);
      ghost var replayed := Derived();
      ExecutesCore(cfg, EMPTY_STATE, Events(observations), replayed);
      ShapedOwnIds(replayed.core);
      MergePrevious(previous);
      ghost var choices := Backfill(clock);
      assert RebuildsFrom(cfg, previous, observations, replayed, choices, Derived());
      if Monotone(clock, Events(observations)) { RebuildsIsRebuilt(cfg, previous, clock, observations, Derived()); }
    }

    /** The rebuilt state and the new cursors are checkpointed together. */
    method Rebuild(observations: seq<Observation>, next: map<string, Cursor>, checkpointAt: Time, saveOk: bool,
                   ghost clock: Time) returns (success: bool)
      requires ConfigOk(cfg)
      modifies this
      ensures Rebuilds(cfg, old(Derived()), observations, Derived())
      ensures Monotone(clock, Events(observations)) ==> Derived() == Rebuilt(cfg, old(Derived()), Events(observations))
      ensures cursors == next && bootstrapped && lastCheckpointAt == checkpointAt
      ensures success == saveOk && saved == if saveOk then Some(Current()) else old(saved)
      ensures JobsKeyed(old(jobs)) ==> JobsKeyed(jobs)
    {
      RebuildDerived(observations, clock);
      cursors, bootstrapped, lastCheckpointAt := next, true, checkpointAt;
      success := Save(saveOk);
    }

    method MarkNotificationSent(id: JobId, adapter: string, externalId: string, at: Time, saveOk: bool)
      returns (success: bool)
      modifies this`jobs, this`saved
      ensures success <==> id in old(jobs) && saveOk
      ensures success ==>
        jobs == old(jobs)[id := SentJob(old(jobs)[id], adapter, externalId, at)] && saved == Some(Current())
      ensures !success ==> jobs == old(jobs) && saved == old(saved)
      ensures JobsKeyed(old(jobs)) ==> JobsKeyed(jobs)
    {
      if id !in jobs { return false; }
      var previous := jobs[id];
      var job := previous.(sentAt := Some(at), adapter := adapter, externalId := externalId, lastError := "");
      jobs := jobs[id := job];
      success := Save(saveOk);
      if !success { jobs := jobs[id := previous]; }
    }

    method MarkNotificationFailed(id: JobId, message: string, next: Time, permanent: bool, saveOk: bool)
      returns (success: bool)
      modifies this`jobs, this`saved
      ensures success <==> id in old(jobs) && saveOk
      ensures success ==>
        jobs == old(jobs)[id := FailedJob(old(jobs)[id], message, next, permanent)] && saved == Some(Current())
      ensures !success ==> jobs == old(jobs) && saved == old(saved)
      ensures JobsKeyed(old(jobs)) ==> JobsKeyed(jobs)
    {
      if id !in jobs { return false; }
      var previous := jobs[id];
      var job :=
        previous.(attempts := previous.attempts + 1, lastError := message, nextAt := next, permanent := permanent);
      jobs := jobs[id := job];
      success := Save(saveOk);
      if !success { jobs := jobs[id := previous]; }
    }

    /** A restart: the engine loads what was last saved, or starts afresh. */
    method Load()
      modifies this
      ensures saved == old(saved)
      ensures saved.Some? ==> Current() == saved.value
      ensures saved.None? ==> Derived() == EMPTY_STATE && cursors == map[] && !bootstrapped
    {
      if saved.Some? {
        var snapshot := saved.value;
        trackers, incidents, jobs := snapshot.state.core.trackers, snapshot.state.core.incidents, snapshot.state.jobs;
        cursors, bootstrapped, lastCheckpointAt := snapshot.cursors, snapshot.bootstrapped, snapshot.lastCheckpointAt;
      } else {
        trackers, incidents, jobs := map[], map[], map[];
        cursors, bootstrapped, lastCheckpointAt := map[], false, ZERO_TIME;
      }
    }
  }
}
