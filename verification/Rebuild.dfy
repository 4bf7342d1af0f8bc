/** Rebuilding from the log agrees with the incremental engine. */
module Rebuilding {
  import opened Wrappers
  import opened IncidentState
  import opened JobSpec
  import opened Invariant
  import opened TimerLoop
  import opened Observing
  import opened Runs
  import opened Isolation

  // ---------- the rebuild ----------

  /** Incidents found again keep the notification choice they had. */
  function MergeIncidents(replayed: map<IncidentId, Incident>,
                          previous: map<IncidentId, Incident>): map<IncidentId, Incident>
  {
    map id | id in replayed ::
      if id in previous then replayed[id].(notify := replayed[id].notify || previous[id].notify) else replayed[id]
  }

  function MergeTrackers(trackers: map<Key, Tracker>, incidents: map<IncidentId, Incident>): map<Key, Tracker> {
    map k | k in trackers ::
      if trackers[k].incidentId.Some? && trackers[k].incidentId.value in incidents
      then trackers[k].(notify := incidents[trackers[k].incidentId.value].notify)
      else trackers[k]
  }

  /** Jobs of incidents that still exist, as they were. */
  function SurvivingJobs(previous: map<JobId, Job>, incidents: map<IncidentId, Incident>): map<JobId, Job> {
    map j | j in previous && previous[j].incidentId in incidents :: previous[j]
  }

  function MergeCore(replayed: Core, previous: Core): Core {
    var incidents := MergeIncidents(replayed.incidents, previous.incidents);
    Core(MergeTrackers(replayed.trackers, incidents), incidents)
  }

  /** The state after Rebuild: replay, merge with what was known, then back-fill every wanted job. */
  ghost function Rebuilt(cfg: Config, previous: State, evidence: seq<Event>): State {
    var replayed := Run(cfg, EMPTY_STATE, evidence);
    var core := MergeCore(replayed.core, previous.core);
    var kept := replayed.jobs + SurvivingJobs(previous.jobs, core.incidents);
    State(core, GrownJobs(cfg.iface, map[], core.incidents, kept))
  }

  // ---------- the back-fill loop ----------

  /** The back-fill escalates fallback i because of a primary that went down later, during i. */
  predicate BackfillEscalates(wan: string, i: Incident, p: Incident) {
    && p.hostname == i.hostname && p.iface == wan && p.activatedAt.Some? && i.activatedAt.Some?
    && i.activatedAt.value < p.activatedAt.value
    && (i.resolvedAt.Some? ==> p.activatedAt.value < i.resolvedAt.value)
  }

  predicate BackfillConsults(wan: string, i: Incident) {
    i.notify && i.activatedAt.Some? && i.iface != wan
  }

  /** The job the back-fill creates for the opening of i; choice is the primary found down at its activation. */
  function OpeningJob(wan: string, i: Incident, choice: Option<IncidentId>): JobId {
    if i.iface == wan then Lifecycle(i.id, Opened)
    else if choice.Some? then Escalation(i.id, choice.value)
    else Lifecycle(i.id, FallbackOpened)
  }

  function ClosingJob(wan: string, i: Incident): JobId {
    Lifecycle(i.id, if i.iface == wan then Resolved else FallbackResolved)
  }

  /** The jobs the back-fill loop enqueues for one incident. */
  predicate Backfills(wan: string, incidents: map<IncidentId, Incident>, i: Incident, choice: Option<IncidentId>,
                      j: JobId)
  {
    && i.notify && i.activatedAt.Some?
    && (|| j == OpeningJob(wan, i, choice)
        || (i.state == StateResolved && i.resolvedAt.Some? && j == ClosingJob(wan, i))
        || (i.iface != wan && j.Escalation? && j.fallback == i.id && j.primary in incidents
            && BackfillEscalates(wan, i, incidents[j.primary])))
  }

  function BackfillAt(wan: string, incidents: map<IncidentId, Incident>, i: Incident, choice: Option<IncidentId>,
                      j: JobId): Time
    requires Backfills(wan, incidents, i, choice, j)
  {
    if j == OpeningJob(wan, i, choice) then i.activatedAt.value
    else if j.Lifecycle? then i.resolvedAt.value
    else incidents[j.primary].activatedAt.value
  }

  /** The back-fill loop enqueues exactly the wanted jobs of each incident, whichever covering primary it finds. */
  lemma BackfillIsWanted(wan: string, c: Core, now: Time, id: IncidentId, choice: Option<IncidentId>, j: JobId)
    requires CoreInv(wan, c, now) && id in c.incidents
    requires BackfillConsults(wan, c.incidents[id]) ==>
      LegalChoice(wan, c.incidents, c.incidents[id].hostname, c.incidents[id].activatedAt.value, choice)
    ensures Backfills(wan, c.incidents, c.incidents[id], choice, j) <==>
      JobIncident(j) == id && Wanted(wan, c.incidents, j)
    ensures Backfills(wan, c.incidents, c.incidents[id], choice, j) && Wanted(wan, c.incidents, j) ==>
      BackfillAt(wan, c.incidents, c.incidents[id], choice, j) == WantedAt(wan, c.incidents, j)
  {
    var i := c.incidents[id];
    assert IncidentOk(id, i, now);
    if BackfillConsults(wan, i) && j.Escalation? && j.fallback == id && j.primary in c.incidents {
      var p := j.primary;
      assert IncidentOk(p, c.incidents[p], now);
      if PrimaryDown(wan, c.incidents, i.hostname, i.activatedAt.value, p) {
        OnePrimaryDown(wan, c, now, i.hostname, i.activatedAt.value, p, choice.value);
      }
    }
  }

  /** c is b with consistently more notifications. */
  ghost predicate Louder(b: Core, c: Core) {
    && c.trackers.Keys == b.trackers.Keys && c.incidents.Keys == b.incidents.Keys
    && (forall id :: id in c.incidents ==> c.incidents[id] == b.incidents[id].(notify := c.incidents[id].notify))
    && (forall k :: k in c.trackers ==> c.trackers[k] == LouderTracker(b, c, k))
  }

  function LouderTracker(b: Core, c: Core, k: Key): Tracker
    requires k in b.trackers && c.incidents.Keys == b.incidents.Keys
  {
    var t := b.trackers[k];
    if OwnsIncident(b, t) then t.(notify := c.incidents[t.incidentId.value].notify) else t
  }

  lemma LouderShape(b: Core, c: Core)
    requires Shaped(b) && Louder(b, c)
    ensures Shaped(c)
  {
    forall k | k in c.trackers ensures TrackerOk(c, k) { assert TrackerOk(b, k); }
    forall id | id in c.incidents ensures IncidentShaped(id, c.incidents[id]) {
      assert IncidentShaped(id, b.incidents[id]);
    }
    forall id | id in c.incidents && c.incidents[id].resolvedAt.None? ensures OwnedBy(c, id, KeyOf(id)) {
      assert OwnedBy(b, id, KeyOf(id));
    }
  }

  lemma LouderTimes(wan: string, b: Core, c: Core, now: Time)
    requires CoreInv(wan, b, now) && Louder(b, c)
    ensures EvidenceSeen(c, now) && IncidentsOk(c, now)
  {
    forall id | id in c.incidents ensures IncidentOk(id, c.incidents[id], now) {
      assert IncidentOk(id, b.incidents[id], now);
    }
  }

  lemma LouderOrder(wan: string, b: Core, c: Core, now: Time)
    requires CoreInv(wan, b, now) && Louder(b, c)
    ensures Sequential(c) && TimersAhead(wan, c)
  {
    forall id, k | id in c.incidents && Waiting(c, k) ensures PastBefore(wan, c, c.incidents[id], k) {
      assert Waiting(b, k) && PastBefore(wan, b, b.incidents[id], k);
    }
    forall i, j | i in c.incidents && j in c.incidents && i != j && KeyOf(i) == KeyOf(j)
      ensures OneAfterTheOther(c.incidents[i], c.incidents[j])
    {
      assert OneAfterTheOther(b.incidents[i], b.incidents[j]);
    }
  }

  lemma MergeIsLouder(replayed: Core, previous: Core)
    requires Shaped(replayed)
    ensures Louder(replayed, MergeCore(replayed, previous))
  {
  }

  /** Merging keeps who owns what, however late the evidence replayed was. */
  lemma MergeKeepsShape(replayed: Core, previous: Core)
    requires Shaped(replayed)
    ensures Shaped(MergeCore(replayed, previous))
  {
    MergeIsLouder(replayed, previous);
    LouderShape(replayed, MergeCore(replayed, previous));
  }

  /** Merging keeps the invariant, whatever the previous state was. */
  lemma MergeKeepsInv(wan: string, replayed: Core, previous: Core, now: Time)
    requires CoreInv(wan, replayed, now)
    ensures CoreInv(wan, MergeCore(replayed, previous), now)
  {
    MergeIsLouder(replayed, previous);
    LouderShape(replayed, MergeCore(replayed, previous));
    LouderTimes(wan, replayed, MergeCore(replayed, previous), now);
    LouderOrder(wan, replayed, MergeCore(replayed, previous), now);
  }

  // ---------- agreement ----------

  predicate DimTracker(s: Tracker, t: Tracker) {
    t == s.(notify := t.notify) && (t.notify ==> s.notify)
  }

  predicate DimIncident(i: Incident, j: Incident) {
    j == i.(notify := j.notify) && (j.notify ==> i.notify)
  }

  ghost predicate DimTrackers(m: map<Key, Tracker>, n: map<Key, Tracker>) {
    m.Keys == n.Keys && forall k :: k in n ==> DimTracker(m[k], n[k])
  }

  ghost predicate DimIncidents(m: map<IncidentId, Incident>, n: map<IncidentId, Incident>) {
    m.Keys == n.Keys && forall id :: id in n ==> DimIncident(m[id], n[id])
  }

  /** b is a, except that b may notify less. */
  ghost predicate Dims(a: Core, b: Core) {
    DimTrackers(a.trackers, b.trackers) && DimIncidents(a.incidents, b.incidents)
  }

  lemma SettleDims(a: Core, b: Core, t: Time)
    requires Dims(a, b)
    ensures Dims(Settle(a, t), Settle(b, t))
  {
    forall k | k in b.trackers ensures DueBy(b, k, t) <==> DueBy(a, k, t) {}
    forall k | k in b.trackers ensures DimTracker(SettledTracker(a, k, t), SettledTracker(b, k, t)) {}
    forall id | id in b.incidents ensures DimIncident(SettledIncident(a, id, t), SettledIncident(b, id, t)) {}
  }

  /** The same evidence, eligible for notification at most where the original was. */
  predicate Narrower(o: Observation, o': Observation) {
    o' == o.(notifyEligible := o'.notifyEligible) && (o'.notifyEligible ==> o.notifyEligible)
  }

  lemma AcceptedTrackerDims(s: Tracker, t: Tracker, o: Observation, o': Observation)
    requires DimTracker(s, t) && Narrower(o, o')
    ensures DimTracker(AcceptedTracker(s, o), AcceptedTracker(t, o'))
  {
  }

  lemma AcceptedIncidentDims(s: Tracker, t: Tracker, i: Incident, j: Incident, o: Observation, o': Observation)
    requires DimTracker(s, t) && DimIncident(i, j) && Narrower(o, o')
    ensures DimIncident(AcceptedIncident(s, i, o), AcceptedIncident(t, j, o'))
  {
    assert DimIncident(NoteEvidence(i, o), NoteEvidence(j, o'));
  }

  lemma UpdateDims(m: map<IncidentId, Incident>, n: map<IncidentId, Incident>, id: IncidentId, i: Incident, j: Incident)
    requires DimIncidents(m, n)
    ensures DimIncident(i, j) ==> DimIncidents(m[id := i], n[id := j])
    ensures DimIncidents(m - {id}, n - {id})
  {
    forall x | x in n ensures DimIncident(m[x], n[x]) {}
  }

  lemma TrackerAtDims(a: Core, b: Core, k: Key)
    requires Dims(a, b)
    ensures DimTracker(TrackerAt(a, k), TrackerAt(b, k))
    ensures OwnsIncident(a, TrackerAt(a, k)) <==> OwnsIncident(b, TrackerAt(b, k))
  {
  }

  lemma AcceptedIncidentsDim(cfg: Config, a: Core, b: Core, o: Observation, o': Observation)
    requires Dims(a, b) && Narrower(o, o')
    ensures DimIncidents(AcceptedIncidents(cfg, a, o), AcceptedIncidents(cfg, b, o'))
  {
    var k := EvidenceKey(o.evidence);
    var s, t := TrackerAt(a, k), TrackerAt(b, k);
    TrackerAtDims(a, b, k);
    if Starts(s, o) {
      UpdateDims(a.incidents, b.incidents, NewIncidentId(o.evidence), NewIncident(cfg, o), NewIncident(cfg, o'));
    } else if Cancels(s, o) {
      if s.incidentId.Some? {
        UpdateDims(a.incidents, b.incidents, s.incidentId.value, NewIncident(cfg, o), NewIncident(cfg, o'));
      }
    } else if Busy(s) && OwnsIncident(a, s) {
      var i, j := a.incidents[s.incidentId.value], b.incidents[s.incidentId.value];
      assert DimIncident(i, j);
      AcceptedIncidentDims(s, t, i, j, o, o');
      UpdateDims(a.incidents, b.incidents, i.id, AcceptedIncident(s, i, o), AcceptedIncident(t, j, o'));
    }
  }

  lemma AcceptDims(cfg: Config, a: Core, b: Core, o: Observation, o': Observation)
    requires Dims(a, b) && Narrower(o, o')
    ensures Dims(Accept(cfg, a, o), Accept(cfg, b, o'))
  {
    var k := EvidenceKey(o.evidence);
    AcceptedIncidentsDim(cfg, a, b, o, o');
    TrackerAtDims(a, b, k);
    var s, t := AcceptedTracker(TrackerAt(a, k), o), AcceptedTracker(TrackerAt(b, k), o');
    AcceptedTrackerDims(TrackerAt(a, k), TrackerAt(b, k), o, o');
    forall x | x in b.trackers ensures DimTracker(a.trackers[x], b.trackers[x]) {}
    assert DimTrackers(a.trackers[k := s], b.trackers[k := t]);
  }

  lemma ArmDims(a: Core, b: Core, e: Evidence)
    requires Dims(a, b)
    ensures Dims(ArmTracker(a, e), ArmTracker(b, e))
  {
    TrackerAtDims(a, b, EvidenceKey(e));
    forall x | x in b.trackers ensures DimTracker(a.trackers[x], b.trackers[x]) {}
  }

  lemma ObserveDims(cfg: Config, a: Core, b: Core, o: Observation, o': Observation)
    requires Dims(a, b) && Narrower(o, o')
    ensures Dims(ObserveCore(cfg, a, o), ObserveCore(cfg, b, o'))
  {
    var k := EvidenceKey(o.evidence);
    TrackerAtDims(a, b, k);
    if Stale(a, o.evidence) {
    } else if o.evidence.observeOnly {
      ArmDims(a, b, o.evidence);
    } else {
      SettleDims(a, b, o.evidence.at);
      var a1, b1 := Settle(a, o.evidence.at), Settle(b, o.evidence.at);
      TrackerAtDims(a1, b1, k);
      AcceptDims(cfg, a1, b1, o, o');
    }
  }

  /** Two evidence-only event lists with the same evidence, the second narrower. */
  predicate NarrowerRun(events: seq<Event>, events': seq<Event>) {
    |events'| == |events| &&
    forall n :: 0 <= n < |events| ==>
      events[n].Observed? && events'[n].Observed? && Narrower(events[n].observation, events'[n].observation)
  }

  lemma {:induction false} RunDims(cfg: Config, a: Core, b: Core, events: seq<Event>, events': seq<Event>)
    requires Dims(a, b) && NarrowerRun(events, events')
    ensures Dims(RunCore(cfg, a, events), RunCore(cfg, b, events'))
    decreases |events|
  {
    if events != [] {
      ObserveDims(cfg, a, b, events[0].observation, events'[0].observation);
      RunDims(cfg, StepCore(cfg, a, events[0]), StepCore(cfg, b, events'[0]), events[1..], events'[1..]);
    }
  }

  lemma {:induction false} NarrowerMonotone(clock: Time, events: seq<Event>, events': seq<Event>)
    requires Monotone(clock, events) && NarrowerRun(events, events')
    ensures Monotone(clock, events') && Clock(clock, events') == Clock(clock, events)
    decreases |events|
  {
    if events != [] { NarrowerMonotone(After(clock, events[0]), events[1..], events'[1..]); }
  }

  lemma {:induction false} EvidenceMonotone(scope: Scope, clock: Time, earlier: Time, events: seq<Event>)
    requires Monotone(clock, events) && earlier <= clock
    ensures Monotone(earlier, EvidenceIn(scope, events))
    ensures Clock(earlier, EvidenceIn(scope, events)) <= Clock(clock, events)
    decreases |events|
  {
    if events != [] {
      var ev := events[0];
      if ev.Observed? && InScope(scope, ev.observation.evidence.hostname) {
        EvidenceMonotone(scope, After(clock, ev), After(clock, ev), events[1..]);
        assert ([ev] + EvidenceIn(scope, events[1..]))[1..] == EvidenceIn(scope, events[1..]);
      } else {
        EvidenceMonotone(scope, After(clock, ev), earlier, events[1..]);
      }
    } else {
      assert Clock(clock, events) == clock;
    }
  }

  /** Without delivery marks every job is as it was created. */
  ghost predicate Unmarked(jobs: map<JobId, Job>) {
    forall j :: j in jobs ==> jobs[j] == NewJob(j, jobs[j].createdAt)
  }

  lemma {:induction false} EvidenceLeavesUnmarked(cfg: Config, s: State, clock: Time, events: seq<Event>)
    requires ConfigOk(cfg) && Inv(cfg, s, clock) && Monotone(clock, events) && Unmarked(s.jobs)
    requires forall n :: 0 <= n < |events| ==> events[n].Observed?
    ensures Unmarked(Run(cfg, s, events).jobs)
    decreases |events|
  {
    if events != [] {
      var o := events[0].observation;
      StepKeepsInv(cfg, s, clock, events[0]);
      CoreInvLater(cfg.iface, s.core, clock, o.evidence.at);
      SettledProperties(cfg.iface, s, o.evidence.at);
      assert Unmarked(Settled(cfg.iface, s, o.evidence.at).jobs);
      EvidenceLeavesUnmarked(cfg, Step(cfg, s, events[0]), After(clock, events[0]), events[1..]);
    }
  }

  /** Settling never changes whether an incident notifies. */
  lemma SettleKeepsNotify(wan: string, c: Core, now: Time, t: Time, id: IncidentId)
    requires CoreInv(wan, c, now) && id in c.incidents
    ensures Settle(c, t).incidents[id].notify == c.incidents[id].notify
  {
    assert IncidentOk(id, c.incidents[id], now);
    if KeyOf(id) in c.trackers { assert TrackerOk(c, KeyOf(id)); }
  }

  lemma SettleKeys(c: Core, t: Time)
    ensures Settle(c, t).incidents.Keys == c.incidents.Keys && Settle(c, t).trackers.Keys == c.trackers.Keys
  {
  }

  lemma MergeRestoresIncidents(wan: string, now: Time, previous: Core, original: Core, replayed: Core)
    requires CoreInv(wan, previous, now) && CoreInv(wan, original, now)
    requires Settle(previous, now) == Settle(original, now)
    requires Dims(original, replayed)
    ensures MergeIncidents(replayed.incidents, previous.incidents) == original.incidents
  {
    SettleKeys(previous, now);
    SettleKeys(original, now);
    forall id | id in original.incidents ensures previous.incidents[id].notify == original.incidents[id].notify {
      SettleKeepsNotify(wan, previous, now, now, id);
      SettleKeepsNotify(wan, original, now, now, id);
    }
    DimsMerge(previous.incidents, original.incidents, replayed.incidents);
  }

  lemma DimsMerge(previous: map<IncidentId, Incident>, original: map<IncidentId, Incident>,
                  replayed: map<IncidentId, Incident>)
    requires DimIncidents(original, replayed) && previous.Keys == original.Keys
    requires forall id :: id in original ==> previous[id].notify == original[id].notify
    ensures MergeIncidents(replayed, previous) == original
  {
    forall id | id in original ensures MergeIncidents(replayed, previous)[id] == original[id] {
      assert DimIncident(original[id], replayed[id]);
    }
  }

  lemma MergeRestoresTrackers(wan: string, now: Time, original: Core, replayed: Core)
    requires CoreInv(wan, original, now) && Dims(original, replayed)
    ensures MergeTrackers(replayed.trackers, original.incidents) == original.trackers
  {
    forall k | k in original.trackers
      ensures MergeTrackers(replayed.trackers, original.incidents)[k] == original.trackers[k]
    {
      assert TrackerOk(original, k);
      assert DimTracker(original.trackers[k], replayed.trackers[k]);
    }
  }

  /** Merging a narrower replay with the previous state restores the original core. */
  lemma MergeRestores(wan: string, now: Time, previous: Core, original: Core, replayed: Core)
    requires CoreInv(wan, previous, now) && CoreInv(wan, original, now)
    requires Settle(previous, now) == Settle(original, now)
    requires Dims(original, replayed)
    ensures MergeCore(replayed, previous) == original
  {
    MergeRestoresIncidents(wan, now, previous, original, replayed);
    MergeRestoresTrackers(wan, now, original, replayed);
  }

  lemma DimsWanted(wan: string, a: Core, b: Core, j: JobId)
    requires Dims(a, b) && Wanted(wan, b.incidents, j)
    ensures Wanted(wan, a.incidents, j) && WantedAt(wan, a.incidents, j) == WantedAt(wan, b.incidents, j)
  {
    if j.Lifecycle? {
      var i := a.incidents[j.incident];
      forall p ensures PrimaryDown(wan, a.incidents, i.hostname, i.activatedAt.value, p)
        <==> PrimaryDown(wan, b.incidents, i.hostname, i.activatedAt.value, p)
      {
      }
    }
  }

  /** jobs are those of before unchanged, and every other wanted job as it would be created. */
  ghost predicate Completes(wan: string, incidents: map<IncidentId, Incident>, previous: map<JobId, Job>,
                            jobs: map<JobId, Job>)
  {
    && (forall j :: j in jobs <==> j in previous || Wanted(wan, incidents, j))
    && (forall j :: j in previous ==> j in jobs && jobs[j] == previous[j])
    && (forall j :: j in jobs && j !in previous ==>
          Wanted(wan, incidents, j) && jobs[j] == NewJob(j, WantedAt(wan, incidents, j)))
  }

  /** Jobs replayed from a narrower run are wanted, and as they would be created. */
  lemma ReplayedJobs(cfg: Config, now: Time, original: Core, replayed: State, j: JobId)
    requires Inv(cfg, replayed, now) && Unmarked(replayed.jobs) && Dims(original, replayed.core) && j in replayed.jobs
    ensures Wanted(cfg.iface, original.incidents, j)
    ensures replayed.jobs[j] == NewJob(j, WantedAt(cfg.iface, original.incidents, j))
  {
    DimsWanted(cfg.iface, original, replayed.core, j);
  }

  lemma FillIn(wan: string, incidents: map<IncidentId, Incident>, previous: map<JobId, Job>, replayed: map<JobId, Job>)
    requires forall j :: j in replayed ==>
      Wanted(wan, incidents, j) && replayed[j] == NewJob(j, WantedAt(wan, incidents, j))
    ensures Completes(wan, incidents, previous, GrownJobs(wan, map[], incidents, replayed + previous))
  {
    GrownJobsGrow(wan, map[], incidents, replayed + previous);
    forall j ensures !Wanted(wan, map[], j) {}
  }

  lemma RebuiltJobs(cfg: Config, previous: State, now: Time, original: Core, replayed: State)
    requires Inv(cfg, previous, now) && Inv(cfg, replayed, now) && Unmarked(replayed.jobs)
    requires previous.core.incidents.Keys == original.incidents.Keys && Dims(original, replayed.core)
    ensures Completes(cfg.iface, original.incidents, previous.jobs,
      GrownJobs(cfg.iface, map[], original.incidents, replayed.jobs + SurvivingJobs(previous.jobs, original.incidents)))
  {
    forall j | j in previous.jobs ensures previous.jobs[j].incidentId in original.incidents {
      assert Wanted(cfg.iface, previous.core.incidents, j) && JobShape(j, previous.jobs[j]);
    }
    assert SurvivingJobs(previous.jobs, original.incidents) == previous.jobs;
    forall j | j in replayed.jobs
      ensures Wanted(cfg.iface, original.incidents, j)
      ensures replayed.jobs[j] == NewJob(j, WantedAt(cfg.iface, original.incidents, j))
    {
      ReplayedJobs(cfg, now, original, replayed, j);
    }
    FillIn(cfg.iface, original.incidents, previous.jobs, replayed.jobs);
  }

  lemma CompletedThenGrown(wan: string, previous: map<JobId, Job>, exact: map<IncidentId, Incident>,
                           incidents: map<IncidentId, Incident>, later: map<IncidentId, Incident>,
                           jobs: map<JobId, Job>, a: map<JobId, Job>, b: map<JobId, Job>)
    requires forall j :: j in previous <==> Wanted(wan, exact, j)
    requires Completes(wan, incidents, previous, jobs)
    requires JobsGrow(wan, incidents, later, jobs, a)
    requires JobsGrow(wan, exact, later, previous, b)
    ensures a == b
  {
    forall j ensures j in a <==> j in b {}
    forall j | j in a ensures a[j] == b[j] {}
  }

  lemma SettledRebuild(cfg: Config, previous: State, rebuilt: State, now: Time, end: Time)
    requires now <= end && Inv(cfg, previous, now) && CoreInv(cfg.iface, rebuilt.core, now)
    requires Settle(previous.core, now) == Settle(rebuilt.core, now)
    requires Completes(cfg.iface, rebuilt.core.incidents, previous.jobs, rebuilt.jobs)
    ensures Settled(cfg.iface, rebuilt, end) == Settled(cfg.iface, previous, end)
  {
    CoreInvLater(cfg.iface, previous.core, now, end);
    CoreInvLater(cfg.iface, rebuilt.core, now, end);
    SettleComposes(cfg.iface, previous.core, now, now, end);
    SettleComposes(cfg.iface, rebuilt.core, now, now, end);
    SettledProperties(cfg.iface, previous, end);
    SettledProperties(cfg.iface, rebuilt, end);
    CompletedThenGrown(cfg.iface, previous.jobs, previous.core.incidents, rebuilt.core.incidents,
                       Settle(previous.core, end).incidents,
      rebuilt.jobs, Settled(cfg.iface, rebuilt, end).jobs, Settled(cfg.iface, previous, end).jobs);
  }

  /** A run and its own evidence without ticks settle alike. */
  lemma EvidenceAlone(cfg: Config, start: Time, events: seq<Event>)
    requires ConfigOk(cfg) && Monotone(start, events)
    ensures
      var now := Clock(start, events);
      var previous, original := Run(cfg, EMPTY_STATE, events), Run(cfg, EMPTY_STATE, EvidenceIn(None, events));
      && Inv(cfg, previous, now) && Inv(cfg, original, now) && Settle(previous.core, now) == Settle(original.core, now)
  {
    EmptyInv(cfg, start);
    var previous := Run(cfg, EMPTY_STATE, events);
    assert Restrict(EMPTY_CORE, None) == EMPTY_CORE;
    RunsMirror(cfg, None, EMPTY_STATE, EMPTY_STATE, start, events);
    assert Restrict(previous.core, None) == previous.core;
  }

  /** The three runs behind a rebuild: the state before, the same evidence without ticks, and its narrower replay. */
  lemma RebuildRuns(cfg: Config, start: Time, events: seq<Event>, evidence: seq<Event>)
    requires ConfigOk(cfg) && Monotone(start, events)
    requires NarrowerRun(EvidenceIn(None, events), evidence)
    ensures
      var now := Clock(start, events);
      var previous, original, replayed := Run(cfg, EMPTY_STATE, events),
        Run(cfg, EMPTY_STATE, EvidenceIn(None, events)), Run(cfg, EMPTY_STATE, evidence);
      && Inv(cfg, previous, now) && Inv(cfg, original, now) && Inv(cfg, replayed, now)
      && Settle(previous.core, now) == Settle(original.core, now)
      && Dims(original.core, replayed.core) && Unmarked(replayed.jobs)
  {
    EmptyInv(cfg, start);
    EvidenceAlone(cfg, start, events);
    var now, replayEvents := Clock(start, events), EvidenceIn(None, events);
    EvidenceMonotone(None, start, start, events);
    NarrowerMonotone(start, replayEvents, evidence);
    RunKeepsInv(cfg, EMPTY_STATE, start, replayEvents);
    RunKeepsInv(cfg, EMPTY_STATE, start, evidence);
    CoreInvLater(cfg.iface, Run(cfg, EMPTY_STATE, evidence).core, Clock(start, evidence), now);
    EvidenceLeavesUnmarked(cfg, EMPTY_STATE, start, evidence);
    RunDims(cfg, EMPTY_CORE, EMPTY_CORE, replayEvents, evidence);
  }

  /** Rebuild agrees with the incremental engine: after any monotone run, rebuilding from the run's own evidence,
      eligible for notification no wider than it was, and then ticking, gives the very state that ticking alone gives:
      the same trackers and incidents, the same jobs, and the delivery fields of every old job. */
  lemma RebuildAgrees(cfg: Config, start: Time, events: seq<Event>, evidence: seq<Event>, end: Time)
    requires ConfigOk(cfg) && Monotone(start, events) && Clock(start, events) <= end
    requires NarrowerRun(EvidenceIn(None, events), evidence)
    ensures
      var previous := Run(cfg, EMPTY_STATE, events);
      Settled(cfg.iface, Rebuilt(cfg, previous, evidence), end) == Settled(cfg.iface, previous, end)
  {
    RebuildRuns(cfg, start, events, evidence);
    var now := Clock(start, events);
    var previous := Run(cfg, EMPTY_STATE, events);
    var original := Run(cfg, EMPTY_STATE, EvidenceIn(None, events));
    var replayed := Run(cfg, EMPTY_STATE, evidence);
    MergeRestores(cfg.iface, now, previous.core, original.core, replayed.core);
    SettleKeys(previous.core, now);
    SettleKeys(original.core, now);
    RebuiltJobs(cfg, previous, now, original.core, replayed);
    SettledRebuild(cfg, previous, Rebuilt(cfg, previous, evidence), now, end);
  }
}
