/** Which records may cause a notification, and that nothing else does. */
module Eligibility {
  import opened Wrappers
  import opened IncidentState
  import opened Invariant
  import opened TimerLoop
  import opened Observing
  import opened Runs
  import opened Rebuilding
  import opened AppendReader
  import opened Classification
  import opened AnyState
  import opened EvidenceCases
  import opened Outbox
  import opened Reconciling

  // ---------- incidents that notify ----------

  /** The incident notifies, and did not before. */
  predicate NewlyNotifying(c: Core, c': Core, id: IncidentId) {
    id in c'.incidents && c'.incidents[id].notify && !(id in c.incidents && c.incidents[id].notify)
  }

  /** Offline evidence about the interface that may notify. */
  predicate MayNotify(o: Observation, k: Key) {
    o.notifyEligible && !o.evidence.online && !o.evidence.observeOnly && Key(o.evidence.hostname, o.evidence.iface) == k
  }

  predicate SomeMayNotify(observations: seq<Observation>, k: Key) {
    exists n :: 0 <= n < |observations| && MayNotify(observations[n], k)
  }

  lemma TimersNotifyNothingNew(c: Core, now: Time, id: IncidentId)
    requires Shaped(c)
    ensures !NewlyNotifying(c, Settle(c, now), id)
  {
    if id in c.incidents {
      var k := Key(c.incidents[id].hostname, c.incidents[id].iface);
      if k in c.trackers { assert TrackerOk(c, k); }
    }
  }

  lemma AcceptNotifiesOnly(cfg: Config, c: Core, o: Observation, id: IncidentId)
    requires Shaped(c) && NewlyNotifying(c, AcceptUnlessGated(cfg, c, o), id) && !o.evidence.observeOnly
    ensures MayNotify(o, KeyOf(id))
  {
    AcceptExact(cfg, c, o);
    var k := About(o.evidence);
    BusyOrFree(c, k);
    if k in c.trackers { assert TrackerOk(c, k); }
  }

  /** Only eligible offline evidence about its own interface makes an incident notify. */
  lemma ObservingNotifiesOnly(cfg: Config, c: Core, o: Observation, id: IncidentId)
    requires Shaped(c) && NewlyNotifying(c, ObserveCore(cfg, c, o), id)
    ensures MayNotify(o, KeyOf(id))
  {
    if !Stale(c, o.evidence) && !o.evidence.observeOnly {
      SettleShape(c, o.evidence.at);
      TimersNotifyNothingNew(c, o.evidence.at, id);
      AcceptNotifiesOnly(cfg, Settle(c, o.evidence.at), o, id);
    }
  }

  /** Settling keeps who owns what, as it is what some run of the timers does. */
  lemma SettleShape(c: Core, now: Time)
    requires Shaped(c)
    ensures Shaped(Settle(c, now))
  {
    var s := State(c, map[]);
    var trace, s' := RunExists("", s, now);
    assert Advances("", s, now, s');
    AdvancesToSettled("", s, now, s');
  }

  // ---------- jobs are created for incidents that notify ----------

  predicate Notifying(c: Core, id: IncidentId) {
    id in c.incidents && c.incidents[id].notify
  }

  /** The jobs that are new are about incidents that notified before. */
  ghost predicate NewJobsAbout(c: Core, jobs: map<JobId, Job>, jobs': map<JobId, Job>) {
    forall j :: j in jobs' && j !in jobs ==> Notifying(c, jobs'[j].incidentId)
  }

  lemma FiringNotifiesNothingNew(wan: string, c: Core, now: Time, k: Key, id: IncidentId)
    requires Shaped(c) && LegalPick(wan, c, now, k) && Notifying(FireCore(c, k), id)
    ensures Notifying(c, id)
  {
    FireChanges(wan, c, now, k);
    assert TrackerOk(c, k);
  }

  lemma OpeningIsNotified(wan: string, incidents: map<IncidentId, Incident>, i: Incident, at: Time,
                          choice: Option<IncidentId>, jobs: map<JobId, Job>, j: JobId)
    requires OwnIds(incidents) && i.id in incidents && incidents[i.id] == i
    requires j in OpenJobs(wan, incidents, i, at, choice, jobs) && j !in jobs
    ensures
      var id := OpenJobs(wan, incidents, i, at, choice, jobs)[j].incidentId;
      id in incidents && incidents[id].notify
  {
  }

  lemma FiredJobIsNotified(wan: string, c: Core, now: Time, f: Firing, jobs: map<JobId, Job>, j: JobId)
    requires Shaped(c) && LegalPick(wan, c, now, f.key)
    requires j in FireJobs(wan, c, f, jobs) && j !in jobs
    ensures Notifying(c, FireJobs(wan, c, f, jobs)[j].incidentId)
  {
    FireChanges(wan, c, now, f.key);
    FireKeepsShape(wan, c, now, f.key);
    assert TrackerOk(c, f.key);
    var t := c.trackers[f.key];
    var id, c' := t.incidentId.value, FireCore(c, f.key);
    ShapedOwnIds(c');
    if t.phase == PhasePendingFailure {
      OpeningIsNotified(wan, c'.incidents, c'.incidents[id], DueAt(t, c'.incidents[id]), f.choice, jobs, j);
    }
    FiringNotifiesNothingNew(wan, c, now, f.key, FireJobs(wan, c, f, jobs)[j].incidentId);
  }

  lemma {:induction false} FiringsAnnounce(wan: string, s: State, now: Time, trace: seq<Firing>, s': State)
    requires Shaped(s.core) && Reaches(wan, s, now, trace, s')
    ensures NewJobsAbout(s.core, s.jobs, s'.jobs)
    ensures forall j :: j in s.jobs ==> j in s'.jobs && s'.jobs[j] == s.jobs[j]
    decreases |trace|
  {
    if trace != [] {
      var f := trace[0];
      var next := Fire(wan, s, f);
      FireKeepsShape(wan, s.core, now, f.key);
      FiringsAnnounce(wan, next, now, trace[1..], s');
      FiringAddsOnlyDue(wan, s, now, f);
      forall j | j in s'.jobs && j !in s.jobs ensures Notifying(s.core, s'.jobs[j].incidentId) {
        if j in next.jobs {
          FiredJobIsNotified(wan, s.core, now, f, s.jobs, j);
        } else {
          FiringNotifiesNothingNew(wan, s.core, now, f.key, s'.jobs[j].incidentId);
        }
      }
    }
  }

  lemma ObservingAnnounces(cfg: Config, s: State, o: Observation, s': State)
    requires Shaped(s.core) && Observes(cfg, s, o, s')
    ensures NewJobsAbout(s.core, s.jobs, s'.jobs)
    ensures forall j :: j in s.jobs ==> j in s'.jobs && s'.jobs[j] == s.jobs[j]
  {
    if !Stale(s.core, o.evidence) && !o.evidence.observeOnly {
      var mid :| Advances(cfg.iface, s, o.evidence.at, mid) && s' == mid.(core := AcceptUnlessGated(cfg, mid.core, o));
      var trace :| Reaches(cfg.iface, s, o.evidence.at, trace, mid);
      FiringsAnnounce(cfg.iface, s, o.evidence.at, trace, mid);
    }
  }

  /** What an incident notifies for: it did before, or eligible offline evidence about its interface is among the
      observations. */
  predicate HasCause(c: Core, observations: seq<Observation>, id: IncidentId) {
    Notifying(c, id) || SomeMayNotify(observations, KeyOf(id))
  }

  lemma CauseFromHere(cfg: Config, c: Core, observations: seq<Observation>, id: IncidentId)
    requires Shaped(c) && observations != []
    requires HasCause(ObserveCore(cfg, c, observations[0]), observations[1..], id)
    ensures HasCause(c, observations, id)
  {
    if Notifying(ObserveCore(cfg, c, observations[0]), id) {
      if !Notifying(c, id) {
        ObservingNotifiesOnly(cfg, c, observations[0], id);
        assert MayNotify(observations[0], KeyOf(id));
      }
    } else {
      var n :| 0 <= n < |observations| - 1 && MayNotify(observations[1..][n], KeyOf(id));
      assert MayNotify(observations[n + 1], KeyOf(id));
    }
  }

  /** However late the evidence, an incident notifies, and a job is created, only where there is a cause for it. */
  lemma {:induction false} NotifyingHasCause(cfg: Config, s: State, observations: seq<Observation>, s': State)
    requires ConfigOk(cfg) && Shaped(s.core) && Executes(cfg, s, Events(observations), s')
    ensures forall id :: Notifying(s'.core, id) ==> HasCause(s.core, observations, id)
    ensures forall j :: j in s'.jobs && j !in s.jobs ==> HasCause(s.core, observations, s'.jobs[j].incidentId)
    ensures forall j :: j in s.jobs ==> j in s'.jobs && s'.jobs[j] == s.jobs[j]
    decreases |observations|
  {
    if observations != [] {
      var o := observations[0];
      var mid :| Takes(cfg, s, Observed(o), mid) && Executes(cfg, mid, Events(observations[1..]), s');
      ObservesCore(cfg, s, o, mid);
      ObservingAnnounces(cfg, s, o, mid);
      NotifyingHasCause(cfg, mid, observations[1..], s');
      forall id | HasCause(mid.core, observations[1..], id) ensures HasCause(s.core, observations, id) {
        CauseFromHere(cfg, s.core, observations, id);
      }
    }
  }

  lemma MergedHasCause(replayed: Core, previous: Core, observations: seq<Observation>)
    requires forall id :: Notifying(replayed, id) ==> HasCause(EMPTY_CORE, observations, id)
    ensures forall id :: Notifying(MergeCore(replayed, previous), id) ==> HasCause(previous, observations, id)
  {
    forall id | Notifying(MergeCore(replayed, previous), id) ensures HasCause(previous, observations, id) {
      if !Notifying(previous, id) { assert Notifying(replayed, id); }
    }
  }

  lemma FilledHasCause(wan: string, c: Core, choices: map<IncidentId, Option<IncidentId>>, kept: map<JobId, Job>,
                       jobs: map<JobId, Job>, j: JobId)
    requires OwnIds(c.incidents) && FillsAll(wan, c.incidents, choices, {}, kept, jobs) && j in jobs && j !in kept
    ensures Notifying(c, jobs[j].incidentId)
  {
    var id :| id !in {} && FillsInAs(wan, c.incidents, choices, id, j, jobs[j]);
    assert c.incidents[id].id == id;
  }

  /** The same for a rebuild: what was not known to notify does so only for a cause in the log. */
  lemma RebuiltHasCause(cfg: Config, previous: State, observations: seq<Observation>, s': State)
    requires ConfigOk(cfg) && Rebuilds(cfg, previous, observations, s')
    ensures forall id :: Notifying(s'.core, id) ==> HasCause(previous.core, observations, id)
    ensures forall j :: j in s'.jobs && j !in previous.jobs ==>
      HasCause(previous.core, observations, s'.jobs[j].incidentId)
  {
    var replayed, choices :| RebuildsFrom(cfg, previous, observations, replayed, choices, s');
    NotifyingHasCause(cfg, EMPTY_STATE, observations, replayed);
    MergedHasCause(replayed.core, previous.core, observations);
    RebuildsCore(cfg, previous, observations, s');
    ShapedOwnIds(s'.core);
    var kept := replayed.jobs + SurvivingJobs(previous.jobs, s'.core.incidents);
    forall j | j in s'.jobs && j !in previous.jobs
      ensures HasCause(previous.core, observations, s'.jobs[j].incidentId)
    {
      if j !in kept { FilledHasCause(cfg.iface, s'.core, choices, kept, s'.jobs, j); }
    }
  }

  /** The tracker busy with an incident notifies as it does. */
  lemma BusyNotifiesAlike(c: Core)
    requires Shaped(c)
    ensures forall k, id :: BusyWith(c, k, id) ==> (c.trackers[k].notify <==> c.incidents[id].notify)
  {
    forall k, id | BusyWith(c, k, id) ensures c.trackers[k].notify <==> c.incidents[id].notify {
      assert TrackerOk(c, k);
    }
  }

  /** In a rebuild an incident found again notifies if it did before or if its replay does, and not otherwise; so does
      the tracker busy with it. */
  lemma RebuiltNotifies(cfg: Config, previous: State, observations: seq<Observation>, replayed: State, s': State)
    requires ConfigOk(cfg) && ObservesAll(cfg, EMPTY_STATE, observations, replayed)
    requires Rebuilds(cfg, previous, observations, s')
    ensures s'.core.incidents.Keys == replayed.core.incidents.Keys
    ensures forall id :: id in s'.core.incidents ==>
      (s'.core.incidents[id].notify <==> Notifying(replayed.core, id) || Notifying(previous.core, id))
    ensures forall k, id :: BusyWith(s'.core, k, id) ==>
      (s'.core.trackers[k].notify <==> s'.core.incidents[id].notify)
  {
    ExecutesCore(cfg, EMPTY_STATE, Events(observations), replayed);
    RebuildsCore(cfg, previous, observations, s');
    BusyNotifiesAlike(s'.core);
  }

  // ---------- the records that are news ----------

  /** The record may notify: it is not imported; it is live, that is, read by a worker that had seen the log before, or
      newer than the worker's start; and a rebuild had not read it before: in the partition that changed, it is newer
      than the last checkpoint, in another one it lies past the old cursor. */
  predicate IsNews(ctx: Context, record: StoredRecord) {
    && record.message.transport != "import"
    && (ctx.bootstrapped || ctx.startedAt < record.message.receivedAt)
    && match ctx.changed
       case None => true
       case Some(file) =>
         if record.file == file then 0 != ctx.lastCheckpointAt < record.message.receivedAt
         else record.file !in ctx.cursors || ctx.cursors[record.file].offset < record.offset
  }

  /** Each record is judged by itself, and is eligible exactly when it is news. */
  lemma {:induction false} JudgedExactly(wan: string, ctx: Context, records: seq<StoredRecord>, n: nat)
    requires n < |records| && forall record :: record in records ==> Supported(wan, record)
    ensures
      var o := ObservationsOf(wan, ctx, records)[n];
      && Classify(records[n].message, wan).Some? && o.evidence == Classify(records[n].message, wan).value
      && (o.notifyEligible <==> IsNews(ctx, records[n]))
    decreases n
  {
    assert records[n] in records;
    forall record | record in records[1..] ensures Supported(wan, record) { assert record in records; }
    if n == 0 {
      assert ObservationsOf(wan, ctx, records)[0] == ObservationOf(wan, ctx, records[0]);
    } else {
      JudgedExactly(wan, ctx, records[1..], n - 1);
      assert ObservationsOf(wan, ctx, records)[n] == ObservationsOf(wan, ctx, records[1..])[n - 1];
    }
  }

  /** The record is news of an outage of the interface. */
  predicate IsNewsOf(wan: string, ctx: Context, record: StoredRecord, k: Key) {
    && IsNews(ctx, record) && Classify(record.message, wan).Some?
    && var e := Classify(record.message, wan).value;
       !e.online && !e.observeOnly && Key(e.hostname, e.iface) == k
  }

  ghost predicate HasNewsOf(wan: string, ctx: Context, records: seq<StoredRecord>, k: Key) {
    exists record :: record in records && IsNewsOf(wan, ctx, record, k)
  }

  lemma CauseIsNews(wan: string, ctx: Context, records: seq<StoredRecord>, k: Key)
    requires forall record :: record in records ==> Supported(wan, record)
    requires SomeMayNotify(ObservationsOf(wan, ctx, records), k)
    ensures HasNewsOf(wan, ctx, records, k)
  {
    var n :| 0 <= n < |records| && MayNotify(ObservationsOf(wan, ctx, records)[n], k);
    JudgedExactly(wan, ctx, records, n);
    assert IsNewsOf(wan, ctx, records[n], k);
  }

  /** Where an incident notifies after a pass that did not before, or a job is new, the pass read news of an outage of
      that interface. */
  ghost predicate OnlyForNews(wan: string, ctx: Context, records: seq<StoredRecord>, s: State, s': State) {
    && (forall id :: Notifying(s'.core, id) && !Notifying(s.core, id) ==> HasNewsOf(wan, ctx, records, KeyOf(id)))
    && (forall j :: j in s'.jobs && j !in s.jobs ==>
          var id := s'.jobs[j].incidentId;
          Notifying(s.core, id) || HasNewsOf(wan, ctx, records, KeyOf(id)))
  }

  /** A pass notifies only for news, whether it applies its records or rebuilds from them, and however late they are. */
  lemma PassNotifiesForNews(cfg: Config, ctx: Context, records: seq<StoredRecord>, s: State, s': State)
    requires ConfigOk(cfg) && Shaped(s.core) && forall record :: record in records ==> Supported(cfg.iface, record)
    requires ObservesAll(cfg, s, ObservationsOf(cfg.iface, ctx, records), s')
          || Rebuilds(cfg, s, ObservationsOf(cfg.iface, ctx, records), s')
    ensures OnlyForNews(cfg.iface, ctx, records, s, s')
  {
    var observations := ObservationsOf(cfg.iface, ctx, records);
    if ObservesAll(cfg, s, observations, s') {
      NotifyingHasCause(cfg, s, observations, s');
    } else {
      RebuiltHasCause(cfg, s, observations, s');
    }
    forall k | SomeMayNotify(observations, k) ensures HasNewsOf(cfg.iface, ctx, records, k) {
      CauseIsNews(cfg.iface, ctx, records, k);
    }
  }

  lemma NoNewsIsSilent(cfg: Config, ctx: Context, records: seq<StoredRecord>, s: State, s': State)
    requires ConfigOk(cfg) && Shaped(s.core) && forall record :: record in records ==> Supported(cfg.iface, record)
    requires ObservesAll(cfg, s, ObservationsOf(cfg.iface, ctx, records), s')
          || Rebuilds(cfg, s, ObservationsOf(cfg.iface, ctx, records), s')
    requires forall record :: record in records ==> !IsNews(ctx, record)
    ensures forall id :: Notifying(s'.core, id) ==> Notifying(s.core, id)
    ensures forall j :: j in s'.jobs && j !in s.jobs ==> Notifying(s.core, s'.jobs[j].incidentId)
  {
    PassNotifiesForNews(cfg, ctx, records, s, s');
    forall k ensures !HasNewsOf(cfg.iface, ctx, records, k) {}
  }

  /** Imported history notifies nobody: what it adds is silent. */
  lemma ImportsAreSilent(cfg: Config, ctx: Context, records: seq<StoredRecord>, s: State, s': State)
    requires ConfigOk(cfg) && Shaped(s.core) && forall record :: record in records ==> Supported(cfg.iface, record)
    requires ObservesAll(cfg, s, ObservationsOf(cfg.iface, ctx, records), s')
          || Rebuilds(cfg, s, ObservationsOf(cfg.iface, ctx, records), s')
    requires forall record :: record in records ==> record.message.transport == "import"
    requires forall id :: id in s.core.incidents ==> !s.core.incidents[id].notify
    ensures forall id :: id in s'.core.incidents ==> !s'.core.incidents[id].notify
    ensures s'.jobs.Keys <= s.jobs.Keys
  {
    NoNewsIsSilent(cfg, ctx, records, s, s');
    forall id | id in s'.core.incidents ensures Notifying(s'.core, id) <==> s'.core.incidents[id].notify {}
  }

  /** Read before the rebuild: below the old cursor, or in the changed partition no newer than the last checkpoint. */
  predicate ReadBefore(ctx: Context, file: string, record: StoredRecord) {
    if record.file == file then ctx.lastCheckpointAt == 0 || record.message.receivedAt <= ctx.lastCheckpointAt
    else record.file in ctx.cursors && record.offset <= ctx.cursors[record.file].offset
  }

  /** A rebuild from records read before notifies nothing new. */
  lemma RereadingIsSilent(cfg: Config, ctx: Context, file: string, records: seq<StoredRecord>, previous: State,
                          s': State)
    requires ConfigOk(cfg) && Shaped(previous.core) && ctx.changed == Some(file)
    requires forall record :: record in records ==> Supported(cfg.iface, record) && ReadBefore(ctx, file, record)
    requires Rebuilds(cfg, previous, ObservationsOf(cfg.iface, ctx, records), s')
    ensures forall id :: id in s'.core.incidents && s'.core.incidents[id].notify ==>
      id in previous.core.incidents && previous.core.incidents[id].notify
    ensures forall j :: j in s'.jobs && j !in previous.jobs ==> Notifying(previous.core, s'.jobs[j].incidentId)
  {
    NoNewsIsSilent(cfg, ctx, records, previous, s');
    forall id | id in s'.core.incidents && s'.core.incidents[id].notify ensures Notifying(previous.core, id) {
      assert Notifying(s'.core, id);
    }
  }

  lemma StartNotifies(cfg: Config, c: Core, o: Observation, id: IncidentId)
    requires Shaped(c) && id !in c.incidents && id in AcceptUnlessGated(cfg, c, o).incidents
    ensures
      var i := AcceptUnlessGated(cfg, c, o).incidents[id];
      !o.evidence.online && i.state == StatePendingFailure && i.notify == o.notifyEligible
  {
    AcceptExact(cfg, c, o);
    BusyOrFree(c, About(o.evidence));
  }

  /** A record that starts an outage makes it notify exactly when the record is news. */
  lemma OutageNotifiesIffNews(cfg: Config, ctx: Context, records: seq<StoredRecord>, n: nat, s: State, s': State,
                              id: IncidentId)
    requires ConfigOk(cfg) && Shaped(s.core) && forall record :: record in records ==> Supported(cfg.iface, record)
    requires n < |records| && Observes(cfg, s, ObservationsOf(cfg.iface, ctx, records)[n], s')
    requires id !in s.core.incidents && id in s'.core.incidents
    ensures s'.core.incidents[id].state == StatePendingFailure
    ensures s'.core.incidents[id].notify <==> IsNews(ctx, records[n])
  {
    var o := ObservationsOf(cfg.iface, ctx, records)[n];
    JudgedExactly(cfg.iface, ctx, records, n);
    ObservesCore(cfg, s, o, s');
    SettleShape(s.core, o.evidence.at);
    StartNotifies(cfg, Settle(s.core, o.evidence.at), o, id);
  }

  /** Read off the record: in a pass that had seen the log before and found nothing changed, a live record is news
      whenever it was received; in a first pass, exactly when it was received after the worker's start. */
  lemma LiveIsNews(ctx: Context, record: StoredRecord)
    requires ctx.changed.None? && record.message.transport != "import"
    ensures ctx.bootstrapped ==> IsNews(ctx, record)
    ensures !ctx.bootstrapped ==> (IsNews(ctx, record) <==> record.message.receivedAt > ctx.startedAt)
  {
  }
}
