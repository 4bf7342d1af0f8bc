/** What the outbox holds and when: jobs are created to be sent, and a failed send is tried again ever later. */
module Outbox {
  import opened Wrappers
  import opened IncidentState
  import opened Observing
  import opened Runs
  import opened Rebuilding
  import opened AnyState
  import opened Delivery

  // ---------- jobs are created to be sent ----------

  /** The job tells of the incident that its id names, nothing was tried yet, and it may be sent from its creation
      on. */
  ghost predicate ToBeSent(j: JobId, job: Job) {
    && job.id == j
    && (match j
        case Lifecycle(id, kind) => job.incidentId == id && job.kind == kind
        case Escalation(fallback, _) => job.incidentId == fallback && job.kind == FallbackEscalated)
    && job.attempts == 0 && job.nextAt == job.createdAt && job.sentAt.None? && !job.permanent
    && job.lastError == "" && job.adapter == "" && job.externalId == ""
    && forall at: Time :: Due(job, at) <==> job.createdAt <= at
  }

  /** The jobs that are new are to be sent, by now at the latest; the old ones are as they were. */
  ghost predicate AddsOnlyDue(jobs: map<JobId, Job>, jobs': map<JobId, Job>, now: Time) {
    && (forall j :: j in jobs ==> j in jobs' && jobs'[j] == jobs[j])
    && (forall j :: j in jobs' && j !in jobs ==> ToBeSent(j, jobs'[j]) && jobs'[j].createdAt <= now)
  }

  lemma NewJobIsToBeSent(j: JobId, at: Time)
    ensures ToBeSent(j, NewJob(j, at)) && NewJob(j, at).createdAt == at
  {
  }

  /** Whatever is new is created at the instant. */
  ghost predicate AddsAt(jobs: map<JobId, Job>, jobs': map<JobId, Job>, at: Time) {
    && (forall j :: j in jobs ==> j in jobs' && jobs'[j] == jobs[j])
    && (forall j :: j in jobs' && j !in jobs ==> jobs'[j] == NewJob(j, at))
  }

  lemma OpeningAddsAt(wan: string, incidents: map<IncidentId, Incident>, i: Incident, at: Time,
                      choice: Option<IncidentId>, jobs: map<JobId, Job>)
    ensures AddsAt(jobs, OpenJobs(wan, incidents, i, at, choice, jobs), at)
  {
    var own := OwnOpenJobs(wan, incidents, i, at, choice, jobs);
    assert AddsAt(jobs, own, at);
    assert AddsAt(own, EscalateFallbacks(wan, incidents, i.hostname, i.id, at, own), at);
  }

  lemma AddedAtIsDue(jobs: map<JobId, Job>, jobs': map<JobId, Job>, at: Time, now: Time)
    requires AddsAt(jobs, jobs', at) && at <= now
    ensures AddsOnlyDue(jobs, jobs', now)
  {
    forall j | j in jobs' && j !in jobs ensures ToBeSent(j, jobs'[j]) && jobs'[j].createdAt <= now {
      NewJobIsToBeSent(j, at);
    }
  }

  lemma FiringAddsAt(wan: string, c: Core, f: Firing, jobs: map<JobId, Job>)
    requires f.key in c.trackers && OwnsIncident(c, c.trackers[f.key])
    ensures AddsAt(jobs, FireJobs(wan, c, f, jobs), DueAt(c.trackers[f.key],
                                                         c.incidents[c.trackers[f.key].incidentId.value]))
  {
    var t := c.trackers[f.key];
    var i := FiredIncident(t, c.incidents[t.incidentId.value]);
    OpeningAddsAt(wan, FireCore(c, f.key).incidents, i, DueAt(t, i), f.choice, jobs);
  }

  /** A timer is picked when it is due, or its incident is missing. */
  lemma PickedIsDue(wan: string, c: Core, now: Time, k: Key)
    requires LegalPick(wan, c, now, k)
    ensures k in c.trackers
    ensures OwnsIncident(c, c.trackers[k]) ==> DueAt(c.trackers[k], c.incidents[c.trackers[k].incidentId.value]) <= now
  {
  }

  /** Whatever the state, a firing adds only jobs to be sent. */
  lemma FiringAddsOnlyDue(wan: string, s: State, now: Time, f: Firing)
    requires LegalFiring(wan, s.core, now, f)
    ensures AddsOnlyDue(s.jobs, Fire(wan, s, f).jobs, now)
  {
    PickedIsDue(wan, s.core, now, f.key);
    var t := s.core.trackers[f.key];
    if OwnsIncident(s.core, t) {
      FiringAddsAt(wan, s.core, f, s.jobs);
      AddedAtIsDue(s.jobs, Fire(wan, s, f).jobs, DueAt(t, s.core.incidents[t.incidentId.value]), now);
    }
  }

  lemma {:induction false} FiringsAddOnlyDue(wan: string, s: State, now: Time, trace: seq<Firing>, s': State)
    requires Reaches(wan, s, now, trace, s')
    ensures AddsOnlyDue(s.jobs, s'.jobs, now)
    decreases |trace|
  {
    if trace != [] {
      FiringAddsOnlyDue(wan, s, now, trace[0]);
      FiringsAddOnlyDue(wan, Fire(wan, s, trace[0]), now, trace[1..], s');
    }
  }

  /** Evidence and ticks up to the instant, and no marks. */
  predicate UpTo(events: seq<Event>, now: Time) {
    forall n :: 0 <= n < |events| ==>
      match events[n]
      case Tick(at) => at <= now
      case Observed(o) => o.evidence.at <= now
      case _ => false
  }

  lemma TakingAddsOnlyDue(cfg: Config, s: State, ev: Event, s': State, now: Time)
    requires UpTo([ev], now) && Takes(cfg, s, ev, s')
    ensures AddsOnlyDue(s.jobs, s'.jobs, now)
  {
    assert [ev][0] == ev;
    match ev
    case Tick(at) =>
      var trace :| Reaches(cfg.iface, s, at, trace, s');
      FiringsAddOnlyDue(cfg.iface, s, at, trace, s');
    case Observed(o) =>
      if !Stale(s.core, o.evidence) && !o.evidence.observeOnly {
        var mid :| Advances(cfg.iface, s, o.evidence.at, mid)
          && s' == mid.(core := AcceptUnlessGated(cfg, mid.core, o));
        var trace :| Reaches(cfg.iface, s, o.evidence.at, trace, mid);
        FiringsAddOnlyDue(cfg.iface, s, o.evidence.at, trace, mid);
      }
  }

  /** Whatever the state and however late its evidence, an execution without marks adds only jobs to be sent. */
  lemma {:induction false} ExecutionAddsOnlyDue(cfg: Config, s: State, events: seq<Event>, s': State, now: Time)
    requires UpTo(events, now) && Executes(cfg, s, events, s')
    ensures AddsOnlyDue(s.jobs, s'.jobs, now)
    decreases |events|
  {
    if events != [] {
      var mid :| Takes(cfg, s, events[0], mid) && Executes(cfg, mid, events[1..], s');
      TakingAddsOnlyDue(cfg, s, events[0], mid, now);
      ExecutionAddsOnlyDue(cfg, mid, events[1..], s', now);
    }
  }

  lemma {:induction false} EventsUpTo(observations: seq<Observation>, now: Time)
    requires forall n :: 0 <= n < |observations| ==> observations[n].evidence.at <= now
    ensures UpTo(Events(observations), now)
    decreases |observations|
  {
    if observations != [] { EventsUpTo(observations[1..], now); }
  }

  lemma LatestOf(observations: seq<Observation>) returns (now: Time)
    ensures forall n :: 0 <= n < |observations| ==> observations[n].evidence.at <= now
  {
    now := 0;
    for n := 0 to |observations|
      invariant forall m :: 0 <= m < n ==> observations[m].evidence.at <= now
    {
      if observations[n].evidence.at > now { now := observations[n].evidence.at; }
    }
  }

  /** The primary went down while the fallback was down. */
  predicate WentDownDuring(wan: string, primary: Incident, fallback: Incident) {
    && primary.hostname == fallback.hostname && primary.iface == wan
    && primary.activatedAt.Some? && fallback.activatedAt.Some?
    && fallback.activatedAt.value < primary.activatedAt.value
    && (fallback.resolvedAt.None? || primary.activatedAt.value < fallback.resolvedAt.value)
  }

  /** Which jobs a rebuild fills in for an incident, told by the job, whatever the state: the opening one of a primary;
      of a fallback its own if no primary was found down, and else the escalation by that one; the closing one of a
      resolved incident; and the escalations by primaries that went down meanwhile. */
  lemma BackfillExact(wan: string, incidents: map<IncidentId, Incident>, i: Incident, found: Option<IncidentId>,
                      j: JobId)
    ensures Backfills(wan, incidents, i, found, j) <==>
      && i.notify && i.activatedAt.Some? && JobIncident(j) == i.id
      && match j
         case Lifecycle(_, Opened) => i.iface == wan
         case Lifecycle(_, FallbackOpened) => i.iface != wan && found.None?
         case Lifecycle(_, Resolved) => i.iface == wan && i.state == StateResolved && i.resolvedAt.Some?
         case Lifecycle(_, FallbackResolved) => i.iface != wan && i.state == StateResolved && i.resolvedAt.Some?
         case Lifecycle(_, FallbackEscalated) => false
         case Escalation(_, p) =>
           i.iface != wan && (found == Some(p) || (p in incidents && WentDownDuring(wan, incidents[p], i)))
    ensures Backfills(wan, incidents, i, found, j) ==>
      BackfillAt(wan, incidents, i, found, j) ==
        match j
        case Lifecycle(_, kind) => if kind in {Opened, FallbackOpened} then i.activatedAt.value else i.resolvedAt.value
        case Escalation(_, p) => if found == Some(p) then i.activatedAt.value else incidents[p].activatedAt.value
  {
  }

  /** The job is one from before, whose incident is still there. */
  predicate Survives(previous: map<JobId, Job>, incidents: map<IncidentId, Incident>, j: JobId, job: Job) {
    j in previous && job == previous[j] && job.incidentId in incidents
  }

  /** Each job is kept from before with its incident, or is to be sent; and all such jobs are kept. */
  ghost predicate Kept(previous: map<JobId, Job>, kept: map<JobId, Job>, incidents: map<IncidentId, Incident>) {
    && (forall j :: j in kept ==> Survives(previous, incidents, j, kept[j]) || ToBeSent(j, kept[j]))
    && (forall j :: j in previous && previous[j].incidentId in incidents ==> j in kept && kept[j] == previous[j])
  }

  lemma ReplayedIsKept(previous: map<JobId, Job>, replayed: map<JobId, Job>, incidents: map<IncidentId, Incident>,
                       now: Time)
    requires AddsOnlyDue(map[], replayed, now)
    ensures Kept(previous, replayed + SurvivingJobs(previous, incidents), incidents)
  {
  }

  lemma FilledIsKept(wan: string, previous: map<JobId, Job>, kept: map<JobId, Job>,
                     incidents: map<IncidentId, Incident>, choices: map<IncidentId, Option<IncidentId>>,
                     jobs: map<JobId, Job>)
    requires Kept(previous, kept, incidents) && FillsAll(wan, incidents, choices, {}, kept, jobs)
    ensures Kept(previous, jobs, incidents)
  {
    forall j | j in jobs ensures Survives(previous, incidents, j, jobs[j]) || ToBeSent(j, jobs[j]) {
      if j !in kept {
        var id :| id !in {} && FillsInAs(wan, incidents, choices, id, j, jobs[j]);
        NewJobIsToBeSent(j, BackfillAt(wan, incidents, incidents[id], choices[id], j));
      }
    }
  }

  /** A rebuild keeps the jobs of the incidents it finds again as they were, and no others; what it adds is to be
      sent. */
  lemma RebuildAddsOnlyDue(cfg: Config, previous: State, observations: seq<Observation>, s: State)
    requires Rebuilds(cfg, previous, observations, s)
    ensures forall j :: j in s.jobs ==>
      Survives(previous.jobs, s.core.incidents, j, s.jobs[j]) || ToBeSent(j, s.jobs[j])
    ensures forall j :: j in previous.jobs && previous.jobs[j].incidentId in s.core.incidents ==>
      j in s.jobs && s.jobs[j] == previous.jobs[j]
  {
    var replayed, choices :| RebuildsFrom(cfg, previous, observations, replayed, choices, s);
    var now := LatestOf(observations);
    EventsUpTo(observations, now);
    ExecutionAddsOnlyDue(cfg, EMPTY_STATE, Events(observations), replayed, now);
    ReplayedIsKept(previous.jobs, replayed.jobs, s.core.incidents, now);
    FilledIsKept(cfg.iface, previous.jobs, replayed.jobs + SurvivingJobs(previous.jobs, s.core.incidents),
                 s.core.incidents, choices, s.jobs);
  }

  /** Whatever evidence and ticks the engine has seen from its start on, and however late, every job there is due now,
      and the queue of a dispatch now holds them all. */
  lemma EveryJobIsQueued(cfg: Config, events: seq<Event>, s: State, now: Time, items: seq<Job>)
    requires UpTo(events, now) && Executes(cfg, EMPTY_STATE, events, s)
    requires Queued(s.jobs, items, now)
    ensures forall j :: j in s.jobs ==> Due(s.jobs[j], now) && s.jobs[j] in items
  {
    ExecutionAddsOnlyDue(cfg, EMPTY_STATE, events, s, now);
    forall j | j in s.jobs ensures Due(s.jobs[j], now) && s.jobs[j] in items {
      assert ToBeSent(j, s.jobs[j]);
      var n :| 0 <= n < |items| && items[n].id == j;
    }
  }

  // ---------- what becomes of them ----------

  /** What an outcome leaves alone, and what it records: the receipt of a delivery; otherwise one more attempt, the
      error, and when to try again, if ever. */
  lemma OutcomeExact(known: bool, before: Job, after: Job, send: SendOutcome, now: Time)
    requires Outcome(known, before, after, send, now)
    ensures after.id == before.id && after.incidentId == before.incidentId && after.kind == before.kind
      && after.createdAt == before.createdAt
    ensures known && send.Delivered? ==>
      && after.sentAt == Some(now) && after.adapter == send.adapter && after.externalId == send.externalId
      && after.lastError == "" && after.attempts == before.attempts && after.nextAt == before.nextAt
      && after.permanent == before.permanent
    ensures !known || send.NotDelivered? ==>
      && after.attempts == before.attempts + 1
      && after.sentAt == before.sentAt && after.adapter == before.adapter && after.externalId == before.externalId
      && after.lastError == if known then send.message else "incident not found"
    ensures !known ==> after.permanent && after.nextAt == now
    ensures known && send.NotDelivered? ==>
      && (after.permanent <==> send.permanent)
      && (send.retryAfter > 0 ==> after.nextAt == now + send.retryAfter)
  {
  }

  /** A job that was delivered or failed for good is never due again; one that is to be retried is due exactly from then
      on. */
  lemma DueAgainExact(known: bool, before: Job, after: Job, send: SendOutcome, now: Time, at: Time)
    requires Outcome(known, before, after, send, now) && Due(before, now)
    ensures Due(after, at) <==> known && send.NotDelivered? && !send.permanent && after.nextAt <= at
    ensures Due(after, at) ==> now < at
  {
  }

  /** When the notifier accepts every job, and every outcome can be saved, a dispatch leaves each job that was due with
      its receipt, delivers it once, and leaves the others alone. */
  lemma AllAreSent(jobs: map<JobId, Job>, jobs': map<JobId, Job>, done: set<JobId>, delivered: seq<JobId>, w: World,
                   j: JobId)
    requires Handled(jobs, jobs', done, delivered, w) && forall k :: k in jobs' ==> !Due(jobs'[k], w.now)
    requires forall k :: k in jobs ==> jobs[k].incidentId in w.incidents && AnswerOf(w.sends, k).Delivered?
    requires j in jobs
    ensures j in jobs' && (if Due(jobs[j], w.now) then jobs'[j].sentAt == Some(w.now) else jobs'[j] == jobs[j])
    ensures Due(jobs[j], w.now) <==> j in delivered
    ensures forall m, n :: 0 <= m < n < |delivered| ==> delivered[m] != delivered[n]
  {
    if Due(jobs[j], w.now) { assert j in done; }
  }

  /** The first retry waits a minute, each later one twice as long, up to an hour. */
  lemma BackoffDoubles(n: nat)
    requires n > 0
    ensures BackoffMinutes(1) == 1
    ensures BackoffMinutes(n + 1) == if 2 * BackoffMinutes(n) < 60 then 2 * BackoffMinutes(n) else 60
  {
    Pow2Positive(n - 1);
  }

  /** A failed send: when, and what the notifier said. */
  datatype Failure = Failure(at: Time, message: string, permanent: bool, retryAfter: Time)

  /** The job after sends that failed one after the other, its incident known. */
  ghost predicate FailedInARow(before: Job, failures: seq<Failure>, after: Job)
    decreases |failures|
  {
    if failures == [] then after == before
    else
      var last := failures[|failures| - 1];
      exists mid :: FailedInARow(before, failures[..|failures| - 1], mid)
        && Outcome(true, mid, after, NotDelivered(last.message, last.permanent, last.retryAfter), last.at)
  }

  /** So many minutes, give or take a tenth. */
  predicate WaitsAbout(minutes: int, wait: Time) {
    9 * minutes * 60_000_000_000 <= 10 * wait <= 11 * minutes * 60_000_000_000
  }

  /** How many minutes the n-th failure in a row makes a job wait. */
  lemma {:induction false} BackoffTable(n: nat)
    requires n > 0
    ensures BackoffMinutes(n) == if n <= 6 then [1, 2, 4, 8, 16, 32][n - 1] else 60
    decreases n
  {
    if n > 1 {
      BackoffTable(n - 1);
      BackoffDoubles(n - 1);
    }
  }

  /** After n failures in a row the job counts n attempts more. Unless the notifier asked for its own delay, a job that
      was new waits 1, 2, 4, 8, 16, 32 minutes and then an hour each time. */
  lemma {:induction false} BackoffAfterFailures(before: Job, failures: seq<Failure>, after: Job)
    requires FailedInARow(before, failures, after)
    ensures after.attempts == before.attempts + |failures|
    ensures failures != [] && before.attempts == 0 && failures[|failures| - 1].retryAfter <= 0 ==>
      WaitsAbout(if |failures| <= 6 then [1, 2, 4, 8, 16, 32][|failures| - 1] else 60,
                 after.nextAt - failures[|failures| - 1].at)
    ensures failures != [] && failures[|failures| - 1].retryAfter > 0 ==>
      after.nextAt == failures[|failures| - 1].at + failures[|failures| - 1].retryAfter
    decreases |failures|
  {
    if failures != [] {
      var rest, last := failures[..|failures| - 1], failures[|failures| - 1];
      var send := NotDelivered(last.message, last.permanent, last.retryAfter);
      var mid :| FailedInARow(before, rest, mid) && Outcome(true, mid, after, send, last.at);
      BackoffAfterFailures(before, rest, mid);
      BackoffTable(mid.attempts + 1);
    }
  }
}
