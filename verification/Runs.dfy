/** Whole runs of the engine: evidence, clock ticks and delivery marks in any number and order,
    as long as no evidence or tick is older than an earlier one. */
module Runs {
  import opened Wrappers
  import opened IncidentState
  import opened JobSpec
  import opened Invariant
  import opened TimerLoop
  import opened Observing

  datatype Event =
    | Tick(now: Time)
    | Observed(observation: Observation)
    | Sent(job: JobId, adapter: string, externalId: string, sentAt: Time)
    | Failed(job: JobId, message: string, next: Time, permanent: bool)

  function SentJob(job: Job, adapter: string, externalId: string, at: Time): Job {
    job.(sentAt := Some(at), adapter := adapter, externalId := externalId, lastError := "")
  }

  function FailedJob(job: Job, message: string, next: Time, permanent: bool): Job {
    job.(attempts := job.attempts + 1, lastError := message, nextAt := next, permanent := permanent)
  }

  function StepCore(cfg: Config, c: Core, ev: Event): Core {
    match ev
    case Tick(now) => Settle(c, now)
    case Observed(o) => ObserveCore(cfg, c, o)
    case _ => c
  }

  ghost function Step(cfg: Config, s: State, ev: Event): State {
    match ev
    case Tick(now) => Settled(cfg.iface, s, now)
    case Observed(o) => Observe(cfg, s, o)
    case Sent(j, adapter, externalId, at) =>
      if j in s.jobs then s.(jobs := s.jobs[j := SentJob(s.jobs[j], adapter, externalId, at)]) else s
    case Failed(j, message, next, permanent) =>
      if j in s.jobs then s.(jobs := s.jobs[j := FailedJob(s.jobs[j], message, next, permanent)]) else s
  }

  ghost function Run(cfg: Config, s: State, events: seq<Event>): State
    decreases |events|
  {
    if events == [] then s else Run(cfg, Step(cfg, s, events[0]), events[1..])
  }

  function RunCore(cfg: Config, c: Core, events: seq<Event>): Core
    decreases |events|
  {
    if events == [] then c else RunCore(cfg, StepCore(cfg, c, events[0]), events[1..])
  }

  /** The clock after an event. */
  function After(clock: Time, ev: Event): Time {
    match ev
    case Tick(now) => now
    case Observed(o) => o.evidence.at
    case _ => clock
  }

  function Clock(clock: Time, events: seq<Event>): Time
    decreases |events|
  {
    if events == [] then clock else Clock(After(clock, events[0]), events[1..])
  }

  /** No evidence and no tick is older than an earlier one. */
  predicate Monotone(clock: Time, events: seq<Event>)
    decreases |events|
  {
    events == [] || (clock <= After(clock, events[0]) && Monotone(After(clock, events[0]), events[1..]))
  }

  ghost predicate Inv(cfg: Config, s: State, clock: Time) {
    CoreInv(cfg.iface, s.core, clock) && JobsExact(cfg.iface, s)
  }

  lemma MarkKeepsExact(wan: string, s: State, j: JobId, job: Job)
    requires JobsExact(wan, s) && j in s.jobs && JobShape(j, job) && job.createdAt == s.jobs[j].createdAt
    ensures JobsExact(wan, s.(jobs := s.jobs[j := job]))
  {
  }

  lemma TickKeepsInv(cfg: Config, s: State, clock: Time, now: Time)
    requires Inv(cfg, s, clock) && clock <= now
    ensures Inv(cfg, Settled(cfg.iface, s, now), now)
  {
    CoreInvLater(cfg.iface, s.core, clock, now);
    SettledProperties(cfg.iface, s, now);
    JobsGrowKeepsExact(cfg.iface, s, Settled(cfg.iface, s, now));
  }

  lemma StepKeepsInv(cfg: Config, s: State, clock: Time, ev: Event)
    requires ConfigOk(cfg) && Inv(cfg, s, clock) && clock <= After(clock, ev)
    ensures Inv(cfg, Step(cfg, s, ev), After(clock, ev))
    ensures Step(cfg, s, ev).core == StepCore(cfg, s.core, ev)
  {
    match ev
    case Tick(now) => TickKeepsInv(cfg, s, clock, now);
    case Observed(o) => ObserveKeepsInv(cfg, s, clock, o);
    case Sent(j, adapter, externalId, at) =>
      if j in s.jobs { MarkKeepsExact(cfg.iface, s, j, SentJob(s.jobs[j], adapter, externalId, at)); }
    case Failed(j, message, next, permanent) =>
      if j in s.jobs { MarkKeepsExact(cfg.iface, s, j, FailedJob(s.jobs[j], message, next, permanent)); }
  }

  /** Every monotone run keeps the invariant, from any state that has it. */
  lemma {:induction false} RunKeepsInv(cfg: Config, s: State, clock: Time, events: seq<Event>)
    requires ConfigOk(cfg) && Inv(cfg, s, clock) && Monotone(clock, events)
    ensures Inv(cfg, Run(cfg, s, events), Clock(clock, events))
    ensures Run(cfg, s, events).core == RunCore(cfg, s.core, events)
    ensures clock <= Clock(clock, events)
    decreases |events|
  {
    if events != [] {
      StepKeepsInv(cfg, s, clock, events[0]);
      RunKeepsInv(cfg, Step(cfg, s, events[0]), After(clock, events[0]), events[1..]);
    }
  }

  lemma EmptyInv(cfg: Config, clock: Time)
    ensures Inv(cfg, EMPTY_STATE, clock)
  {
  }

  /** Any core with the invariant can be given its exact jobs. */
  ghost function WithJobs(cfg: Config, c: Core): State {
    State(c, GrownJobs(cfg.iface, map[], c.incidents, map[]))
  }

  lemma WithJobsInv(cfg: Config, c: Core, clock: Time)
    requires CoreInv(cfg.iface, c, clock)
    ensures Inv(cfg, WithJobs(cfg, c), clock)
  {
    NothingWanted(cfg.iface);
    GrownJobsGrow(cfg.iface, map[], c.incidents, map[]);
    GrownFromNothing(cfg.iface, WithJobs(cfg, c));
  }

  lemma NothingWanted(wan: string)
    ensures forall j :: !Wanted(wan, map[], j)
  {
  }

  // ---------- what the invariant says to a reader ----------

  /** Within the invariant, two outages overlap exactly when both incidents are down at some instant. */
  lemma OverlapIsSharedInstant(wan: string, c: Core, now: Time, f: IncidentId, p: IncidentId)
    requires CoreInv(wan, c, now) && f in c.incidents && p in c.incidents
    ensures Overlap(c.incidents[f], c.incidents[p]) <==>
      exists at: Time :: Covers(c.incidents[f], at) && Covers(c.incidents[p], at)
  {
    assert IncidentOk(f, c.incidents[f], now) && IncidentOk(p, c.incidents[p], now);
    if Overlap(c.incidents[f], c.incidents[p]) {
      var at := Later(c.incidents[f].activatedAt.value, c.incidents[p].activatedAt.value);
      assert Covers(c.incidents[f], at) && Covers(c.incidents[p], at);
    }
  }

  /** Escalation is interval overlap: after any monotone run, fallback f was escalated because of primary p
      exactly when both were down at one instant, and the job dates from the first such instant. */
  lemma EscalationIsOverlap(cfg: Config, start: Time, events: seq<Event>, f: IncidentId, p: IncidentId)
    requires ConfigOk(cfg) && Monotone(start, events)
    ensures
      var s := Run(cfg, EMPTY_STATE, events);
      var incidents := s.core.incidents;
      && (Escalation(f, p) in s.jobs <==>
            && f in incidents && p in incidents
            && incidents[f].notify && incidents[f].iface != cfg.iface && incidents[p].iface == cfg.iface
            && incidents[f].hostname == incidents[p].hostname
            && exists at: Time :: Covers(incidents[f], at) && Covers(incidents[p], at))
      && (Escalation(f, p) in s.jobs ==>
            && Covers(incidents[f], s.jobs[Escalation(f, p)].createdAt)
            && Covers(incidents[p], s.jobs[Escalation(f, p)].createdAt)
            && forall at: Time :: Covers(incidents[f], at) && Covers(incidents[p], at) ==>
              s.jobs[Escalation(f, p)].createdAt <= at)
  {
    EmptyInv(cfg, start);
    RunKeepsInv(cfg, EMPTY_STATE, start, events);
    var s := Run(cfg, EMPTY_STATE, events);
    if f in s.core.incidents && p in s.core.incidents {
      OverlapIsSharedInstant(cfg.iface, s.core, Clock(start, events), f, p);
    }
  }

  /** No primary incident of the host is down at the instant. */
  ghost predicate NoneCovers(wan: string, incidents: map<IncidentId, Incident>, host: string, at: Time) {
    forall p ::
      p in incidents && incidents[p].hostname == host && incidents[p].iface == wan ==> !Covers(incidents[p], at)
  }

  /** The incident's own opening and closing jobs, read off its outage and those of its host's primary interface. */
  ghost predicate LifecycleJobs(wan: string, s: State, id: IncidentId) {
    var incidents := s.core.incidents;
    var live := id in incidents && incidents[id].notify && incidents[id].activatedAt.Some?;
    && (Lifecycle(id, Opened) in s.jobs <==> live && incidents[id].iface == wan)
    && (Lifecycle(id, FallbackOpened) in s.jobs <==>
          && live && incidents[id].iface != wan
          && NoneCovers(wan, incidents, incidents[id].hostname, incidents[id].activatedAt.value))
    && (Lifecycle(id, Resolved) in s.jobs <==> live && incidents[id].iface == wan && incidents[id].resolvedAt.Some?)
    && (Lifecycle(id, FallbackResolved) in s.jobs <==>
        live && incidents[id].iface != wan && incidents[id].resolvedAt.Some?)
  }

  /** The opening job dates from the activation, the closing job from the resolution. */
  predicate LifecycleDates(s: State, id: IncidentId) {
    forall kind :: kind in {Opened, FallbackOpened, Resolved, FallbackResolved} && Lifecycle(id, kind) in s.jobs ==>
      && id in s.core.incidents
      && Some(s.jobs[Lifecycle(id, kind)].createdAt) ==
           if kind == Resolved || kind == FallbackResolved then
             s.core.incidents[id].resolvedAt
           else
             s.core.incidents[id].activatedAt
  }

  lemma NoPrimaryDown(wan: string, incidents: map<IncidentId, Incident>, host: string, at: Time)
    ensures (forall p :: !PrimaryDown(wan, incidents, host, at, p)) <==> NoneCovers(wan, incidents, host, at)
  {
    forall p ensures PrimaryDown(wan, incidents, host, at, p) <==>
      p in incidents && incidents[p].hostname == host && incidents[p].iface == wan && Covers(incidents[p], at)
    {
    }
  }

  lemma ExactLifecycles(wan: string, s: State, id: IncidentId)
    requires JobsExact(wan, s)
    ensures LifecycleJobs(wan, s, id)
  {
    var incidents := s.core.incidents;
    if id in incidents && incidents[id].activatedAt.Some? {
      NoPrimaryDown(wan, incidents, incidents[id].hostname, incidents[id].activatedAt.value);
    }
    assert forall kind :: Lifecycle(id, kind) in s.jobs <==> Wanted(wan, incidents, Lifecycle(id, kind));
  }

  /** After any monotone run the opened and resolved jobs are exactly those of the notifying incidents
      that were activated and resolved; a fallback is opened on its own only when no primary was down. */
  lemma LifecycleJobsExact(cfg: Config, start: Time, events: seq<Event>, id: IncidentId)
    requires ConfigOk(cfg) && Monotone(start, events)
    ensures LifecycleJobs(cfg.iface, Run(cfg, EMPTY_STATE, events), id)
    ensures LifecycleDates(Run(cfg, EMPTY_STATE, events), id)
  {
    EmptyInv(cfg, start);
    RunKeepsInv(cfg, EMPTY_STATE, start, events);
    ExactLifecycles(cfg.iface, Run(cfg, EMPTY_STATE, events), id);
  }

  /** After any monotone run the missing-incident branches are dead: every busy tracker owns one incident of its
      own host and interface, every unresolved incident has exactly one owner, and every job names
      an activated incident that notifies. */
  lemma StateWellFormed(cfg: Config, start: Time, events: seq<Event>)
    requires ConfigOk(cfg) && Monotone(start, events)
    ensures
      var s := Run(cfg, EMPTY_STATE, events);
      && WellOwned(s.core)
      && (forall j :: j in s.jobs ==>
            && JobShape(j, s.jobs[j])
            && s.jobs[j].incidentId in s.core.incidents
            && s.core.incidents[s.jobs[j].incidentId].notify
            && s.core.incidents[s.jobs[j].incidentId].activatedAt.Some?)
  {
    EmptyInv(cfg, start);
    RunKeepsInv(cfg, EMPTY_STATE, start, events);
    var s := Run(cfg, EMPTY_STATE, events);
    var now := Clock(start, events);
    ShapedIsWellOwned(s.core);
    forall id | id in s.core.incidents ensures IncidentOk(id, s.core.incidents[id], now) {}
  }
}
