/** What the engine does in any state, evidence older than a tick included: relations that leave open only the order
    of map iteration, and that are the functions of the other modules where the invariant holds. */
module AnyState {
  import opened Wrappers
  import opened IncidentState
  import opened JobSpec
  import opened Invariant
  import opened TimerLoop
  import opened Observing
  import opened Runs
  import opened Rebuilding

  function Events(observations: seq<Observation>): seq<Event> {
    if observations == [] then [] else [Observed(observations[0])] + Events(observations[1..])
  }

  /** The state after all timers due by the instant fired, in some legal order. */
  ghost predicate Advances(wan: string, s: State, now: Time, s': State) {
    (exists trace :: Reaches(wan, s, now, trace, s')) && NothingDue(s'.core, now)
  }

  /** The state after one observation. */
  ghost predicate Observes(cfg: Config, s: State, o: Observation, s': State) {
    if Stale(s.core, o.evidence) || o.evidence.observeOnly then s' == s.(core := ObserveCore(cfg, s.core, o))
    else exists mid ::
      Advances(cfg.iface, s, o.evidence.at, mid) && s' == mid.(core := AcceptUnlessGated(cfg, mid.core, o))
  }

  /** The state after one event. */
  ghost predicate Takes(cfg: Config, s: State, ev: Event, s': State) {
    match ev
    case Tick(now) => Advances(cfg.iface, s, now, s')
    case Observed(o) => Observes(cfg, s, o, s')
    case _ => s' == Step(cfg, s, ev)
  }

  /** The state after any events, in their order: evidence may be older than what came before it. */
  ghost predicate Executes(cfg: Config, s: State, events: seq<Event>, s': State)
    decreases |events|
  {
    if events == [] then s' == s
    else exists mid :: Takes(cfg, s, events[0], mid) && Executes(cfg, mid, events[1..], s')
  }

  /** The state after a batch, in order. */
  ghost predicate ObservesAll(cfg: Config, s: State, observations: seq<Observation>, s': State) {
    Executes(cfg, s, Events(observations), s')
  }

  lemma {:induction false} ExecutesOneMore(cfg: Config, s: State, events: seq<Event>, mid: State, ev: Event, s': State)
    requires Executes(cfg, s, events, mid) && Takes(cfg, mid, ev, s')
    ensures Executes(cfg, s, events + [ev], s')
    decreases |events|
  {
    if events == [] {
      assert [ev][1..] == [] && Executes(cfg, s', [], s');
    } else {
      var first :| Takes(cfg, s, events[0], first) && Executes(cfg, first, events[1..], mid);
      assert (events + [ev])[1..] == events[1..] + [ev];
      ExecutesOneMore(cfg, first, events[1..], mid, ev, s');
    }
  }

  lemma {:induction false} ExecutesSplit(cfg: Config, s: State, a: seq<Event>, b: seq<Event>, s': State)
    returns (mid: State)
    requires Executes(cfg, s, a + b, s')
    ensures Executes(cfg, s, a, mid) && Executes(cfg, mid, b, s')
    decreases |a|
  {
    if a == [] {
      assert a + b == b;
      mid := s;
    } else {
      assert (a + b)[0] == a[0] && (a + b)[1..] == a[1..] + b;
      var first :| Takes(cfg, s, a[0], first) && Executes(cfg, first, a[1..] + b, s');
      mid := ExecutesSplit(cfg, first, a[1..], b, s');
    }
  }

  lemma {:induction false} EventsSnoc(observations: seq<Observation>, o: Observation)
    ensures Events(observations + [o]) == Events(observations) + [Observed(o)]
    decreases |observations|
  {
    if observations != [] {
      assert (observations + [o])[1..] == observations[1..] + [o];
      EventsSnoc(observations[1..], o);
    }
  }

  lemma ObservesOneMore(cfg: Config, s: State, observations: seq<Observation>, mid: State, o: Observation, s': State)
    requires ObservesAll(cfg, s, observations, mid) && Observes(cfg, mid, o, s')
    ensures ObservesAll(cfg, s, observations + [o], s')
  {
    EventsSnoc(observations, o);
    ExecutesOneMore(cfg, s, Events(observations), mid, Observed(o), s');
  }

  /** Every event can be taken, in any state. */
  lemma TakeExists(cfg: Config, s: State, ev: Event) returns (s': State)
    ensures Takes(cfg, s, ev, s')
  {
    match ev
    case Tick(now) =>
      var trace;
      trace, s' := RunExists(cfg.iface, s, now);
    case Observed(o) =>
      if Stale(s.core, o.evidence) || o.evidence.observeOnly {
        s' := s.(core := ObserveCore(cfg, s.core, o));
      } else {
        var trace, mid := RunExists(cfg.iface, s, o.evidence.at);
        assert Advances(cfg.iface, s, o.evidence.at, mid);
        s' := mid.(core := AcceptUnlessGated(cfg, mid.core, o));
      }
    case _ => s' := Step(cfg, s, ev);
  }

  lemma {:induction false} ExecutionExists(cfg: Config, s: State, events: seq<Event>) returns (s': State)
    ensures Executes(cfg, s, events, s')
    decreases |events|
  {
    if events == [] {
      s' := s;
    } else {
      var mid := TakeExists(cfg, s, events[0]);
      s' := ExecutionExists(cfg, mid, events[1..]);
    }
  }

  // ---------- trackers and incidents, in any order of events ----------

  lemma AdvancesToSettled(wan: string, s: State, now: Time, s': State)
    requires Shaped(s.core) && Advances(wan, s, now, s')
    ensures Shaped(s'.core) && s'.core == Settle(s.core, now)
  {
    var trace :| Reaches(wan, s, now, trace, s');
    CoresConverge(wan, s, now, trace, s');
  }

  lemma ObservesCore(cfg: Config, s: State, o: Observation, s': State)
    requires ConfigOk(cfg) && Shaped(s.core) && Observes(cfg, s, o, s')
    ensures Shaped(s'.core) && s'.core == ObserveCore(cfg, s.core, o)
  {
    if Stale(s.core, o.evidence) {
    } else if o.evidence.observeOnly {
      ArmKeepsShape(s.core, o.evidence);
    } else {
      var mid :| Advances(cfg.iface, s, o.evidence.at, mid) && s' == mid.(core := AcceptUnlessGated(cfg, mid.core, o));
      AdvancesToSettled(cfg.iface, s, o.evidence.at, mid);
      AcceptKeepsShape(cfg, mid.core, o);
    }
  }

  lemma TakesCore(cfg: Config, s: State, ev: Event, s': State)
    requires ConfigOk(cfg) && Shaped(s.core) && Takes(cfg, s, ev, s')
    ensures Shaped(s'.core) && s'.core == StepCore(cfg, s.core, ev)
  {
    match ev
    case Tick(now) => AdvancesToSettled(cfg.iface, s, now, s');
    case Observed(o) => ObservesCore(cfg, s, o, s');
    case _ =>
  }

  /** However late its evidence, an execution has one outcome for trackers and incidents, and keeps who owns what. */
  lemma {:induction false} ExecutesCore(cfg: Config, s: State, events: seq<Event>, s': State)
    requires ConfigOk(cfg) && Shaped(s.core) && Executes(cfg, s, events, s')
    ensures Shaped(s'.core) && s'.core == RunCore(cfg, s.core, events)
    decreases |events|
  {
    if events != [] {
      var mid :| Takes(cfg, s, events[0], mid) && Executes(cfg, mid, events[1..], s');
      TakesCore(cfg, s, events[0], mid);
      ExecutesCore(cfg, mid, events[1..], s');
    }
  }

  // ---------- monotone events ----------

  lemma AdvancesIsSettled(wan: string, s: State, now: Time, s': State)
    requires Advances(wan, s, now, s') && CoreInv(wan, s.core, now)
    ensures s' == Settled(wan, s, now)
  {
    var trace :| Reaches(wan, s, now, trace, s');
    RunsConverge(wan, s, now, trace, s');
  }

  lemma ObservesIsObserve(cfg: Config, s: State, o: Observation, s': State)
    requires Observes(cfg, s, o, s') && CoreInv(cfg.iface, s.core, o.evidence.at)
    ensures s' == Observe(cfg, s, o)
  {
    if !Stale(s.core, o.evidence) && !o.evidence.observeOnly {
      var mid :| Advances(cfg.iface, s, o.evidence.at, mid) && s' == mid.(core := AcceptUnlessGated(cfg, mid.core, o));
      AdvancesIsSettled(cfg.iface, s, o.evidence.at, mid);
    }
  }

  lemma TakesIsStep(cfg: Config, s: State, clock: Time, ev: Event, s': State)
    requires CoreInv(cfg.iface, s.core, clock) && clock <= After(clock, ev) && Takes(cfg, s, ev, s')
    ensures s' == Step(cfg, s, ev)
  {
    CoreInvLater(cfg.iface, s.core, clock, After(clock, ev));
    match ev
    case Tick(now) => AdvancesIsSettled(cfg.iface, s, now, s');
    case Observed(o) => ObservesIsObserve(cfg, s, o, s');
    case _ =>
  }

  /** Monotone events from a state with the invariant have one outcome, jobs included: the run. */
  lemma {:induction false} ExecutesIsRun(cfg: Config, s: State, clock: Time, events: seq<Event>, s': State)
    requires ConfigOk(cfg) && Inv(cfg, s, clock) && Monotone(clock, events) && Executes(cfg, s, events, s')
    ensures s' == Run(cfg, s, events)
    decreases |events|
  {
    if events != [] {
      var mid :| Takes(cfg, s, events[0], mid) && Executes(cfg, mid, events[1..], s');
      TakesIsStep(cfg, s, clock, events[0], mid);
      StepKeepsInv(cfg, s, clock, events[0]);
      ExecutesIsRun(cfg, mid, After(clock, events[0]), events[1..], s');
    }
  }

  // ---------- back-fill and rebuild ----------

  /** Incidents are filed under their own ids. */
  ghost predicate OwnIds(incidents: map<IncidentId, Incident>) {
    forall g :: g in incidents ==> incidents[g].id == g
  }

  lemma ShapedOwnIds(c: Core)
    requires Shaped(c)
    ensures OwnIds(c.incidents)
  {
    forall g | g in c.incidents ensures c.incidents[g].id == g { assert IncidentShaped(g, c.incidents[g]); }
  }

  /** For each fallback consulted, a primary that covers its activation, or none if there is none. */
  ghost predicate LegalChoices(wan: string, incidents: map<IncidentId, Incident>,
                               choices: map<IncidentId, Option<IncidentId>>)
  {
    choices.Keys <= incidents.Keys && forall id :: id in choices ==> LegalFor(wan, incidents, id, choices[id])
  }

  ghost predicate LegalFor(wan: string, incidents: map<IncidentId, Incident>, id: IncidentId,
                           choice: Option<IncidentId>)
    requires id in incidents
  {
    BackfillConsults(wan, incidents[id]) ==>
      LegalChoice(wan, incidents, incidents[id].hostname, incidents[id].activatedAt.value, choice)
  }

  /** Job j comes from the back-fill of incident id. */
  predicate FillsIn(wan: string, incidents: map<IncidentId, Incident>, choices: map<IncidentId, Option<IncidentId>>,
                    id: IncidentId, j: JobId)
  {
    id in incidents && id in choices && Backfills(wan, incidents, incidents[id], choices[id], j)
  }

  /** That job is created as the back-fill of incident id creates it. */
  predicate FillsInAs(wan: string, incidents: map<IncidentId, Incident>, choices: map<IncidentId, Option<IncidentId>>,
                      id: IncidentId, j: JobId, job: Job)
  {
    && FillsIn(wan, incidents, choices, id, j)
    && job == NewJob(j, BackfillAt(wan, incidents, incidents[id], choices[id], j))
  }

  /** jobs' is jobs with the back-fill of the incidents outside rest, and nothing else. */
  ghost predicate FillsAll(wan: string, incidents: map<IncidentId, Incident>,
                           choices: map<IncidentId, Option<IncidentId>>, rest: set<IncidentId>, jobs: map<JobId, Job>,
                           jobs': map<JobId, Job>)
  {
    && (forall j :: j in jobs ==> j in jobs' && jobs'[j] == jobs[j])
    && (forall j, id :: FillsIn(wan, incidents, choices, id, j) && id !in rest ==> j in jobs')
    && (forall j :: j in jobs' && j !in jobs ==>
        exists id :: id !in rest && FillsInAs(wan, incidents, choices, id, j, jobs'[j]))
  }

  /** s' is the replay, merged with what was known, and back-filled with the choices. */
  ghost predicate RebuildsFrom(cfg: Config, previous: State, observations: seq<Observation>, replayed: State,
                               choices: map<IncidentId, Option<IncidentId>>, s': State)
  {
    && ObservesAll(cfg, EMPTY_STATE, observations, replayed)
    && s'.core == MergeCore(replayed.core, previous.core)
    && choices.Keys == s'.core.incidents.Keys && LegalChoices(cfg.iface, s'.core.incidents, choices)
    && FillsAll(cfg.iface, s'.core.incidents, choices, {},
                replayed.jobs + SurvivingJobs(previous.jobs, s'.core.incidents), s'.jobs)
  }

  /** The rebuilt state, with some legal choices. */
  ghost predicate Rebuilds(cfg: Config, previous: State, observations: seq<Observation>, s': State) {
    exists replayed, choices :: RebuildsFrom(cfg, previous, observations, replayed, choices, s')
  }

  /** The back-fill of one more incident. */
  lemma FillsOneMore(wan: string, incidents: map<IncidentId, Incident>, choices: map<IncidentId, Option<IncidentId>>,
                     rest: set<IncidentId>, id: IncidentId, choice: Option<IncidentId>, jobs: map<JobId, Job>,
                     before: map<JobId, Job>, after: map<JobId, Job>)
    requires id in rest && id in incidents && id !in choices && FillsAll(wan, incidents, choices, rest, jobs, before)
    requires forall j :: j in before ==> j in after && after[j] == before[j]
    requires forall j :: j in after <==> j in before || Backfills(wan, incidents, incidents[id], choice, j)
    requires forall j :: j in after && j !in before ==>
      after[j] == NewJob(j, BackfillAt(wan, incidents, incidents[id], choice, j))
    ensures FillsAll(wan, incidents, choices[id := choice], rest - {id}, jobs, after)
  {
    var choices' := choices[id := choice];
    forall j, g | FillsIn(wan, incidents, choices', g, j) && g !in rest - {id} ensures j in after {
      if g != id { assert FillsIn(wan, incidents, choices, g, j) && g !in rest; }
    }
    forall j | j in after && j !in jobs
      ensures exists g :: g !in rest - {id} && FillsInAs(wan, incidents, choices', g, j, after[j])
    {
      if j in before {
        var g :| g !in rest && FillsInAs(wan, incidents, choices, g, j, before[j]);
        assert g !in rest - {id} && FillsInAs(wan, incidents, choices', g, j, after[j]);
      } else {
        assert id !in rest - {id} && FillsInAs(wan, incidents, choices', id, j, after[j]);
      }
    }
  }

  /** Within the invariant a job filled in is a wanted job of its incident, dated as wanted. */
  lemma FillsInWanted(wan: string, c: Core, now: Time, choices: map<IncidentId, Option<IncidentId>>, id: IncidentId,
                      j: JobId)
    requires CoreInv(wan, c, now) && LegalChoices(wan, c.incidents, choices) && id in choices
    ensures FillsIn(wan, c.incidents, choices, id, j) <==> JobIncident(j) == id && Wanted(wan, c.incidents, j)
    ensures FillsIn(wan, c.incidents, choices, id, j) ==>
      BackfillAt(wan, c.incidents, c.incidents[id], choices[id], j) == WantedAt(wan, c.incidents, j)
  {
    assert LegalFor(wan, c.incidents, id, choices[id]);
    BackfillIsWanted(wan, c, now, id, choices[id], j);
  }

  lemma FilledIsWanted(wan: string, c: Core, now: Time, choices: map<IncidentId, Option<IncidentId>>,
                       jobs: map<JobId, Job>, jobs': map<JobId, Job>, j: JobId)
    requires CoreInv(wan, c, now) && choices.Keys == c.incidents.Keys && LegalChoices(wan, c.incidents, choices)
    requires FillsAll(wan, c.incidents, choices, {}, jobs, jobs')
    ensures j in jobs' <==> j in jobs || Wanted(wan, c.incidents, j)
    ensures j in jobs' && j !in jobs ==> jobs'[j] == NewJob(j, WantedAt(wan, c.incidents, j))
  {
    if j in jobs' && j !in jobs {
      var id :| id !in {} && FillsInAs(wan, c.incidents, choices, id, j, jobs'[j]);
      FillsInWanted(wan, c, now, choices, id, j);
    } else if Wanted(wan, c.incidents, j) {
      FillsInWanted(wan, c, now, choices, JobIncident(j), j);
      assert FillsIn(wan, c.incidents, choices, JobIncident(j), j);
    }
  }

  /** Within the invariant the back-fill, whatever its choices, adds exactly the wanted jobs. */
  lemma FillsAllIsGrown(wan: string, c: Core, now: Time, choices: map<IncidentId, Option<IncidentId>>,
                        jobs: map<JobId, Job>, jobs': map<JobId, Job>)
    requires CoreInv(wan, c, now) && choices.Keys == c.incidents.Keys && LegalChoices(wan, c.incidents, choices)
    requires FillsAll(wan, c.incidents, choices, {}, jobs, jobs')
    ensures jobs' == GrownJobs(wan, map[], c.incidents, jobs)
  {
    forall j
      ensures j in jobs' <==> j in jobs || Wanted(wan, c.incidents, j)
      ensures j in jobs' && j !in jobs ==> jobs'[j] == NewJob(j, WantedAt(wan, c.incidents, j))
    {
      FilledIsWanted(wan, c, now, choices, jobs, jobs', j);
    }
    GrownIsUnique(wan, c.incidents, jobs, jobs');
  }

  lemma GrownIsUnique(wan: string, incidents: map<IncidentId, Incident>, jobs: map<JobId, Job>, jobs': map<JobId, Job>)
    requires forall j :: j in jobs' <==> j in jobs || Wanted(wan, incidents, j)
    requires forall j :: j in jobs ==> jobs'[j] == jobs[j]
    requires forall j :: j in jobs' && j !in jobs ==>
      Wanted(wan, incidents, j) && jobs'[j] == NewJob(j, WantedAt(wan, incidents, j))
    ensures jobs' == GrownJobs(wan, map[], incidents, jobs)
  {
    NothingWanted(wan);
    GrownJobsGrow(wan, map[], incidents, jobs);
    JobsGrowUnique(wan, map[], incidents, jobs, jobs', GrownJobs(wan, map[], incidents, jobs));
  }

  /** Rebuilding from monotone evidence gives the rebuilt state of the specification. */
  lemma RebuildsIsRebuilt(cfg: Config, previous: State, clock: Time, observations: seq<Observation>, s': State)
    requires ConfigOk(cfg) && Monotone(clock, Events(observations)) && Rebuilds(cfg, previous, observations, s')
    ensures s' == Rebuilt(cfg, previous, Events(observations))
  {
    var replayed, choices :| RebuildsFrom(cfg, previous, observations, replayed, choices, s');
    EmptyInv(cfg, clock);
    ExecutesIsRun(cfg, EMPTY_STATE, clock, Events(observations), replayed);
    RunKeepsInv(cfg, EMPTY_STATE, clock, Events(observations));
    var end := Clock(clock, Events(observations));
    MergeKeepsInv(cfg.iface, replayed.core, previous.core, end);
    FillsAllIsGrown(cfg.iface, s'.core, end, choices, replayed.jobs + SurvivingJobs(previous.jobs, s'.core.incidents),
                    s'.jobs);
  }

  // ---------- reachable states ----------

  /** Rebuilding has one outcome for trackers and incidents, and keeps who owns what, whatever the log. */
  lemma RebuildsCore(cfg: Config, previous: State, observations: seq<Observation>, s': State)
    requires ConfigOk(cfg) && Rebuilds(cfg, previous, observations, s')
    ensures Shaped(s'.core) && s'.core == MergeCore(RunCore(cfg, EMPTY_CORE, Events(observations)), previous.core)
  {
    var replayed, choices :| RebuildsFrom(cfg, previous, observations, replayed, choices, s');
    ExecutesCore(cfg, EMPTY_STATE, Events(observations), replayed);
    MergeKeepsShape(replayed.core, previous.core);
  }

  /** The engine starts empty, or from a rebuild of whatever log over whatever state. */
  ghost predicate Starting(cfg: Config, s: State) {
    s == EMPTY_STATE || exists previous, observations :: Rebuilds(cfg, previous, observations, s)
  }

  /** In every state that any events lead to, monotone or not, after a rebuild or not, ownership is one to one and
      incidents are filed under their own ids: the missing-incident branches of the engine are dead. */
  lemma ReachableIsWellOwned(cfg: Config, start: State, events: seq<Event>, s: State)
    requires ConfigOk(cfg) && Starting(cfg, start) && Executes(cfg, start, events, s)
    ensures WellOwned(s.core) && OwnIds(s.core.incidents)
  {
    if start != EMPTY_STATE {
      var previous, observations :| Rebuilds(cfg, previous, observations, start);
      RebuildsCore(cfg, previous, observations, start);
    }
    ExecutesCore(cfg, start, events, s);
    ShapedIsWellOwned(s.core);
    ShapedOwnIds(s.core);
  }
}
