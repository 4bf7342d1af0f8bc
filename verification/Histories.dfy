/** What histories of evidence do to one incident: the debounces, exactly, and the thresholds it keeps. */
module Histories {
  import opened Wrappers
  import opened IncidentState
  import opened Invariant
  import opened TimerLoop
  import opened Observing
  import opened Runs

  // ---------- one key at a time ----------

  /** The two states agree about one key: its tracker and its incidents. */
  ghost predicate SameAt(c: Core, c': Core, k: Key) {
    && TrackerAt(c', k) == TrackerAt(c, k) && (k in c'.trackers <==> k in c.trackers)
    && (forall id :: KeyOf(id) == k ==> (id in c'.incidents <==> id in c.incidents))
    && (forall id :: KeyOf(id) == k && id in c.incidents ==> c'.incidents[id] == c.incidents[id])
  }

  lemma StepElsewhere(c: Core, c': Core, k: Key, id: IncidentId, now: Time, other: Key)
    requires EvidenceStep(c, c', k, id, now) && other != k
    ensures SameAt(c, c', other)
  {
  }

  /** Evidence about another key is, for this key, a tick or nothing. */
  lemma ObserveElsewhere(cfg: Config, c: Core, clock: Time, o: Observation, k: Key)
    requires ConfigOk(cfg) && CoreInv(cfg.iface, c, clock) && clock <= o.evidence.at && EvidenceKey(o.evidence) != k
    ensures SameAt(c, ObserveCore(cfg, c, o), k) || SameAt(Settle(c, o.evidence.at), ObserveCore(cfg, c, o), k)
  {
    var e := o.evidence;
    if Stale(c, e) {
    } else if e.observeOnly {
      assert SameAt(c, ArmTracker(c, e), k);
    } else {
      CoreInvLater(cfg.iface, c, clock, e.at);
      SettleKeepsInv(cfg.iface, c, e.at);
      var c1 := Settle(c, e.at);
      if Gated(cfg, c1, e) {
        assert SameAt(c1, c1, k);
      } else {
        AcceptIsEvidenceStep(cfg, c1, e.at, o);
        StepElsewhere(c1, Accept(cfg, c1, o), EvidenceKey(e), SubjectOf(c1, e), e.at, k);
      }
    }
  }

  /** The evidence changes its tracker: it is not stale, not observe-only and not gated. */
  predicate Accepts(cfg: Config, c: Core, o: Observation) {
    !Stale(c, o.evidence) && !o.evidence.observeOnly && !Gated(cfg, Settle(c, o.evidence.at), o.evidence)
  }

  /** The event is accepted evidence of the given polarity about the key, before the deadline. */
  predicate Breaks(cfg: Config, c: Core, ev: Event, k: Key, online: bool, deadline: Time) {
    && ev.Observed?
    && EvidenceKey(ev.observation.evidence) == k
    && ev.observation.evidence.online == online
    && ev.observation.evidence.at < deadline
    && Accepts(cfg, c, ev.observation)
  }

  /** No event of the run breaks the debounce. */
  predicate Sustained(cfg: Config, c: Core, events: seq<Event>, k: Key, online: bool, deadline: Time)
    decreases |events|
  {
    events == [] ||
    (!Breaks(cfg, c, events[0], k, online, deadline)
     && Sustained(cfg, StepCore(cfg, c, events[0]), events[1..], k, online, deadline))
  }

  /** What comes next is later than the instant. */
  predicate PastInstant(clock: Time, events: seq<Event>, since: Time) {
    events == [] || since < After(clock, events[0])
  }

  /** Evidence of the given polarity about the key, dated no later than since, is accepted before the deadline. */
  predicate BreaksWithin(cfg: Config, c: Core, clock: Time, events: seq<Event>, k: Key, online: bool, since: Time,
                         due: Time)
    decreases |events|
  {
    && !PastInstant(clock, events, since)
    && (|| Breaks(cfg, c, events[0], k, online, due)
        || BreaksWithin(cfg, StepCore(cfg, c, events[0]), After(clock, events[0]), events[1..], k, online, since, due))
  }

  lemma CoreStepKeepsInv(cfg: Config, c: Core, clock: Time, ev: Event)
    requires ConfigOk(cfg) && CoreInv(cfg.iface, c, clock) && clock <= After(clock, ev)
    ensures CoreInv(cfg.iface, StepCore(cfg, c, ev), After(clock, ev))
  {
    WithJobsInv(cfg, c, clock);
    StepKeepsInv(cfg, WithJobs(cfg, c), clock, ev);
  }

  // ---------- failure debounce ----------

  /** Incident id of key k is in its failure debounce with the given deadline, or was activated at that deadline. */
  predicate FailingUntil(c: Core, k: Key, id: IncidentId, due: Time) {
    && KeyOf(id) == k && id in c.incidents
    && (|| (OwnedBy(c, id, k) && c.trackers[k].phase == PhasePendingFailure
            && DueAt(c.trackers[k], c.incidents[id]) == due)
        || c.incidents[id].activatedAt == Some(due))
  }

  lemma FailingThroughSettle(wan: string, c: Core, clock: Time, t: Time, k: Key, id: IncidentId, due: Time)
    requires CoreInv(wan, c, clock) && FailingUntil(c, k, id, due)
    ensures FailingUntil(Settle(c, t), k, id, due)
    ensures due <= t ==> Settle(c, t).incidents[id].activatedAt == Some(due)
  {
    assert IncidentOk(id, c.incidents[id], clock);
    if k in c.trackers { assert TrackerOk(c, k); }
  }

  lemma FailingThroughAccept(cfg: Config, c: Core, o: Observation, k: Key, id: IncidentId, due: Time)
    requires ConfigOk(cfg) && CoreInv(cfg.iface, c, o.evidence.at) && NothingDue(c, o.evidence.at)
    requires FailingUntil(c, k, id, due) && EvidenceKey(o.evidence) == k
    requires o.evidence.online ==> due <= o.evidence.at
    ensures FailingUntil(Accept(cfg, c, o), k, id, due)
  {
    AcceptIsEvidenceStep(cfg, c, o.evidence.at, o);
    assert IncidentOk(id, c.incidents[id], o.evidence.at);
    if k in c.trackers { assert TrackerOk(c, k) && !DueBy(c, k, o.evidence.at); }
  }

  lemma FailingThroughStep(cfg: Config, c: Core, clock: Time, ev: Event, k: Key, id: IncidentId, due: Time)
    requires ConfigOk(cfg) && CoreInv(cfg.iface, c, clock) && clock <= After(clock, ev)
    requires FailingUntil(c, k, id, due) && !Breaks(cfg, c, ev, k, true, due)
    ensures FailingUntil(StepCore(cfg, c, ev), k, id, due)
  {
    match ev
    case Tick(now) => FailingThroughSettle(cfg.iface, c, clock, now, k, id, due);
    case Observed(o) =>
      var at := o.evidence.at;
      FailingThroughSettle(cfg.iface, c, clock, at, k, id, due);
      if EvidenceKey(o.evidence) != k {
        ObserveElsewhere(cfg, c, clock, o, k);
      } else if Accepts(cfg, c, o) {
        CoreInvLater(cfg.iface, c, clock, at);
        SettleKeepsInv(cfg.iface, c, at);
        FailingThroughAccept(cfg, Settle(c, at), o, k, id, due);
      }
    case _ =>
  }

  lemma {:induction false} FailingThroughRun(cfg: Config, c: Core, clock: Time, events: seq<Event>, k: Key,
                                             id: IncidentId, due: Time)
    requires ConfigOk(cfg) && CoreInv(cfg.iface, c, clock) && Monotone(clock, events)
    requires FailingUntil(c, k, id, due) && Sustained(cfg, c, events, k, true, due)
    ensures CoreInv(cfg.iface, RunCore(cfg, c, events), Clock(clock, events))
    ensures FailingUntil(RunCore(cfg, c, events), k, id, due)
    decreases |events|
  {
    if events != [] {
      CoreStepKeepsInv(cfg, c, clock, events[0]);
      FailingThroughStep(cfg, c, clock, events[0], k, id, due);
      FailingThroughRun(cfg, StepCore(cfg, c, events[0]), After(clock, events[0]), events[1..], k, id, due);
    }
  }

  /** No evidence in the list would start an incident under this id (again). */
  predicate NeverStarts(events: seq<Event>, id: IncidentId) {
    forall n :: 0 <= n < |events| && events[n].Observed? ==> NewIncidentId(events[n].observation.evidence) != id
  }

  lemma GoneStaysGone(cfg: Config, c: Core, clock: Time, ev: Event, id: IncidentId)
    requires ConfigOk(cfg) && CoreInv(cfg.iface, c, clock) && clock <= After(clock, ev)
    requires id !in c.incidents && (ev.Observed? ==> NewIncidentId(ev.observation.evidence) != id)
    ensures id !in StepCore(cfg, c, ev).incidents
  {
    if ev.Observed? {
      var at := ev.observation.evidence.at;
      CoreInvLater(cfg.iface, c, clock, at);
      SettleKeepsInv(cfg.iface, c, at);
      AcceptIsEvidenceStep(cfg, Settle(c, at), at, ev.observation);
      var k := EvidenceKey(ev.observation.evidence);
      if k in Settle(c, at).trackers { assert TrackerOk(Settle(c, at), k); }
    }
  }

  lemma {:induction false} GoneForGood(cfg: Config, c: Core, clock: Time, events: seq<Event>, id: IncidentId)
    requires ConfigOk(cfg) && CoreInv(cfg.iface, c, clock) && Monotone(clock, events)
    requires id !in c.incidents && NeverStarts(events, id)
    ensures id !in RunCore(cfg, c, events).incidents
    decreases |events|
  {
    if events != [] {
      CoreStepKeepsInv(cfg, c, clock, events[0]);
      GoneStaysGone(cfg, c, clock, events[0], id);
      GoneForGood(cfg, StepCore(cfg, c, events[0]), After(clock, events[0]), events[1..], id);
    }
  }

  /** Accepted online evidence before the deadline removes the incident at once. */
  lemma BreakCancels(cfg: Config, c: Core, clock: Time, ev: Event, k: Key, id: IncidentId, due: Time)
    requires ConfigOk(cfg) && CoreInv(cfg.iface, c, clock) && clock <= After(clock, ev)
    requires FailingUntil(c, k, id, due) && c.incidents[id].activatedAt.None? && Breaks(cfg, c, ev, k, true, due)
    ensures id !in StepCore(cfg, c, ev).incidents && Idle(TrackerAt(StepCore(cfg, c, ev), k))
  {
    var at := ev.observation.evidence.at;
    assert IncidentOk(id, c.incidents[id], clock) && TrackerOk(c, k);
    assert !DueBy(c, k, at);
    assert Settle(c, at).trackers[k] == c.trackers[k];
  }

  /** Once the deadline has passed nothing can break the debounce. */
  lemma {:induction false} ActivatedIsSustained(cfg: Config, c: Core, clock: Time, events: seq<Event>, k: Key,
                                                id: IncidentId, due: Time)
    requires ConfigOk(cfg) && CoreInv(cfg.iface, c, clock) && Monotone(clock, events)
    requires id in c.incidents && c.incidents[id].activatedAt == Some(due)
    ensures Sustained(cfg, c, events, k, true, due)
    decreases |events|
  {
    assert IncidentOk(id, c.incidents[id], clock);
    PastDeadlineSustained(cfg, c, clock, events, k, true, due);
  }

  lemma {:induction false} PastDeadlineSustained(cfg: Config, c: Core, clock: Time, events: seq<Event>, k: Key,
                                                 online: bool, due: Time)
    requires Monotone(clock, events) && due <= clock
    ensures Sustained(cfg, c, events, k, online, due)
    decreases |events|
  {
    if events != [] {
      PastDeadlineSustained(cfg, StepCore(cfg, c, events[0]), After(clock, events[0]), events[1..], k, online, due);
    }
  }

  /** Where the failure debounce of an incident leads: as long as no online evidence is accepted before its deadline the
      incident stays, and is activated at the deadline; otherwise it is gone, unless it could start again. */
  lemma {:induction false} FailingOutcome(cfg: Config, c: Core, clock: Time, events: seq<Event>, k: Key,
                                          id: IncidentId, due: Time, end: Time)
    requires ConfigOk(cfg) && CoreInv(cfg.iface, c, clock) && Monotone(clock, events) && Clock(clock, events) <= end
    requires FailingUntil(c, k, id, due) && NeverStarts(events, id)
    ensures
      var reached := Settle(RunCore(cfg, c, events), end);
      if Sustained(cfg, c, events, k, true, due) then
        && FailingUntil(reached, k, id, due)
        && (due <= end ==> reached.incidents[id].activatedAt == Some(due))
      else
        id !in reached.incidents
    decreases |events|
  {
    if Sustained(cfg, c, events, k, true, due) {
      FailingThroughRun(cfg, c, clock, events, k, id, due);
      FailingThroughSettle(cfg.iface, RunCore(cfg, c, events), Clock(clock, events), end, k, id, due);
    } else {
      var ev, c' := events[0], StepCore(cfg, c, events[0]);
      CoreStepKeepsInv(cfg, c, clock, ev);
      if c.incidents[id].activatedAt == Some(due) {
        ActivatedIsSustained(cfg, c, clock, events, k, id, due);
      } else if Breaks(cfg, c, ev, k, true, due) {
        assert TrackerOk(c, k);
        BreakCancels(cfg, c, clock, ev, k, id, due);
        GoneForGood(cfg, c', After(clock, ev), events[1..], id);
      } else {
        FailingThroughStep(cfg, c, clock, ev, k, id, due);
        FailingOutcome(cfg, c', After(clock, ev), events[1..], k, id, due, end);
      }
    }
  }

  /** The deadline an incident has, or had. */
  function DeadlineOf(i: Incident): Time { i.startedAt + i.downAfter }

  lemma FailsByDeadline(wan: string, c: Core, clock: Time, id: IncidentId)
    requires CoreInv(wan, c, clock) && id in c.incidents
    ensures FailingUntil(c, KeyOf(id), id, DeadlineOf(c.incidents[id]))
    ensures forall due :: FailingUntil(c, KeyOf(id), id, due) ==> due == DeadlineOf(c.incidents[id])
  {
    assert IncidentOk(id, c.incidents[id], clock);
    if c.incidents[id].activatedAt.None? { assert OwnedBy(c, id, KeyOf(id)); }
    if KeyOf(id) in c.trackers { assert TrackerOk(c, KeyOf(id)); }
  }

  /** Past the instant an incident starts in, nothing starts it again. */
  lemma {:induction false} PastNeverStarts(clock: Time, events: seq<Event>, id: IncidentId)
    requires Monotone(clock, events) && PastInstant(clock, events, id.started)
    ensures NeverStarts(events, id)
    decreases |events|
  {
    if events != [] {
      var later := After(clock, events[0]);
      PastNeverStarts(later, events[1..], id);
      forall n | 0 <= n < |events| && events[n].Observed?
        ensures NewIncidentId(events[n].observation.evidence) != id
      {
        if n > 0 { assert events[n] == events[1..][n - 1]; }
      }
    }
  }

  /** Once the events dated no later than its start are past, the incident is in its failure debounce towards due, or
      was activated then, and no online evidence about its key is accepted from there on before due. */
  predicate Fails(cfg: Config, c: Core, clock: Time, events: seq<Event>, id: IncidentId, due: Time)
    decreases |events|
  {
    if PastInstant(clock, events, id.started) then
      FailingUntil(c, KeyOf(id), id, due) && Sustained(cfg, c, events, KeyOf(id), true, due)
    else
      Fails(cfg, StepCore(cfg, c, events[0]), After(clock, events[0]), events[1..], id, due)
  }

  lemma FailsFromHere(cfg: Config, c: Core, clock: Time, events: seq<Event>, id: IncidentId, due: Time, end: Time)
    requires ConfigOk(cfg) && CoreInv(cfg.iface, c, clock) && Monotone(clock, events) && Clock(clock, events) <= end
    requires PastInstant(clock, events, id.started) && due <= end
    ensures
      var incidents := Settle(RunCore(cfg, c, events), end).incidents;
      id in incidents && incidents[id].activatedAt == Some(due) <==> Fails(cfg, c, clock, events, id, due)
  {
    PastNeverStarts(clock, events, id);
    if id in c.incidents {
      FailsByDeadline(cfg.iface, c, clock, id);
      var deadline := DeadlineOf(c.incidents[id]);
      FailingOutcome(cfg, c, clock, events, KeyOf(id), id, deadline, end);
      if Sustained(cfg, c, events, KeyOf(id), true, deadline) {
        ReachedInv(cfg, c, clock, events, end);
        FailsByDeadline(cfg.iface, Settle(RunCore(cfg, c, events), end), end, id);
        assert IncidentOk(id, Settle(RunCore(cfg, c, events), end).incidents[id], end);
      }
    } else {
      GoneForGood(cfg, c, clock, events, id);
    }
  }

  lemma ReachedInv(cfg: Config, c: Core, clock: Time, events: seq<Event>, end: Time)
    requires ConfigOk(cfg) && CoreInv(cfg.iface, c, clock) && Monotone(clock, events) && Clock(clock, events) <= end
    ensures CoreInv(cfg.iface, Settle(RunCore(cfg, c, events), end), end)
    ensures NothingDue(Settle(RunCore(cfg, c, events), end), end)
  {
    WithJobsInv(cfg, c, clock);
    RunKeepsInv(cfg, WithJobs(cfg, c), clock, events);
    CoreInvLater(cfg.iface, RunCore(cfg, c, events), Clock(clock, events), end);
    SettleKeepsInv(cfg.iface, RunCore(cfg, c, events), end);
  }

  lemma {:induction false} FailsExactly(cfg: Config, c: Core, clock: Time, events: seq<Event>, id: IncidentId,
                                        due: Time, end: Time)
    requires ConfigOk(cfg) && CoreInv(cfg.iface, c, clock) && Monotone(clock, events)
    requires Clock(clock, events) <= end && due <= end
    ensures
      var incidents := Settle(RunCore(cfg, c, events), end).incidents;
      id in incidents && incidents[id].activatedAt == Some(due) <==> Fails(cfg, c, clock, events, id, due)
    decreases |events|
  {
    if PastInstant(clock, events, id.started) {
      FailsFromHere(cfg, c, clock, events, id, due, end);
    } else {
      CoreStepKeepsInv(cfg, c, clock, events[0]);
      FailsExactly(cfg, StepCore(cfg, c, events[0]), After(clock, events[0]), events[1..], id, due, end);
    }
  }

  /** Exact failure debounce, from any state and for any id and instant: an incident is activated at due if and only if,
      once the instant it starts in is past, it is in its failure debounce towards due and no online evidence about its
      key is accepted before due. In the end it is activated, or gone, or its debounce is not over. */
  lemma FailureDebounceExact(cfg: Config, c: Core, clock: Time, events: seq<Event>, id: IncidentId, due: Time,
                             end: Time)
    requires ConfigOk(cfg) && CoreInv(cfg.iface, c, clock) && Monotone(clock, events)
    requires Clock(clock, events) <= end && due <= end
    ensures
      var incidents := Settle(RunCore(cfg, c, events), end).incidents;
      && (id in incidents && incidents[id].activatedAt == Some(due) <==> Fails(cfg, c, clock, events, id, due))
      && (id in incidents && incidents[id].activatedAt.None? ==> end < DeadlineOf(incidents[id]))
  {
    FailsExactly(cfg, c, clock, events, id, due, end);
    ReachedInv(cfg, c, clock, events, end);
    var reached := Settle(RunCore(cfg, c, events), end);
    if id in reached.incidents && reached.incidents[id].activatedAt.None? {
      FailsByDeadline(cfg.iface, reached, end, id);
      assert !DueBy(reached, KeyOf(id), end);
    }
  }

  /** An unbroken failure debounce is one that stands past the instant it began in and was not broken within it. */
  lemma {:induction false} SustainedFails(cfg: Config, c: Core, clock: Time, events: seq<Event>, id: IncidentId,
                                          due: Time)
    requires ConfigOk(cfg) && CoreInv(cfg.iface, c, clock) && Monotone(clock, events)
    requires FailingUntil(c, KeyOf(id), id, due)
    ensures Sustained(cfg, c, events, KeyOf(id), true, due) <==>
      && Fails(cfg, c, clock, events, id, due)
      && !BreaksWithin(cfg, c, clock, events, KeyOf(id), true, id.started, due)
    decreases |events|
  {
    if !PastInstant(clock, events, id.started) && !Breaks(cfg, c, events[0], KeyOf(id), true, due) {
      CoreStepKeepsInv(cfg, c, clock, events[0]);
      FailingThroughStep(cfg, c, clock, events[0], KeyOf(id), id, due);
      SustainedFails(cfg, StepCore(cfg, c, events[0]), After(clock, events[0]), events[1..], id, due);
    }
  }

  /** Activation at the deadline means an unbroken failure exactly when the incident was not cancelled and started again
      within its instant; when nothing starts it again, what was broken is gone. */
  lemma FailureDebounceSustained(cfg: Config, c: Core, clock: Time, events: seq<Event>, id: IncidentId, due: Time,
                                 end: Time)
    requires ConfigOk(cfg) && CoreInv(cfg.iface, c, clock) && Monotone(clock, events)
    requires FailingUntil(c, KeyOf(id), id, due) && Clock(clock, events) <= end && due <= end
    ensures
      var incidents := Settle(RunCore(cfg, c, events), end).incidents;
      var activated := id in incidents && incidents[id].activatedAt == Some(due);
      && ((activated <==> Sustained(cfg, c, events, KeyOf(id), true, due)) <==>
            !(BreaksWithin(cfg, c, clock, events, KeyOf(id), true, id.started, due)
              && Fails(cfg, c, clock, events, id, due)))
      && (NeverStarts(events, id) ==>
            && (activated <==> id in incidents)
            && (activated <==> Sustained(cfg, c, events, KeyOf(id), true, due)))
  {
    FailsExactly(cfg, c, clock, events, id, due, end);
    SustainedFails(cfg, c, clock, events, id, due);
    if NeverStarts(events, id) { FailingOutcome(cfg, c, clock, events, KeyOf(id), id, due, end); }
  }

  /** Accepted offline evidence about an idle key starts the debounce, with the thresholds of the moment. */
  lemma OfflineStartsDebounce(cfg: Config, c: Core, clock: Time, o: Observation)
    requires ConfigOk(cfg) && CoreInv(cfg.iface, c, clock) && clock <= o.evidence.at && !o.evidence.online
    requires Accepts(cfg, c, o)
    requires TrackerAt(Settle(c, o.evidence.at), EvidenceKey(o.evidence)).incidentId.None?
    ensures
      var c', k, id := ObserveCore(cfg, c, o), EvidenceKey(o.evidence), NewIncidentId(o.evidence);
      && id !in Settle(c, o.evidence.at).incidents
      && OwnedBy(c', id, k) && Waiting(c', k) && c'.trackers[k].phase == PhasePendingFailure
      && KeyDue(c', k) == o.evidence.at + cfg.downAfter
  {
    CoreInvLater(cfg.iface, c, clock, o.evidence.at);
    SettleKeepsInv(cfg.iface, c, o.evidence.at);
    var c1 := Settle(c, o.evidence.at);
    NewIdIsNew(cfg, c1, o.evidence.at, o);
    if EvidenceKey(o.evidence) in c1.trackers { assert TrackerOk(c1, EvidenceKey(o.evidence)); }
  }

  // ---------- recovery debounce ----------

  /** Incident id is in its recovery debounce, or was resolved at that deadline, first seen recovering at since. */
  predicate RecoveringUntil(c: Core, k: Key, id: IncidentId, since: Time, due: Time) {
    && KeyOf(id) == k && id in c.incidents
    && c.incidents[id].recoveryFirstAt == Some(since)
    && (|| (OwnedBy(c, id, k) && c.trackers[k].phase == PhasePendingRecovery
            && DueAt(c.trackers[k], c.incidents[id]) == due)
        || c.incidents[id].resolvedAt == Some(due))
  }

  lemma RecoveringThroughSettle(wan: string, c: Core, clock: Time, t: Time, k: Key, id: IncidentId, since: Time,
                                due: Time)
    requires CoreInv(wan, c, clock) && RecoveringUntil(c, k, id, since, due)
    ensures RecoveringUntil(Settle(c, t), k, id, since, due)
    ensures due <= t ==> Settle(c, t).incidents[id].resolvedAt == Some(due)
  {
    assert IncidentOk(id, c.incidents[id], clock);
    if k in c.trackers { assert TrackerOk(c, k); }
  }

  lemma RecoveringThroughAccept(cfg: Config, c: Core, o: Observation, k: Key, id: IncidentId, since: Time, due: Time)
    requires ConfigOk(cfg) && CoreInv(cfg.iface, c, o.evidence.at) && NothingDue(c, o.evidence.at)
    requires RecoveringUntil(c, k, id, since, due) && EvidenceKey(o.evidence) == k
    requires !o.evidence.online ==> due <= o.evidence.at
    ensures RecoveringUntil(Accept(cfg, c, o), k, id, since, due)
  {
    AcceptIsEvidenceStep(cfg, c, o.evidence.at, o);
    assert IncidentOk(id, c.incidents[id], o.evidence.at);
    if k in c.trackers { assert TrackerOk(c, k) && !DueBy(c, k, o.evidence.at); }
  }

  lemma RecoveringThroughStep(cfg: Config, c: Core, clock: Time, ev: Event, k: Key, id: IncidentId, since: Time,
                              due: Time)
    requires ConfigOk(cfg) && CoreInv(cfg.iface, c, clock) && clock <= After(clock, ev)
    requires RecoveringUntil(c, k, id, since, due) && !Breaks(cfg, c, ev, k, false, due)
    ensures RecoveringUntil(StepCore(cfg, c, ev), k, id, since, due)
  {
    match ev
    case Tick(now) => RecoveringThroughSettle(cfg.iface, c, clock, now, k, id, since, due);
    case Observed(o) =>
      var at := o.evidence.at;
      RecoveringThroughSettle(cfg.iface, c, clock, at, k, id, since, due);
      if EvidenceKey(o.evidence) != k {
        ObserveElsewhere(cfg, c, clock, o, k);
      } else if Accepts(cfg, c, o) {
        RecoveringThroughAccepted(cfg, c, clock, o, k, id, since, due);
      }
    case _ =>
  }

  lemma RecoveringThroughAccepted(cfg: Config, c: Core, clock: Time, o: Observation, k: Key, id: IncidentId,
                                  since: Time, due: Time)
    requires ConfigOk(cfg) && CoreInv(cfg.iface, c, clock) && clock <= o.evidence.at
    requires RecoveringUntil(c, k, id, since, due) && EvidenceKey(o.evidence) == k
    requires !o.evidence.online ==> due <= o.evidence.at
    ensures RecoveringUntil(Accept(cfg, Settle(c, o.evidence.at), o), k, id, since, due)
  {
    CoreInvLater(cfg.iface, c, clock, o.evidence.at);
    SettleKeepsInv(cfg.iface, c, o.evidence.at);
    RecoveringThroughSettle(cfg.iface, c, clock, o.evidence.at, k, id, since, due);
    RecoveringThroughAccept(cfg, Settle(c, o.evidence.at), o, k, id, since, due);
  }

  lemma {:induction false} RecoveringThroughRun(cfg: Config, c: Core, clock: Time, events: seq<Event>, k: Key,
                                                id: IncidentId, since: Time, due: Time)
    requires ConfigOk(cfg) && CoreInv(cfg.iface, c, clock) && Monotone(clock, events)
    requires RecoveringUntil(c, k, id, since, due) && Sustained(cfg, c, events, k, false, due)
    ensures CoreInv(cfg.iface, RunCore(cfg, c, events), Clock(clock, events))
    ensures RecoveringUntil(RunCore(cfg, c, events), k, id, since, due)
    decreases |events|
  {
    if events != [] {
      CoreStepKeepsInv(cfg, c, clock, events[0]);
      RecoveringThroughStep(cfg, c, clock, events[0], k, id, since, due);
      RecoveringThroughRun(cfg, StepCore(cfg, c, events[0]), After(clock, events[0]), events[1..], k, id, since, due);
    }
  }

  /** Exact recovery debounce, one way: a recovering incident is resolved at exactly its deadline
      if no offline evidence about its key is accepted before it. */
  lemma RecoverySustained(cfg: Config, c: Core, clock: Time, events: seq<Event>, k: Key, id: IncidentId, due: Time,
                          end: Time)
    requires ConfigOk(cfg) && CoreInv(cfg.iface, c, clock) && Monotone(clock, events)
    requires OwnedBy(c, id, k) && Waiting(c, k) && c.trackers[k].phase == PhasePendingRecovery && KeyDue(c, k) == due
    requires Sustained(cfg, c, events, k, false, due) && Clock(clock, events) <= end && due <= end
    ensures
      var incidents := Settle(RunCore(cfg, c, events), end).incidents;
      && id in incidents && incidents[id].resolvedAt == Some(due)
      && incidents[id].recoveryFirstAt == Some(c.trackers[k].recoverySince)
  {
    assert TrackerOk(c, k);
    var since := c.trackers[k].recoverySince;
    RecoveringThroughRun(cfg, c, clock, events, k, id, since, due);
    RecoveringThroughSettle(cfg.iface, RunCore(cfg, c, events), Clock(clock, events), end, k, id, since, due);
  }

  /** Exact recovery debounce, the other way: the first offline evidence accepted before the deadline
      makes the same incident active again, with no trace of the recovery. */
  lemma RecoveryBroken(cfg: Config, c: Core, clock: Time, events: seq<Event>, k: Key, id: IncidentId, due: Time,
                       breaker: Event)
    requires ConfigOk(cfg) && CoreInv(cfg.iface, c, clock) && Monotone(clock, events)
    requires OwnedBy(c, id, k) && Waiting(c, k) && c.trackers[k].phase == PhasePendingRecovery && KeyDue(c, k) == due
    requires Sustained(cfg, c, events, k, false, due)
    requires Breaks(cfg, RunCore(cfg, c, events), breaker, k, false, due)
    requires Clock(clock, events) <= breaker.observation.evidence.at
    ensures
      var c' := StepCore(cfg, RunCore(cfg, c, events), breaker);
      && OwnedBy(c', id, k) && c'.trackers[k].phase == PhaseActive
      && id in c'.incidents && c'.incidents[id].state == StateActive
      && c'.incidents[id].recoveryFirstAt.None? && c'.incidents[id].resolvedAt.None?
  {
    assert TrackerOk(c, k);
    var since := c.trackers[k].recoverySince;
    RecoveringThroughRun(cfg, c, clock, events, k, id, since, due);
    BreakReactivates(cfg, RunCore(cfg, c, events), Clock(clock, events), breaker.observation, k, id, since, due);
  }

  lemma BreakReactivates(cfg: Config, c: Core, clock: Time, o: Observation, k: Key, id: IncidentId, since: Time,
                         due: Time)
    requires ConfigOk(cfg) && CoreInv(cfg.iface, c, clock) && clock <= o.evidence.at
    requires RecoveringUntil(c, k, id, since, due)
    requires Breaks(cfg, c, Observed(o), k, false, due)
    ensures
      var c' := ObserveCore(cfg, c, o);
      && OwnedBy(c', id, k) && c'.trackers[k].phase == PhaseActive
      && id in c'.incidents && c'.incidents[id].state == StateActive
      && c'.incidents[id].recoveryFirstAt.None? && c'.incidents[id].resolvedAt.None?
  {
    var at := o.evidence.at;
    assert IncidentOk(id, c.incidents[id], clock) && TrackerOk(c, k);
    assert !DueBy(c, k, at);
    assert Settle(c, at).trackers[k] == c.trackers[k];
    assert Settle(c, at).incidents[id] == c.incidents[id];
  }

  /** Whatever recovery incident id has, it began after the instant. */
  predicate RecoversAfter(c: Core, id: IncidentId, since: Time, length: Time) {
    && id in c.incidents && c.incidents[id].activatedAt.Some? && c.incidents[id].recoveredAfter == length
    && (c.incidents[id].recoveryFirstAt.Some? ==> since < c.incidents[id].recoveryFirstAt.value)
  }

  lemma RecoversAfterSettle(wan: string, c: Core, clock: Time, t: Time, id: IncidentId, since: Time, length: Time)
    requires CoreInv(wan, c, clock) && RecoversAfter(c, id, since, length)
    ensures RecoversAfter(Settle(c, t), id, since, length)
  {
    assert IncidentOk(id, c.incidents[id], clock);
    if KeyOf(id) in c.trackers { assert TrackerOk(c, KeyOf(id)); }
  }

  lemma RecoversAfterAccept(cfg: Config, c: Core, o: Observation, id: IncidentId, since: Time, length: Time)
    requires CoreInv(cfg.iface, c, o.evidence.at) && RecoversAfter(c, id, since, length)
    requires EvidenceKey(o.evidence) == KeyOf(id) && since < o.evidence.at
    ensures RecoversAfter(Accept(cfg, c, o), id, since, length)
  {
    var k := EvidenceKey(o.evidence);
    var t := TrackerAt(c, k);
    assert IncidentOk(id, c.incidents[id], o.evidence.at);
    if k in c.trackers { assert TrackerOk(c, k); }
    if Starts(t, o) {
      NewIdIsNew(cfg, c, o.evidence.at, o);
    } else if OwnsIncident(c, t) {
      assert IncidentOk(t.incidentId.value, c.incidents[t.incidentId.value], o.evidence.at);
    }
  }

  lemma RecoversAfterStep(cfg: Config, c: Core, clock: Time, ev: Event, id: IncidentId, since: Time, length: Time)
    requires ConfigOk(cfg) && CoreInv(cfg.iface, c, clock) && clock <= After(clock, ev) && since < After(clock, ev)
    requires RecoversAfter(c, id, since, length)
    ensures RecoversAfter(StepCore(cfg, c, ev), id, since, length)
  {
    assert IncidentOk(id, c.incidents[id], clock);
    match ev
    case Tick(now) => RecoversAfterSettle(cfg.iface, c, clock, now, id, since, length);
    case Observed(o) =>
      var at := o.evidence.at;
      RecoversAfterSettle(cfg.iface, c, clock, at, id, since, length);
      if EvidenceKey(o.evidence) != KeyOf(id) {
        ObserveElsewhere(cfg, c, clock, o, KeyOf(id));
      } else if Accepts(cfg, c, o) {
        CoreInvLater(cfg.iface, c, clock, at);
        SettleKeepsInv(cfg.iface, c, at);
        RecoversAfterAccept(cfg, Settle(c, at), o, id, since, length);
      }
    case _ =>
  }

  lemma {:induction false} RecoversAfterRun(cfg: Config, c: Core, clock: Time, events: seq<Event>, id: IncidentId,
                                            since: Time, length: Time)
    requires ConfigOk(cfg) && CoreInv(cfg.iface, c, clock) && Monotone(clock, events)
    requires PastInstant(clock, events, since)
    requires RecoversAfter(c, id, since, length)
    ensures CoreInv(cfg.iface, RunCore(cfg, c, events), Clock(clock, events))
    ensures RecoversAfter(RunCore(cfg, c, events), id, since, length)
    decreases |events|
  {
    if events != [] {
      CoreStepKeepsInv(cfg, c, clock, events[0]);
      RecoversAfterStep(cfg, c, clock, events[0], id, since, length);
      RecoversAfterRun(cfg, StepCore(cfg, c, events[0]), After(clock, events[0]), events[1..], id, since, length);
    }
  }

  lemma ResolvedLater(wan: string, c: Core, clock: Time, end: Time, id: IncidentId, since: Time, length: Time)
    requires CoreInv(wan, c, clock) && RecoversAfter(c, id, since, length) && clock <= end
    ensures id in Settle(c, end).incidents && Settle(c, end).incidents[id].resolvedAt != Some(since + length)
  {
    RecoversAfterSettle(wan, c, clock, end, id, since, length);
    CoreInvLater(wan, c, clock, end);
    SettleKeepsInv(wan, c, end);
    assert IncidentOk(id, Settle(c, end).incidents[id], end);
  }

  lemma RecoveryLength(wan: string, c: Core, clock: Time, k: Key, id: IncidentId, since: Time, due: Time)
    requires CoreInv(wan, c, clock) && RecoveringUntil(c, k, id, since, due)
    ensures c.incidents[id].activatedAt.Some? && due == since + c.incidents[id].recoveredAfter
  {
    assert IncidentOk(id, c.incidents[id], clock);
    if OwnedBy(c, id, k) { assert TrackerOk(c, k); }
  }

  /** After a break, any recovery begins later. */
  lemma BreakResets(cfg: Config, c: Core, clock: Time, ev: Event, k: Key, id: IncidentId, since: Time, due: Time)
    requires ConfigOk(cfg) && CoreInv(cfg.iface, c, clock) && clock <= After(clock, ev)
    requires RecoveringUntil(c, k, id, since, due) && Breaks(cfg, c, ev, k, false, due)
    ensures CoreInv(cfg.iface, StepCore(cfg, c, ev), After(clock, ev))
    ensures RecoversAfter(StepCore(cfg, c, ev), id, since, due - since)
  {
    RecoveryLength(cfg.iface, c, clock, k, id, since, due);
    CoreStepKeepsInv(cfg, c, clock, ev);
    BreakReactivates(cfg, c, clock, ev.observation, k, id, since, due);
    ThresholdsCaptured(cfg, c, clock, ev, id);
    assert IncidentOk(id, StepCore(cfg, c, ev).incidents[id], After(clock, ev));
  }

  /** A recovery broken later than it began leaves no recovery as old as itself. */
  lemma {:induction false} BrokenThroughRun(cfg: Config, c: Core, clock: Time, events: seq<Event>,
                                            k: Key, id: IncidentId, since: Time, due: Time)
    requires ConfigOk(cfg) && CoreInv(cfg.iface, c, clock) && Monotone(clock, events)
    requires PastInstant(clock, events, since)
    requires RecoveringUntil(c, k, id, since, due) && !Sustained(cfg, c, events, k, false, due)
    ensures CoreInv(cfg.iface, RunCore(cfg, c, events), Clock(clock, events))
    ensures RecoversAfter(RunCore(cfg, c, events), id, since, due - since)
    decreases |events|
  {
    var ev, c' := events[0], StepCore(cfg, c, events[0]);
    if Breaks(cfg, c, ev, k, false, due) {
      BreakResets(cfg, c, clock, ev, k, id, since, due);
      LaterFromHere(clock, events, since);
      RecoversAfterRun(cfg, c', After(clock, ev), events[1..], id, since, due - since);
    } else {
      CoreStepKeepsInv(cfg, c, clock, ev);
      RecoveringThroughStep(cfg, c, clock, ev, k, id, since, due);
      LaterFromHere(clock, events, since);
      BrokenThroughRun(cfg, c', After(clock, ev), events[1..], k, id, since, due);
    }
  }

  lemma LaterFromHere(clock: Time, events: seq<Event>, since: Time)
    requires Monotone(clock, events) && events != [] && PastInstant(clock, events, since)
    ensures PastInstant(After(clock, events[0]), events[1..], since)
  {
  }

  // ---------- the instant a recovery begins in ----------

  /** Once the events dated no later than since are past, the incident is recovering towards due,
      and no offline evidence about its key is accepted from there on before due. */
  predicate Resumes(cfg: Config, c: Core, clock: Time, events: seq<Event>, k: Key, id: IncidentId, since: Time,
                    due: Time)
    decreases |events|
  {
    if PastInstant(clock, events, since) then
      RecoveringUntil(c, k, id, since, due) && Sustained(cfg, c, events, k, false, due)
    else
      Resumes(cfg, StepCore(cfg, c, events[0]), After(clock, events[0]), events[1..], k, id, since, due)
  }

  /** The incident is active in its own tracker's hands, and nothing of it recovers. */
  predicate ActiveFor(c: Core, k: Key, id: IncidentId, length: Time) {
    && KeyOf(id) == k && OwnedBy(c, id, k) && c.trackers[k].phase == PhaseActive
    && id in c.incidents && c.incidents[id].recoveredAfter == length
  }

  /** Within the instant, the incident is recovering from it or active again. */
  predicate AtInstant(c: Core, k: Key, id: IncidentId, since: Time, due: Time) {
    RecoveringUntil(c, k, id, since, due) || ActiveFor(c, k, id, due - since)
  }

  lemma ActiveThroughSettle(wan: string, c: Core, clock: Time, t: Time, k: Key, id: IncidentId, length: Time)
    requires CoreInv(wan, c, clock) && ActiveFor(c, k, id, length)
    ensures ActiveFor(Settle(c, t), k, id, length)
  {
    assert IncidentOk(id, c.incidents[id], clock);
    assert !DueBy(c, k, t);
  }

  /** An active incident that recovers does so from the evidence's own instant on. */
  lemma ActiveThroughAccept(cfg: Config, c: Core, o: Observation, k: Key, id: IncidentId, since: Time, due: Time)
    requires CoreInv(cfg.iface, c, o.evidence.at) && ActiveFor(c, k, id, due - since) && EvidenceKey(o.evidence) == k
    requires o.evidence.at == since
    ensures AtInstant(Accept(cfg, c, o), k, id, since, due)
  {
    assert TrackerOk(c, k);
    assert IncidentOk(id, c.incidents[id], o.evidence.at);
  }

  lemma ActiveThroughAccepted(cfg: Config, c: Core, clock: Time, o: Observation, k: Key, id: IncidentId, since: Time,
                              due: Time)
    requires CoreInv(cfg.iface, c, clock) && clock <= since && ActiveFor(c, k, id, due - since)
    requires EvidenceKey(o.evidence) == k && o.evidence.at == since
    ensures AtInstant(Accept(cfg, Settle(c, since), o), k, id, since, due)
  {
    ActiveThroughSettle(cfg.iface, c, clock, since, k, id, due - since);
    CoreInvLater(cfg.iface, c, clock, since);
    SettleKeepsInv(cfg.iface, c, since);
    ActiveThroughAccept(cfg, Settle(c, since), o, k, id, since, due);
  }

  lemma ActiveStepAtInstant(cfg: Config, c: Core, clock: Time, ev: Event, k: Key, id: IncidentId, since: Time,
                            due: Time)
    requires ConfigOk(cfg) && CoreInv(cfg.iface, c, clock) && clock <= After(clock, ev) == since
    requires ActiveFor(c, k, id, due - since)
    ensures AtInstant(StepCore(cfg, c, ev), k, id, since, due)
  {
    match ev
    case Tick(now) => ActiveThroughSettle(cfg.iface, c, clock, now, k, id, due - since);
    case Observed(o) =>
      ActiveThroughSettle(cfg.iface, c, clock, since, k, id, due - since);
      if EvidenceKey(o.evidence) != k {
        ObserveElsewhere(cfg, c, clock, o, k);
      } else if Accepts(cfg, c, o) {
        ActiveThroughAccepted(cfg, c, clock, o, k, id, since, due);
      }
    case _ =>
  }

  /** A break makes the incident active, for its own recovery length. */
  lemma BreakActivates(cfg: Config, c: Core, clock: Time, ev: Event, k: Key, id: IncidentId, since: Time, due: Time)
    requires ConfigOk(cfg) && CoreInv(cfg.iface, c, clock) && clock <= After(clock, ev)
    requires RecoveringUntil(c, k, id, since, due) && Breaks(cfg, c, ev, k, false, due)
    ensures ActiveFor(StepCore(cfg, c, ev), k, id, due - since)
  {
    RecoveryLength(cfg.iface, c, clock, k, id, since, due);
    BreakReactivates(cfg, c, clock, ev.observation, k, id, since, due);
    ThresholdsCaptured(cfg, c, clock, ev, id);
  }

  lemma RecoveringStepAtInstant(cfg: Config, c: Core, clock: Time, ev: Event, k: Key, id: IncidentId, since: Time,
                                due: Time)
    requires ConfigOk(cfg) && CoreInv(cfg.iface, c, clock) && clock <= After(clock, ev)
    requires RecoveringUntil(c, k, id, since, due)
    ensures AtInstant(StepCore(cfg, c, ev), k, id, since, due)
  {
    if Breaks(cfg, c, ev, k, false, due) {
      BreakActivates(cfg, c, clock, ev, k, id, since, due);
    } else {
      RecoveringThroughStep(cfg, c, clock, ev, k, id, since, due);
    }
  }

  lemma RecoveringIsDated(wan: string, c: Core, clock: Time, k: Key, id: IncidentId, since: Time, due: Time)
    requires CoreInv(wan, c, clock) && RecoveringUntil(c, k, id, since, due)
    ensures since <= clock
  {
    assert IncidentOk(id, c.incidents[id], clock);
  }

  /** Past the instant, the incident resolves at its deadline exactly if it is still recovering and nothing breaks
      that. */
  lemma PastInstantExact(cfg: Config, c: Core, clock: Time, events: seq<Event>, k: Key, id: IncidentId, since: Time,
                         due: Time, end: Time)
    requires ConfigOk(cfg) && CoreInv(cfg.iface, c, clock) && Monotone(clock, events)
    requires PastInstant(clock, events, since)
    requires AtInstant(c, k, id, since, due) && Clock(clock, events) <= end && due <= end
    ensures
      var incidents := Settle(RunCore(cfg, c, events), end).incidents;
      && id in incidents
      && (incidents[id].resolvedAt == Some(due) <==>
            RecoveringUntil(c, k, id, since, due) && Sustained(cfg, c, events, k, false, due))
  {
    var last := RunCore(cfg, c, events);
    if !RecoveringUntil(c, k, id, since, due) {
      ActiveRecoversAfter(cfg.iface, c, clock, k, id, since, due - since);
      RecoversAfterRun(cfg, c, clock, events, id, since, due - since);
      ResolvedLater(cfg.iface, last, Clock(clock, events), end, id, since, due - since);
    } else if Sustained(cfg, c, events, k, false, due) {
      RecoveringThroughRun(cfg, c, clock, events, k, id, since, due);
      RecoveringThroughSettle(cfg.iface, last, Clock(clock, events), end, k, id, since, due);
    } else {
      BrokenThroughRun(cfg, c, clock, events, k, id, since, due);
      ResolvedLater(cfg.iface, last, Clock(clock, events), end, id, since, due - since);
    }
  }

  lemma ActiveRecoversAfter(wan: string, c: Core, clock: Time, k: Key, id: IncidentId, since: Time, length: Time)
    requires CoreInv(wan, c, clock) && ActiveFor(c, k, id, length)
    ensures RecoversAfter(c, id, since, length)
  {
    assert TrackerOk(c, k);
  }

  lemma {:induction false} InstantExact(cfg: Config, c: Core, clock: Time, events: seq<Event>,
                                        k: Key, id: IncidentId, since: Time, due: Time, end: Time)
    requires ConfigOk(cfg) && CoreInv(cfg.iface, c, clock) && Monotone(clock, events) && since <= clock
    requires AtInstant(c, k, id, since, due) && Clock(clock, events) <= end && due <= end
    ensures
      var incidents := Settle(RunCore(cfg, c, events), end).incidents;
      id in incidents && (incidents[id].resolvedAt == Some(due) <==> Resumes(cfg, c, clock, events, k, id, since, due))
    decreases |events|
  {
    if PastInstant(clock, events, since) {
      PastInstantExact(cfg, c, clock, events, k, id, since, due, end);
    } else {
      CoreStepKeepsInv(cfg, c, clock, events[0]);
      if RecoveringUntil(c, k, id, since, due) {
        RecoveringStepAtInstant(cfg, c, clock, events[0], k, id, since, due);
      } else {
        ActiveStepAtInstant(cfg, c, clock, events[0], k, id, since, due);
      }
      InstantExact(cfg, StepCore(cfg, c, events[0]), After(clock, events[0]), events[1..], k, id, since, due, end);
    }
  }

  /** Exact recovery debounce: a recovering incident is resolved at exactly its deadline if and only if, once the
      instant its recovery began in is past, it is recovering and no offline evidence about its key is accepted
      before the deadline. */
  lemma RecoveryDebounceExact(cfg: Config, c: Core, clock: Time, events: seq<Event>, k: Key, id: IncidentId,
                              since: Time, due: Time, end: Time)
    requires ConfigOk(cfg) && CoreInv(cfg.iface, c, clock) && Monotone(clock, events)
    requires RecoveringUntil(c, k, id, since, due) && Clock(clock, events) <= end && due <= end
    ensures
      var incidents := Settle(RunCore(cfg, c, events), end).incidents;
      id in incidents && (incidents[id].resolvedAt == Some(due) <==> Resumes(cfg, c, clock, events, k, id, since, due))
  {
    RecoveringIsDated(cfg.iface, c, clock, k, id, since, due);
    InstantExact(cfg, c, clock, events, k, id, since, due, end);
  }

  /** An unbroken recovery resumes, and one that resumes was broken, if at all, within the instant it began in. */
  lemma {:induction false} SustainedResumes(cfg: Config, c: Core, clock: Time, events: seq<Event>,
                                            k: Key, id: IncidentId, since: Time, due: Time)
    requires ConfigOk(cfg) && CoreInv(cfg.iface, c, clock) && Monotone(clock, events)
    requires RecoveringUntil(c, k, id, since, due)
    ensures Sustained(cfg, c, events, k, false, due) <==>
      Resumes(cfg, c, clock, events, k, id, since, due) && !BreaksWithin(cfg, c, clock, events, k, false, since, due)
    decreases |events|
  {
    if !PastInstant(clock, events, since) && !Breaks(cfg, c, events[0], k, false, due) {
      CoreStepKeepsInv(cfg, c, clock, events[0]);
      RecoveringThroughStep(cfg, c, clock, events[0], k, id, since, due);
      SustainedResumes(cfg, StepCore(cfg, c, events[0]), After(clock, events[0]), events[1..], k, id, since, due);
    }
  }

  /** Resolution at the deadline means an unbroken recovery exactly when the recovery was not broken and begun again
      within the instant it began in. */
  lemma RecoveryDebounceSustained(cfg: Config, c: Core, clock: Time, events: seq<Event>, k: Key, id: IncidentId,
                                  since: Time, due: Time, end: Time)
    requires ConfigOk(cfg) && CoreInv(cfg.iface, c, clock) && Monotone(clock, events)
    requires RecoveringUntil(c, k, id, since, due) && Clock(clock, events) <= end && due <= end
    ensures
      var incidents := Settle(RunCore(cfg, c, events), end).incidents;
      && id in incidents
      && ((incidents[id].resolvedAt == Some(due) <==> Sustained(cfg, c, events, k, false, due)) <==>
            !(BreaksWithin(cfg, c, clock, events, k, false, since, due)
              && Resumes(cfg, c, clock, events, k, id, since, due)))
  {
    RecoveryDebounceExact(cfg, c, clock, events, k, id, since, due, end);
    SustainedResumes(cfg, c, clock, events, k, id, since, due);
  }

  lemma TieBreaks(cfg: Config, c: Core, since: Time, k: Key, id: IncidentId, down: Observation)
    requires ConfigOk(cfg) && CoreInv(cfg.iface, c, since) && OwnedBy(c, id, k)
    requires c.trackers[k].phase == PhasePendingRecovery && c.trackers[k].recoverySince == since
    requires EvidenceKey(down.evidence) == k && !down.evidence.online && down.evidence.at == since
    requires Accepts(cfg, c, down)
    ensures Waiting(c, k) && Breaks(cfg, c, Observed(down), k, false, KeyDue(c, k))
    ensures
      var c' := ObserveCore(cfg, c, down);
      && CoreInv(cfg.iface, c', since) && OwnedBy(c', id, k) && c'.trackers[k].phase == PhaseActive
      && id in c'.incidents && KeyDue(c, k) == since + c'.incidents[id].recoveredAfter
  {
    assert TrackerOk(c, k);
    assert IncidentOk(id, c.incidents[id], since);
    CoreStepKeepsInv(cfg, c, since, Observed(down));
    BreakReactivates(cfg, c, since, down, k, id, since, KeyDue(c, k));
    ThresholdsCaptured(cfg, c, since, Observed(down), id);
  }

  /** A recovery broken and begun again within the instant it began in keeps its deadline, and the incident
      resolves there although the recovery was broken. */
  lemma TieRestarts(cfg: Config, c: Core, since: Time, k: Key, id: IncidentId, down: Observation, up: Observation,
                    end: Time)
    requires ConfigOk(cfg) && CoreInv(cfg.iface, c, since) && OwnedBy(c, id, k)
    requires c.trackers[k].phase == PhasePendingRecovery && c.trackers[k].recoverySince == since
    requires EvidenceKey(down.evidence) == k && !down.evidence.online && down.evidence.at == since
    requires Accepts(cfg, c, down)
    requires EvidenceKey(up.evidence) == k && up.evidence.online && up.evidence.at == since
    requires Accepts(cfg, ObserveCore(cfg, c, down), up)
    ensures Waiting(c, k)
    ensures
      var c', due := RunCore(cfg, c, [Observed(down), Observed(up)]), KeyDue(c, k);
      && RecoveringUntil(c', k, id, since, due)
      && !Sustained(cfg, c, [Observed(down), Observed(up)], k, false, due)
      && (due <= end ==> Settle(c', end).incidents[id].resolvedAt == Some(due))
  {
    TieBreaks(cfg, c, since, k, id, down);
    var c1 := ObserveCore(cfg, c, down);
    RestartsAt(cfg, c1, k, id, up);
    assert [Observed(down), Observed(up)][1..] == [Observed(up)] && [Observed(up)][1..] == [];
    assert RunCore(cfg, c1, [Observed(up)]) == ObserveCore(cfg, c1, up);
    RecoveringThroughSettle(cfg.iface, ObserveCore(cfg, c1, up), since, end, k, id, since, KeyDue(c, k));
  }

  /** Accepted online evidence about an active incident starts its recovery. */
  lemma RestartsAt(cfg: Config, c: Core, k: Key, id: IncidentId, up: Observation)
    requires ConfigOk(cfg) && CoreInv(cfg.iface, c, up.evidence.at) && OwnedBy(c, id, k)
    requires c.trackers[k].phase == PhaseActive
    requires EvidenceKey(up.evidence) == k && up.evidence.online && Accepts(cfg, c, up) && id in c.incidents
    ensures
      var c' := ObserveCore(cfg, c, up);
      && CoreInv(cfg.iface, c', up.evidence.at)
      && RecoveringUntil(c', k, id, up.evidence.at, up.evidence.at + c.incidents[id].recoveredAfter)
  {
    assert TrackerOk(c, k);
    assert IncidentOk(id, c.incidents[id], up.evidence.at);
    assert !DueBy(c, k, up.evidence.at);
    assert Settle(c, up.evidence.at).trackers[k] == c.trackers[k];
    assert Settle(c, up.evidence.at).incidents[id] == c.incidents[id];
    CoreStepKeepsInv(cfg, c, up.evidence.at, Observed(up));
  }

  // ---------- captured thresholds ----------

  predicate SameThresholds(i: Incident, j: Incident) {
    i.downAfter == j.downAfter && i.recoveredAfter == j.recoveredAfter
  }

  lemma SettleKeepsThresholds(c: Core, t: Time, id: IncidentId)
    requires id in c.incidents
    ensures SameThresholds(Settle(c, t).incidents[id], c.incidents[id])
  {
  }

  lemma AcceptKeepsThresholds(cfg: Config, c: Core, o: Observation, id: IncidentId)
    requires CoreInv(cfg.iface, c, o.evidence.at) && id in c.incidents && id in Accept(cfg, c, o).incidents
    ensures SameThresholds(Accept(cfg, c, o).incidents[id], c.incidents[id])
  {
    var k := EvidenceKey(o.evidence);
    var t := TrackerAt(c, k);
    assert IncidentOk(id, c.incidents[id], o.evidence.at);
    if k in c.trackers { assert TrackerOk(c, k); }
    if Starts(t, o) {
      NewIdIsNew(cfg, c, o.evidence.at, o);
    } else if OwnsIncident(c, t) {
      assert IncidentOk(t.incidentId.value, c.incidents[t.incidentId.value], o.evidence.at);
    }
  }

  lemma ObserveKeepsThresholds(cfg: Config, c: Core, clock: Time, o: Observation, id: IncidentId)
    requires CoreInv(cfg.iface, c, clock) && clock <= o.evidence.at && Accepts(cfg, c, o)
    requires id in c.incidents && id in Accept(cfg, Settle(c, o.evidence.at), o).incidents
    ensures SameThresholds(Accept(cfg, Settle(c, o.evidence.at), o).incidents[id], c.incidents[id])
  {
    CoreInvLater(cfg.iface, c, clock, o.evidence.at);
    SettleKeepsInv(cfg.iface, c, o.evidence.at);
    SettleKeepsThresholds(c, o.evidence.at, id);
    AcceptKeepsThresholds(cfg, Settle(c, o.evidence.at), o, id);
  }

  /** An incident keeps the thresholds it started with, whatever thresholds the steps after it run under. */
  lemma ThresholdsCaptured(cfg: Config, c: Core, clock: Time, ev: Event, id: IncidentId)
    requires ConfigOk(cfg) && CoreInv(cfg.iface, c, clock) && clock <= After(clock, ev)
    requires id in c.incidents && id in StepCore(cfg, c, ev).incidents
    ensures SameThresholds(StepCore(cfg, c, ev).incidents[id], c.incidents[id])
  {
    match ev
    case Tick(now) => SettleKeepsThresholds(c, now, id);
    case Observed(o) =>
      SettleKeepsThresholds(c, o.evidence.at, id);
      if Accepts(cfg, c, o) { ObserveKeepsThresholds(cfg, c, clock, o, id); }
    case _ =>
  }
}
