/** The reachability gate holds over whole runs, and when exactly replaying evidence is harmless. */
module Replay {
  import opened Wrappers
  import opened IncidentState
  import opened Invariant
  import opened TimerLoop
  import opened Observing
  import opened Runs
  import opened AnyState
  import opened Histories

  // ---------- the reachability gate ----------

  /** The key's incident id failed by reachability and is neither cancelled nor recovering. */
  predicate HeldDown(c: Core, k: Key, id: IncidentId) {
    && OwnedBy(c, id, k) && id in c.incidents
    && c.trackers[k].reachabilityDown
    && (c.trackers[k].phase == PhasePendingFailure || c.trackers[k].phase == PhaseActive)
  }

  predicate NoReachabilityUp(events: seq<Event>, k: Key) {
    forall n :: 0 <= n < |events| && events[n].Observed? && EvidenceKey(events[n].observation.evidence) == k ==>
      !(events[n].observation.evidence.online && events[n].observation.evidence.reachability)
  }

  lemma HeldThroughSettle(wan: string, c: Core, clock: Time, t: Time, k: Key, id: IncidentId)
    requires CoreInv(wan, c, clock) && HeldDown(c, k, id)
    ensures HeldDown(Settle(c, t), k, id)
  {
    assert TrackerOk(c, k);
  }

  lemma HeldThroughStep(cfg: Config, c: Core, clock: Time, ev: Event, k: Key, id: IncidentId)
    requires ConfigOk(cfg) && CoreInv(cfg.iface, c, clock) && clock <= After(clock, ev) && k.iface == cfg.iface
    requires HeldDown(c, k, id) && NoReachabilityUp([ev], k)
    ensures HeldDown(StepCore(cfg, c, ev), k, id)
  {
    match ev
    case Tick(now) => HeldThroughSettle(cfg.iface, c, clock, now, k, id);
    case Observed(o) =>
      var at := o.evidence.at;
      assert [ev][0] == ev;
      HeldThroughSettle(cfg.iface, c, clock, at, k, id);
      if EvidenceKey(o.evidence) != k {
        ObserveElsewhere(cfg, c, clock, o, k);
      } else if Accepts(cfg, c, o) {
        CoreInvLater(cfg.iface, c, clock, at);
        SettleKeepsInv(cfg.iface, c, at);
        HeldThroughAccept(cfg, Settle(c, at), at, o, k, id);
      }
    case _ =>
  }

  lemma HeldThroughAccept(cfg: Config, c: Core, clock: Time, o: Observation, k: Key, id: IncidentId)
    requires CoreInv(cfg.iface, c, clock) && HeldDown(c, k, id) && k.iface == cfg.iface && EvidenceKey(o.evidence) == k
    requires !Gated(cfg, c, o.evidence) && !(o.evidence.online && o.evidence.reachability)
    ensures HeldDown(Accept(cfg, c, o), k, id)
  {
    assert TrackerOk(c, k);
  }

  /** The reachability gate: once a primary incident failed by reachability, no run without online reachability
      evidence about its key cancels it or starts its recovery. */
  lemma {:induction false} ReachabilityGateHolds(cfg: Config, c: Core, clock: Time, events: seq<Event>, k: Key,
                                                 id: IncidentId)
    requires ConfigOk(cfg) && CoreInv(cfg.iface, c, clock) && Monotone(clock, events) && k.iface == cfg.iface
    requires HeldDown(c, k, id) && NoReachabilityUp(events, k)
    ensures HeldDown(RunCore(cfg, c, events), k, id)
    decreases |events|
  {
    if events != [] {
      CoreStepKeepsInv(cfg, c, clock, events[0]);
      HeldThroughStep(cfg, c, clock, events[0], k, id);
      ReachabilityGateHolds(cfg, StepCore(cfg, c, events[0]), After(clock, events[0]), events[1..], k, id);
    }
  }

  /** Accepted offline reachability evidence closes the gate. */
  lemma ReachabilityClosesGate(cfg: Config, c: Core, clock: Time, o: Observation)
    requires ConfigOk(cfg) && CoreInv(cfg.iface, c, clock) && clock <= o.evidence.at
    requires Accepts(cfg, c, o) && !o.evidence.online && o.evidence.reachability
    ensures
      var k := EvidenceKey(o.evidence);
      var t := TrackerAt(ObserveCore(cfg, c, o), k);
      t.incidentId.Some? && HeldDown(ObserveCore(cfg, c, o), k, t.incidentId.value)
  {
    CoreInvLater(cfg.iface, c, clock, o.evidence.at);
    SettleKeepsInv(cfg.iface, c, o.evidence.at);
    var c1, k := Settle(c, o.evidence.at), EvidenceKey(o.evidence);
    AcceptKeepsInv(cfg, c1, o.evidence.at, o);
    assert TrackerOk(Accept(cfg, c1, o), k);
    if k in c1.trackers { assert TrackerOk(c1, k); }
  }

  // ---------- replay ----------

  /** Re-observing o would leave the incident as it is. */
  predicate AlreadyNoted(i: Incident, o: Observation) {
    NoteEvidence(i, o) == i
  }

  /** The tracker and its incident already stand as accepting o would leave them. */
  predicate NotedBy(c: Core, t: Tracker, o: Observation) {
    && OwnsIncident(c, t) && AlreadyNoted(c.incidents[t.incidentId.value], o)
    && if o.evidence.online then t.phase == PhasePendingRecovery
       else && (t.phase == PhaseActive || (t.phase == PhasePendingFailure && (o.notifyEligible ==> t.notify)))
            && (o.evidence.reachability ==> t.reachabilityDown)
  }

  /** Re-observing o would change nothing but the tracker's last evidence time, now and after later evidence. */
  predicate Echoes(cfg: Config, c: Core, o: Observation) {
    var e := o.evidence;
    var k := EvidenceKey(e);
    && k in c.trackers
    && c.trackers[k].lastEvidenceAt != ZERO_TIME
    && var t := c.trackers[k];
       || e.at < t.lastEvidenceAt
       || e.observeOnly
       || Gated(cfg, c, e)
       || (e.online && Idle(t))
       || (t.lastEvidenceAt == e.at && NotedBy(c, t, o))
  }

  /** Settling up to the instant would fire nothing. */
  ghost predicate Quiet(c: Core, at: Time) {
    forall k :: Waiting(c, k) ==> at < KeyDue(c, k)
  }

  /** Re-observing o is harmless here. */
  ghost predicate Harmless(cfg: Config, c: Core, o: Observation) {
    Echoes(cfg, c, o) && (o.evidence.observeOnly || Quiet(c, o.evidence.at))
  }

  /** Every tracker has seen evidence. */
  ghost predicate Seen(c: Core) {
    forall k :: k in c.trackers ==> c.trackers[k].lastEvidenceAt != ZERO_TIME
  }

  /** Same state, up to the time of a tracker's last evidence. */
  ghost predicate SameButLast(c: Core, c': Core) {
    && c'.incidents == c.incidents && c'.trackers.Keys == c.trackers.Keys
    && forall k :: k in c.trackers ==> c'.trackers[k] == c.trackers[k].(lastEvidenceAt := c'.trackers[k].lastEvidenceAt)
  }

  lemma QuietSettles(cfg: Config, c: Core, clock: Time, at: Time)
    requires CoreInv(cfg.iface, c, clock) && Quiet(c, at)
    ensures Settle(c, at) == c
  {
    forall x ensures !Orphaned(c, x) { NoOrphans(c, x); }
    SettleNothing(c, at);
  }

  /** Exactly when observing o changes nothing but a last evidence time: its tracker exists, and o is stale or
      observe-only, or no timer is due by it and it is gated, repeats health, or is already noted. */
  ghost predicate Echo(cfg: Config, c: Core, o: Observation) {
    var e := o.evidence;
    var k := EvidenceKey(e);
    && k in c.trackers
    && (|| Stale(c, e)
        || e.observeOnly
        || (Quiet(c, e.at) && (Gated(cfg, c, e) || (e.online && Idle(c.trackers[k])) || NotedBy(c, c.trackers[k], o))))
  }

  lemma FiredAtSettle(cfg: Config, c: Core, clock: Time, at: Time, k: Key)
    requires CoreInv(cfg.iface, c, clock) && DueBy(c, k, at)
    ensures
      var id, c1 := c.trackers[k].incidentId.value, Settle(c, at);
      && TrackerOk(c, k) && id in c.incidents && IncidentOk(id, c.incidents[id], clock)
      && k in c1.trackers && c1.trackers[k] == FiredTracker(c.trackers[k])
      && id in c1.incidents && c1.incidents[id] == FiredIncident(c.trackers[k], c.incidents[id])
  {
    var id := c.trackers[k].incidentId.value;
    assert TrackerOk(c, k) && IncidentOk(id, c.incidents[id], clock);
  }

  /** The fired incident is still there, resolved or activated, after evidence about its own key. */
  lemma FiringShowsHere(cfg: Config, c: Core, clock: Time, c1: Core, o: Observation, id: IncidentId)
    requires Waiting(c, EvidenceKey(o.evidence)) && TrackerOk(c, EvidenceKey(o.evidence))
    requires c.trackers[EvidenceKey(o.evidence)].incidentId == Some(id) && IncidentOk(id, c.incidents[id], clock)
    requires KeyDue(c, EvidenceKey(o.evidence)) <= o.evidence.at
    requires EvidenceKey(o.evidence) in c1.trackers
    requires c1.trackers[EvidenceKey(o.evidence)] == FiredTracker(c.trackers[EvidenceKey(o.evidence)])
    requires id in c1.incidents
    requires c1.incidents[id] == FiredIncident(c.trackers[EvidenceKey(o.evidence)], c.incidents[id])
    ensures id in AcceptedIncidents(cfg, c1, o) && AcceptedIncidents(cfg, c1, o)[id] != c.incidents[id]
  {
    var t := c1.trackers[EvidenceKey(o.evidence)];
    assert NewIncidentId(o.evidence) != id && !Cancels(t, o);
    assert t.incidentId.Some? ==> t.incidentId == Some(id);
  }

  /** A timer that fires leaves a trace that no evidence removes. */
  lemma FiringShows(cfg: Config, c: Core, clock: Time, o: Observation, k: Key)
    requires ConfigOk(cfg) && CoreInv(cfg.iface, c, clock) && DueBy(c, k, o.evidence.at)
    ensures !SameButLast(c, AcceptUnlessGated(cfg, Settle(c, o.evidence.at), o))
  {
    var c1 := Settle(c, o.evidence.at);
    FiredAtSettle(cfg, c, clock, o.evidence.at, k);
    if EvidenceKey(o.evidence) != k {
      assert Accept(cfg, c1, o).trackers[k] == c1.trackers[k];
    } else {
      FiringShowsHere(cfg, c, clock, c1, o, c.trackers[k].incidentId.value);
    }
  }

  /** Without a timer due, accepting evidence about an idle or unknown key is harmless exactly if it repeats health. */
  lemma IdleEchoes(cfg: Config, c: Core, o: Observation)
    requires EvidenceKey(o.evidence) in c.trackers ==> Idle(c.trackers[EvidenceKey(o.evidence)])
    ensures SameButLast(c, Accept(cfg, c, o)) <==> EvidenceKey(o.evidence) in c.trackers && o.evidence.online
  {
    var k := EvidenceKey(o.evidence);
    assert k in Accept(cfg, c, o).trackers;
    if k in c.trackers && !o.evidence.online {
      assert Accept(cfg, c, o).trackers[k].phase == PhasePendingFailure;
    }
  }

  /** Without a timer due, accepting evidence about a busy key is harmless exactly if it is already noted. */
  lemma BusyEchoesExactly(cfg: Config, c: Core, clock: Time, o: Observation)
    requires CoreInv(cfg.iface, c, clock) && EvidenceKey(o.evidence) in c.trackers
    requires !Idle(c.trackers[EvidenceKey(o.evidence)])
    ensures SameButLast(c, Accept(cfg, c, o)) <==> NotedBy(c, c.trackers[EvidenceKey(o.evidence)], o)
  {
    var k := EvidenceKey(o.evidence);
    assert TrackerOk(c, k);
    var t := c.trackers[k];
    var id := t.incidentId.value;
    assert IncidentOk(id, c.incidents[id], clock);
    var c' := Accept(cfg, c, o);
    assert c'.trackers[k] == AcceptedTracker(t, o);
    if !Cancels(t, o) {
      assert c'.incidents == c.incidents[id := AcceptedIncident(t, c.incidents[id], o)];
      assert c'.incidents == c.incidents <==> AcceptedIncident(t, c.incidents[id], o) == c.incidents[id] by {
        assert c'.incidents[id] == AcceptedIncident(t, c.incidents[id], o);
      }
    }
  }

  lemma EchoCore(cfg: Config, c: Core, clock: Time, o: Observation)
    requires ConfigOk(cfg) && CoreInv(cfg.iface, c, clock)
    ensures SameButLast(c, ObserveCore(cfg, c, o)) <==> Echo(cfg, c, o)
  {
    var e, k := o.evidence, EvidenceKey(o.evidence);
    if k in c.trackers { assert TrackerOk(c, k); }
    if !Stale(c, e) && !e.observeOnly {
      if Quiet(c, e.at) {
        QuietSettles(cfg, c, clock, e.at);
        if k !in c.trackers || Idle(c.trackers[k]) {
          IdleEchoes(cfg, c, o);
        } else {
          BusyEchoesExactly(cfg, c, clock, o);
        }
      } else {
        var due :| Waiting(c, due) && KeyDue(c, due) <= e.at;
        FiringShows(cfg, c, clock, o, due);
      }
    }
  }

  /** Where no timer is due, advancing does nothing at all. */
  lemma QuietAdvances(wan: string, s: State, now: Time, s': State)
    requires Shaped(s.core) && Quiet(s.core, now) && Advances(wan, s, now, s')
    ensures s' == s
  {
    var trace: seq<Firing> :| Reaches(wan, s, now, trace, s');
    if trace != [] { FireChanges(wan, s.core, now, trace[0].key); }
  }

  lemma EchoKeepsJobs(cfg: Config, s: State, o: Observation, again: State)
    requires Shaped(s.core) && Echo(cfg, s.core, o) && Observes(cfg, s, o, again)
    ensures again.jobs == s.jobs
  {
    if !Stale(s.core, o.evidence) && !o.evidence.observeOnly {
      var mid :| Advances(cfg.iface, s, o.evidence.at, mid)
        && again == mid.(core := AcceptUnlessGated(cfg, mid.core, o));
      QuietAdvances(cfg.iface, s, o.evidence.at, mid);
    }
  }

  /** Observing o, whatever it is and however late it comes, changes nothing but a last evidence time exactly if it
      echoes what is known. */
  lemma EchoExact(cfg: Config, s: State, clock: Time, o: Observation, again: State)
    requires ConfigOk(cfg) && CoreInv(cfg.iface, s.core, clock) && Observes(cfg, s, o, again)
    ensures SameButLast(s.core, again.core) && again.jobs == s.jobs <==> Echo(cfg, s.core, o)
  {
    ObservesCore(cfg, s, o, again);
    EchoCore(cfg, s.core, clock, o);
    if Echo(cfg, s.core, o) { EchoKeepsJobs(cfg, s, o, again); }
  }

  lemma HarmlessEchoes(cfg: Config, c: Core, o: Observation)
    requires Harmless(cfg, c, o)
    ensures Echo(cfg, c, o)
  {
  }

  lemma NothingDueIsQuiet(c: Core, now: Time, at: Time)
    requires NothingDue(c, now) && at <= now
    ensures Quiet(c, at)
  {
    forall k | Waiting(c, k) ensures at < KeyDue(c, k) { assert !DueBy(c, k, now); }
  }

  lemma NotingIsIdempotent(i: Incident, o: Observation)
    ensures AlreadyNoted(NoteEvidence(i, o), o)
  {
  }

  lemma StartedEchoes(cfg: Config, c: Core, o: Observation)
    requires ConfigOk(cfg) && o.evidence.at != ZERO_TIME && Starts(TrackerAt(c, EvidenceKey(o.evidence)), o)
    ensures Echoes(cfg, Accept(cfg, c, o), o)
  {
  }

  lemma BusyEchoes(cfg: Config, c: Core, o: Observation)
    requires ConfigOk(cfg) && CoreInv(cfg.iface, c, o.evidence.at) && o.evidence.at != ZERO_TIME
    requires Busy(TrackerAt(c, EvidenceKey(o.evidence))) && !Cancels(TrackerAt(c, EvidenceKey(o.evidence)), o)
    ensures Echoes(cfg, Accept(cfg, c, o), o)
  {
    var k := EvidenceKey(o.evidence);
    assert TrackerOk(c, k);
    var t := c.trackers[k];
    var i := c.incidents[t.incidentId.value];
    assert IncidentOk(t.incidentId.value, i, o.evidence.at);
    assert AcceptedIncident(t, i, o) == NoteEvidence(AcceptedIncident(t, i, o), o) by { NotingIsIdempotent(i, o); }
  }

  lemma AcceptedEchoes(cfg: Config, c: Core, o: Observation)
    requires ConfigOk(cfg) && CoreInv(cfg.iface, c, o.evidence.at) && o.evidence.at != ZERO_TIME
    ensures Echoes(cfg, Accept(cfg, c, o), o)
  {
    var k := EvidenceKey(o.evidence);
    var t := TrackerAt(c, k);
    if Starts(t, o) {
      StartedEchoes(cfg, c, o);
    } else if Busy(t) && !Cancels(t, o) {
      BusyEchoes(cfg, c, o);
    } else if k in c.trackers {
      assert TrackerOk(c, k);
    }
  }

  /** Right after an observation, repeating it is harmless. */
  lemma ObservedIsHarmless(cfg: Config, c: Core, clock: Time, o: Observation)
    requires ConfigOk(cfg) && CoreInv(cfg.iface, c, clock) && clock <= o.evidence.at && o.evidence.at != ZERO_TIME
    requires Seen(c)
    ensures Harmless(cfg, ObserveCore(cfg, c, o), o)
  {
    var e := o.evidence;
    if !e.observeOnly {
      CoreInvLater(cfg.iface, c, clock, e.at);
      SettleKeepsInv(cfg.iface, c, e.at);
      var c1 := Settle(c, e.at);
      NothingDueIsQuiet(c1, e.at, e.at);
      if Gated(cfg, c1, e) {
        SettleKeepsSeen(c, e.at);
      } else {
        AcceptKeepsInv(cfg, c1, e.at, o);
        NothingDueIsQuiet(Accept(cfg, c1, o), e.at, e.at);
        AcceptedEchoes(cfg, c1, o);
      }
    }
  }

  lemma SettleKeepsSeen(c: Core, t: Time)
    requires Seen(c)
    ensures Seen(Settle(c, t))
  {
  }

  lemma StepKeepsSeen(cfg: Config, c: Core, ev: Event)
    requires Seen(c) && (ev.Observed? ==> ev.observation.evidence.at != ZERO_TIME)
    ensures Seen(StepCore(cfg, c, ev))
  {
    if ev.Tick? { SettleKeepsSeen(c, ev.now); }
    if ev.Observed? { SettleKeepsSeen(c, ev.observation.evidence.at); }
  }

  lemma EchoThroughSettle(cfg: Config, c: Core, clock: Time, t: Time, o: Observation)
    requires CoreInv(cfg.iface, c, clock) && Echoes(cfg, c, o)
    ensures Echoes(cfg, Settle(c, t), o)
  {
    var k := EvidenceKey(o.evidence);
    assert TrackerOk(c, k);
    if OwnsIncident(c, c.trackers[k]) {
      var id := c.trackers[k].incidentId.value;
      assert IncidentOk(id, c.incidents[id], clock);
      assert Settle(c, t).incidents[id] == SettledIncident(c, id, t);
    }
  }

  lemma QuietThroughStep(cfg: Config, c: Core, clock: Time, ev: Event, at: Time)
    requires ConfigOk(cfg) && CoreInv(cfg.iface, c, clock) && clock <= After(clock, ev) && at <= After(clock, ev)
    requires Quiet(c, at)
    ensures Quiet(StepCore(cfg, c, ev), at)
  {
    match ev
    case Tick(now) =>
      CoreInvLater(cfg.iface, c, clock, now);
      SettleKeepsInv(cfg.iface, c, now);
      NothingDueIsQuiet(Settle(c, now), now, at);
    case Observed(o) =>
      if Stale(c, o.evidence) {
      } else if o.evidence.observeOnly {
        forall k | Waiting(ArmTracker(c, o.evidence), k) ensures at < KeyDue(ArmTracker(c, o.evidence), k) {
          assert Waiting(c, k) && KeyDue(ArmTracker(c, o.evidence), k) == KeyDue(c, k);
        }
      } else {
        CoreInvLater(cfg.iface, c, clock, o.evidence.at);
        SettleKeepsInv(cfg.iface, c, o.evidence.at);
        var c1 := Settle(c, o.evidence.at);
        AcceptKeepsInv(cfg, c1, o.evidence.at, o);
        NothingDueIsQuiet(c1, o.evidence.at, at);
        NothingDueIsQuiet(Accept(cfg, c1, o), o.evidence.at, at);
      }
    case _ =>
  }

  lemma EchoElsewhere(cfg: Config, c: Core, clock: Time, c': Core, o: Observation)
    requires CoreInv(cfg.iface, c, clock) && Echoes(cfg, c, o) && SameAt(c, c', EvidenceKey(o.evidence))
    ensures Echoes(cfg, c', o)
  {
    assert TrackerOk(c, EvidenceKey(o.evidence));
  }

  /** Later evidence about the same key makes o stale, or leaves the tracker alone. */
  lemma EchoThroughLaterEvidence(cfg: Config, c: Core, clock: Time, later: Observation, o: Observation)
    requires ConfigOk(cfg) && CoreInv(cfg.iface, c, clock) && clock <= later.evidence.at && Echoes(cfg, c, o)
    requires EvidenceKey(later.evidence) == EvidenceKey(o.evidence) && o.evidence.at < later.evidence.at != ZERO_TIME
    ensures Echoes(cfg, ObserveCore(cfg, c, later), o)
  {
    var at := later.evidence.at;
    EchoThroughSettle(cfg, c, clock, at, o);
    CoreInvLater(cfg.iface, c, clock, at);
    SettleKeepsInv(cfg.iface, c, at);
    if Accepts(cfg, c, later) {
      AcceptIsEvidenceStep(cfg, Settle(c, at), at, later);
      assert ObserveCore(cfg, c, later).trackers[EvidenceKey(o.evidence)].lastEvidenceAt == at;
    }
  }

  /** Evidence about o's key comes strictly later than o. */
  predicate StrictlyAfter(o: Observation, ev: Event) {
    ev.Observed? ==>
      && ev.observation.evidence.at != ZERO_TIME
      && (EvidenceKey(ev.observation.evidence) == EvidenceKey(o.evidence) ==>
          o.evidence.at < ev.observation.evidence.at)
  }

  lemma HarmlessThroughStep(cfg: Config, c: Core, clock: Time, ev: Event, o: Observation)
    requires ConfigOk(cfg) && CoreInv(cfg.iface, c, clock) && clock <= After(clock, ev) && o.evidence.at <= clock
    requires Harmless(cfg, c, o) && StrictlyAfter(o, ev)
    ensures Harmless(cfg, StepCore(cfg, c, ev), o)
  {
    if !o.evidence.observeOnly { QuietThroughStep(cfg, c, clock, ev, o.evidence.at); }
    match ev
    case Tick(now) => EchoThroughSettle(cfg, c, clock, now, o);
    case Observed(later) =>
      if EvidenceKey(later.evidence) == EvidenceKey(o.evidence) {
        EchoThroughLaterEvidence(cfg, c, clock, later, o);
      } else {
        ObserveElsewhere(cfg, c, clock, later, EvidenceKey(o.evidence));
        EchoThroughSettle(cfg, c, clock, later.evidence.at, o);
        var c' := ObserveCore(cfg, c, later);
        if SameAt(c, c', EvidenceKey(o.evidence)) {
          EchoElsewhere(cfg, c, clock, c', o);
        } else {
          CoreInvLater(cfg.iface, c, clock, later.evidence.at);
          SettleKeepsInv(cfg.iface, c, later.evidence.at);
          EchoElsewhere(cfg, Settle(c, later.evidence.at), later.evidence.at, c', o);
        }
      }
    case _ =>
  }

  lemma {:induction false} HarmlessThroughRun(cfg: Config, c: Core, clock: Time, events: seq<Event>, o: Observation)
    requires ConfigOk(cfg) && CoreInv(cfg.iface, c, clock) && Monotone(clock, events) && o.evidence.at <= clock
    requires Harmless(cfg, c, o) && forall n :: 0 <= n < |events| ==> StrictlyAfter(o, events[n])
    ensures Harmless(cfg, RunCore(cfg, c, events), o)
    ensures CoreInv(cfg.iface, RunCore(cfg, c, events), Clock(clock, events))
    decreases |events|
  {
    if events != [] {
      CoreStepKeepsInv(cfg, c, clock, events[0]);
      HarmlessThroughStep(cfg, c, clock, events[0], o);
      HarmlessThroughRun(cfg, StepCore(cfg, c, events[0]), After(clock, events[0]), events[1..], o);
    }
  }

  /** Evidence times are set, and strictly increase per key. */
  predicate StrictPerKey(events: seq<Event>) {
    && (forall n :: 0 <= n < |events| && events[n].Observed? ==> events[n].observation.evidence.at != ZERO_TIME)
    && (forall m, n :: 0 <= m < n < |events| && events[m].Observed? ==> StrictlyAfter(events[m].observation, events[n]))
  }

  lemma {:induction false} ReplayFrom(cfg: Config, c: Core, clock: Time, events: seq<Event>, n: nat)
    requires ConfigOk(cfg) && CoreInv(cfg.iface, c, clock) && Monotone(clock, events) && Seen(c)
    requires StrictPerKey(events) && n < |events| && events[n].Observed?
    ensures Harmless(cfg, RunCore(cfg, c, events), events[n].observation)
    ensures CoreInv(cfg.iface, RunCore(cfg, c, events), Clock(clock, events))
    decreases |events|
  {
    CoreStepKeepsInv(cfg, c, clock, events[0]);
    StepKeepsSeen(cfg, c, events[0]);
    var c' := StepCore(cfg, c, events[0]);
    if n == 0 {
      ObservedIsHarmless(cfg, c, clock, events[0].observation);
      forall m | 0 <= m < |events[1..]| ensures StrictlyAfter(events[0].observation, events[1..][m]) {
        assert events[1..][m] == events[m + 1];
      }
      HarmlessThroughRun(cfg, c', After(clock, events[0]), events[1..], events[0].observation);
    } else {
      assert events[1..][n - 1] == events[n];
      ReplayFrom(cfg, c', After(clock, events[0]), events[1..], n - 1);
    }
  }

  lemma ReachedByRun(cfg: Config, start: Time, events: seq<Event>, s: State)
    requires ConfigOk(cfg) && Monotone(start, events) && Executes(cfg, EMPTY_STATE, events, s)
    ensures CoreInv(cfg.iface, s.core, Clock(start, events)) && s.core == RunCore(cfg, EMPTY_CORE, events)
  {
    EmptyInv(cfg, start);
    RunKeepsInv(cfg, EMPTY_STATE, start, events);
    ExecutesIsRun(cfg, EMPTY_STATE, start, events, s);
  }

  /** When replay is harmless: after any monotone execution, observing any observation, of the execution or not, changes
      no incident, no job and no tracker phase exactly if it echoes what is known. */
  lemma ReplayHarmlessExact(cfg: Config, start: Time, events: seq<Event>, s: State, o: Observation, again: State)
    requires ConfigOk(cfg) && Monotone(start, events) && Executes(cfg, EMPTY_STATE, events, s)
    requires Observes(cfg, s, o, again)
    ensures SameButLast(s.core, again.core) && again.jobs == s.jobs <==> Echo(cfg, s.core, o)
  {
    ReachedByRun(cfg, start, events, s);
    EchoExact(cfg, s, Clock(start, events), o, again);
  }

  /** Replay is harmless: after any monotone execution with strictly increasing evidence times per key, observing again
      any of its observations changes no incident, no job and no tracker phase. */
  lemma ReplayIsHarmless(cfg: Config, start: Time, events: seq<Event>, n: nat, s: State, again: State)
    requires ConfigOk(cfg) && Monotone(start, events) && StrictPerKey(events)
    requires n < |events| && events[n].Observed?
    requires Executes(cfg, EMPTY_STATE, events, s) && Observes(cfg, s, events[n].observation, again)
    ensures SameButLast(s.core, again.core) && again.jobs == s.jobs
  {
    EmptyInv(cfg, start);
    ReplayFrom(cfg, EMPTY_CORE, start, events, n);
    ReachedByRun(cfg, start, events, s);
    HarmlessEchoes(cfg, s.core, events[n].observation);
    ReplayHarmlessExact(cfg, start, events, s, events[n].observation, again);
  }

  lemma TieReplayed(cfg: Config, down: Observation, up: Observation)
    requires ConfigOk(cfg)
    requires down == Observation(Evidence("router", "wwan", false, 1, "down", false, false), true, "a:1")
    requires up == Observation(Evidence("router", "wwan", true, 1, "up", false, false), true, "a:2")
    ensures
      var c := RunCore(cfg, EMPTY_CORE, [Observed(down), Observed(up)]);
      && Monotone(1, [Observed(down), Observed(up)]) && c.incidents == map[]
      && ObserveCore(cfg, c, down).incidents != map[]
  {
    var k := Key("router", "wwan");
    var c1 := ObserveCore(cfg, EMPTY_CORE, down);
    assert Settle(EMPTY_CORE, 1) == EMPTY_CORE;
    assert c1.trackers == map[k := NewTracker(down)];
    assert c1.incidents == map[NewIncidentId(down.evidence) := NewIncident(cfg, down)];
    assert !DueBy(c1, k, 1);
    assert Settle(c1, 1) == c1;
    var c2 := ObserveCore(cfg, c1, up);
    assert c2.trackers == map[k := HealthyTracker(1)] && c2.incidents == map[];
    assert Settle(c2, 1) == c2;
    assert [Observed(down), Observed(up)][1..] == [Observed(up)];
    assert RunCore(cfg, c1, [Observed(up)]) == c2;
    assert NewIncidentId(down.evidence) in ObserveCore(cfg, c2, down).incidents;
  }

  /** The strictness is needed: with two messages at one instant, replaying the first starts a new incident. */
  lemma ReplayNeedsStrictTimes(cfg: Config, down: Observation, up: Observation, s: State, again: State)
    requires ConfigOk(cfg)
    requires down == Observation(Evidence("router", "wwan", false, 1, "down", false, false), true, "a:1")
    requires up == Observation(Evidence("router", "wwan", true, 1, "up", false, false), true, "a:2")
    requires Executes(cfg, EMPTY_STATE, [Observed(down), Observed(up)], s) && Observes(cfg, s, down, again)
    ensures Monotone(1, [Observed(down), Observed(up)]) && s.core.incidents == map[]
    ensures again.core.incidents != map[]
  {
    TieReplayed(cfg, down, up);
    ReachedByRun(cfg, 1, [Observed(down), Observed(up)], s);
    ObservesCore(cfg, s, down, again);
  }
}
