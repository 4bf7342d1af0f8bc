/** The timer loop as a whole: every complete run of it, in whatever order the maps are iterated, ends in the closed
    form; settling composes; jobs are created in time order. */
module TimerLoop {
  import opened Wrappers
  import opened IncidentState
  import opened JobSpec
  import opened Invariant
  import opened FiringJobs

  // ---------- the closed form for jobs ----------

  function Kinds(): set<Kind> { {Opened, Resolved, FallbackOpened, FallbackResolved, FallbackEscalated} }

  ghost function Candidates(incidents: map<IncidentId, Incident>): set<JobId> {
    (set id, kind | id in incidents.Keys && kind in Kinds() :: Lifecycle(id, kind)) +
    (set f, p | f in incidents.Keys && p in incidents.Keys :: Escalation(f, p))
  }

  ghost function GrownJobs(wan: string, incidents: map<IncidentId, Incident>, incidents': map<IncidentId, Incident>,
                           jobs: map<JobId, Job>): map<JobId, Job>
  {
    (map j | j in Candidates(incidents') && Wanted(wan, incidents', j) && !Wanted(wan, incidents, j) ::
      NewJob(j, WantedAt(wan, incidents', j))) + jobs
  }

  lemma GrownJobsGrow(wan: string, incidents: map<IncidentId, Incident>, incidents': map<IncidentId, Incident>,
                      jobs: map<JobId, Job>)
    requires forall j :: Wanted(wan, incidents, j) ==>
      Wanted(wan, incidents', j) && WantedAt(wan, incidents', j) == WantedAt(wan, incidents, j)
    ensures JobsGrow(wan, incidents, incidents', jobs, GrownJobs(wan, incidents, incidents', jobs))
  {
    forall j | Wanted(wan, incidents', j) ensures j in Candidates(incidents') {
      match j
      case Lifecycle(id, kind) => assert kind in Kinds();
      case Escalation(f, p) =>
    }
  }

  /** The state after all timers due by the instant have fired. */
  ghost function Settled(wan: string, s: State, now: Time): State {
    State(Settle(s.core, now), GrownJobs(wan, s.core.incidents, Settle(s.core, now).incidents, s.jobs))
  }

  // ---------- there is always a next timer, and finitely many of them ----------

  function PendingKeys(c: Core): set<Key> {
    set k | k in c.trackers && Pending(c.trackers[k])
  }

  lemma FireShrinks(c: Core, k: Key)
    requires k in c.trackers && Pending(c.trackers[k])
    ensures PendingKeys(FireCore(c, k)) == PendingKeys(c) - {k}
    ensures |PendingKeys(FireCore(c, k))| < |PendingKeys(c)|
  {
  }

  lemma LeastDueIn(wan: string, c: Core, now: Time, keys: set<Key>) returns (k: Key)
    requires keys != {} && forall k :: k in keys ==> DueBy(c, k, now)
    ensures k in keys && DueBy(c, k, now)
    ensures forall k' :: k' in keys ==> DueBy(c, k', now) && KeyNoLater(wan, c, k, k')
    decreases |keys|
  {
    k :| k in keys;
    if keys != {k} {
      var rest := keys - {k};
      var m := LeastDueIn(wan, c, now, rest);
      assert forall k' :: k' in keys ==> k' == k || k' in rest;
      if !KeyNoLater(wan, c, k, m) { k := m; }
    }
  }

  lemma NextDueExists(wan: string, c: Core, now: Time) returns (k: Key)
    requires !NothingDue(c, now)
    ensures LegalPick(wan, c, now, k)
  {
    if o :| Orphaned(c, o) {
      k := o;
    } else {
      var due := set k' | k' in c.trackers && DueBy(c, k', now);
      var some :| DueBy(c, some, now);
      assert some in due;
      k := LeastDueIn(wan, c, now, due);
    }
  }

  lemma LegalChoiceExists(wan: string, incidents: map<IncidentId, Incident>, host: string, at: Time)
    returns (choice: Option<IncidentId>)
    ensures LegalChoice(wan, incidents, host, at, choice)
  {
    if p :| PrimaryDown(wan, incidents, host, at, p) {
      choice := Some(p);
    } else {
      choice := None;
    }
  }

  // ---------- every complete run ends in the closed form ----------

  lemma SettleNothing(c: Core, now: Time)
    requires NothingDue(c, now)
    ensures Settle(c, now) == c
  {
    assert forall k :: k in c.trackers ==> Settle(c, now).trackers[k] == c.trackers[k];
  }

  lemma SettledTrackerAbsorbsFire(wan: string, c: Core, now: Time, k: Key, k': Key)
    requires Shaped(c) && LegalPick(wan, c, now, k)
    requires k' in c.trackers
    ensures k' in FireCore(c, k).trackers && SettledTracker(FireCore(c, k), k', now) == SettledTracker(c, k', now)
  {
    FireChanges(wan, c, now, k);
    assert TrackerOk(c, k') && TrackerOk(c, k);
  }

  lemma SettledIncidentAbsorbsFire(wan: string, c: Core, now: Time, k: Key, j: IncidentId)
    requires Shaped(c) && LegalPick(wan, c, now, k)
    requires j in c.incidents
    ensures j in FireCore(c, k).incidents && SettledIncident(FireCore(c, k), j, now) == SettledIncident(c, j, now)
  {
    FireChanges(wan, c, now, k);
    assert IncidentShaped(j, c.incidents[j]);
    assert TrackerOk(c, k);
    if KeyOf(j) in c.trackers { assert TrackerOk(c, KeyOf(j)); }
  }

  lemma SettleAbsorbsFire(wan: string, c: Core, now: Time, k: Key)
    requires Shaped(c) && LegalPick(wan, c, now, k)
    ensures Settle(FireCore(c, k), now) == Settle(c, now)
  {
    FireChanges(wan, c, now, k);
    var c' := FireCore(c, k);
    forall k' | k' in c.trackers ensures SettledTracker(c', k', now) == SettledTracker(c, k', now) {
      SettledTrackerAbsorbsFire(wan, c, now, k, k');
    }
    forall j | j in c.incidents ensures SettledIncident(c', j, now) == SettledIncident(c, j, now) {
      SettledIncidentAbsorbsFire(wan, c, now, k, j);
    }
    SettleAlike(c', c, now);
  }

  lemma SettleAlike(a: Core, b: Core, now: Time)
    requires a.trackers.Keys == b.trackers.Keys && a.incidents.Keys == b.incidents.Keys
    requires forall k :: k in b.trackers ==> SettledTracker(a, k, now) == SettledTracker(b, k, now)
    requires forall j :: j in b.incidents ==> SettledIncident(a, j, now) == SettledIncident(b, j, now)
    ensures Settle(a, now) == Settle(b, now)
  {
    assert Settle(a, now).trackers == Settle(b, now).trackers;
    assert Settle(a, now).incidents == Settle(b, now).incidents;
  }

  /** Whatever the clock, every complete run of the timer loop leaves the trackers and incidents of the closed form. */
  lemma {:induction false} CoresConverge(wan: string, s: State, now: Time, trace: seq<Firing>, s': State)
    requires Shaped(s.core) && Reaches(wan, s, now, trace, s') && NothingDue(s'.core, now)
    ensures Shaped(s'.core) && s'.core == Settle(s.core, now)
    decreases |trace|
  {
    if trace == [] {
      SettleNothing(s.core, now);
    } else {
      FireKeepsShape(wan, s.core, now, trace[0].key);
      SettleAbsorbsFire(wan, s.core, now, trace[0].key);
      CoresConverge(wan, Fire(wan, s, trace[0]), now, trace[1..], s');
    }
  }

  /** Confluence: however the maps are iterated, a complete run of the timer loop ends in the closed form. */
  lemma {:induction false} RunsConverge(wan: string, s: State, now: Time, trace: seq<Firing>, s': State)
    requires CoreInv(wan, s.core, now)
    requires Reaches(wan, s, now, trace, s') && NothingDue(s'.core, now)
    ensures s' == Settled(wan, s, now)
    ensures CoreInv(wan, s'.core, now)
    ensures JobsGrow(wan, s.core.incidents, s'.core.incidents, s.jobs, s'.jobs)
    decreases |trace|
  {
    if trace == [] {
      SettleNothing(s.core, now);
    } else {
      FireChanges(wan, s.core, now, trace[0].key);
      var s1 := Fire(wan, s, trace[0]);
      FireKeepsInv(wan, s.core, now, trace[0].key);
      FireGrowsJobs(wan, s, now, trace[0]);
      SettleAbsorbsFire(wan, s.core, now, trace[0].key);
      RunsConverge(wan, s1, now, trace[1..], s');
      JobsGrowTransitive(wan, s.core.incidents, s1.core.incidents, s'.core.incidents, s.jobs, s1.jobs, s'.jobs);
    }
    GrownJobsGrow(wan, s.core.incidents, s'.core.incidents, s.jobs);
    JobsGrowUnique(wan, s.core.incidents, s'.core.incidents, s.jobs, s'.jobs, Settled(wan, s, now).jobs);
  }

  lemma {:induction false} RunExists(wan: string, s: State, now: Time) returns (trace: seq<Firing>, s': State)
    ensures Reaches(wan, s, now, trace, s') && NothingDue(s'.core, now)
    decreases |PendingKeys(s.core)|
  {
    if NothingDue(s.core, now) {
      trace, s' := [], s;
    } else {
      var k := NextDueExists(wan, s.core, now);
      var choice := None;
      if ConsultsPrimary(wan, s.core, k) {
        choice :=
          LegalChoiceExists(wan, FireCore(s.core, k).incidents, OwnIncident(s.core, k).hostname, KeyDue(s.core, k));
      }
      var f := Firing(k, choice);
      FireShrinks(s.core, k);
      trace, s' := RunExists(wan, Fire(wan, s, f), now);
      assert ([f] + trace)[1..] == trace;
      trace := [f] + trace;
    }
  }

  /** Settling keeps the invariant and grows the jobs as specified. */
  lemma SettledProperties(wan: string, s: State, now: Time)
    requires CoreInv(wan, s.core, now)
    ensures CoreInv(wan, Settle(s.core, now), now)
    ensures NothingDue(Settle(s.core, now), now)
    ensures JobsGrow(wan, s.core.incidents, Settle(s.core, now).incidents, s.jobs, Settled(wan, s, now).jobs)
  {
    var trace, s' := RunExists(wan, s, now);
    RunsConverge(wan, s, now, trace, s');
  }

  lemma SettleKeepsInv(wan: string, c: Core, now: Time)
    requires CoreInv(wan, c, now)
    ensures CoreInv(wan, Settle(c, now), now) && NothingDue(Settle(c, now), now)
  {
    SettledProperties(wan, State(c, map[]), now);
  }

  lemma SettledTrackerComposes(wan: string, c: Core, now: Time, t1: Time, t2: Time, k: Key)
    requires CoreInv(wan, c, now) && t1 <= t2 && k in c.trackers
    ensures k in Settle(c, t1).trackers && SettledTracker(Settle(c, t1), k, t2) == SettledTracker(c, k, t2)
  {
    assert TrackerOk(c, k);
    if Waiting(c, k) {
      var id := c.trackers[k].incidentId.value;
      assert IncidentOk(id, c.incidents[id], now);
      assert Settle(c, t1).incidents[id] == SettledIncident(c, id, t1);
    }
  }

  lemma SettledIncidentComposes(wan: string, c: Core, now: Time, t1: Time, t2: Time, id: IncidentId)
    requires CoreInv(wan, c, now) && t1 <= t2 && id in c.incidents
    ensures id in Settle(c, t1).incidents && SettledIncident(Settle(c, t1), id, t2) == SettledIncident(c, id, t2)
  {
    var i := c.incidents[id];
    assert IncidentOk(id, i, now);
    var k := KeyOf(id);
    var c1 := Settle(c, t1);
    assert c1.incidents[id] == SettledIncident(c, id, t1);
    if k in c.trackers {
      assert TrackerOk(c, k);
      assert c1.trackers[k] == SettledTracker(c, k, t1);
    }
  }

  /** Settling in two steps is settling once. */
  lemma SettleComposes(wan: string, c: Core, now: Time, t1: Time, t2: Time)
    requires CoreInv(wan, c, now) && t1 <= t2
    ensures Settle(Settle(c, t1), t2) == Settle(c, t2)
  {
    var c1 := Settle(c, t1);
    forall k | k in c.trackers ensures SettledTracker(c1, k, t2) == SettledTracker(c, k, t2) {
      SettledTrackerComposes(wan, c, now, t1, t2, k);
    }
    forall id | id in c.incidents ensures SettledIncident(c1, id, t2) == SettledIncident(c, id, t2) {
      SettledIncidentComposes(wan, c, now, t1, t2, id);
    }
    assert Settle(c1, t2).trackers == Settle(c, t2).trackers;
    assert Settle(c1, t2).incidents == Settle(c, t2).incidents;
  }

  lemma AdvanceComposes(wan: string, s: State, t1: Time, t2: Time)
    requires CoreInv(wan, s.core, t1) && t1 <= t2
    ensures Settled(wan, Settled(wan, s, t1), t2) == Settled(wan, s, t2)
  {
    var s1 := Settled(wan, s, t1);
    var s2 := Settled(wan, s1, t2);
    SettledProperties(wan, s, t1);
    CoreInvLater(wan, s1.core, t1, t2);
    SettledProperties(wan, s1, t2);
    SettleComposes(wan, s.core, t1, t1, t2);
    CoreInvLater(wan, s.core, t1, t2);
    SettledProperties(wan, s, t2);
    JobsGrowTransitive(wan, s.core.incidents, s1.core.incidents, s2.core.incidents, s.jobs, s1.jobs, s2.jobs);
    JobsGrowUnique(wan, s.core.incidents, s2.core.incidents, s.jobs, s2.jobs, Settled(wan, s, t2).jobs);
  }

  // ---------- time order within one call ----------

  /** The due times of the timers fired along a run. */
  ghost function FiringTimes(wan: string, s: State, trace: seq<Firing>): seq<Time>
    decreases |trace|
  {
    if trace == [] || !Waiting(s.core, trace[0].key) then []
    else [KeyDue(s.core, trace[0].key)] + FiringTimes(wan, Fire(wan, s, trace[0]), trace[1..])
  }

  ghost predicate InOrder(times: seq<Time>, floor: Time, now: Time) {
    && (forall n :: 0 <= n < |times| ==> floor <= times[n] <= now)
    && (forall m, n :: 0 <= m < n < |times| ==> times[m] <= times[n])
  }

  lemma FirstInOrder(first: Time, rest: seq<Time>, floor: Time, now: Time)
    requires floor <= first <= now && InOrder(rest, first, now)
    ensures InOrder([first] + rest, floor, now)
  {
  }

  /** Timers fire, and so jobs are created, in time order. */
  lemma {:induction false} FiringsInOrder(wan: string, s: State, now: Time, trace: seq<Firing>, s': State, floor: Time)
    requires CoreInv(wan, s.core, now) && Reaches(wan, s, now, trace, s')
    requires forall k :: Waiting(s.core, k) ==> floor <= KeyDue(s.core, k)
    ensures |FiringTimes(wan, s, trace)| == |trace| && InOrder(FiringTimes(wan, s, trace), floor, now)
    decreases |trace|
  {
    if trace != [] {
      var k := trace[0].key;
      var due := KeyDue(s.core, k);
      FireChanges(wan, s.core, now, k);
      FireKeepsInv(wan, s.core, now, k);
      forall k' | Waiting(FireCore(s.core, k), k') ensures due <= KeyDue(FireCore(s.core, k), k') {
        FireLeavesTimers(wan, s.core, now, k, k');
      }
      FiringsInOrder(wan, Fire(wan, s, trace[0]), now, trace[1..], s', due);
      FirstInOrder(due, FiringTimes(wan, Fire(wan, s, trace[0]), trace[1..]), floor, now);
    }
  }

  /** No pending timer is due before the instant. */
  ghost predicate DueFrom(c: Core, floor: Time) {
    forall k :: Waiting(c, k) ==> floor <= KeyDue(c, k)
  }

  /** A firing leaves no timer due before its own, adds jobs of its own instant only, and keeps the others. */
  lemma FiringDates(wan: string, s: State, now: Time, f: Firing, j: JobId)
    requires CoreInv(wan, s.core, now) && LegalFiring(wan, s.core, now, f)
    ensures Waiting(s.core, f.key) && CoreInv(wan, FireCore(s.core, f.key), now)
    ensures DueFrom(FireCore(s.core, f.key), KeyDue(s.core, f.key))
    ensures j in s.jobs ==> j in Fire(wan, s, f).jobs && Fire(wan, s, f).jobs[j] == s.jobs[j]
    ensures j in Fire(wan, s, f).jobs && j !in s.jobs ==> Fire(wan, s, f).jobs[j].createdAt == KeyDue(s.core, f.key)
  {
    FireChanges(wan, s.core, now, f.key);
    FireKeepsInv(wan, s.core, now, f.key);
    forall k | Waiting(FireCore(s.core, f.key), k) ensures KeyDue(s.core, f.key) <= KeyDue(FireCore(s.core, f.key), k) {
      FireLeavesTimers(wan, s.core, now, f.key, k);
    }
    FireJobsAddsFresh(wan, s.core, now, f, s.jobs, j);
  }

  /** A run keeps the jobs there are, and dates those it adds no earlier than the first timer. */
  lemma {:induction false} JobsFrom(wan: string, s: State, now: Time, trace: seq<Firing>, s': State, floor: Time,
                                    j: JobId)
    requires CoreInv(wan, s.core, now) && Reaches(wan, s, now, trace, s') && DueFrom(s.core, floor)
    ensures j in s.jobs ==> j in s'.jobs && s'.jobs[j] == s.jobs[j]
    ensures j in s'.jobs && j !in s.jobs ==> floor <= s'.jobs[j].createdAt
    decreases |trace|
  {
    if trace != [] {
      FiringDates(wan, s, now, trace[0], j);
      JobsFrom(wan, Fire(wan, s, trace[0]), now, trace[1..], s', KeyDue(s.core, trace[0].key), j);
    }
  }

  lemma {:induction false} ReachesThrough(wan: string, s: State, now: Time, past: seq<Firing>, mid: State,
                                          rest: seq<Firing>, s': State)
    requires Reaches(wan, s, now, past, mid) && Reaches(wan, mid, now, rest, s')
    ensures Reaches(wan, s, now, past + rest, s')
    decreases |past|
  {
    if past == [] {
      assert past + rest == rest;
    } else {
      assert (past + rest)[1..] == past[1..] + rest;
      ReachesThrough(wan, Fire(wan, s, past[0]), now, past[1..], mid, rest, s');
    }
  }

  /** Jobs are created in time order within one call: whatever the firings so far added is dated no later than
      whatever a later firing adds. */
  lemma {:induction false} JobsInOrder(wan: string, s: State, now: Time, past: seq<Firing>, mid: State,
                                       rest: seq<Firing>, s': State, earlier: JobId, later: JobId)
    requires CoreInv(wan, s.core, now) && Reaches(wan, s, now, past, mid) && Reaches(wan, mid, now, rest, s')
    requires earlier in mid.jobs && earlier !in s.jobs && later in s'.jobs && later !in mid.jobs
    ensures mid.jobs[earlier].createdAt <= s'.jobs[later].createdAt
    decreases |past|
  {
    if past != [] {
      var s1, due := Fire(wan, s, past[0]), KeyDue(s.core, past[0].key);
      FiringDates(wan, s, now, past[0], earlier);
      if earlier in s1.jobs {
        JobsFrom(wan, s1, now, past[1..], mid, due, earlier);
        JobsFrom(wan, s1, now, past[1..], mid, due, later);
        ReachesThrough(wan, s1, now, past[1..], mid, rest, s');
        JobsFrom(wan, s1, now, past[1..] + rest, s', due, later);
      } else {
        JobsInOrder(wan, s1, now, past[1..], mid, rest, s', earlier, later);
      }
    }
  }
}
