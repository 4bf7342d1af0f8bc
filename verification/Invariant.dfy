/** The invariant of every monotone run: who owns what, and how outages of one interface and pending timers are
    ordered. */
module Invariant {
  import opened Wrappers
  import opened IncidentState

  /** A tracker and its incident tell the same story. */
  predicate InStep(t: Tracker, i: Incident) {
    && t.incidentId == Some(i.id)
    && t.notify == i.notify
    && match t.phase
       case PhasePendingFailure => i.state == StatePendingFailure && t.pendingSince == i.startedAt
         && i.activatedAt.None?
       case PhaseActive => i.state == StateActive && i.activatedAt.Some? && i.recoveryFirstAt.None?
       case PhasePendingRecovery => i.state == StatePendingRecovery && i.activatedAt.Some?
         && i.recoveryFirstAt == Some(t.recoverySince)
       case _ => false
  }

  predicate Idle(t: Tracker) {
    t == HealthyTracker(t.lastEvidenceAt)
  }

  predicate TrackerOk(c: Core, k: Key)
    requires k in c.trackers
  {
    var t := c.trackers[k];
    Idle(t) || (
      && OwnsIncident(c, t)
      && t.incidentId.value.host == k.host && t.incidentId.value.iface == k.iface
      && InStep(t, c.incidents[t.incidentId.value]))
  }

  predicate OwnedBy(c: Core, id: IncidentId, k: Key) {
    k in c.trackers && c.trackers[k].incidentId == Some(id)
  }

  function KeyOf(id: IncidentId): Key { Key(id.host, id.iface) }

  /** An incident is consistent with its id and its own thresholds, whatever the clock says. */
  predicate IncidentShaped(id: IncidentId, i: Incident) {
    && i.id == id && i.hostname == id.host && i.iface == id.iface && i.startedAt == id.started
    && i.downAfter > 0 && i.recoveredAfter > 0
    && (i.activatedAt.Some? ==> i.activatedAt.value == i.startedAt + i.downAfter)
    && (i.recoveryFirstAt.Some? ==> i.activatedAt.Some?)
    && (i.resolvedAt.Some? <==> i.state == StateResolved)
    && (i.resolvedAt.Some? ==>
          i.recoveryFirstAt.Some? && i.resolvedAt.value == i.recoveryFirstAt.value + i.recoveredAfter)
    && (i.state == StatePendingFailure <==> i.activatedAt.None?)
  }

  /** The incident is consistent with the clock, too. */
  predicate IncidentOk(id: IncidentId, i: Incident, now: Time) {
    && IncidentShaped(id, i)
    && i.startedAt <= now
    && (i.activatedAt.Some? ==> i.activatedAt.value <= now)
    && (i.recoveryFirstAt.Some? ==> i.activatedAt.value <= i.recoveryFirstAt.value <= now)
    && (i.resolvedAt.Some? ==> i.resolvedAt.value <= now)
  }

  /** Everything that has happened to i precedes the pending timer of k. */
  predicate PastBefore(wan: string, c: Core, i: Incident, k: Key)
    requires Waiting(c, k)
  {
    && (i.activatedAt.Some? ==>
          NoLater(i.activatedAt.value, if i.iface == wan then 1 else 2, KeyDue(c, k), KeyPriority(wan, c, k)))
    && (i.resolvedAt.Some? ==> i.resolvedAt.value <= KeyDue(c, k))
  }

  predicate OneAfterTheOther(i: Incident, j: Incident) {
    || (i.resolvedAt.Some? && i.resolvedAt.value <= j.startedAt)
    || (j.resolvedAt.Some? && j.resolvedAt.value <= i.startedAt)
  }

  ghost predicate TrackersOk(c: Core) {
    forall k :: k in c.trackers ==> TrackerOk(c, k)
  }

  ghost predicate IncidentsOk(c: Core, now: Time) {
    forall id :: id in c.incidents ==> IncidentOk(id, c.incidents[id], now)
  }

  ghost predicate AllOwned(c: Core) {
    forall id :: id in c.incidents && c.incidents[id].resolvedAt.None? ==> OwnedBy(c, id, KeyOf(id))
  }

  ghost predicate Sequential(c: Core) {
    forall id, id' :: id in c.incidents && id' in c.incidents && id != id' && KeyOf(id) == KeyOf(id') ==>
      OneAfterTheOther(c.incidents[id], c.incidents[id'])
  }

  ghost predicate TimersAhead(wan: string, c: Core) {
    forall id, k :: id in c.incidents && Waiting(c, k) ==> PastBefore(wan, c, c.incidents[id], k)
  }

  ghost predicate EvidenceSeen(c: Core, now: Time) {
    forall k :: k in c.trackers ==> c.trackers[k].lastEvidenceAt <= now
  }

  ghost predicate IncidentsShaped(c: Core) {
    forall id :: id in c.incidents ==> IncidentShaped(id, c.incidents[id])
  }

  /** What holds in every reachable state, however late the evidence came: who owns what. */
  ghost predicate Shaped(c: Core) {
    TrackersOk(c) && IncidentsShaped(c) && AllOwned(c)
  }

  /** What holds as long as no evidence is older than the clock. */
  ghost predicate CoreInv(wan: string, c: Core, now: Time) {
    EvidenceSeen(c, now) && Shaped(c) && IncidentsOk(c, now) && Sequential(c) && TimersAhead(wan, c)
  }

  lemma CoreInvLater(wan: string, c: Core, now: Time, now': Time)
    requires CoreInv(wan, c, now) && now <= now'
    ensures CoreInv(wan, c, now')
  {
  }

  lemma NoOrphans(c: Core, k: Key)
    requires Shaped(c)
    ensures !Orphaned(c, k)
  {
  }

  /** No tracker is orphaned; each busy tracker owns an incident of its own host and interface, in step with it;
      each unresolved incident has exactly one owner. */
  ghost predicate WellOwned(c: Core) {
    && (forall k :: !Orphaned(c, k))
    && (forall k :: k in c.trackers && c.trackers[k].phase != PhaseHealthy ==>
          && OwnsIncident(c, c.trackers[k])
          && InStep(c.trackers[k], c.incidents[c.trackers[k].incidentId.value])
          && KeyOf(c.trackers[k].incidentId.value) == k)
    && (forall id :: id in c.incidents && c.incidents[id].state != StateResolved ==>
          OwnedBy(c, id, KeyOf(id)) && forall k :: OwnedBy(c, id, k) ==> k == KeyOf(id))
  }

  lemma ShapedIsWellOwned(c: Core)
    requires Shaped(c)
    ensures WellOwned(c)
  {
    forall k ensures !Orphaned(c, k) { NoOrphans(c, k); }
    forall k | k in c.trackers ensures TrackerOk(c, k) {}
    forall id | id in c.incidents ensures IncidentShaped(id, c.incidents[id]) {}
  }

  /** At most one primary incident of a host is down at any instant. */
  lemma OnePrimaryDown(wan: string, c: Core, now: Time, host: string, at: Time, p: IncidentId, q: IncidentId)
    requires CoreInv(wan, c, now)
    requires PrimaryDown(wan, c.incidents, host, at, p) && PrimaryDown(wan, c.incidents, host, at, q)
    ensures p == q
  {
    assert IncidentOk(p, c.incidents[p], now) && IncidentOk(q, c.incidents[q], now);
    assert KeyOf(p) == KeyOf(q);
  }

  /** What one legal firing changes: one tracker and its own incident. */
  lemma FireChanges(wan: string, c: Core, now: Time, k: Key)
    requires Shaped(c)
    requires LegalPick(wan, c, now, k)
    ensures DueBy(c, k, now)
    ensures
      var id := c.trackers[k].incidentId.value;
      && KeyOf(id) == k && c.incidents[id].id == id
      && FireCore(c, k) == Core(c.trackers[k := FiredTracker(c.trackers[k])],
                                c.incidents[id := FiredIncident(c.trackers[k], c.incidents[id])])
  {
    NoOrphans(c, k);
    assert TrackerOk(c, k);
  }

  /** The timers that still wait after a firing are the others, unchanged and no earlier. */
  lemma FireLeavesTimers(wan: string, c: Core, now: Time, k: Key, k': Key)
    requires CoreInv(wan, c, now)
    requires LegalPick(wan, c, now, k)
    requires Waiting(FireCore(c, k), k')
    ensures k' != k && Waiting(c, k) && Waiting(c, k')
    ensures OwnIncident(FireCore(c, k), k') == OwnIncident(c, k') && FireCore(c, k).trackers[k'] == c.trackers[k']
    ensures KeyNoLater(wan, c, k, k')
  {
    FireChanges(wan, c, now, k);
    if k' != k {
      assert TrackerOk(c, k') && TrackerOk(c, k);
      if DueBy(c, k', now) {}
    }
  }

  /** Firing the next due timer keeps who owns what, whatever the clock. */
  lemma FireKeepsShape(wan: string, c: Core, now: Time, k: Key)
    requires Shaped(c) && LegalPick(wan, c, now, k)
    ensures Shaped(FireCore(c, k))
  {
    FireChanges(wan, c, now, k);
    var id := c.trackers[k].incidentId.value;
    var c' := FireCore(c, k);
    assert TrackerOk(c, k) && IncidentShaped(id, c.incidents[id]);
    forall k' | k' in c'.trackers ensures TrackerOk(c', k') {
      assert TrackerOk(c, k');
    }
    forall j | j in c'.incidents ensures IncidentShaped(j, c'.incidents[j]) {
      assert IncidentShaped(j, c.incidents[j]);
    }
    forall j | j in c'.incidents && c'.incidents[j].resolvedAt.None? ensures OwnedBy(c', j, KeyOf(j)) {
      assert OwnedBy(c, j, KeyOf(j));
    }
  }

  lemma FireKeepsTimes(wan: string, c: Core, now: Time, k: Key)
    requires CoreInv(wan, c, now)
    requires LegalPick(wan, c, now, k)
    ensures EvidenceSeen(FireCore(c, k), now) && IncidentsOk(FireCore(c, k), now)
  {
    FireChanges(wan, c, now, k);
    var id := c.trackers[k].incidentId.value;
    var c' := FireCore(c, k);
    assert TrackerOk(c, k) && IncidentOk(id, c.incidents[id], now);
    forall j | j in c'.incidents ensures IncidentOk(j, c'.incidents[j], now) {
      assert IncidentOk(j, c.incidents[j], now);
    }
  }

  lemma FireKeepsSequence(wan: string, c: Core, now: Time, k: Key)
    requires CoreInv(wan, c, now)
    requires LegalPick(wan, c, now, k)
    ensures Sequential(FireCore(c, k))
  {
    FireChanges(wan, c, now, k);
    var c' := FireCore(c, k);
    forall j, j' | j in c'.incidents && j' in c'.incidents && j != j' && KeyOf(j) == KeyOf(j')
      ensures OneAfterTheOther(c'.incidents[j], c'.incidents[j'])
    {
      assert OneAfterTheOther(c.incidents[j], c.incidents[j']);
    }
  }

  lemma FireKeepsOrder(wan: string, c: Core, now: Time, k: Key)
    requires CoreInv(wan, c, now)
    requires LegalPick(wan, c, now, k)
    ensures TimersAhead(wan, FireCore(c, k))
  {
    FireChanges(wan, c, now, k);
    var c' := FireCore(c, k);
    forall j, k' | j in c'.incidents && Waiting(c', k') ensures PastBefore(wan, c', c'.incidents[j], k') {
      FireLeavesTimers(wan, c, now, k, k');
      assert PastBefore(wan, c, c.incidents[j], k');
      assert TrackerOk(c, k) && IncidentOk(j, c.incidents[j], now);
    }
  }

  /** Firing the next due timer keeps the invariant. */
  lemma FireKeepsInv(wan: string, c: Core, now: Time, k: Key)
    requires CoreInv(wan, c, now)
    requires LegalPick(wan, c, now, k)
    ensures CoreInv(wan, FireCore(c, k), now)
  {
    FireKeepsShape(wan, c, now, k);
    FireKeepsTimes(wan, c, now, k);
    FireKeepsSequence(wan, c, now, k);
    FireKeepsOrder(wan, c, now, k);
  }
}
