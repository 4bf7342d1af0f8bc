/** The passes of the worker are histories of the checkpoint protocol. */
module PassRefinement {
  import opened Wrappers
  import opened IncidentState
  import opened JobSpec
  import opened Invariant
  import opened TimerLoop
  import opened Observing
  import opened Runs
  import opened AnyState
  import opened IncidentService
  import opened Delivery
  import opened Recovery

  // ---------- histories, one after the other ----------

  lemma {:induction false} FollowsThen(cfg: Config, start: Time, n: Node, a: seq<Action>, b: seq<Action>)
    requires Follows(cfg, start, n, a) && Follows(cfg, start, NodeAfter(cfg, start, n, a), b)
    ensures Follows(cfg, start, n, a + b)
    ensures NodeAfter(cfg, start, n, a + b) == NodeAfter(cfg, start, NodeAfter(cfg, start, n, a), b)
    decreases |a|
  {
    if a == [] {
      assert a + b == b;
    } else {
      assert (a + b)[1..] == a[1..] + b;
      FollowsThen(cfg, start, Next(cfg, start, n, a[0]), a[1..], b);
    }
  }

  lemma OneStep(cfg: Config, start: Time, n: Node, a: Action)
    requires Enabled(start, n, a)
    ensures Follows(cfg, start, n, [a]) && NodeAfter(cfg, start, n, [a]) == Next(cfg, start, n, a)
  {
    assert [a][1..] == [];
  }

  // ---------- the records of a pass ----------

  /** Records in time order can be appended, one after the other. */
  lemma {:induction false} AppendAll(cfg: Config, start: Time, n: Node, clock: Time, observations: seq<Observation>)
    returns (actions: seq<Action>)
    requires Monotone(clock, Events(observations)) && Clock(start, n.log) <= clock && n.memory.clock <= clock
    ensures Follows(cfg, start, n, actions)
    ensures NodeAfter(cfg, start, n, actions) == n.(log := n.log + Events(observations))
    decreases |observations|
  {
    if observations == [] {
      actions := [];
      assert n.log + [] == n.log;
    } else {
      var o, rest := observations[0], observations[1..];
      assert ([Observed(o)] + Events(rest))[1..] == Events(rest);
      var n' := n.(log := n.log + [Observed(o)]);
      MonotoneConcat(start, n.log, [Observed(o)]);
      var later := AppendAll(cfg, start, n', o.evidence.at, rest);
      actions := [AppendRecord(o)] + later;
      assert actions[1..] == later;
      assert n.log + Events(observations) == n.log + [Observed(o)] + Events(rest);
    }
  }

  // ---------- the deliveries of a pass ----------

  /** The jobs, those in todo with their outcome. */
  function Marked(jobs: map<JobId, Job>, after: map<JobId, Job>, todo: set<JobId>): map<JobId, Job>
    requires todo <= after.Keys
  {
    map j | j in jobs :: if j in todo then after[j] else jobs[j]
  }

  /** An outcome is the mark of a delivery. */
  lemma OutcomeIsMark(cfg: Config, s: State, j: JobId, after: Job, send: SendOutcome, now: Time)
    requires j in s.jobs && Outcome(true, s.jobs[j], after, send, now)
    ensures Step(cfg, s, Mark(j, now, send, after.nextAt)) == s.(jobs := s.jobs[j := after])
  {
  }

  /** Every job of todo is due and has its outcome in after. */
  ghost predicate Outcomes(jobs: map<JobId, Job>, after: map<JobId, Job>, todo: set<JobId>,
                           sends: Answers, now: Time)
  {
    forall j :: j in todo ==>
      j in jobs && j in after && Due(jobs[j], now) && Outcome(true, jobs[j], after[j], AnswerOf(sends, j), now)
  }

  function DeliveredOf(todo: set<JobId>, sends: Answers): set<JobId> {
    set j | j in todo && AnswerOf(sends, j).Delivered?
  }

  /** The node after the delivery of one job. */
  function AfterDelivery(n: Node, j: JobId, after: Job, delivered: bool): Node {
    var m := n.memory.(state := n.memory.state.(jobs := n.memory.state.jobs[j := after]));
    var got := if delivered then {j} else {};
    Node(n.log, m, m, n.sent + got, n.receipts + got)
  }

  lemma DeliverOne(cfg: Config, start: Time, n: Node, j: JobId, after: Job, send: SendOutcome, now: Time)
    requires j in n.memory.state.jobs && Due(n.memory.state.jobs[j], now)
    requires Outcome(true, n.memory.state.jobs[j], after, send, now)
    ensures
      var a := Deliver(j, now, send, after.nextAt, true);
      Follows(cfg, start, n, [a]) && NodeAfter(cfg, start, n, [a]) == AfterDelivery(n, j, after, send.Delivered?)
  {
    OutcomeIsMark(cfg, n.memory.state, j, after, send, now);
    OneStep(cfg, start, n, Deliver(j, now, send, after.nextAt, true));
  }

  lemma OutcomesOneLess(jobs: map<JobId, Job>, after: map<JobId, Job>, todo: set<JobId>, sends: Answers,
                        now: Time, j: JobId)
    requires todo <= after.Keys && Outcomes(jobs, after, todo, sends, now) && j in todo
    ensures Outcomes(jobs[j := after[j]], after, todo - {j}, sends, now)
    ensures Marked(jobs[j := after[j]], after, todo - {j}) == Marked(jobs, after, todo)
    ensures todo - {j} == {} ==> Marked(jobs, after, todo) == jobs[j := after[j]]
    ensures (if AnswerOf(sends, j).Delivered? then {j} else {}) + DeliveredOf(todo - {j}, sends)
      == DeliveredOf(todo, sends)
  {
    assert Marked(jobs[j := after[j]], after, todo - {j}) == Marked(jobs, after, todo);
    if todo - {j} == {} { assert todo == {j}; }
  }

  /** The node after the deliveries of todo. */
  function AfterDeliveries(n: Node, after: map<JobId, Job>, todo: set<JobId>, sends: Answers): Node
    requires todo <= after.Keys
  {
    var m := n.memory.(state := n.memory.state.(jobs := Marked(n.memory.state.jobs, after, todo)));
    Node(n.log, m, if todo == {} then n.disk else m, n.sent + DeliveredOf(todo, sends),
         n.receipts + DeliveredOf(todo, sends))
  }

  lemma DeliveriesCompose(n: Node, after: map<JobId, Job>, todo: set<JobId>, sends: Answers, now: Time,
                          j: JobId)
    requires todo <= after.Keys && Outcomes(n.memory.state.jobs, after, todo, sends, now) && j in todo
    ensures
      var n1 := AfterDelivery(n, j, after[j], AnswerOf(sends, j).Delivered?);
      && Outcomes(n1.memory.state.jobs, after, todo - {j}, sends, now)
      && AfterDeliveries(n1, after, todo - {j}, sends) == AfterDeliveries(n, after, todo, sends)
  {
    OutcomesOneLess(n.memory.state.jobs, after, todo, sends, now, j);
    var n1 := AfterDelivery(n, j, after[j], AnswerOf(sends, j).Delivered?);
    assert n1.sent + DeliveredOf(todo - {j}, sends) == n.sent + DeliveredOf(todo, sends);
    assert n1.receipts + DeliveredOf(todo - {j}, sends) == n.receipts + DeliveredOf(todo, sends);
  }

  lemma {:induction false} DeliverAll(cfg: Config, start: Time, n: Node, after: map<JobId, Job>, todo: set<JobId>,
                                      sends: Answers, now: Time) returns (actions: seq<Action>)
    requires todo <= after.Keys && Outcomes(n.memory.state.jobs, after, todo, sends, now)
    ensures Follows(cfg, start, n, actions)
    ensures NodeAfter(cfg, start, n, actions) == AfterDeliveries(n, after, todo, sends)
    decreases |todo|, 1
  {
    if todo == {} {
      actions := [];
      assert Marked(n.memory.state.jobs, after, todo) == n.memory.state.jobs;
    } else {
      var j :| j in todo;
      actions := DeliverThen(cfg, start, n, after, todo, sends, now, j);
    }
  }

  lemma {:induction false} DeliverThen(cfg: Config, start: Time, n: Node, after: map<JobId, Job>, todo: set<JobId>,
                                       sends: Answers, now: Time, j: JobId) returns (actions: seq<Action>)
    requires todo <= after.Keys && Outcomes(n.memory.state.jobs, after, todo, sends, now) && j in todo
    ensures Follows(cfg, start, n, actions)
    ensures NodeAfter(cfg, start, n, actions) == AfterDeliveries(n, after, todo, sends)
    decreases |todo|, 0
  {
    var send := AnswerOf(sends, j);
    var n1 := AfterDelivery(n, j, after[j], send.Delivered?);
    DeliverOne(cfg, start, n, j, after[j], send, now);
    DeliveriesCompose(n, after, todo, sends, now, j);
    var later := DeliverAll(cfg, start, n1, after, todo - {j}, sends, now);
    FollowsThen(cfg, start, n, [Deliver(j, now, send, after[j].nextAt, true)], later);
    actions := [Deliver(j, now, send, after[j].nextAt, true)] + later;
  }

  // ---------- passes ----------

  /** Where every job names a known incident, what a dispatch handled is what deliveries do. */
  lemma HandledOutcomes(wan: string, s: State, jobs: map<JobId, Job>, sent: Sendings, sends: Answers,
                        now: Time)
    requires JobsExact(wan, s) && Handled(s.jobs, jobs, sent.done, sent.delivered, World(s.core.incidents, sends, now))
    ensures sent.done <= jobs.Keys && Outcomes(s.jobs, jobs, sent.done, sends, now)
    ensures Marked(s.jobs, jobs, sent.done) == jobs
    ensures forall j :: j in sent.delivered ==> j in DeliveredOf(sent.done, sends)
  {
    forall j | j in sent.done ensures Known(World(s.core.incidents, sends, now), s.jobs[j]) {
      assert JobShape(j, s.jobs[j]) && Wanted(wan, s.core.incidents, j);
    }
    forall j | j in sent.delivered ensures j in DeliveredOf(sent.done, sends) {
      var m :| 0 <= m < |sent.delivered| && sent.delivered[m] == j;
    }
  }

  /** What delivering the handled jobs makes of a node whose jobs are exact. */
  lemma DeliveriesEnd(wan: string, n: Node, s: State, sent: Sendings, sends: Answers, now: Time)
    requires JobsExact(wan, n.memory.state) && s.core == n.memory.state.core
    requires Handled(n.memory.state.jobs, s.jobs, sent.done, sent.delivered, World(s.core.incidents, sends, now))
    ensures sent.done <= s.jobs.Keys && Outcomes(n.memory.state.jobs, s.jobs, sent.done, sends, now)
    ensures
      var n' := AfterDeliveries(n, s.jobs, sent.done, sends);
      && n'.log == n.log && n'.memory == n.memory.(state := s)
      && n'.disk == (if sent.done == {} then n.disk else n'.memory)
      && (sent.done == {} ==> s == n.memory.state)
      && n.receipts <= n'.receipts && forall j :: j in sent.delivered ==> j in n'.receipts
  {
    HandledOutcomes(wan, n.memory.state, s.jobs, sent, sends, now);
    if sent.done == {} { assert Marked(n.memory.state.jobs, s.jobs, {}) == n.memory.state.jobs; }
  }

  /** The deliveries of a pass, on a node whose timers have fired. */
  lemma SendingIsHistory(cfg: Config, start: Time, n: Node, now: Time, sends: Answers, sent: Sendings,
                         s: State)
    returns (actions: seq<Action>)
    requires JobsExact(cfg.iface, n.memory.state) && s.core == n.memory.state.core
    requires Handled(n.memory.state.jobs, s.jobs, sent.done, sent.delivered, World(s.core.incidents, sends, now))
    ensures Follows(cfg, start, n, actions)
    ensures
      var n' := NodeAfter(cfg, start, n, actions);
      && n'.log == n.log && n'.memory == n.memory.(state := s)
      && n'.disk == (if sent.done == {} then n.disk else n'.memory)
      && (sent.done == {} ==> s == n.memory.state)
      && n.receipts <= n'.receipts && forall j :: j in sent.delivered ==> j in n'.receipts
  {
    DeliveriesEnd(cfg.iface, n, s, sent, sends, now);
    actions := DeliverAll(cfg, start, n, s.jobs, sent.done, sends, now);
  }

  /** Settling changes the state exactly if a timer is due. */
  lemma SettledIsQuiet(wan: string, s: State, clock: Time, now: Time)
    requires CoreInv(wan, s.core, clock)
    ensures Settled(wan, s, now) == s <==> NothingDue(s.core, now)
  {
    if NothingDue(s.core, now) {
      SettleNothing(s.core, now);
      assert GrownJobs(wan, s.core.incidents, s.core.incidents, s.jobs) == s.jobs;
    } else {
      forall k ensures !Orphaned(s.core, k) { NoOrphans(s.core, k); }
      var k :| DueBy(s.core, k, now);
      assert Settle(s.core, now).trackers[k] == FiredTracker(s.core.trackers[k]);
    }
  }

  /** The disk of a node holds what the service last saved. */
  predicate Holds(n: Node, saved: Option<Snapshot>) {
    saved.Some? && n.disk.state == saved.value.state
  }

  /** A tick of the worker is a history of the protocol: the clock ticks, and jobs are delivered; memory and disk end as
      the service's memory and last snapshot do. */
  lemma TickIsHistory(cfg: Config, start: Time, n: Node, now: Time, tickOk: bool, sends: Answers, outcome: Progression,
                      sent: Sendings, before: Option<Snapshot>, after: Option<Snapshot>, current: Snapshot)
    returns (actions: seq<Action>)
    requires ConfigOk(cfg) && Inv(cfg, n.memory.state, n.memory.clock) && n.memory.clock <= now
    requires n.memory.read <= |n.log| && Monotone(now, n.log[n.memory.read..])
    requires outcome.NotAdvanced? <==> !tickOk && !NothingDue(n.memory.state.core, now)
    requires outcome.NotAdvanced? ==> sent.done == {}
    requires TickReaches(cfg.iface, n.memory.state, now, sends, sent, current.state)
    requires TickSaves(NothingDue(n.memory.state.core, now), outcome, sent, before, after, current)
    ensures Follows(cfg, start, n, actions)
    ensures
      var n' := NodeAfter(cfg, start, n, actions);
      && n'.log == n.log && n'.memory == Checkpoint(current.state, n.memory.read, now)
      && n'.disk ==
           (if SavesNothing(NothingDue(n.memory.state.core, now), outcome, sent) then n.disk else n'.memory)
      && (Holds(n, before) ==> Holds(n', after))
      && (NothingDue(n.memory.state.core, now) && sent.done == {} ==> current.state == n.memory.state)
      && n.receipts <= n'.receipts && forall j :: j in sent.delivered ==> j in n'.receipts
  {
    SettledIsQuiet(cfg.iface, n.memory.state, n.memory.clock, now);
    var n1 := ClockTicked(cfg, start, n, now, tickOk);
    var deliveries := SendingIsHistory(cfg, start, n1, now, sends, sent, current.state);
    FollowsThen(cfg, start, n, [TickClock(now, tickOk)], deliveries);
    actions := [TickClock(now, tickOk)] + deliveries;
  }

  lemma ClockTicked(cfg: Config, start: Time, n: Node, now: Time, tickOk: bool) returns (n': Node)
    requires ConfigOk(cfg) && Inv(cfg, n.memory.state, n.memory.clock) && n.memory.clock <= now
    requires n.memory.read <= |n.log| && Monotone(now, n.log[n.memory.read..])
    ensures
      var goal := Settled(cfg.iface, n.memory.state, now);
      var m := n.memory.(state := goal, clock := now);
      && n' == n.(memory := m, disk := if tickOk && goal != n.memory.state then m else n.disk)
      && Follows(cfg, start, n, [TickClock(now, tickOk)]) && NodeAfter(cfg, start, n, [TickClock(now, tickOk)]) == n'
      && JobsExact(cfg.iface, goal)
  {
    OneStep(cfg, start, n, TickClock(now, tickOk));
    n' := Next(cfg, start, n, TickClock(now, tickOk));
    TickKeepsInv(cfg, n.memory.state, n.memory.clock, now);
  }

  /** Where the clock stands after the log that is left to read. */
  lemma LogClock(cfg: Config, base: State, start: Time, n: Node)
    requires NodeInv(cfg, base, start, n)
    ensures n.memory.read <= |n.log| && EvidenceOnly(n.log[n.memory.read..])
    ensures Monotone(n.memory.clock, n.log[n.memory.read..])
    ensures Clock(start, n.log) <= Clock(n.memory.clock, n.log[n.memory.read..])
    ensures n.memory.clock <= Clock(n.memory.clock, n.log[n.memory.read..])
  {
    var before, rest := n.log[..n.memory.read], n.log[n.memory.read..];
    assert n.log == before + rest;
    MonotoneConcat(start, before, rest);
    LastClock(Clock(start, before), n.memory.clock, rest);
    ClockRises(n.memory.clock, rest);
  }

  lemma {:induction false} ClockRises(clock: Time, events: seq<Event>)
    requires Monotone(clock, events)
    ensures clock <= Clock(clock, events)
    decreases |events|
  {
    if events != [] { ClockRises(After(clock, events[0]), events[1..]); }
  }

  /** Everything left to read is applied. */
  lemma ApplyAll(cfg: Config, start: Time, n: Node, applyOk: bool)
    requires n.memory.read <= |n.log|
    ensures
      var a, rest := ApplyNew(|n.log|, applyOk), n.log[n.memory.read..];
      var m := Checkpoint(Run(cfg, n.memory.state, rest), |n.log|, Clock(n.memory.clock, rest));
      && Follows(cfg, start, n, [a])
      && NodeAfter(cfg, start, n, [a]) == n.(memory := m, disk := if applyOk then m else n.disk)
  {
    assert n.log[n.memory.read..|n.log|] == n.log[n.memory.read..];
    OneStep(cfg, start, n, ApplyNew(|n.log|, applyOk));
  }

  /** Reading and applying the records of a pass, saved or not: first those that a crash left unread, then the newer. */
  lemma ReadingIsHistory(cfg: Config, base: State, start: Time, n: Node, newer: seq<Observation>, applyOk: bool)
    returns (actions: seq<Action>)
    requires ConfigOk(cfg) && Inv(cfg, base, start) && NodeInv(cfg, base, start, n)
    requires Monotone(n.memory.clock, n.log[n.memory.read..] + Events(newer))
    ensures Follows(cfg, start, n, actions)
    ensures
      var n', events := NodeAfter(cfg, start, n, actions), n.log[n.memory.read..] + Events(newer);
      && n'.log == n.log + Events(newer)
      && n'.memory == Checkpoint(Run(cfg, n.memory.state, events), |n'.log|, Clock(n.memory.clock, events))
      && n'.disk == (if applyOk then n'.memory else n.disk) && n'.receipts == n.receipts
  {
    var rest := n.log[n.memory.read..];
    LogClock(cfg, base, start, n);
    MonotoneConcat(n.memory.clock, rest, Events(newer));
    var appends := AppendAll(cfg, start, n, Clock(n.memory.clock, rest), newer);
    var n1 := n.(log := n.log + Events(newer));
    assert n1.log[n1.memory.read..] == rest + Events(newer);
    ApplyAll(cfg, start, n1, applyOk);
    FollowsThen(cfg, start, n, appends, [ApplyNew(|n1.log|, applyOk)]);
    actions := appends + [ApplyNew(|n1.log|, applyOk)];
  }

  /** A reconciliation that did not rebuild is a history of the protocol: the records it reads, those a crash left
      unread and newer ones, are appended and applied, the clock ticks, and jobs are delivered; memory and disk end as
      the service's memory and last snapshot do. */
  lemma PassIsHistory(cfg: Config, base: State, start: Time, n: Node, observations: seq<Observation>,
                      newer: seq<Observation>, now: Time, outcome: Progression, sends: Answers, sent: Sendings,
                      before: Option<Snapshot>, after: Option<Snapshot>, current: Snapshot)
    returns (actions: seq<Action>)
    requires ConfigOk(cfg) && Inv(cfg, base, start) && NodeInv(cfg, base, start, n)
    requires n.memory.read <= |n.log| && Events(observations) == n.log[n.memory.read..] + Events(newer)
    requires Monotone(n.memory.clock, Events(observations)) && Clock(n.memory.clock, Events(observations)) <= now
    requires outcome.NotAdvanced? ==>
      sent.done == {} && !NothingDue(Run(cfg, n.memory.state, Events(observations)).core, now)
    requires Holds(n, before) && !outcome.Unreadable?
    requires PassReaches(cfg, n.memory.state, false, observations, now, outcome, sends, sent, current.state)
    requires PassSaves(cfg, n.memory.state, false, observations, outcome, before, after, current)
    ensures Follows(cfg, start, n, actions)
    ensures
      var n' := NodeAfter(cfg, start, n, actions);
      && n'.log == n.log + Events(newer) && n'.memory.state == current.state && n'.memory.read == |n'.log|
      && Holds(n', after) && n.receipts <= n'.receipts
      && (if outcome.NotApplied? then n'.disk == n.disk else n'.disk.read == |n'.log|)
      && n'.memory.clock == (if outcome.NotApplied? then Clock(n.memory.clock, Events(observations)) else now)
      && (!outcome.NotApplied? ==> forall j :: j in sent.delivered ==> j in n'.receipts)
  {
    actions := ReadingIsHistory(cfg, base, start, n, newer, !outcome.NotApplied?);
    if !outcome.NotApplied? {
      RunKeepsNodeInv(cfg, base, start, n, actions);
      var n1 := NodeAfter(cfg, start, n, actions);
      var read := Some(current.(state := n1.memory.state));
      var quiet := NothingDue(n1.memory.state.core, now);
      var last := if SavesNothing(quiet, outcome, sent) then read else Some(current);
      assert n1.log[n1.memory.read..] == [];
      var rest := TickIsHistory(cfg, start, n1, now, !outcome.NotAdvanced?, sends, outcome, sent, read, last, current);
      FollowsThen(cfg, start, n, actions, rest);
      actions := actions + rest;
    }
  }
}
