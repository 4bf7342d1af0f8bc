/** The checkpoint protocol: memory and disk, failing saves, crashes at any step, and at-least-once delivery. */
module Recovery {
  import opened Wrappers
  import opened IncidentState
  import opened JobSpec
  import opened Invariant
  import opened TimerLoop
  import opened Observing
  import opened Runs
  import opened Isolation
  import opened Delivery

  /** A derived state, the number of log records below its cursors, and the last instant it was advanced to. */
  datatype Checkpoint = Checkpoint(state: State, read: nat, clock: Time)

  /** The log after the bootstrapped snapshot, the engine's memory, the last saved snapshot,
      the jobs whose Send succeeded, and the jobs whose receipt was saved. */
  datatype Node = Node(log: seq<Event>, memory: Checkpoint, disk: Checkpoint, sent: set<JobId>, receipts: set<JobId>)

  datatype Action =
    | AppendRecord(observation: Observation)
    | ApplyNew(upto: nat, saveOk: bool)
    | TickClock(now: Time, saveOk: bool)
    | Deliver(job: JobId, now: Time, send: SendOutcome, next: Time, saveOk: bool)
    | Crash

  // ---------- the protocol ----------

  /** Records arrive in time order, ticks do not overtake records still unread, and only due jobs are sent. */
  predicate Enabled(start: Time, n: Node, a: Action) {
    match a
    case AppendRecord(o) => Clock(start, n.log) <= o.evidence.at && n.memory.clock <= o.evidence.at
    case ApplyNew(upto, _) => n.memory.read <= upto <= |n.log|
    case TickClock(now, _) =>
      n.memory.read <= |n.log| && n.memory.clock <= now && Monotone(now, n.log[n.memory.read..])
    case Deliver(j, now, _, _, _) => j in n.memory.state.jobs && Due(n.memory.state.jobs[j], now)
    case Crash => true
  }

  ghost function Applied(cfg: Config, n: Node, upto: nat): Checkpoint
    requires n.memory.read <= upto <= |n.log|
  {
    var events := n.log[n.memory.read..upto];
    Checkpoint(Run(cfg, n.memory.state, events), upto, Clock(n.memory.clock, events))
  }

  /** The mark a delivery leaves: a receipt, or a failure. */
  function Mark(j: JobId, now: Time, send: SendOutcome, next: Time): Event {
    match send
    case Delivered(adapter, externalId) => Sent(j, adapter, externalId, now)
    case NotDelivered(message, permanent, _) => Failed(j, message, next, permanent)
  }

  ghost function MarkedMemory(cfg: Config, n: Node, j: JobId, now: Time, send: SendOutcome, next: Time): Checkpoint {
    n.memory.(state := Step(cfg, n.memory.state, Mark(j, now, send, next)))
  }

  ghost function Next(cfg: Config, start: Time, n: Node, a: Action): Node
    requires Enabled(start, n, a)
  {
    match a
    case AppendRecord(o) => n.(log := n.log + [Observed(o)])
    case ApplyNew(upto, saveOk) =>
      var m := Applied(cfg, n, upto);
      n.(memory := m, disk := if saveOk then m else n.disk)
    case TickClock(now, saveOk) =>
      var m := n.memory.(state := Settled(cfg.iface, n.memory.state, now), clock := now);
      n.(memory := m, disk := if saveOk && m.state != n.memory.state then m else n.disk)
    case Deliver(j, now, send, next, saveOk) =>
      var m := MarkedMemory(cfg, n, j, now, send, next);
      n.(memory := if saveOk then m else n.memory,
         disk := if saveOk then m else n.disk,
         sent := if send.Delivered? then n.sent + {j} else n.sent,
         receipts := if send.Delivered? && saveOk then n.receipts + {j} else n.receipts)
    case Crash => n.(memory := n.disk)
  }

  ghost predicate Follows(cfg: Config, start: Time, n: Node, actions: seq<Action>)
    decreases |actions|
  {
    actions == []
      || (Enabled(start, n, actions[0]) && Follows(cfg, start, Next(cfg, start, n, actions[0]), actions[1..]))
  }

  ghost function NodeAfter(cfg: Config, start: Time, n: Node, actions: seq<Action>): Node
    requires Follows(cfg, start, n, actions)
    decreases |actions|
  {
    if actions == [] then n else NodeAfter(cfg, start, Next(cfg, start, n, actions[0]), actions[1..])
  }

  // ---------- the invariant ----------

  predicate EvidenceOnly(events: seq<Event>) {
    forall n :: 0 <= n < |events| ==> events[n].Observed?
  }

  /** The checkpoint holds exactly what the records below its cursors determine, plus a tick. */
  ghost predicate DerivedFrom(cfg: Config, base: State, start: Time, log: seq<Event>, p: Checkpoint) {
    && p.read <= |log|
    && Inv(cfg, p.state, p.clock)
    && Monotone(p.clock, log[p.read..])
    && Clock(start, log[..p.read]) <= p.clock
    && Settle(p.state.core, p.clock) == Settle(RunCore(cfg, base.core, log[..p.read]), p.clock)
  }

  ghost predicate NodeInv(cfg: Config, base: State, start: Time, n: Node) {
    && EvidenceOnly(n.log) && Monotone(start, n.log)
    && DerivedFrom(cfg, base, start, n.log, n.memory)
    && DerivedFrom(cfg, base, start, n.log, n.disk)
    && n.disk.clock <= n.memory.clock
  }

  /** The instant is no earlier than anything memory or disk has yet to read. */
  predicate Late(n: Node, now: Time) {
    && n.memory.read <= |n.log| && n.disk.read <= |n.log|
    && Clock(n.memory.clock, n.log[n.memory.read..]) <= now && Clock(n.disk.clock, n.log[n.disk.read..]) <= now
  }

  lemma {:induction false} EvidenceInAll(events: seq<Event>)
    requires EvidenceOnly(events)
    ensures EvidenceIn(None, events) == events
    decreases |events|
  {
    if events != [] { EvidenceInAll(events[1..]); }
  }

  lemma {:induction false} RunCoreConcat(cfg: Config, c: Core, a: seq<Event>, b: seq<Event>)
    ensures RunCore(cfg, c, a + b) == RunCore(cfg, RunCore(cfg, c, a), b)
    decreases |a|
  {
    if a == [] { assert a + b == b; } else {
      assert (a + b)[1..] == a[1..] + b;
      RunCoreConcat(cfg, StepCore(cfg, c, a[0]), a[1..], b);
    }
  }

  lemma {:induction false} MonotoneConcat(clock: Time, a: seq<Event>, b: seq<Event>)
    ensures Monotone(clock, a + b) <==> Monotone(clock, a) && Monotone(Clock(clock, a), b)
    ensures Clock(clock, a + b) == Clock(Clock(clock, a), b)
    decreases |a|
  {
    if a == [] { assert a + b == b; } else {
      assert (a + b)[1..] == a[1..] + b;
      MonotoneConcat(After(clock, a[0]), a[1..], b);
    }
  }

  lemma {:induction false} ClockBound(clock: Time, later: Time, events: seq<Event>)
    requires EvidenceOnly(events) && clock <= later && Monotone(clock, events) && Monotone(later, events)
    ensures Clock(clock, events) <= Clock(later, events)
    decreases |events|
  {
  }

  lemma RestrictAll(c: Core)
    ensures Restrict(c, None) == c
  {
  }

  /** Two cores that settle alike still do after the same evidence. */
  lemma EvidenceMirrors(cfg: Config, s: State, alone: Core, clock: Time, events: seq<Event>)
    requires ConfigOk(cfg) && Inv(cfg, s, clock) && CoreInv(cfg.iface, alone, clock) && Monotone(clock, events)
    requires EvidenceOnly(events)
    requires Settle(s.core, clock) == Settle(alone, clock)
    ensures Settle(Run(cfg, s, events).core, Clock(clock, events))
      == Settle(RunCore(cfg, alone, events), Clock(clock, events))
  {
    var other := WithJobs(cfg, alone);
    WithJobsInv(cfg, alone, clock);
    RestrictAll(s.core);
    RunsMirror(cfg, None, s, other, clock, events);
    EvidenceInAll(events);
    RunKeepsInv(cfg, other, clock, events);
    RestrictAll(Run(cfg, s, events).core);
  }

  /** Replaying events on a state derived from those before gives a state derived from all of them. */
  lemma ReplayContinues(cfg: Config, base: State, start: Time, before: seq<Event>, events: seq<Event>, s: State,
                        clock: Time)
    requires ConfigOk(cfg) && Inv(cfg, base, start) && Inv(cfg, s, clock) && EvidenceOnly(events)
    requires Monotone(start, before) && Clock(start, before) <= clock
    requires Monotone(Clock(start, before), events) && Monotone(clock, events)
    requires Settle(s.core, clock) == Settle(RunCore(cfg, base.core, before), clock)
    ensures Inv(cfg, Run(cfg, s, events), Clock(clock, events))
    ensures Clock(start, before + events) <= Clock(clock, events)
    ensures Settle(Run(cfg, s, events).core, Clock(clock, events)) ==
      Settle(RunCore(cfg, base.core, before + events), Clock(clock, events))
  {
    MonotoneConcat(start, before, events);
    ClockBound(Clock(start, before), clock, events);
    RunKeepsInv(cfg, base, start, before);
    var alone := RunCore(cfg, base.core, before);
    CoreInvLater(cfg.iface, alone, Clock(start, before), clock);
    EvidenceMirrors(cfg, s, alone, clock, events);
    RunKeepsInv(cfg, s, clock, events);
    RunCoreConcat(cfg, base.core, before, events);
  }

  /** A monotone log is monotone in each of three consecutive parts, also from a later clock on. */
  lemma MonotoneParts(start: Time, log: seq<Event>, clock: Time, from: nat, upto: nat)
    requires from <= upto <= |log| && EvidenceOnly(log) && Monotone(start, log) && Monotone(clock, log[from..])
    ensures
      var before, events, rest := log[..from], log[from..upto], log[upto..];
      && log[..upto] == before + events && EvidenceOnly(events)
      && Monotone(start, before) && Monotone(Clock(start, before), events)
      && Monotone(clock, events) && Monotone(Clock(clock, events), rest)
  {
    var before, events, rest := log[..from], log[from..upto], log[upto..];
    assert log == before + log[from..];
    MonotoneConcat(start, before, log[from..]);
    assert log[from..] == events + rest;
    MonotoneConcat(clock, events, rest);
    MonotoneConcat(Clock(start, before), events, rest);
  }

  /** Replaying more records on a checkpoint keeps it derived from the records below its cursors. */
  lemma ReplayDerives(cfg: Config, base: State, start: Time, log: seq<Event>, p: Checkpoint, upto: nat)
    requires ConfigOk(cfg) && Inv(cfg, base, start) && EvidenceOnly(log) && Monotone(start, log)
    requires DerivedFrom(cfg, base, start, log, p) && p.read <= upto <= |log|
    ensures
      var events := log[p.read..upto];
      DerivedFrom(cfg, base, start, log, Checkpoint(Run(cfg, p.state, events), upto, Clock(p.clock, events)))
  {
    MonotoneParts(start, log, p.clock, p.read, upto);
    ReplayContinues(cfg, base, start, log[..p.read], log[p.read..upto], p.state, p.clock);
  }

  /** Cores that settle alike still do later, also if one of them was settled by then. */
  lemma AlikeLater(wan: string, a: Core, b: Core, clock: Time, now: Time)
    requires CoreInv(wan, a, clock) && CoreInv(wan, b, clock) && clock <= now && Settle(a, clock) == Settle(b, clock)
    ensures Settle(a, now) == Settle(b, now) && Settle(Settle(a, now), now) == Settle(b, now)
  {
    SettleComposes(wan, a, clock, clock, now);
    SettleComposes(wan, a, clock, now, now);
    SettleComposes(wan, b, clock, clock, now);
  }

  lemma TickSettlesAlike(cfg: Config, base: State, start: Time, before: seq<Event>, s: State, clock: Time, now: Time)
    requires ConfigOk(cfg) && Inv(cfg, base, start) && Monotone(start, before) && Clock(start, before) <= clock <= now
    requires Inv(cfg, s, clock) && Settle(s.core, clock) == Settle(RunCore(cfg, base.core, before), clock)
    ensures Inv(cfg, Settled(cfg.iface, s, now), now)
    ensures Settle(Settled(cfg.iface, s, now).core, now) == Settle(RunCore(cfg, base.core, before), now)
  {
    RunKeepsInv(cfg, base, start, before);
    var alone := RunCore(cfg, base.core, before);
    CoreInvLater(cfg.iface, alone, Clock(start, before), clock);
    TickKeepsInv(cfg, s, clock, now);
    AlikeLater(cfg.iface, s.core, alone, clock, now);
  }

  lemma TickDerives(cfg: Config, base: State, start: Time, log: seq<Event>, p: Checkpoint, now: Time)
    requires ConfigOk(cfg) && Inv(cfg, base, start) && EvidenceOnly(log) && Monotone(start, log)
    requires DerivedFrom(cfg, base, start, log, p) && p.clock <= now && Monotone(now, log[p.read..])
    ensures DerivedFrom(cfg, base, start, log, p.(state := Settled(cfg.iface, p.state, now), clock := now))
  {
    var before := log[..p.read];
    assert log == before + log[p.read..];
    MonotoneConcat(start, before, log[p.read..]);
    TickSettlesAlike(cfg, base, start, before, p.state, p.clock, now);
  }

  lemma DeliverDerives(cfg: Config, base: State, start: Time, log: seq<Event>, p: Checkpoint, ev: Event)
    requires ConfigOk(cfg) && DerivedFrom(cfg, base, start, log, p) && (ev.Sent? || ev.Failed?)
    ensures DerivedFrom(cfg, base, start, log, p.(state := Step(cfg, p.state, ev)))
  {
    StepKeepsInv(cfg, p.state, p.clock, ev);
  }

  lemma AppendMonotone(clock: Time, log: seq<Event>, ev: Event)
    requires EvidenceOnly(log) && Monotone(clock, log) && ev.Observed?
    requires Clock(clock, log) <= ev.observation.evidence.at
    ensures Monotone(clock, log + [ev]) && EvidenceOnly(log + [ev])
  {
    MonotoneConcat(clock, log, [ev]);
  }

  lemma AppendDerives(cfg: Config, base: State, start: Time, log: seq<Event>, p: Checkpoint, o: Observation)
    requires EvidenceOnly(log) && Monotone(start, log) && DerivedFrom(cfg, base, start, log, p)
    requires Clock(start, log) <= o.evidence.at && p.clock <= o.evidence.at
    ensures Monotone(start, log + [Observed(o)]) && EvidenceOnly(log + [Observed(o)])
    ensures DerivedFrom(cfg, base, start, log + [Observed(o)], p)
  {
    var log', before, rest := log + [Observed(o)], log[..p.read], log[p.read..];
    AppendMonotone(start, log, Observed(o));
    assert log'[..p.read] == before && log'[p.read..] == rest + [Observed(o)];
    assert log == before + rest;
    MonotoneConcat(start, before, rest);
    LastClock(Clock(start, before), p.clock, rest);
    AppendMonotone(p.clock, rest, Observed(o));
  }

  lemma {:induction false} LastClock(clock: Time, later: Time, events: seq<Event>)
    requires EvidenceOnly(events)
    ensures Clock(later, events) == if events == [] then later else Clock(clock, events)
    decreases |events|
  {
    if |events| > 1 { LastClock(After(clock, events[0]), After(later, events[0]), events[1..]); }
    else if |events| == 1 { assert events[1..] == []; }
  }

  lemma ApplyKeepsNodeInv(cfg: Config, base: State, start: Time, n: Node, a: Action)
    requires ConfigOk(cfg) && Inv(cfg, base, start) && NodeInv(cfg, base, start, n) && Enabled(start, n, a)
    requires a.ApplyNew?
    ensures NodeInv(cfg, base, start, Next(cfg, start, n, a))
  {
    ReplayDerives(cfg, base, start, n.log, n.memory, a.upto);
    var events := n.log[n.memory.read..a.upto];
    assert n.log[n.memory.read..] == events + n.log[a.upto..];
    MonotoneConcat(n.memory.clock, events, n.log[a.upto..]);
    RunKeepsInv(cfg, n.memory.state, n.memory.clock, events);
  }

  lemma DeliverKeepsNodeInv(cfg: Config, base: State, start: Time, n: Node, a: Action)
    requires ConfigOk(cfg) && NodeInv(cfg, base, start, n) && Enabled(start, n, a) && a.Deliver?
    ensures NodeInv(cfg, base, start, Next(cfg, start, n, a))
  {
    DeliverDerives(cfg, base, start, n.log, n.memory, Mark(a.job, a.now, a.send, a.next));
    assert DerivedFrom(cfg, base, start, n.log, MarkedMemory(cfg, n, a.job, a.now, a.send, a.next));
  }

  /** Every step of the protocol keeps memory and disk derived from exactly the records below their cursors. */
  lemma StepKeepsNodeInv(cfg: Config, base: State, start: Time, n: Node, a: Action)
    requires ConfigOk(cfg) && Inv(cfg, base, start) && NodeInv(cfg, base, start, n) && Enabled(start, n, a)
    ensures NodeInv(cfg, base, start, Next(cfg, start, n, a))
  {
    match a
    case AppendRecord(o) =>
      AppendDerives(cfg, base, start, n.log, n.memory, o);
      AppendDerives(cfg, base, start, n.log, n.disk, o);
    case ApplyNew(_, _) => ApplyKeepsNodeInv(cfg, base, start, n, a);
    case TickClock(now, _) => TickDerives(cfg, base, start, n.log, n.memory, now);
    case Deliver(_, _, _, _, _) => DeliverKeepsNodeInv(cfg, base, start, n, a);
    case Crash =>
  }

  lemma {:induction false} RunKeepsNodeInv(cfg: Config, base: State, start: Time, n: Node, actions: seq<Action>)
    requires ConfigOk(cfg) && Inv(cfg, base, start) && NodeInv(cfg, base, start, n)
    requires Follows(cfg, start, n, actions)
    ensures NodeInv(cfg, base, start, NodeAfter(cfg, start, n, actions))
    decreases |actions|
  {
    if actions != [] {
      StepKeepsNodeInv(cfg, base, start, n, actions[0]);
      RunKeepsNodeInv(cfg, base, start, Next(cfg, start, n, actions[0]), actions[1..]);
    }
  }

  /** A node right after the bootstrapped snapshot was saved. */
  function Booted(base: State, start: Time): Node {
    Node([], Checkpoint(base, 0, start), Checkpoint(base, 0, start), {}, {})
  }

  lemma BootedInv(cfg: Config, base: State, start: Time)
    requires Inv(cfg, base, start)
    ensures NodeInv(cfg, base, start, Booted(base, start))
  {
  }

  /** Reading everything that is left and ticking. */
  ghost function Reconciled(cfg: Config, log: seq<Event>, p: Checkpoint, now: Time): State
    requires p.read <= |log|
  {
    Settled(cfg.iface, Run(cfg, p.state, log[p.read..]), now)
  }

  lemma ReconciledState(cfg: Config, base: State, start: Time, log: seq<Event>, p: Checkpoint, now: Time)
    requires ConfigOk(cfg) && Inv(cfg, base, start) && EvidenceOnly(log) && Monotone(start, log)
    requires DerivedFrom(cfg, base, start, log, p) && Clock(p.clock, log[p.read..]) <= now
    ensures Reconciled(cfg, log, p, now).core == Settle(RunCore(cfg, base.core, log), now)
    ensures Inv(cfg, Reconciled(cfg, log, p, now), now)
  {
    ReplayDerives(cfg, base, start, log, p, |log|);
    assert log[p.read..|log|] == log[p.read..] && log[..|log|] == log;
    var q := Checkpoint(Run(cfg, p.state, log[p.read..]), |log|, Clock(p.clock, log[p.read..]));
    assert log[|log|..] == [];
    TickKeepsInv(cfg, q.state, q.clock, now);
    RunKeepsInv(cfg, base, start, log);
    var alone := RunCore(cfg, base.core, log);
    CoreInvLater(cfg.iface, alone, Clock(start, log), q.clock);
    AlikeLater(cfg.iface, q.state.core, alone, q.clock, now);
  }

  lemma SameCoreSameJobs(wan: string, s: State, t: State)
    requires JobsExact(wan, s) && JobsExact(wan, t) && s.core == t.core
    ensures t.jobs.Keys == s.jobs.Keys
    ensures forall j :: j in s.jobs ==> t.jobs[j].createdAt == s.jobs[j].createdAt
  {
    forall j ensures j in t.jobs <==> j in s.jobs {}
  }

  /** Crash equivalence: after any run of the protocol, with saves that fail and crashes at any step, crashing now and
      reconciling reaches the trackers and incidents, and the job ids with their creation times, that reconciling
      without the crash reaches. */
  lemma CrashEquivalence(cfg: Config, base: State, start: Time, actions: seq<Action>, now: Time)
    requires ConfigOk(cfg) && Inv(cfg, base, start) && Follows(cfg, start, Booted(base, start), actions)
    requires Late(NodeAfter(cfg, start, Booted(base, start), actions), now)
    ensures
      var n := NodeAfter(cfg, start, Booted(base, start), actions);
      var kept, crashed := Reconciled(cfg, n.log, n.memory, now), Reconciled(cfg, n.log, n.disk, now);
      && crashed.core == kept.core
      && crashed.jobs.Keys == kept.jobs.Keys
      && forall j :: j in kept.jobs ==> crashed.jobs[j].createdAt == kept.jobs[j].createdAt
  {
    BootedInv(cfg, base, start);
    RunKeepsNodeInv(cfg, base, start, Booted(base, start), actions);
    var n := NodeAfter(cfg, start, Booted(base, start), actions);
    ReconciledState(cfg, base, start, n.log, n.memory, now);
    ReconciledState(cfg, base, start, n.log, n.disk, now);
    SameCoreSameJobs(cfg.iface, Reconciled(cfg, n.log, n.memory, now), Reconciled(cfg, n.log, n.disk, now));
  }

  // ---------- the outbox ----------

  /** Receipts are honest and durable. */
  ghost predicate OutboxInv(n: Node) {
    && (forall j :: j in n.memory.state.jobs && n.memory.state.jobs[j].sentAt.Some? ==> j in n.sent)
    && (forall j :: j in n.disk.state.jobs && n.disk.state.jobs[j].sentAt.Some? ==> j in n.sent)
    && (forall j :: j in n.receipts ==> j in n.memory.state.jobs && n.memory.state.jobs[j].sentAt.Some?)
    && (forall j :: j in n.receipts ==> j in n.disk.state.jobs && n.disk.state.jobs[j].sentAt.Some?)
  }

  /** Evidence and ticks leave the receipts of existing jobs alone and create unsent jobs only. */
  ghost predicate ReceiptsKept(jobs: map<JobId, Job>, jobs': map<JobId, Job>) {
    && (forall j :: j in jobs ==> j in jobs' && jobs'[j] == jobs[j])
    && (forall j :: j in jobs' && j !in jobs ==> jobs'[j].sentAt.None?)
  }

  lemma StepKeepsReceipts(cfg: Config, s: State, clock: Time, ev: Event)
    requires ConfigOk(cfg) && Inv(cfg, s, clock) && clock <= After(clock, ev) && (ev.Observed? || ev.Tick?)
    ensures ReceiptsKept(s.jobs, Step(cfg, s, ev).jobs)
  {
    CoreInvLater(cfg.iface, s.core, clock, After(clock, ev));
    SettledProperties(cfg.iface, s, After(clock, ev));
  }

  lemma {:induction false} RunKeepsReceipts(cfg: Config, s: State, clock: Time, events: seq<Event>)
    requires ConfigOk(cfg) && Inv(cfg, s, clock) && Monotone(clock, events) && EvidenceOnly(events)
    ensures ReceiptsKept(s.jobs, Run(cfg, s, events).jobs)
    decreases |events|
  {
    if events != [] {
      StepKeepsReceipts(cfg, s, clock, events[0]);
      StepKeepsInv(cfg, s, clock, events[0]);
      RunKeepsReceipts(cfg, Step(cfg, s, events[0]), After(clock, events[0]), events[1..]);
    }
  }

  /** New states of memory and disk that only keep old receipts keep the outbox honest. */
  lemma KeptReceiptsKeepOutbox(n: Node, m: Node)
    requires OutboxInv(n) && m.sent == n.sent && m.receipts == n.receipts
    requires ReceiptsKept(n.memory.state.jobs, m.memory.state.jobs)
    requires m.disk == n.disk || m.disk == m.memory
    ensures OutboxInv(m)
  {
  }

  lemma DeliverKeepsOutbox(cfg: Config, start: Time, n: Node, a: Action)
    requires OutboxInv(n) && Enabled(start, n, a) && a.Deliver?
    ensures OutboxInv(Next(cfg, start, n, a)) && a.job !in n.receipts
  {
    var jobs, jobs' := n.memory.state.jobs, MarkedMemory(cfg, n, a.job, a.now, a.send, a.next).state.jobs;
    assert jobs'.Keys == jobs.Keys;
    assert forall j :: j in jobs && j != a.job ==> jobs'[j] == jobs[j];
    assert jobs'[a.job].sentAt.Some? <==> a.send.Delivered?;
  }

  lemma StepKeepsOutbox(cfg: Config, base: State, start: Time, n: Node, a: Action)
    requires ConfigOk(cfg) && NodeInv(cfg, base, start, n) && OutboxInv(n) && Enabled(start, n, a)
    ensures OutboxInv(Next(cfg, start, n, a))
    ensures a.Deliver? ==> a.job !in n.receipts
    ensures n.receipts <= Next(cfg, start, n, a).receipts
  {
    match a
    case ApplyNew(upto, _) =>
      var events := n.log[n.memory.read..upto];
      assert n.log[n.memory.read..] == events + n.log[upto..];
      MonotoneConcat(n.memory.clock, events, n.log[upto..]);
      RunKeepsReceipts(cfg, n.memory.state, n.memory.clock, events);
      KeptReceiptsKeepOutbox(n, Next(cfg, start, n, a));
    case TickClock(now, _) =>
      StepKeepsReceipts(cfg, n.memory.state, n.memory.clock, Tick(now));
      KeptReceiptsKeepOutbox(n, Next(cfg, start, n, a));
    case Deliver(_, _, _, _, _) => DeliverKeepsOutbox(cfg, start, n, a);
    case _ =>
  }

  /** A safe node, with at least the given receipts. */
  ghost predicate Safe(cfg: Config, base: State, start: Time, n: Node, receipts: set<JobId>) {
    NodeInv(cfg, base, start, n) && OutboxInv(n) && receipts <= n.receipts
  }

  lemma StepKeepsSafe(cfg: Config, base: State, start: Time, n: Node, a: Action, receipts: set<JobId>)
    requires ConfigOk(cfg) && Inv(cfg, base, start) && Safe(cfg, base, start, n, receipts) && Enabled(start, n, a)
    ensures Safe(cfg, base, start, Next(cfg, start, n, a), receipts)
    ensures a.Deliver? ==> a.job !in receipts
  {
    StepKeepsOutbox(cfg, base, start, n, a);
    StepKeepsNodeInv(cfg, base, start, n, a);
  }

  lemma {:induction false} RunKeepsSafe(cfg: Config, base: State, start: Time, n: Node, actions: seq<Action>,
                                        receipts: set<JobId>)
    requires ConfigOk(cfg) && Inv(cfg, base, start) && Safe(cfg, base, start, n, receipts)
    requires Follows(cfg, start, n, actions)
    ensures Safe(cfg, base, start, NodeAfter(cfg, start, n, actions), receipts)
    decreases |actions|
  {
    if actions != [] {
      StepKeepsSafe(cfg, base, start, n, actions[0], receipts);
      RunKeepsSafe(cfg, base, start, Next(cfg, start, n, actions[0]), actions[1..], receipts);
    }
  }

  /** The first m actions of a history are a history, and action m is enabled after them. */
  lemma {:induction false} FollowsUpTo(cfg: Config, start: Time, n: Node, actions: seq<Action>, m: nat)
    requires Follows(cfg, start, n, actions) && m < |actions|
    ensures Follows(cfg, start, n, actions[..m]) && Enabled(start, NodeAfter(cfg, start, n, actions[..m]), actions[m])
    decreases m
  {
    if m > 0 {
      FollowsUpTo(cfg, start, Next(cfg, start, n, actions[0]), actions[1..], m - 1);
      assert actions[..m][0] == actions[0] && actions[..m][1..] == actions[1..][..m - 1];
    }
  }

  /** The outbox over whole runs: a snapshot, in memory or saved, marks a job sent only if its Send succeeded, and a job
      whose receipt was saved is never sent again, whatever crashes and failed saves come in between. */
  lemma OutboxSafety(cfg: Config, base: State, start: Time, n: Node, actions: seq<Action>, m: nat)
    requires ConfigOk(cfg) && Inv(cfg, base, start) && NodeInv(cfg, base, start, n) && OutboxInv(n)
    requires Follows(cfg, start, n, actions)
    ensures OutboxInv(NodeAfter(cfg, start, n, actions))
    ensures m < |actions| && actions[m].Deliver? ==> actions[m].job !in n.receipts
  {
    RunKeepsSafe(cfg, base, start, n, actions, n.receipts);
    if m < |actions| {
      FollowsUpTo(cfg, start, n, actions, m);
      RunKeepsSafe(cfg, base, start, n, actions[..m], n.receipts);
      StepKeepsSafe(cfg, base, start, NodeAfter(cfg, start, n, actions[..m]), actions[m], n.receipts);
    }
  }
}
