/** The worker over a store that grows: whatever passes, ticks and crashes there were, a pass that gets through leaves
    the state of the whole log. */
module Durability {
  import opened Wrappers
  import opened IncidentState
  import opened JobSpec
  import opened Invariant
  import opened TimerLoop
  import opened MessageStore
  import opened Messages
  import opened Observing
  import opened Runs
  import opened AnyState
  import opened AppendReader
  import opened IncidentService
  import opened Reconciling
  import opened Delivery
  import opened VisitChains
  import opened Rereading
  import opened Recovery
  import opened PassRefinement

  /** What stays the same over a history: the configuration, the decoder, the worker's start, and the cursors of the
      bootstrapped snapshot. */
  datatype Setup = Setup(cfg: Config, decode: MessageDecoder, startedAt: Time, cursors: map<string, Cursor>)

  /** The store, the service's memory, its last snapshot, and the instant of the last pass or tick. */
  datatype Host = Host(files: map<string, File>, memory: Snapshot, disk: Snapshot, clock: Time)

  const STEADY := Context(true, ZERO_TIME, ZERO_TIME, map[], None)

  // ---------- what can happen ----------

  /** A visit of everything written since the bootstrapped snapshot. */
  ghost predicate ReadsAll(u: Setup, files: map<string, File>, v: Visit) {
    IsVisit(u.decode, files, u.cursors, v)
  }

  /** The log of the second visit is that of the first and, at its end, records no older than the clock. */
  predicate GrewAtEnd(wan: string, v: Visit, w: Visit, clock: Time) {
    var log, grown := Ordering(wan, v.records), Ordering(wan, w.records);
    log <= grown && forall n :: |log| <= n < |grown| ==> clock <= grown[n].message.receivedAt
  }

  /** Partitions appear and grow, and the log grows at its end. */
  ghost predicate Grows(u: Setup, h: Host, h': Host) {
    && h' == h.(files := h'.files) && Grew(h.files, h'.files)
    && exists v, w :: ReadsAll(u, h.files, v) && ReadsAll(u, h'.files, w) && GrewAtEnd(u.cfg.iface, v, w, h.clock)
  }

  /** A crash, and the restart that loads the last snapshot. */
  predicate Restarts(h: Host, h': Host) { h' == h.(memory := h.disk) }

  /** One pass, as Worker.Reconcile promises it; no record it reads is newer. */
  ghost predicate Reconciles(u: Setup, h: Host, p: Pass, h': Host) {
    && h'.files == h.files && h'.clock == p.now && h.clock <= p.now
    && (forall n :: 0 <= n < |p.reading.observations| ==> p.reading.observations[n].evidence.at <= p.now)
    && PassPromised(u.cfg, u.decode, u.startedAt, h.files, h.memory, Some(h.disk), p, h'.memory, Some(h'.disk))
  }

  /** A tick, as Worker.Tick promises it; it overtakes no record still unread. */
  ghost predicate TicksOn(u: Setup, h: Host, t: TickStep, h': Host) {
    && h'.files == h.files && h'.clock == t.now && h.clock <= t.now
    && TickPromised(u.cfg.iface, h.memory, Some(h.disk), t, h'.memory, Some(h'.disk))
    && exists w :: IsVisit(u.decode, h.files, h.memory.cursors, w) && NoneBefore(u.cfg.iface, w, t.now)
  }

  predicate NoneBefore(wan: string, w: Visit, now: Time) {
    forall record :: record in Ordering(wan, w.records) ==> now <= record.message.receivedAt
  }

  ghost predicate Moves(u: Setup, h: Host, h': Host) {
    || Grows(u, h, h')
    || Restarts(h, h')
    || (exists p :: Reconciles(u, h, p, h'))
    || (exists t :: TicksOn(u, h, t, h'))
  }

  ghost predicate Happens(u: Setup, hosts: seq<Host>) {
    forall n :: 0 < n < |hosts| ==> Moves(u, hosts[n - 1], hosts[n])
  }

  /** Right after the bootstrapped snapshot was saved: there is nothing new to read. */
  ghost predicate JustBooted(u: Setup, base: State, start: Time, h: Host) {
    && h.memory == h.disk && h.memory.state == base && h.memory.cursors == u.cursors && h.memory.bootstrapped
    && Inv(u.cfg, base, start) && start <= h.clock && CursorsOk(h.files, u.cursors)
    && exists v :: ReadsAll(u, h.files, v) && v.next == u.cursors && Ordering(u.cfg.iface, v.records) == []
  }

  // ---------- the host is a node of the checkpoint protocol ----------

  /** The cursors are those of a visit that read the first records of the log. */
  ghost predicate Below(u: Setup, files: map<string, File>, cursors: map<string, Cursor>, v: Visit, read: nat) {
    exists before, first :: BelowBy(u, files, cursors, v, read, before, first)
  }

  ghost predicate BelowBy(u: Setup, files: map<string, File>, cursors: map<string, Cursor>, v: Visit, read: nat,
                          before: map<string, File>, first: Visit)
  {
    && Grew(before, files) && CursorsOk(before, u.cursors) && ReadsAll(u, before, first) && cursors == first.next
    && read <= |Ordering(u.cfg.iface, v.records)|
    && Ordering(u.cfg.iface, first.records) == Ordering(u.cfg.iface, v.records)[..read]
  }

  /** The node's log is what was written since the bootstrap; its memory and disk are the host's. */
  ghost predicate Mirrors(u: Setup, base: State, start: Time, h: Host, n: Node, v: Visit) {
    && ReadsAll(u, h.files, v) && CursorsOk(h.files, u.cursors)
    && n.log == Events(Batch(u.cfg.iface, STEADY, v.records))
    && n.memory.state == h.memory.state && n.disk.state == h.disk.state
    && Below(u, h.files, h.memory.cursors, v, n.memory.read) && Below(u, h.files, h.disk.cursors, v, n.disk.read)
    && h.memory.bootstrapped && h.disk.bootstrapped
    && NodeInv(u.cfg, base, start, n) && n.memory.clock <= h.clock && start <= h.clock
  }

  lemma {:induction false} EventsDrop(observations: seq<Observation>, k: nat)
    requires k <= |observations|
    ensures |Events(observations)| == |observations| && Events(observations[k..]) == Events(observations)[k..]
    decreases |observations|
  {
    if observations != [] {
      var rest := Events(observations[1..]);
      EventsDrop(observations[1..], if k == 0 then 0 else k - 1);
      assert Events(observations) == [Observed(observations[0])] + rest;
      assert k > 0 ==> observations[k..] == observations[1..][k - 1..];
      assert observations[0..] == observations;
    }
  }

  /** The evidence of the end of a log is the end of its evidence. */
  lemma BatchDrop(wan: string, v: Visit, read: nat)
    requires read <= |Ordering(wan, v.records)|
    ensures forall record :: record in Ordering(wan, v.records)[read..] ==> Supported(wan, record)
    ensures |Events(Batch(wan, STEADY, v.records))| == |Ordering(wan, v.records)|
    ensures Events(Batch(wan, STEADY, v.records))[read..] ==
      Events(ObservationsOf(wan, STEADY, Ordering(wan, v.records)[read..]))
  {
    var log := Ordering(wan, v.records);
    forall record | record in log ensures Supported(wan, record) { OrderingMembers(wan, v.records, record); }
    assert log[..read] + log[read..] == log;
    ObservationsConcat(wan, STEADY, log[..read], log[read..]);
    var all := Batch(wan, STEADY, v.records);
    assert all[read..] == ObservationsOf(wan, STEADY, log[read..]);
    EventsDrop(all, read);
  }

  /** Whatever steady pass reads it. */
  lemma BatchOfRest(wan: string, ctx: Context, v: Visit, w: Visit, read: nat)
    requires Steady(ctx) && read <= |Ordering(wan, v.records)|
    requires Ordering(wan, w.records) == Ordering(wan, v.records)[read..]
    ensures |Events(Batch(wan, STEADY, v.records))| == |Ordering(wan, v.records)|
    ensures Events(Batch(wan, ctx, w.records)) == Events(Batch(wan, STEADY, v.records))[read..]
  {
    BatchDrop(wan, v, read);
    SteadyObservations(wan, ctx, STEADY, Ordering(wan, w.records));
  }

  /** From cursors below the log a visit reads the rest of it. */
  lemma ReadsRest(u: Setup, files: map<string, File>, cursors: map<string, Cursor>, v: Visit, read: nat, w: Visit)
    requires ReadsAll(u, files, v) && Below(u, files, cursors, v, read) && IsVisit(u.decode, files, cursors, w)
    ensures read <= |Ordering(u.cfg.iface, v.records)|
    ensures Ordering(u.cfg.iface, w.records) == Ordering(u.cfg.iface, v.records)[read..] && w.next == v.next
  {
    var before, first :| BelowBy(u, files, cursors, v, read, before, first);
    LogSplits(u.cfg.iface, u.decode, before, files, u.cursors, first, w, v);
  }

  /** A store that could be read from the first cursors can be read on from any cursors below its log. */
  lemma ReadableBelow(u: Setup, files: map<string, File>, cursors: map<string, Cursor>, v: Visit, read: nat)
    requires ReadsAll(u, files, v) && Below(u, files, cursors, v, read) && CursorsOk(files, u.cursors)
    ensures Readable(u.decode, files, cursors)
  {
    var before, first :| BelowBy(u, files, cursors, v, read, before, first);
    VisitDeterminesCursors(u.decode, before, u.cursors, first.paths, first.next, first.records);
    ReadableWhenDecodes(u.decode, files, u.cursors);
    DecodesSplits(u.decode, before, u.cursors, files);
    NextCursorsOk(before, u.cursors, files);
    ReadableWhenDecodes(u.decode, files, cursors);
  }

  lemma CursorsOkGrow(a: map<string, File>, b: map<string, File>, cursors: map<string, Cursor>)
    requires CursorsOk(a, cursors) && Grew(a, b)
    ensures CursorsOk(b, cursors)
  {
    forall file | file in cursors ensures CursorOk(b, cursors, file) {
      assert CursorOk(a, cursors, file);
      var offset := cursors[file].offset;
      assert a[file].content[..offset] == b[file].content[..offset];
    }
  }

  lemma BelowGrows(u: Setup, a: map<string, File>, b: map<string, File>, cursors: map<string, Cursor>, v: Visit,
                   w: Visit, read: nat)
    requires Below(u, a, cursors, v, read) && Grew(a, b)
    requires Ordering(u.cfg.iface, v.records) <= Ordering(u.cfg.iface, w.records)
    ensures Below(u, b, cursors, w, read)
  {
    var before, first :| BelowBy(u, a, cursors, v, read, before, first);
    var log, grown := Ordering(u.cfg.iface, v.records), Ordering(u.cfg.iface, w.records);
    assert grown[..read] == log[..read];
    assert BelowBy(u, b, cursors, w, read, before, first);
  }

  /** A visit of the whole log is above all of it. */
  lemma BelowNothing(u: Setup, files: map<string, File>, v: Visit)
    requires ReadsAll(u, files, v) && CursorsOk(files, u.cursors)
    ensures Below(u, files, v.next, v, |Ordering(u.cfg.iface, v.records)|)
  {
    var log := Ordering(u.cfg.iface, v.records);
    assert log[..|log|] == log;
    assert BelowBy(u, files, v.next, v, |log|, files, v);
  }

  /** Records in the order they are applied are evidence in time order. */
  lemma TailIsMonotone(wan: string, v: Visit, read: nat, clock: Time)
    requires read <= |Ordering(wan, v.records)| && Sorting.Ordered(RecordBefore, Ordering(wan, v.records))
    requires read < |Ordering(wan, v.records)| ==> clock <= Ordering(wan, v.records)[read].message.receivedAt
    ensures |Events(Batch(wan, STEADY, v.records))| == |Ordering(wan, v.records)|
    ensures Monotone(clock, Events(Batch(wan, STEADY, v.records))[read..])
  {
    BatchDrop(wan, v, read);
    OrderedTail(Ordering(wan, v.records), read);
    OrderedIsMonotone(wan, STEADY, Ordering(wan, v.records)[read..], clock);
  }

  // ---------- step by step ----------

  lemma RestartMirrors(u: Setup, base: State, start: Time, h: Host, h': Host, n: Node, v: Visit)
    returns (actions: seq<Action>)
    requires ConfigOk(u.cfg) && Mirrors(u, base, start, h, n, v) && Restarts(h, h')
    ensures Follows(u.cfg, start, n, actions) && Mirrors(u, base, start, h', NodeAfter(u.cfg, start, n, actions), v)
  {
    OneStep(u.cfg, start, n, Crash);
    actions := [Crash];
  }

  /** If no unread record is older than the instant, what is left of the log is later. */
  lemma OvertakesNothing(u: Setup, files: map<string, File>, cursors: map<string, Cursor>, v: Visit, read: nat,
                         w: Visit, now: Time)
    requires ReadsAll(u, files, v) && Below(u, files, cursors, v, read) && IsVisit(u.decode, files, cursors, w)
    requires NoneBefore(u.cfg.iface, w, now)
    ensures read <= |Events(Batch(u.cfg.iface, STEADY, v.records))|
    ensures Monotone(now, Events(Batch(u.cfg.iface, STEADY, v.records))[read..])
  {
    ReadsRest(u, files, cursors, v, read, w);
    var log := Ordering(u.cfg.iface, v.records);
    OrderingSorts(u.cfg.iface, u.decode, files, u.cursors, v.paths);
    assert read < |log| ==> log[read] == Ordering(u.cfg.iface, w.records)[0];
    TailIsMonotone(u.cfg.iface, v, read, now);
  }

  lemma TickMirrors(u: Setup, base: State, start: Time, h: Host, t: TickStep, h': Host, n: Node, v: Visit)
    returns (actions: seq<Action>)
    requires ConfigOk(u.cfg) && Inv(u.cfg, base, start) && Mirrors(u, base, start, h, n, v) && TicksOn(u, h, t, h')
    ensures Follows(u.cfg, start, n, actions) && Mirrors(u, base, start, h', NodeAfter(u.cfg, start, n, actions), v)
  {
    var w :| IsVisit(u.decode, h.files, h.memory.cursors, w) && NoneBefore(u.cfg.iface, w, t.now);
    OvertakesNothing(u, h.files, h.memory.cursors, v, n.memory.read, w, t.now);
    CoreInvLater(u.cfg.iface, n.memory.state.core, n.memory.clock, t.now);
    actions := TickIsHistory(u.cfg, start, n, t.now, t.tickOk, t.sends, t.outcome, t.sent, Some(h.disk), Some(h'.disk),
                             h'.memory);
    RunKeepsNodeInv(u.cfg, base, start, n, actions);
  }

  /** What a pass reads of a growing store: the rest of the log, and in time. */
  lemma PassReadsRest(u: Setup, base: State, start: Time, h: Host, p: Pass, h': Host, n: Node, v: Visit)
    requires ConfigOk(u.cfg) && Mirrors(u, base, start, h, n, v) && Reconciles(u, h, p, h') && !p.outcome.Unreadable?
    ensures p.changed.None? && p.reading.next == v.next
    ensures n.memory.read <= |n.log| && |n.log| == |Ordering(u.cfg.iface, v.records)|
    ensures Events(p.reading.observations) == n.log[n.memory.read..]
    ensures Timely(n.memory.clock, p.reading.observations, p.now)
    ensures Clock(n.memory.clock, Events(p.reading.observations)) <= p.now
  {
    ReadableBelow(u, h.files, h.memory.cursors, v, n.memory.read);
    var ctx := ContextOf(h.memory, u.startedAt, p.changed);
    var w := Visit(p.paths, p.reading.next, Gather(u.decode, h.files, From(ctx), p.paths));
    ReadsRest(u, h.files, h.memory.cursors, v, n.memory.read, w);
    BatchOfRest(u.cfg.iface, ctx, v, w, n.memory.read);
    MonotoneIsTimely(n.memory.clock, p.reading.observations, p.now);
    ClockOfTimely(n.memory.clock, p.reading.observations, p.now);
  }

  lemma {:induction false} MonotoneIsTimely(clock: Time, observations: seq<Observation>, now: Time)
    requires Monotone(clock, Events(observations)) && clock <= now
    requires forall n :: 0 <= n < |observations| ==> observations[n].evidence.at <= now
    ensures Timely(clock, observations, now)
    decreases |observations|
  {
    if observations != [] {
      var o, rest := observations[0], observations[1..];
      assert ([Observed(o)] + Events(rest))[1..] == Events(rest);
      forall n | 0 <= n < |rest| ensures rest[n].evidence.at <= now { assert rest[n] == observations[n + 1]; }
      MonotoneIsTimely(o.evidence.at, rest, now);
      forall n | 0 <= n < |observations| ensures clock <= observations[n].evidence.at {
        if n > 0 { assert observations[n] == rest[n - 1]; }
      }
    }
  }

  /** What a pass over a growing store promises. */
  lemma PassPromises(u: Setup, h: Host, p: Pass, h': Host, clock: Time)
    requires Reconciles(u, h, p, h') && !p.outcome.Unreadable? && p.changed.None?
    requires Timely(clock, p.reading.observations, p.now) && Inv(u.cfg, h.memory.state, clock)
    ensures InTime(u.cfg, h.memory.state, p.changed.Some?, p.reading.observations, p.now)
    ensures Reached(u.cfg, h.memory, Some(h.disk), p, h'.memory, Some(h'.disk))
    ensures p.outcome.NotAdvanced? ==>
      && p.sent.done == {}
      && !NothingDue(Run(u.cfg, h.memory.state, Events(p.reading.observations)).core, p.now)
  {
    assert ReadInTime(u.cfg, h.memory.state, p.changed.Some?, p.reading.observations, clock, p.now);
  }

  /** The host after a pass that read the log, and the node after its history. */
  lemma AfterPass(u: Setup, base: State, start: Time, h: Host, p: Pass, h': Host, n: Node, n': Node, v: Visit)
    requires Mirrors(u, base, start, h, n, v) && Reconciles(u, h, p, h') && !p.outcome.Unreadable?
    requires p.reading.next == v.next && |n.log| == |Ordering(u.cfg.iface, v.records)|
    requires p.changed.None? && InTime(u.cfg, h.memory.state, p.changed.Some?, p.reading.observations, p.now)
    requires NodeInv(u.cfg, base, start, n') && n'.log == n.log && n'.memory.read == |n'.log|
    requires n'.memory.state == h'.memory.state && Holds(n', Some(h'.disk)) && n'.memory.clock <= p.now
    requires if p.outcome.NotApplied? then n'.disk == n.disk else n'.disk.read == |n'.log|
    ensures Mirrors(u, base, start, h', n', v)
  {
    BelowNothing(u, h.files, v);
    assert Reached(u.cfg, h.memory, Some(h.disk), p, h'.memory, Some(h'.disk));
  }

  /** A pass that read the log, as a history of the node. */
  lemma PassActions(u: Setup, base: State, start: Time, h: Host, p: Pass, h': Host, n: Node)
    returns (actions: seq<Action>)
    requires ConfigOk(u.cfg) && Inv(u.cfg, base, start) && NodeInv(u.cfg, base, start, n)
    requires n.memory.state == h.memory.state && n.disk.state == h.disk.state && !p.outcome.Unreadable?
    requires n.memory.read <= |n.log| && Events(p.reading.observations) == n.log[n.memory.read..]
    requires Clock(n.memory.clock, Events(p.reading.observations)) <= p.now && p.changed.None?
    requires Reached(u.cfg, h.memory, Some(h.disk), p, h'.memory, Some(h'.disk))
    requires p.outcome.NotAdvanced? ==>
      p.sent.done == {} && !NothingDue(Run(u.cfg, n.memory.state, Events(p.reading.observations)).core, p.now)
    ensures Follows(u.cfg, start, n, actions)
    ensures
      var n' := NodeAfter(u.cfg, start, n, actions);
      && n'.log == n.log && n'.memory.state == h'.memory.state && n'.memory.read == |n'.log|
      && Holds(n', Some(h'.disk)) && (if p.outcome.NotApplied? then n'.disk == n.disk else n'.disk.read == |n'.log|)
      && n'.memory.clock <= p.now && (!p.outcome.NotApplied? ==> n'.memory.clock == p.now)
  {
    var newer: seq<Observation> := [];
    assert n.log[n.memory.read..] + Events(newer) == n.log[n.memory.read..] && n.log + Events(newer) == n.log;
    actions := PassIsHistory(u.cfg, base, start, n, p.reading.observations, newer, p.now, p.outcome, p.sends, p.sent,
                             Some(h.disk), Some(h'.disk), h'.memory);
  }

  lemma PassMirrors(u: Setup, base: State, start: Time, h: Host, p: Pass, h': Host, n: Node, v: Visit)
    returns (actions: seq<Action>)
    requires ConfigOk(u.cfg) && Inv(u.cfg, base, start) && Mirrors(u, base, start, h, n, v) && Reconciles(u, h, p, h')
    ensures Follows(u.cfg, start, n, actions) && Mirrors(u, base, start, h', NodeAfter(u.cfg, start, n, actions), v)
    ensures !p.outcome.Unreadable? && !p.outcome.NotApplied? ==>
      var n' := NodeAfter(u.cfg, start, n, actions);
      n'.memory.read == |n'.log| && n'.memory.clock == p.now
  {
    if p.outcome.Unreadable? {
      actions := [];
    } else {
      PassReadsRest(u, base, start, h, p, h', n, v);
      PassPromises(u, h, p, h', n.memory.clock);
      actions := PassActions(u, base, start, h, p, h', n);
      RunKeepsNodeInv(u.cfg, base, start, n, actions);
      AfterPass(u, base, start, h, p, h', n, NodeAfter(u.cfg, start, n, actions), v);
    }
  }

  // ---------- growth ----------

  /** A visit of everything is determined by the store. */
  lemma OneVisit(u: Setup, files: map<string, File>, v: Visit, w: Visit)
    requires ReadsAll(u, files, v) && ReadsAll(u, files, w)
    ensures v == w
  {
    StringOrderIsStrict();
    Sorting.SortUnique(StringBefore, v.paths, w.paths);
    VisitDeterminesCursors(u.decode, files, u.cursors, v.paths, v.next, v.records);
    VisitDeterminesCursors(u.decode, files, u.cursors, w.paths, w.next, w.records);
  }

  lemma StringOrderIsStrict()
    ensures Sorting.Transitive(StringBefore) && Sorting.Asymmetric(StringBefore)
  {
    forall a, b, c | StringBefore(a, b) && StringBefore(b, c) ensures StringBefore(a, c) { StringTransitive(a, b, c); }
    forall a, b ensures StringBefore(a, b) ==> !StringBefore(b, a) { StringTrichotomy(a, b); }
  }

  lemma GrownVisit(u: Setup, h: Host, h': Host, v: Visit) returns (w: Visit)
    requires ReadsAll(u, h.files, v) && Grows(u, h, h')
    ensures ReadsAll(u, h'.files, w) && GrewAtEnd(u.cfg.iface, v, w, h.clock)
  {
    var v0;
    v0, w :| ReadsAll(u, h.files, v0) && ReadsAll(u, h'.files, w) && GrewAtEnd(u.cfg.iface, v0, w, h.clock);
    OneVisit(u, h.files, v, v0);
  }

  lemma {:induction false} EventsConcat(a: seq<Observation>, b: seq<Observation>)
    ensures Events(a + b) == Events(a) + Events(b)
    decreases |a|
  {
    if a == [] {
      assert a + b == b;
    } else {
      assert (a + b)[1..] == a[1..] + b;
      EventsConcat(a[1..], b);
    }
  }

  /** The evidence of a log that grew is that of the log before and of the records that appeared. */
  lemma BatchGrows(wan: string, v: Visit, w: Visit) returns (newer: seq<Observation>)
    requires Ordering(wan, v.records) <= Ordering(wan, w.records)
    ensures Events(Batch(wan, STEADY, w.records)) == Events(Batch(wan, STEADY, v.records)) + Events(newer)
    ensures |Events(Batch(wan, STEADY, v.records))| == |Ordering(wan, v.records)|
  {
    var log, grown := Ordering(wan, v.records), Ordering(wan, w.records);
    BatchDrop(wan, v, 0);
    BatchDrop(wan, w, |log|);
    forall record | record in grown ensures Supported(wan, record) { OrderingMembers(wan, w.records, record); }
    assert grown == log + grown[|log|..];
    ObservationsConcat(wan, STEADY, log, grown[|log|..]);
    newer := ObservationsOf(wan, STEADY, grown[|log|..]);
    EventsConcat(Batch(wan, STEADY, v.records), newer);
  }

  /** Evidence in time order stays so from the clock that the evidence before it leaves. */
  lemma MonotoneAfter(start: Time, first: Time, clock: Time, log: seq<Event>, rest: seq<Event>) returns (from: Time)
    requires EvidenceOnly(log) && Monotone(first, log + rest) && Monotone(clock, rest) && start <= clock
    ensures Monotone(from, rest) && Clock(start, log) <= from && clock <= from
  {
    MonotoneConcat(first, log, rest);
    LastClock(start, first, log);
    from := if log != [] && clock < Clock(start, log) then Clock(start, log) else clock;
  }

  /** The records that appeared are appended to the node's log. */
  lemma AppendNew(u: Setup, base: State, start: Time, h: Host, n: Node, v: Visit, w: Visit)
    returns (actions: seq<Action>)
    requires Mirrors(u, base, start, h, n, v) && GrewAtEnd(u.cfg.iface, v, w, h.clock)
    requires Sorting.Ordered(RecordBefore, Ordering(u.cfg.iface, w.records))
    ensures Follows(u.cfg, start, n, actions)
    ensures NodeAfter(u.cfg, start, n, actions) == n.(log := Events(Batch(u.cfg.iface, STEADY, w.records)))
  {
    var grown, all := Ordering(u.cfg.iface, w.records), Events(Batch(u.cfg.iface, STEADY, w.records));
    var newer := BatchGrows(u.cfg.iface, v, w);
    TailIsMonotone(u.cfg.iface, w, |n.log|, h.clock);
    assert all[|n.log|..] == Events(newer);
    var first := if grown == [] then h.clock else grown[0].message.receivedAt;
    TailIsMonotone(u.cfg.iface, w, 0, first);
    assert all[0..] == n.log + Events(newer);
    var from := MonotoneAfter(start, first, h.clock, n.log, Events(newer));
    actions := AppendAll(u.cfg, start, n, from, newer);
  }

  lemma GrowthMirrors(u: Setup, base: State, start: Time, h: Host, h': Host, n: Node, v: Visit)
    returns (actions: seq<Action>, w: Visit)
    requires ConfigOk(u.cfg) && Inv(u.cfg, base, start) && Mirrors(u, base, start, h, n, v) && Grows(u, h, h')
    ensures Follows(u.cfg, start, n, actions) && Mirrors(u, base, start, h', NodeAfter(u.cfg, start, n, actions), w)
  {
    w := GrownVisit(u, h, h', v);
    OrderingSorts(u.cfg.iface, u.decode, h'.files, u.cursors, w.paths);
    actions := AppendNew(u, base, start, h, n, v, w);
    RunKeepsNodeInv(u.cfg, base, start, n, actions);
    CursorsOkGrow(h.files, h'.files, u.cursors);
    BelowGrows(u, h.files, h'.files, h.memory.cursors, v, w, n.memory.read);
    BelowGrows(u, h.files, h'.files, h.disk.cursors, v, w, n.disk.read);
  }

  // ---------- whole histories ----------

  lemma BootMirrors(u: Setup, base: State, start: Time, h: Host) returns (v: Visit)
    requires JustBooted(u, base, start, h)
    ensures Mirrors(u, base, start, h, Booted(base, start), v)
  {
    v :| ReadsAll(u, h.files, v) && v.next == u.cursors && Ordering(u.cfg.iface, v.records) == [];
    BelowNothing(u, h.files, v);
    BatchDrop(u.cfg.iface, v, 0);
    BootedInv(u.cfg, base, start);
  }

  lemma MoveMirrors(u: Setup, base: State, start: Time, h: Host, h': Host, n: Node, v: Visit)
    returns (actions: seq<Action>, w: Visit)
    requires ConfigOk(u.cfg) && Inv(u.cfg, base, start) && Mirrors(u, base, start, h, n, v) && Moves(u, h, h')
    ensures Follows(u.cfg, start, n, actions) && Mirrors(u, base, start, h', NodeAfter(u.cfg, start, n, actions), w)
  {
    w := v;
    if Grows(u, h, h') {
      actions, w := GrowthMirrors(u, base, start, h, h', n, v);
    } else if Restarts(h, h') {
      actions := RestartMirrors(u, base, start, h, h', n, v);
    } else if p :| Reconciles(u, h, p, h') {
      actions := PassMirrors(u, base, start, h, p, h', n, v);
    } else {
      var t :| TicksOn(u, h, t, h');
      actions := TickMirrors(u, base, start, h, t, h', n, v);
    }
  }

  /** Every history of the worker over a growing store is a history of the checkpoint protocol. */
  lemma {:induction false} HistoryIsHistory(u: Setup, base: State, start: Time, hosts: seq<Host>)
    returns (actions: seq<Action>, v: Visit)
    requires ConfigOk(u.cfg) && hosts != [] && JustBooted(u, base, start, hosts[0]) && Happens(u, hosts)
    ensures Follows(u.cfg, start, Booted(base, start), actions)
    ensures Mirrors(u, base, start, hosts[|hosts| - 1], NodeAfter(u.cfg, start, Booted(base, start), actions), v)
    decreases |hosts|
  {
    if |hosts| == 1 {
      actions := [];
      v := BootMirrors(u, base, start, hosts[0]);
    } else {
      var front := hosts[..|hosts| - 1];
      forall n | 0 < n < |front| ensures Moves(u, front[n - 1], front[n]) {
        assert Moves(u, hosts[n - 1], hosts[n]);
      }
      var before, v0 := HistoryIsHistory(u, base, start, front);
      var n := NodeAfter(u.cfg, start, Booted(base, start), before);
      var last;
      last, v := MoveMirrors(u, base, start, front[|front| - 1], hosts[|hosts| - 1], n, v0);
      FollowsThen(u.cfg, start, Booted(base, start), before, last);
      actions := before + last;
    }
  }

  /** The trackers and incidents that the whole log leads to, with every timer due fired. */
  ghost function WholeLogCore(u: Setup, base: State, v: Visit, now: Time): Core {
    Settle(RunCore(u.cfg, base.core, Events(Batch(u.cfg.iface, STEADY, v.records))), now)
  }

  /** Whatever passes, ticks, failed saves and crashes there were while the store grew, a pass whose evidence is applied
      and saved leaves in memory the state of the whole log written since the bootstrap: its trackers and incidents,
      and exactly the jobs they want. */
  lemma WholeLogState(u: Setup, base: State, start: Time, hosts: seq<Host>, p: Pass, h': Host, v: Visit)
    requires ConfigOk(u.cfg) && hosts != [] && JustBooted(u, base, start, hosts[0]) && Happens(u, hosts)
    requires Reconciles(u, hosts[|hosts| - 1], p, h') && !p.outcome.Unreadable? && !p.outcome.NotApplied?
    requires ReadsAll(u, h'.files, v)
    ensures h'.memory.state.core == WholeLogCore(u, base, v, p.now)
    ensures JobsExact(u.cfg.iface, h'.memory.state)
  {
    var h := hosts[|hosts| - 1];
    var before, v0 := HistoryIsHistory(u, base, start, hosts);
    var n := NodeAfter(u.cfg, start, Booted(base, start), before);
    OneVisit(u, h.files, v, v0);
    PassLeavesWholeLog(u, base, start, h, p, h', n, v);
  }

  lemma PassLeavesWholeLog(u: Setup, base: State, start: Time, h: Host, p: Pass, h': Host, n: Node, v: Visit)
    requires ConfigOk(u.cfg) && Inv(u.cfg, base, start) && Mirrors(u, base, start, h, n, v)
    requires Reconciles(u, h, p, h') && !p.outcome.Unreadable? && !p.outcome.NotApplied?
    ensures h'.memory.state.core == WholeLogCore(u, base, v, p.now)
    ensures JobsExact(u.cfg.iface, h'.memory.state)
  {
    PassReadsRest(u, base, start, h, p, h', n, v);
    PassPromises(u, h, p, h', n.memory.clock);
    var actions := PassMirrors(u, base, start, h, p, h', n, v);
    SettledTwice(u.cfg, h.memory.state, p.reading.observations, n.memory.clock, p.now);
    MemoryOfWholeLog(u.cfg, base, start, NodeAfter(u.cfg, start, n, actions));
  }

  /** Memory that has read everything and has no timer to fire holds what the whole log leads to. */
  lemma MemoryOfWholeLog(cfg: Config, base: State, start: Time, n: Node)
    requires NodeInv(cfg, base, start, n) && n.memory.read == |n.log|
    requires Settle(n.memory.state.core, n.memory.clock) == n.memory.state.core
    ensures n.memory.state.core == Settle(RunCore(cfg, base.core, n.log), n.memory.clock)
    ensures JobsExact(cfg.iface, n.memory.state)
  {
    assert n.log[..n.memory.read] == n.log;
  }

  /** A state settled at an instant has nothing left to settle at it. */
  lemma SettledTwice(cfg: Config, s: State, observations: seq<Observation>, clock: Time, now: Time)
    requires ConfigOk(cfg) && Inv(cfg, s, clock) && Monotone(clock, Events(observations))
    requires Clock(clock, Events(observations)) <= now
    ensures
      var reached := Settled(cfg.iface, Updated(cfg, s, false, observations), now);
      Settle(reached.core, now) == reached.core
  {
    var read := Updated(cfg, s, false, observations);
    RunKeepsInv(cfg, s, clock, Events(observations));
    CoreInvLater(cfg.iface, read.core, Clock(clock, Events(observations)), now);
    SettleKeepsInv(cfg.iface, read.core, now);
    SettleNothing(Settle(read.core, now), now);
  }

  /** So crashes, failed saves, ticks and the batching of passes make no difference: any two histories of one store end
      with the same trackers and incidents, and with the same jobs, created alike. */
  lemma CrashesMakeNoDifference(u: Setup, base: State, start: Time, hosts: seq<Host>, p: Pass, h: Host,
                                hosts': seq<Host>, p': Pass, h': Host)
    requires ConfigOk(u.cfg) && hosts != [] && JustBooted(u, base, start, hosts[0]) && Happens(u, hosts)
    requires Reconciles(u, hosts[|hosts| - 1], p, h) && !p.outcome.Unreadable? && !p.outcome.NotApplied?
    requires hosts' != [] && JustBooted(u, base, start, hosts'[0]) && Happens(u, hosts')
    requires Reconciles(u, hosts'[|hosts'| - 1], p', h') && !p'.outcome.Unreadable? && !p'.outcome.NotApplied?
    requires h.files == h'.files && p.now == p'.now
    ensures h'.memory.state.core == h.memory.state.core
    ensures h'.memory.state.jobs.Keys == h.memory.state.jobs.Keys
    ensures forall j :: j in h.memory.state.jobs ==>
      h'.memory.state.jobs[j].createdAt == h.memory.state.jobs[j].createdAt
  {
    var actions, v := HistoryIsHistory(u, base, start, hosts);
    WholeLogState(u, base, start, hosts, p, h, v);
    WholeLogState(u, base, start, hosts', p', h', v);
    SameCoreSameJobs(u.cfg.iface, h.memory.state, h'.memory.state);
  }
}
