/** From records read to observations applied: order, notification eligibility, source references. */
module Reconciling {
  import opened Wrappers
  import opened IncidentState
  import opened Lines
  import opened Sorting
  import opened MessageStore
  import opened Messages
  import opened Invariant
  import opened TimerLoop
  import opened Observing
  import opened Runs
  import opened Isolation
  import opened Rebuilding
  import opened AppendReader
  import opened Classification
  import opened AnyState
  import opened IncidentService

  /** What the worker knows when it judges a record. changed is the partition that forced a rebuild, if any. */
  datatype Context = Context(
    bootstrapped: bool,
    startedAt: Time,
    lastCheckpointAt: Time,
    cursors: map<string, Cursor>,
    changed: Option<string>)

  function ContextOf(s: Snapshot, startedAt: Time, changed: Option<string>): Context {
    Context(s.bootstrapped, startedAt, s.lastCheckpointAt, s.cursors, changed)
  }

  /** Time order, then partition, then position. */
  predicate RecordBefore(a: StoredRecord, b: StoredRecord) {
    if a.message.receivedAt == b.message.receivedAt then
      if a.file == b.file then a.offset < b.offset else StringBefore(a.file, b.file)
    else a.message.receivedAt < b.message.receivedAt
  }

  predicate Supported(wan: string, record: StoredRecord) {
    Classify(record.message, wan).Some?
  }

  /** Whether the record would be eligible without a rebuild. */
  predicate LiveEligible(ctx: Context, record: StoredRecord) {
    record.message.transport != "import" && (ctx.bootstrapped || record.message.receivedAt > ctx.startedAt)
  }

  predicate Eligible(ctx: Context, record: StoredRecord) {
    && LiveEligible(ctx, record)
    && (ctx.changed.Some? ==>
          if record.file == ctx.changed.value then
            ctx.lastCheckpointAt != ZERO_TIME && record.message.receivedAt > ctx.lastCheckpointAt
          else
            record.file in ctx.cursors ==> record.offset > ctx.cursors[record.file].offset)
  }

  function Decimal(n: nat): string {
    if n < 10 then [('0' as int + n) as char] else Decimal(n / 10) + [('0' as int + n % 10) as char]
  }

  function ObservationOf(wan: string, ctx: Context, record: StoredRecord): Observation
    requires Supported(wan, record)
  {
    Observation(Classify(record.message, wan).value, Eligible(ctx, record), record.file + ":" + Decimal(record.offset))
  }

  function ObservationsOf(wan: string, ctx: Context, records: seq<StoredRecord>): (o: seq<Observation>)
    requires forall record :: record in records ==> Supported(wan, record)
    ensures |o| == |records|
  {
    if records == [] then [] else
      assert forall record :: record in records[1..] ==> record in records;
      [ObservationOf(wan, ctx, records[0])] + ObservationsOf(wan, ctx, records[1..])
  }

  /** The supported records, in the order they are applied. */
  function Ordering(wan: string, records: seq<StoredRecord>): seq<StoredRecord> {
    Sort(RecordBefore, Filter((record: StoredRecord) => Supported(wan, record), records))
  }

  lemma OrderingMembers(wan: string, records: seq<StoredRecord>, record: StoredRecord)
    ensures record in Ordering(wan, records) <==> record in records && Supported(wan, record)
  {
    var keep := (r: StoredRecord) => Supported(wan, r);
    SortMembers(RecordBefore, Filter(keep, records), record);
    FilterMembers(keep, records, record);
  }

  /** The observations made of the records read. */
  function Batch(wan: string, ctx: Context, records: seq<StoredRecord>): seq<Observation> {
    assert forall record :: record in Ordering(wan, records) ==> Supported(wan, record) by {
      forall record | record in Ordering(wan, records) ensures Supported(wan, record) {
        OrderingMembers(wan, records, record);
      }
    }
    ObservationsOf(wan, ctx, Ordering(wan, records))
  }

  // ---------- one pass over the log ----------

  /** The new cursors of a pass, and its observations in order. */
  datatype Reading = Reading(next: map<string, Cursor>, observations: seq<Observation>)

  function From(ctx: Context): map<string, Cursor> {
    if ctx.changed.Some? then map[] else ctx.cursors
  }

  /** A pass read from its cursors, or from the start if something already read had changed,
      and made an observation of each supported record. */
  ghost predicate ReadsLog(wan: string, decode: MessageDecoder, files: map<string, File>, ctx: Context,
                           paths: seq<string>, reading: Reading)
  {
    && (ctx.changed.Some? ==> Blames(decode, files, ctx.cursors, PartitionChanged(ctx.changed.value)))
    && Visits(decode, files, From(ctx), paths, reading.next, Gather(decode, files, From(ctx), paths))
    && reading.observations == Batch(wan, ctx, Gather(decode, files, From(ctx), paths))
  }

  lemma {:induction false} ObservationsSnoc(wan: string, ctx: Context, records: seq<StoredRecord>, n: nat)
    requires n < |records| && forall record :: record in records ==> Supported(wan, record)
    ensures forall record :: record in records[..n] ==> Supported(wan, record)
    ensures forall record :: record in records[..n + 1] ==> Supported(wan, record)
    ensures ObservationsOf(wan, ctx, records[..n + 1]) == ObservationsOf(wan, ctx, records[..n])
      + [ObservationOf(wan, ctx, records[n])]
    decreases n
  {
    forall record | record in records[..n + 1] ensures Supported(wan, record) { assert record in records; }
    forall record | record in records[1..] ensures Supported(wan, record) { assert record in records; }
    forall record | record in records[..n] ensures Supported(wan, record) { assert record in records; }
    assert records[..n + 1][0] == records[0];
    if n == 0 {
      assert records[..1][1..] == [];
    } else {
      ObservationsSnoc(wan, ctx, records[1..], n - 1);
      assert records[..n + 1][1..] == records[1..][..n] && records[..n][1..] == records[1..][..n - 1];
    }
  }

  /** Judges the records one after the other. */
  method Judge(wan: string, ctx: Context, records: seq<StoredRecord>) returns (observations: seq<Observation>)
    requires forall record :: record in records ==> Supported(wan, record)
    ensures observations == ObservationsOf(wan, ctx, records)
  {
    observations := [];
    for n := 0 to |records|
      invariant forall record :: record in records[..n] ==> Supported(wan, record)
      invariant observations == ObservationsOf(wan, ctx, records[..n])
    {
      var record := records[n];
      assert record in records;
      var eligible := record.message.transport != "import"
        && (ctx.bootstrapped || record.message.receivedAt > ctx.startedAt);
      if ctx.changed.Some? {
        if record.file == ctx.changed.value {
          eligible := eligible && ctx.lastCheckpointAt != ZERO_TIME && record.message.receivedAt > ctx.lastCheckpointAt;
        } else {
          eligible := eligible && (record.file !in ctx.cursors || record.offset > ctx.cursors[record.file].offset);
        }
      }
      ObservationsSnoc(wan, ctx, records, n);
      var sourceRef := record.file + ":" + Decimal(record.offset);
      observations := observations + [Observation(Classify(record.message, wan).value, eligible, sourceRef)];
    }
    assert records[..|records|] == records;
  }

  /** The state after the evidence of a pass, before its tick. */
  ghost function Updated(cfg: Config, previous: State, changed: bool, observations: seq<Observation>): State {
    if changed then Rebuilt(cfg, previous, Events(observations)) else Run(cfg, previous, Events(observations))
  }

  /** No record is older than the clock or newer than the pass. */
  predicate Timely(clock: Time, observations: seq<Observation>, now: Time) {
    clock <= now && forall n :: 0 <= n < |observations| ==> clock <= observations[n].evidence.at <= now
  }

  // ---------- records of a visit are ordered in one way ----------

  lemma RecordOrderIsStrict()
    ensures Transitive(RecordBefore) && Asymmetric(RecordBefore)
  {
    forall a, b, c | RecordBefore(a, b) && RecordBefore(b, c) ensures RecordBefore(a, c) {
      if StringBefore(a.file, b.file) && StringBefore(b.file, c.file) { StringTransitive(a.file, b.file, c.file); }
      StringTrichotomy(a.file, c.file);
      StringTrichotomy(a.file, b.file);
    }
    forall a, b ensures RecordBefore(a, b) ==> !RecordBefore(b, a) { StringTrichotomy(a.file, b.file); }
  }

  predicate Distinct(a: StoredRecord, b: StoredRecord) { a.file != b.file || a.offset != b.offset }

  ghost predicate AllDistinct(records: seq<StoredRecord>) {
    forall m, n :: 0 <= m < n < |records| ==> Distinct(records[m], records[n])
  }

  lemma DistinctComparable(records: seq<StoredRecord>)
    requires AllDistinct(records)
    ensures Comparable(RecordBefore, records)
  {
    forall m, n | 0 <= m < n < |records|
      ensures RecordBefore(records[m], records[n]) || RecordBefore(records[n], records[m])
    {
      assert Distinct(records[m], records[n]);
      StringTrichotomy(records[m].file, records[n].file);
    }
  }

  lemma {:induction false} OffsetsRise(decode: MessageDecoder, file: string, lines: seq<string>, offset: nat)
    requires RecordsOf(decode, file, lines, offset).Some? && forall l :: l in lines ==> l != []
    ensures
      var records := RecordsOf(decode, file, lines, offset).value;
      && (forall n :: 0 <= n < |records| ==> records[n].offset > offset)
      && (forall m, n :: 0 <= m < n < |records| ==> records[m].offset < records[n].offset)
    decreases |lines|
  {
    if lines != [] {
      assert lines[0] in lines;
      forall l | l in lines[1..] ensures l != [] { assert l in lines; }
      OffsetsRise(decode, file, lines[1..], offset + |lines[0]|);
    }
  }

  lemma FileRecordsDistinct(decode: MessageDecoder, files: map<string, File>, cursors: map<string, Cursor>,
                            file: string)
    requires FileRecords(decode, files, cursors, file).Some?
    ensures AllDistinct(FileRecords(decode, files, cursors, file).value)
  {
    var rest := files[file].content[CursorOf(cursors, file).offset..];
    var lines := SplitLines(rest[..WholePart(rest)]);
    forall l | l in lines ensures l != [] { PartitionIndex.NoEmptyLines(rest[..WholePart(rest)], l); }
    OffsetsRise(decode, file, lines, CursorOf(cursors, file).offset);
  }

  lemma {:induction false} GatheredFrom(decode: MessageDecoder, files: map<string, File>, cursors: map<string, Cursor>,
                                        paths: seq<string>, record: StoredRecord)
    requires record in Gather(decode, files, cursors, paths)
    ensures record.file in paths
    decreases |paths|
  {
    if paths != [] {
      var last := |paths| - 1;
      if record in Gather(decode, files, cursors, paths[..last]) {
        GatheredFrom(decode, files, cursors, paths[..last], record);
      } else {
        FileRecordsOf(decode, files, cursors, paths[last], record);
      }
    }
  }

  lemma ConcatDistinct(a: seq<StoredRecord>, b: seq<StoredRecord>)
    requires AllDistinct(a) && AllDistinct(b)
    requires forall m, n :: 0 <= m < |a| && 0 <= n < |b| ==> Distinct(a[m], b[n])
    ensures AllDistinct(a + b)
  {
    forall m, n | 0 <= m < n < |a + b| ensures Distinct((a + b)[m], (a + b)[n]) {
      if n < |a| {
        assert Distinct(a[m], a[n]);
      } else if m < |a| {
        assert Distinct(a[m], b[n - |a|]);
      } else {
        assert Distinct(b[m - |a|], b[n - |a|]);
      }
    }
  }

  lemma {:induction false} GatherDistinct(decode: MessageDecoder, files: map<string, File>,
                                          cursors: map<string, Cursor>, paths: seq<string>)
    requires Ordered(StringBefore, paths)
    ensures AllDistinct(Gather(decode, files, cursors, paths))
    decreases |paths|
  {
    if paths != [] {
      var last := |paths| - 1;
      var front, own := Gather(decode, files, cursors, paths[..last]),
        FileRecords(decode, files, cursors, paths[last]).GetOr([]);
      GatherDistinct(decode, files, cursors, paths[..last]);
      if FileRecords(decode, files, cursors, paths[last]).Some? {
        FileRecordsDistinct(decode, files, cursors, paths[last]);
      }
      OrderedDistinct(paths, last);
      forall m, n | 0 <= m < |front| && 0 <= n < |own| ensures Distinct(front[m], own[n]) {
        GatheredFrom(decode, files, cursors, paths[..last], front[m]);
        FileRecordsOf(decode, files, cursors, paths[last], own[n]);
      }
      ConcatDistinct(front, own);
    }
  }

  lemma {:induction false} FilterDistinct(keep: StoredRecord -> bool, records: seq<StoredRecord>)
    requires AllDistinct(records)
    ensures AllDistinct(Filter(keep, records))
    decreases |records|
  {
    if records != [] {
      forall m, n | 0 <= m < n < |records[1..]| ensures Distinct(records[1..][m], records[1..][n]) {
        assert Distinct(records[m + 1], records[n + 1]);
      }
      FilterDistinct(keep, records[1..]);
      var kept := Filter(keep, records[1..]);
      forall n | 0 <= n < |kept| ensures Distinct(records[0], kept[n]) {
        FilterMembers(keep, records[1..], kept[n]);
        var l :| 0 <= l < |records[1..]| && records[1..][l] == kept[n];
        assert Distinct(records[0], records[l + 1]);
      }
    }
  }

  /** The records applied are exactly the supported ones read, each once, in time order. */
  lemma OrderingSorts(wan: string, decode: MessageDecoder, files: map<string, File>, cursors: map<string, Cursor>,
                      paths: seq<string>)
    requires Ordered(StringBefore, paths)
    ensures
      var records := Gather(decode, files, cursors, paths);
      && Ordered(RecordBefore, Ordering(wan, records))
      && forall record :: record in Ordering(wan, records) <==> record in records && Supported(wan, record)
  {
    var records := Gather(decode, files, cursors, paths);
    var keep := (record: StoredRecord) => Supported(wan, record);
    GatherDistinct(decode, files, cursors, paths);
    FilterDistinct(keep, records);
    DistinctComparable(Filter(keep, records));
    RecordOrderIsStrict();
    SortSorts(RecordBefore, Filter(keep, records));
    forall record ensures record in Filter(keep, records) <==> record in records && Supported(wan, record) {
      FilterMembers(keep, records, record);
    }
  }

  /** Ordered records give monotone evidence, from the first record's time on. */
  lemma {:induction false} OrderedIsMonotone(wan: string, ctx: Context, records: seq<StoredRecord>, clock: Time)
    requires Ordered(RecordBefore, records) && forall record :: record in records ==> Supported(wan, record)
    requires records != [] ==> clock <= records[0].message.receivedAt
    ensures Monotone(clock, Events(ObservationsOf(wan, ctx, records)))
    decreases |records|
  {
    if records != [] {
      assert forall record :: record in records[1..] ==> record in records;
      var o := ObservationOf(wan, ctx, records[0]);
      var rest := ObservationsOf(wan, ctx, records[1..]);
      assert ([o] + rest)[1..] == rest;
      assert ([Observed(o)] + Events(rest))[1..] == Events(rest);
      if |records| > 1 { assert RecordBefore(records[0], records[1]); }
      OrderedIsMonotone(wan, ctx, records[1..], o.evidence.at);
    }
  }

  lemma {:induction false} ClockOfTimely(clock: Time, observations: seq<Observation>, now: Time)
    requires Timely(clock, observations, now) && Monotone(clock, Events(observations))
    ensures Clock(clock, Events(observations)) <= now
    decreases |observations|
  {
    if observations != [] {
      var o, rest := observations[0], observations[1..];
      assert ([Observed(o)] + Events(rest))[1..] == Events(rest);
      forall n | 0 <= n < |rest| ensures o.evidence.at <= rest[n].evidence.at <= now {
        assert rest[n] == observations[n + 1];
        FirstIsEarliest(clock, observations, n + 1);
      }
      ClockOfTimely(o.evidence.at, rest, now);
    }
  }

  lemma {:induction false} FirstIsEarliest(clock: Time, observations: seq<Observation>, n: nat)
    requires Monotone(clock, Events(observations)) && n < |observations|
    ensures clock <= observations[0].evidence.at <= observations[n].evidence.at
    decreases n
  {
    var o, rest := observations[0], observations[1..];
    assert ([Observed(o)] + Events(rest))[1..] == Events(rest);
    if n > 0 { FirstIsEarliest(o.evidence.at, rest, n - 1); }
  }

  lemma TimelyIsMonotone(wan: string, ctx: Context, records: seq<StoredRecord>, clock: Time, now: Time)
    requires Ordered(RecordBefore, records) && forall record :: record in records ==> Supported(wan, record)
    requires Timely(clock, ObservationsOf(wan, ctx, records), now)
    ensures Monotone(clock, Events(ObservationsOf(wan, ctx, records)))
    ensures Clock(clock, Events(ObservationsOf(wan, ctx, records))) <= now
  {
    if records != [] { assert ObservationsOf(wan, ctx, records)[0] == ObservationOf(wan, ctx, records[0]); }
    OrderedIsMonotone(wan, ctx, records, clock);
    ClockOfTimely(clock, ObservationsOf(wan, ctx, records), now);
  }

  /** Whatever order the records were written in, a pass applies timely ones as a monotone run. */
  lemma PassIsMonotone(wan: string, decode: MessageDecoder, files: map<string, File>, ctx: Context, paths: seq<string>,
                       reading: Reading, clock: Time, now: Time)
    requires ReadsLog(wan, decode, files, ctx, paths, reading) && Timely(clock, reading.observations, now)
    ensures Monotone(clock, Events(reading.observations)) && Clock(clock, Events(reading.observations)) <= now
  {
    OrderingSorts(wan, decode, files, From(ctx), paths);
    TimelyIsMonotone(wan, ctx, Ordering(wan, Gather(decode, files, From(ctx), paths)), clock, now);
  }

  /** A pass keeps the invariant of the incidents; without a rebuild, that of the jobs too. */
  lemma UpdatedKeepsInv(cfg: Config, previous: State, changed: bool, observations: seq<Observation>, clock: Time,
                        now: Time)
    requires ConfigOk(cfg) && Monotone(clock, Events(observations)) && Clock(clock, Events(observations)) <= now
    requires changed || Inv(cfg, previous, clock)
    ensures CoreInv(cfg.iface, Updated(cfg, previous, changed, observations).core, now)
    ensures !changed ==> Inv(cfg, Settled(cfg.iface, Updated(cfg, previous, changed, observations), now), now)
  {
    var events := Events(observations);
    var end := Clock(clock, events);
    if changed {
      EmptyInv(cfg, clock);
      RunKeepsInv(cfg, EMPTY_STATE, clock, events);
      MergeKeepsInv(cfg.iface, Run(cfg, EMPTY_STATE, events).core, previous.core, end);
      CoreInvLater(cfg.iface, Rebuilt(cfg, previous, events).core, end, now);
    } else {
      RunKeepsInv(cfg, previous, clock, events);
      CoreInvLater(cfg.iface, Run(cfg, previous, events).core, end, now);
      TickKeepsInv(cfg, Run(cfg, previous, events), end, now);
    }
  }

  // ---------- what a rebuild makes of a history of passes ----------

  /** The record lies below the cursors the rebuild found, or in the partition that forced it. */
  predicate Covered(rebuild: Context, record: StoredRecord) {
    || rebuild.changed == Some(record.file)
    || (record.file in rebuild.cursors && record.offset <= rebuild.cursors[record.file].offset)
  }

  /** A pass that was no rebuild read the record: before the rebuild's checkpoint, or knowing no less than the
      rebuild. */
  predicate EarlierPass(live: Context, rebuild: Context, record: StoredRecord) {
    && live.changed.None?
    && (|| (Covered(rebuild, record) && live.startedAt <= rebuild.lastCheckpointAt)
        || ((rebuild.bootstrapped ==> live.bootstrapped) && live.startedAt <= rebuild.startedAt))
  }

  /** A rebuild judges no record more eligible than the pass that first read it, bootstrapped or not. */
  lemma RebuildIsNarrower(live: Context, rebuild: Context, record: StoredRecord)
    requires rebuild.changed.Some? && EarlierPass(live, rebuild, record)
    ensures Eligible(rebuild, record) ==> Eligible(live, record)
  {
  }

  /** Each record, judged by the pass that read it. */
  function ObservationsUnder(wan: string, lives: seq<Context>, records: seq<StoredRecord>): (o: seq<Observation>)
    requires |lives| == |records| && forall record :: record in records ==> Supported(wan, record)
    ensures |o| == |records|
  {
    if records == [] then [] else
      assert forall record :: record in records[1..] ==> record in records;
      [ObservationOf(wan, lives[0], records[0])] + ObservationsUnder(wan, lives[1..], records[1..])
  }

  /** The records of earlier passes, each with the context of its own pass. */
  predicate History(rebuild: Context, lives: seq<Context>, records: seq<StoredRecord>) {
    |lives| == |records| && forall n :: 0 <= n < |lives| ==> EarlierPass(lives[n], rebuild, records[n])
  }

  lemma NarrowerByOne(a: Observation, rest: seq<Observation>, b: Observation, rest': seq<Observation>)
    requires b == a.(notifyEligible := b.notifyEligible) && (b.notifyEligible ==> a.notifyEligible)
    requires NarrowerRun(Events(rest), Events(rest'))
    ensures NarrowerRun(Events([a] + rest), Events([b] + rest'))
  {
    assert ([a] + rest)[1..] == rest && ([b] + rest')[1..] == rest';
    assert ([Observed(a)] + Events(rest))[1..] == Events(rest);
    assert ([Observed(b)] + Events(rest'))[1..] == Events(rest');
  }

  lemma {:induction false} HistoryNarrows(wan: string, lives: seq<Context>, rebuild: Context,
                                          records: seq<StoredRecord>)
    requires rebuild.changed.Some? && History(rebuild, lives, records)
    requires forall record :: record in records ==> Supported(wan, record)
    ensures NarrowerRun(Events(ObservationsUnder(wan, lives, records)), Events(ObservationsOf(wan, rebuild, records)))
    decreases |records|
  {
    if records != [] {
      assert forall record :: record in records[1..] ==> record in records;
      assert EarlierPass(lives[0], rebuild, records[0]);
      RebuildIsNarrower(lives[0], rebuild, records[0]);
      HistoryNarrows(wan, lives[1..], rebuild, records[1..]);
      NarrowerByOne(ObservationOf(wan, lives[0], records[0]), ObservationsUnder(wan, lives[1..], records[1..]),
                    ObservationOf(wan, rebuild, records[0]), ObservationsOf(wan, rebuild, records[1..]));
    }
  }

  /** The records of the log, as the history has them. */
  ghost predicate WholeLog(wan: string, decode: MessageDecoder, files: map<string, File>, paths: seq<string>,
                           records: seq<StoredRecord>)
  {
    && Ordered(StringBefore, paths) && Ordered(RecordBefore, records)
    && (forall record :: record in records <==> record in Gather(decode, files, map[], paths) && Supported(wan, record))
  }

  lemma WholeLogIsOrdering(wan: string, decode: MessageDecoder, files: map<string, File>, paths: seq<string>,
                           records: seq<StoredRecord>)
    requires WholeLog(wan, decode, files, paths, records)
    ensures Ordering(wan, Gather(decode, files, map[], paths)) == records
  {
    OrderingSorts(wan, decode, files, map[], paths);
    RecordOrderIsStrict();
    SortUnique(RecordBefore, Ordering(wan, Gather(decode, files, map[], paths)), records);
  }

  /** A rebuild pass agrees with the passes before it: whatever passes and ticks read the log in its order, rebuilding
      from the whole log and ticking gives the very state that ticking alone gives. */
  lemma RebuildPassAgrees(cfg: Config, start: Time, events: seq<Event>, lives: seq<Context>, rebuild: Context,
                          records: seq<StoredRecord>, decode: MessageDecoder, files: map<string, File>,
                          paths: seq<string>, end: Time)
    requires ConfigOk(cfg) && Monotone(start, events) && Clock(start, events) <= end
    requires WholeLog(cfg.iface, decode, files, paths, records)
    requires rebuild.changed.Some? && History(rebuild, lives, records)
    requires EvidenceIn(None, events) == Events(ObservationsUnder(cfg.iface, lives, records))
    ensures
      var previous := Run(cfg, EMPTY_STATE, events);
      var batch := Batch(cfg.iface, rebuild, Gather(decode, files, map[], paths));
      Settled(cfg.iface, Updated(cfg, previous, true, batch), end) == Settled(cfg.iface, previous, end)
  {
    WholeLogIsOrdering(cfg.iface, decode, files, paths, records);
    HistoryNarrows(cfg.iface, lives, rebuild, records);
    RebuildAgrees(cfg, start, events, Events(ObservationsOf(cfg.iface, rebuild, records)), end);
  }

  // ---------- what a crash before a rebuild can change ----------

  /** The same trackers and incidents but for the notification choice. */
  ghost predicate SameButNotify(a: Core, b: Core) {
    && a.trackers.Keys == b.trackers.Keys && a.incidents.Keys == b.incidents.Keys
    && (forall k :: k in a.trackers ==> b.trackers[k] == a.trackers[k].(notify := b.trackers[k].notify))
    && (forall id :: id in a.incidents ==> b.incidents[id] == a.incidents[id].(notify := b.incidents[id].notify))
  }

  function Silent(observations: seq<Observation>): seq<Observation> {
    if observations == [] then [] else [observations[0].(notifyEligible := false)] + Silent(observations[1..])
  }

  lemma {:induction false} SilentIsNarrower(observations: seq<Observation>)
    ensures NarrowerRun(Events(observations), Events(Silent(observations)))
    decreases |observations|
  {
    if observations != [] {
      SilentIsNarrower(observations[1..]);
      assert observations == [observations[0]] + observations[1..];
      NarrowerByOne(observations[0], observations[1..], observations[0].(notifyEligible := false),
                    Silent(observations[1..]));
    }
  }

  lemma {:induction false} SilencedAlike(wan: string, a: Context, b: Context, records: seq<StoredRecord>)
    requires forall record :: record in records ==> Supported(wan, record)
    ensures Silent(ObservationsOf(wan, a, records)) == Silent(ObservationsOf(wan, b, records))
    decreases |records|
  {
    if records != [] {
      assert forall record :: record in records[1..] ==> record in records;
      SilencedAlike(wan, a, b, records[1..]);
      assert ObservationsOf(wan, a, records)[1..] == ObservationsOf(wan, a, records[1..]);
      assert ObservationsOf(wan, b, records)[1..] == ObservationsOf(wan, b, records[1..]);
    }
  }

  lemma AlikeThroughSilence(a: Core, b: Core, silent: Core)
    requires Dims(a, silent) && Dims(b, silent)
    ensures SameButNotify(a, b)
  {
    forall k | k in a.trackers ensures b.trackers[k] == a.trackers[k].(notify := b.trackers[k].notify) {
      assert DimTracker(a.trackers[k], silent.trackers[k]) && DimTracker(b.trackers[k], silent.trackers[k]);
    }
    forall id | id in a.incidents ensures b.incidents[id] == a.incidents[id].(notify := b.incidents[id].notify) {
      assert DimIncident(a.incidents[id], silent.incidents[id]) && DimIncident(b.incidents[id], silent.incidents[id]);
    }
  }

  lemma MergedAlike(replayed: Core, previous: Core)
    ensures SameButNotify(replayed, MergeCore(replayed, previous))
  {
  }

  lemma AlikeCombines(a: Core, b: Core, a': Core, b': Core)
    requires SameButNotify(a, b) && SameButNotify(a, a') && SameButNotify(b, b')
    ensures SameButNotify(a', b')
  {
    forall k | k in a'.trackers ensures b'.trackers[k] == a'.trackers[k].(notify := b'.trackers[k].notify) {
      assert k in a.trackers && k in b.trackers;
    }
    forall id | id in a'.incidents ensures b'.incidents[id] == a'.incidents[id].(notify := b'.incidents[id].notify) {
      assert id in a.incidents && id in b.incidents;
    }
  }

  /** Rebuilding over a changed log from different memories, as with and without a crash before it, leaves the same
      trackers and incidents but for the notification choice. */
  lemma RebuildsAlike(cfg: Config, previous: State, previous': State, ctx: Context, ctx': Context,
                      records: seq<StoredRecord>, s: State, s': State)
    requires ConfigOk(cfg) && forall record :: record in records ==> Supported(cfg.iface, record)
    requires Rebuilds(cfg, previous, ObservationsOf(cfg.iface, ctx, records), s)
    requires Rebuilds(cfg, previous', ObservationsOf(cfg.iface, ctx', records), s')
    ensures SameButNotify(s.core, s'.core)
  {
    var a, b := ObservationsOf(cfg.iface, ctx, records), ObservationsOf(cfg.iface, ctx', records);
    RebuildsCore(cfg, previous, a, s);
    RebuildsCore(cfg, previous', b, s');
    SilentIsNarrower(a);
    SilentIsNarrower(b);
    SilencedAlike(cfg.iface, ctx, ctx', records);
    RunDims(cfg, EMPTY_CORE, EMPTY_CORE, Events(a), Events(Silent(a)));
    RunDims(cfg, EMPTY_CORE, EMPTY_CORE, Events(b), Events(Silent(b)));
    var replayed, replayed' := RunCore(cfg, EMPTY_CORE, Events(a)), RunCore(cfg, EMPTY_CORE, Events(b));
    AlikeThroughSilence(replayed, replayed', RunCore(cfg, EMPTY_CORE, Events(Silent(a))));
    MergedAlike(replayed, previous.core);
    MergedAlike(replayed', previous'.core);
    AlikeCombines(replayed, replayed', s.core, s'.core);
  }
}
