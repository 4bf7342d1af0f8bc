/** What a pass makes of the log: which lines it reads, in which order it applies them, and what it notes of each. */
module Readings {
  import opened Wrappers
  import opened IncidentState
  import opened Sorting
  import opened MessageStore
  import opened Messages
  import opened Observing
  import opened AppendReader
  import opened Classification
  import opened IncidentService
  import opened Reconciling
  import opened Eligibility

  // ---------- which lines ----------

  lemma {:induction false} GatherMembers(decode: MessageDecoder, files: map<string, File>, from: map<string, Cursor>,
                                         paths: seq<string>, record: StoredRecord)
    ensures record in Gather(decode, files, from, paths) <==>
      && record.file in paths && FileRecords(decode, files, from, record.file).Some?
      && record in FileRecords(decode, files, from, record.file).value
    decreases |paths|
  {
    if paths != [] {
      var last := |paths| - 1;
      assert paths == paths[..last] + [paths[last]];
      GatherMembers(decode, files, from, paths[..last], record);
      var own := FileRecords(decode, files, from, paths[last]);
      if own.Some? && record in own.value { FileRecordsOf(decode, files, from, paths[last], record); }
    }
  }

  /** Where reading a partition starts: at its cursor, or else at its start. */
  function StartOf(from: map<string, Cursor>, file: string): int {
    if file in from then from[file].offset else 0
  }

  /** A visit reads exactly the complete lines of the partitions, from their cursors on. */
  lemma GatherExact(decode: MessageDecoder, files: map<string, File>, from: map<string, Cursor>, paths: seq<string>,
                    next: map<string, Cursor>, record: StoredRecord)
    requires Visits(decode, files, from, paths, next, Gather(decode, files, from, paths))
    ensures record in Gather(decode, files, from, paths) <==>
      && record.file in files && StartOf(from, record.file) >= 0
      && OfSomeLine(decode, record.file, files[record.file].content, StartOf(from, record.file), record)
  {
    GatherMembers(decode, files, from, paths, record);
    if record.file in files {
      assert PartitionOk(decode, files, from, record.file);
      VisitedExact(decode, record.file, files[record.file].content, StartOf(from, record.file), record);
    }
  }

  /** Nothing that was read of the partition has changed, as far as its cursor tells. */
  predicate Unchanged(content: string, start: int, cursor: Option<Cursor>) {
    && 0 <= start <= |content|
    && (cursor.Some? && cursor.value.fingerprint.Some? ==>
          cursor.value.fingerprint.value == Fingerprint(content, start))
  }

  function CursorFor(from: map<string, Cursor>, file: string): Option<Cursor> {
    if file in from then Some(from[file]) else None
  }

  /** A visit of the store can succeed exactly if every partition that was read is there, unchanged, and each of its
      complete lines from the cursor on decodes. A partition of which nothing was read may go. */
  lemma ReadableExact(decode: MessageDecoder, files: map<string, File>, from: map<string, Cursor>)
    ensures Readable(decode, files, from) <==>
      && (forall file :: file in from && file !in files ==> from[file].offset <= 0)
      && forall file :: file in files ==>
        && Unchanged(files[file].content, StartOf(from, file), CursorFor(from, file))
        && !exists begin: nat, end: nat ::
          UndecodableLine(decode, files[file].content, StartOf(from, file), begin, end)
  {
    forall file | file in files
      ensures PartitionOk(decode, files, from, file) <==>
        && Unchanged(files[file].content, StartOf(from, file), CursorFor(from, file))
        && !exists begin: nat, end: nat ::
          UndecodableLine(decode, files[file].content, StartOf(from, file), begin, end)
    {
      PartitionOkExact(decode, files, from, file);
    }
  }

  lemma PartitionOkExact(decode: MessageDecoder, files: map<string, File>, from: map<string, Cursor>, file: string)
    requires file in files
    ensures PartitionOk(decode, files, from, file) <==>
      && Unchanged(files[file].content, StartOf(from, file), CursorFor(from, file))
      && !exists begin: nat, end: nat :: UndecodableLine(decode, files[file].content, StartOf(from, file), begin, end)
  {
    var content, start := files[file].content, StartOf(from, file);
    if 0 <= start <= |content| { UndecodableExact(decode, file, content, start); }
  }

  // ---------- in which order ----------

  /** Records are applied in the order of their times; of one time, by partition; of one partition, as written. */
  lemma AppliedInOrder(wan: string, decode: MessageDecoder, files: map<string, File>, from: map<string, Cursor>,
                       paths: seq<string>, m: nat, n: nat)
    requires Ordered(StringBefore, paths) && m < n < |Ordering(wan, Gather(decode, files, from, paths))|
    ensures
      var records := Ordering(wan, Gather(decode, files, from, paths));
      var a, b := records[m], records[n];
      if a.message.receivedAt != b.message.receivedAt then a.message.receivedAt < b.message.receivedAt
      else if a.file != b.file then InFront(a.file, b.file)
      else a.offset < b.offset
  {
    var records := Ordering(wan, Gather(decode, files, from, paths));
    OrderingSorts(wan, decode, files, from, paths);
    assert RecordBefore(records[m], records[n]);
    StringOrderExact(records[m].file, records[n].file);
  }

  // ---------- what is noted of each ----------

  /** The number that the digits stand for. */
  function NumberOf(digits: string): int {
    if digits == "" then 0
    else 10 * NumberOf(digits[..|digits| - 1]) + (digits[|digits| - 1] as int - '0' as int)
  }

  predicate IsNumeral(digits: string) {
    && digits != "" && (forall n :: 0 <= n < |digits| ==> '0' <= digits[n] <= '9')
    && (|digits| > 1 ==> digits[0] != '0')
  }

  /** The decimal numeral of a number stands for it, without leading zeros. */
  lemma {:induction false} DecimalExact(n: nat)
    ensures IsNumeral(Decimal(n)) && NumberOf(Decimal(n)) == n
    ensures n > 0 ==> Decimal(n)[0] != '0'
    decreases n
  {
    if n >= 10 {
      DecimalExact(n / 10);
      assert Decimal(n)[..|Decimal(n)| - 1] == Decimal(n / 10);
    } else {
      assert Decimal(n)[..0] == "";
    }
  }

  lemma LastColon(file: string, offset: nat)
    ensures
      var s := file + ":" + Decimal(offset);
      s[|file|] == ':' && forall n :: |file| < n < |s| ==> s[n] != ':'
  {
    DecimalExact(offset);
    var s := file + ":" + Decimal(offset);
    forall n | |file| < n < |s| ensures s[n] != ':' { assert s[n] == Decimal(offset)[n - |file| - 1]; }
  }

  /** A source reference names one position of one partition. */
  lemma SourceRefExact(file: string, offset: nat, file': string, offset': nat)
    ensures file + ":" + Decimal(offset) == file' + ":" + Decimal(offset') <==> file == file' && offset == offset'
  {
    if file + ":" + Decimal(offset) == file' + ":" + Decimal(offset') {
      LastColon(file, offset);
      LastColon(file', offset');
      var s, s' := file + ":" + Decimal(offset), file' + ":" + Decimal(offset');
      assert |file| == |file'|;
      assert Decimal(offset) == s[|file| + 1..] == s'[|file| + 1..] == Decimal(offset');
      assert file == s[..|file|] == s'[..|file|] == file';
      DecimalExact(offset);
      DecimalExact(offset');
    }
  }

  lemma {:induction false} ObservedWithRef(wan: string, ctx: Context, records: seq<StoredRecord>, n: nat)
    requires n < |records| && forall record :: record in records ==> Supported(wan, record)
    ensures ObservationsOf(wan, ctx, records)[n].sourceRef == records[n].file + ":" + Decimal(records[n].offset)
    decreases n
  {
    assert records[n] in records;
    forall record | record in records[1..] ensures Supported(wan, record) { assert record in records; }
    if n == 0 {
      assert ObservationsOf(wan, ctx, records)[0] == ObservationOf(wan, ctx, records[0]);
    } else {
      ObservedWithRef(wan, ctx, records[1..], n - 1);
      assert ObservationsOf(wan, ctx, records)[n] == ObservationsOf(wan, ctx, records[1..])[n - 1];
    }
  }

  /** The observation is what the record is evidence of, with its position, to be notified exactly when it is news. */
  predicate ObservedAs(wan: string, ctx: Context, record: StoredRecord, o: Observation) {
    && Classify(record.message, wan).Some? && o.evidence == Classify(record.message, wan).value
    && o.sourceRef == record.file + ":" + Decimal(record.offset)
    && (o.notifyEligible <==> IsNews(ctx, record))
  }

  /** The observations of a pass that started from the snapshot are those of the supported records it read, in order:
      read from the snapshot's cursors, or from the start of the log in a rebuild; and judged by what the snapshot
      knew. */
  lemma ReadingExact(wan: string, decode: MessageDecoder, files: map<string, File>, before: Snapshot, startedAt: Time,
                     changed: Option<string>, paths: seq<string>, reading: Reading, n: nat)
    requires ReadsLog(wan, decode, files, ContextOf(before, startedAt, changed), paths, reading)
    ensures
      var from := if changed.Some? then map[] else before.cursors;
      var records := Ordering(wan, Gather(decode, files, from, paths));
      var ctx := Context(before.bootstrapped, startedAt, before.lastCheckpointAt, before.cursors, changed);
      && |reading.observations| == |records|
      && (forall record ::
            record in records <==> record in Gather(decode, files, from, paths) && Classify(record.message, wan).Some?)
      && (n < |records| ==> ObservedAs(wan, ctx, records[n], reading.observations[n]))
  {
    var ctx := ContextOf(before, startedAt, changed);
    var records := Ordering(wan, Gather(decode, files, From(ctx), paths));
    forall record
      ensures record in records <==>
        record in Gather(decode, files, From(ctx), paths) && Classify(record.message, wan).Some?
    {
      OrderingMembers(wan, Gather(decode, files, From(ctx), paths), record);
    }
    if n < |records| {
      JudgedExactly(wan, ctx, records, n);
      ObservedWithRef(wan, ctx, records, n);
    }
  }
}
