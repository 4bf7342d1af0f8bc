/** Reading the store again from older cursors, as after a crash, makes the observations the passes since made;
    and reading on from any cursors reads the rest of the log. */
module Rereading {
  import opened Wrappers
  import opened Sorting
  import opened MessageStore
  import opened Messages
  import opened Observing
  import opened AppendReader
  import opened Reconciling
  import opened VisitChains

  /** A pass after the bootstrap that was no rebuild: only the record decides what it is judged. */
  predicate Steady(ctx: Context) {
    ctx.bootstrapped && ctx.changed.None?
  }

  /** The records of the visits, in the order they were applied. */
  function Applied(wan: string, visits: seq<Visit>): seq<StoredRecord> {
    if visits == [] then [] else Ordering(wan, visits[0].records) + Applied(wan, visits[1..])
  }

  /** The observations the passes made. */
  function Batches(wan: string, ctxs: seq<Context>, visits: seq<Visit>): seq<Observation>
    requires |ctxs| == |visits|
  {
    if visits == [] then [] else Batch(wan, ctxs[0], visits[0].records) + Batches(wan, ctxs[1..], visits[1..])
  }

  // ---------- the same records ----------

  lemma {:induction false} DeliveredMembers(visits: seq<Visit>, file: string, record: StoredRecord)
    ensures record in Delivered(visits, file) <==>
      record.file == file && exists n :: 0 <= n < |visits| && record in visits[n].records
    decreases |visits|
  {
    if visits != [] {
      FilterMembers((r: StoredRecord) => OfFile(r, file), visits[0].records, record);
      DeliveredMembers(visits[1..], file, record);
      if m :| 0 <= m < |visits[1..]| && record in visits[1..][m].records { assert record in visits[m + 1].records; }
      if m :| 0 <= m < |visits| && record in visits[m].records {
        assert m > 0 ==> record in visits[1..][m - 1].records;
      }
    }
  }

  lemma {:induction false} AppliedMembers(wan: string, visits: seq<Visit>, record: StoredRecord)
    ensures record in Applied(wan, visits) <==>
      Supported(wan, record) && exists n :: 0 <= n < |visits| && record in visits[n].records
    decreases |visits|
  {
    if visits != [] {
      OrderingMembers(wan, visits[0].records, record);
      AppliedMembers(wan, visits[1..], record);
      if m :| 0 <= m < |visits[1..]| && record in visits[1..][m].records { assert record in visits[m + 1].records; }
      if m :| 0 <= m < |visits| && record in visits[m].records {
        assert m > 0 ==> record in visits[1..][m - 1].records;
      }
    }
  }

  lemma {:induction false} VisitedFiles(decode: MessageDecoder, stores: seq<map<string, File>>,
                                        cursors: map<string, Cursor>, visits: seq<Visit>, n: nat, record: StoredRecord)
    requires GrowingStore(stores) && Chained(decode, stores, cursors, visits) && n < |visits|
    requires record in visits[n].records
    ensures record.file in stores[|stores| - 1]
    decreases |stores|
  {
    if n == 0 {
      GatheredFrom(decode, stores[0], cursors, visits[0].paths, record);
      GrewToLast(stores);
    } else {
      GrowingTail(stores);
      VisitedFiles(decode, stores[1..], visits[0].next, visits[1..], n - 1, record);
    }
  }

  /** One visit of the final store from the first cursors reads the records of the chain. */
  lemma RereadMembers(decode: MessageDecoder, stores: seq<map<string, File>>, cursors: map<string, Cursor>,
                      visits: seq<Visit>, again: Visit, record: StoredRecord)
    requires GrowingStore(stores) && stores != [] && CursorsOk(stores[0], cursors)
    requires Chained(decode, stores, cursors, visits)
    requires Visits(decode, stores[|stores| - 1], cursors, again.paths, again.next, again.records)
    ensures record in again.records <==> exists n :: 0 <= n < |visits| && record in visits[n].records
  {
    var last := stores[|stores| - 1];
    VisitDelivers(decode, last, cursors, again, record.file);
    FilterMembers((r: StoredRecord) => OfFile(r, record.file), again.records, record);
    DeliveredMembers(visits, record.file, record);
    if record.file in last {
      ChainReadsExactlyOnce(decode, stores, cursors, visits, record.file);
    } else {
      if n :| 0 <= n < |visits| && record in visits[n].records {
        VisitedFiles(decode, stores, cursors, visits, n, record);
      }
    }
  }

  // ---------- the same observations ----------

  lemma {:induction false} SteadyObservations(wan: string, a: Context, b: Context, records: seq<StoredRecord>)
    requires Steady(a) && Steady(b) && forall record :: record in records ==> Supported(wan, record)
    ensures ObservationsOf(wan, a, records) == ObservationsOf(wan, b, records)
    decreases |records|
  {
    if records != [] {
      assert forall record :: record in records[1..] ==> record in records;
      SteadyObservations(wan, a, b, records[1..]);
    }
  }

  lemma {:induction false} ObservationsConcat(wan: string, ctx: Context, a: seq<StoredRecord>, b: seq<StoredRecord>)
    requires forall record :: record in a + b ==> Supported(wan, record)
    ensures (forall record :: record in a ==> Supported(wan, record))
    ensures forall record :: record in b ==> Supported(wan, record)
    ensures ObservationsOf(wan, ctx, a + b) == ObservationsOf(wan, ctx, a) + ObservationsOf(wan, ctx, b)
    decreases |a|
  {
    forall record | record in a ensures Supported(wan, record) { assert record in a + b; }
    forall record | record in b ensures Supported(wan, record) { assert record in a + b; }
    if a == [] {
      assert a + b == b;
    } else {
      assert (a + b)[0] == a[0] && (a + b)[1..] == a[1..] + b;
      forall record | record in a[1..] + b ensures Supported(wan, record) { assert record in a + b; }
      ObservationsConcat(wan, ctx, a[1..], b);
    }
  }

  lemma {:induction false} BatchesAreApplied(wan: string, ctxs: seq<Context>, ctx: Context, visits: seq<Visit>)
    requires |ctxs| == |visits| && Steady(ctx) && forall n :: 0 <= n < |ctxs| ==> Steady(ctxs[n])
    ensures forall record :: record in Applied(wan, visits) ==> Supported(wan, record)
    ensures Batches(wan, ctxs, visits) == ObservationsOf(wan, ctx, Applied(wan, visits))
    decreases |visits|
  {
    forall record | record in Applied(wan, visits) ensures Supported(wan, record) {
      AppliedMembers(wan, visits, record);
    }
    if visits != [] {
      var first := Ordering(wan, visits[0].records);
      ObservationsConcat(wan, ctx, first, Applied(wan, visits[1..]));
      SteadyObservations(wan, ctxs[0], ctx, first);
      BatchesAreApplied(wan, ctxs[1..], ctx, visits[1..]);
    }
  }

  // ---------- the same cursors ----------

  lemma {:induction false} ChainCursors(decode: MessageDecoder, stores: seq<map<string, File>>,
                                        cursors: map<string, Cursor>, visits: seq<Visit>)
    requires GrowingStore(stores) && stores != [] && CursorsOk(stores[0], cursors)
    requires Chained(decode, stores, cursors, visits)
    ensures visits[|visits| - 1].next == NextCursors(stores[|stores| - 1], cursors)
    decreases |stores|
  {
    var first, last := visits[0], stores[|stores| - 1];
    VisitDeterminesCursors(decode, stores[0], cursors, first.paths, first.next, first.records);
    if |stores| > 1 {
      GrowingTail(stores);
      GrewToLast(stores);
      NextCursorsOk(stores[0], cursors, stores[1]);
      ChainCursors(decode, stores[1..], first.next, visits[1..]);
      CursorsCompose(stores[0], cursors, last);
    }
  }

  lemma CursorsCompose(files: map<string, File>, cursors: map<string, Cursor>, grown: map<string, File>)
    requires CursorsOk(files, cursors) && Grew(files, grown)
    ensures NextCursors(grown, NextCursors(files, cursors)) == NextCursors(grown, cursors)
  {
    var next := NextCursors(files, cursors);
    var twice, once := NextCursors(grown, next), NextCursors(grown, cursors);
    forall file ensures file in twice <==> file in grown
      ensures file in once <==> file in grown
      ensures file in grown ==> twice[file] == once[file]
    {
      assert file in next <==> file in cursors || file in files;
      assert file in cursors ==> CursorOk(files, cursors, file);
      if file in grown { CursorComposes(files, cursors, grown, file); }
    }
  }

  lemma CursorComposes(files: map<string, File>, cursors: map<string, Cursor>, grown: map<string, File>, file: string)
    requires CursorsOk(files, cursors) && Grew(files, grown) && file in grown
    ensures CursorAfter(grown, NextCursors(files, cursors), file) == CursorAfter(grown, cursors, file)
  {
    if file in files {
      CursorOfOk(files, cursors, file);
      var offset := CursorOf(cursors, file).offset;
      VisitResumes((line: string) => None, file, files[file].content, grown[file].content, offset);
    } else {
      assert file in cursors ==> CursorOk(files, cursors, file);
    }
  }

  /** Re-reading after a crash: one visit from the cursors of the last snapshot, over the store as it has grown, makes
      the very observations the passes since that snapshot made, in their order, and ends with their cursors, as long
      as the passes read the log in its order. */
  lemma RereadingAgrees(wan: string, decode: MessageDecoder, stores: seq<map<string, File>>,
                        cursors: map<string, Cursor>, visits: seq<Visit>, ctxs: seq<Context>, ctx: Context,
                        again: Visit)
    requires GrowingStore(stores) && stores != [] && CursorsOk(stores[0], cursors)
    requires Chained(decode, stores, cursors, visits)
    requires Visits(decode, stores[|stores| - 1], cursors, again.paths, again.next, again.records)
    requires |ctxs| == |visits| && Steady(ctx) && forall n :: 0 <= n < |ctxs| ==> Steady(ctxs[n])
    requires Ordered(RecordBefore, Applied(wan, visits))
    ensures Batch(wan, ctx, again.records) == Batches(wan, ctxs, visits)
    ensures again.next == visits[|visits| - 1].next
  {
    var last := stores[|stores| - 1];
    ChainCursors(decode, stores, cursors, visits);
    VisitDeterminesCursors(decode, last, cursors, again.paths, again.next, again.records);
    OrderingSorts(wan, decode, last, cursors, again.paths);
    forall record ensures record in Ordering(wan, again.records) <==> record in Applied(wan, visits) {
      RereadMembers(decode, stores, cursors, visits, again, record);
      AppliedMembers(wan, visits, record);
    }
    RecordOrderIsStrict();
    SortUnique(RecordBefore, Ordering(wan, again.records), Applied(wan, visits));
    BatchesAreApplied(wan, ctxs, ctx, visits);
  }

  // ---------- the log, part by part ----------

  ghost predicate IsVisit(decode: MessageDecoder, files: map<string, File>, cursors: map<string, Cursor>, v: Visit) {
    Visits(decode, files, cursors, v.paths, v.next, v.records)
  }

  lemma TwoVisits(decode: MessageDecoder, a: map<string, File>, b: map<string, File>, cursors: map<string, Cursor>,
                  v: Visit, w: Visit)
    requires Grew(a, b) && IsVisit(decode, a, cursors, v) && IsVisit(decode, b, v.next, w)
    ensures GrowingStore([a, b]) && Chained(decode, [a, b], cursors, [v, w])
  {
    assert [a, b][1..] == [b] && [v, w][1..] == [w];
    assert [b][1..] == [] && [w][1..] == [];
    assert Chained(decode, [b], v.next, [w]);
  }

  lemma DistinctParts(a: seq<StoredRecord>, b: seq<StoredRecord>, record: StoredRecord)
    requires AllDistinct(a + b) && record in a
    ensures record !in b
  {
    var m :| 0 <= m < |a| && a[m] == record;
    forall n | 0 <= n < |b| ensures b[n] != record { assert Distinct((a + b)[m], (a + b)[|a| + n]); }
  }

  lemma DeliveredOfTwo(v: Visit, w: Visit, file: string)
    ensures Delivered([v, w], file) == Delivered([v], file) + Delivered([w], file)
    ensures Delivered([v], file) == Filter((r: StoredRecord) => OfFile(r, file), v.records)
  {
    assert [v, w][1..] == [w] && [w][1..] == [] && [v][1..] == [];
    assert Delivered([], file) == [];
  }

  /** What a first visit delivered, a second one does not deliver again. */
  lemma VisitsDisjoint(decode: MessageDecoder, a: map<string, File>, b: map<string, File>,
                       cursors: map<string, Cursor>, v: Visit, w: Visit, record: StoredRecord)
    requires CursorsOk(a, cursors) && Grew(a, b) && IsVisit(decode, a, cursors, v) && IsVisit(decode, b, v.next, w)
    requires record in v.records
    ensures record !in w.records
  {
    var file := record.file;
    GatheredFrom(decode, a, cursors, v.paths, record);
    TwoVisits(decode, a, b, cursors, v, w);
    ChainReadsExactlyOnce(decode, [a, b], cursors, [v, w], file);
    FileRecordsDistinct(decode, b, cursors, file);
    DeliveredOfTwo(v, w, file);
    DeliveredOfTwo(w, w, file);
    FilterMembers((r: StoredRecord) => OfFile(r, file), v.records, record);
    FilterMembers((r: StoredRecord) => OfFile(r, file), w.records, record);
    DistinctParts(Delivered([v], file), Delivered([w], file), record);
  }

  /** An ordered sequence has no element in both of its parts. */
  lemma OrderedParts(s: seq<StoredRecord>, k: nat, record: StoredRecord)
    requires Ordered(RecordBefore, s) && Asymmetric(RecordBefore) && k <= |s|
    ensures record in s <==> record in s[..k] || record in s[k..]
    ensures record in s[..k] ==> record !in s[k..]
  {
    assert s == s[..k] + s[k..];
    forall m, n | 0 <= m < k <= n < |s| ensures s[m] != s[n] { assert RecordBefore(s[m], s[n]); }
  }

  /** What a visit of the whole reads and a first visit did not, the second visit reads. */
  lemma SecondReadsRest(wan: string, decode: MessageDecoder, a: map<string, File>, b: map<string, File>,
                        cursors: map<string, Cursor>, v: Visit, w: Visit, all: Visit, record: StoredRecord)
    requires CursorsOk(a, cursors) && Grew(a, b) && IsVisit(decode, a, cursors, v) && IsVisit(decode, b, v.next, w)
    requires IsVisit(decode, b, cursors, all)
    ensures record in Ordering(wan, w.records) <==>
      record in Ordering(wan, all.records) && record !in Ordering(wan, v.records)
  {
    TwoVisits(decode, a, b, cursors, v, w);
    RereadMembers(decode, [a, b], cursors, [v, w], all, record);
    OrderingMembers(wan, all.records, record);
    OrderingMembers(wan, v.records, record);
    OrderingMembers(wan, w.records, record);
    assert [v, w][0].records == v.records && [v, w][1].records == w.records;
    if record in v.records { VisitsDisjoint(decode, a, b, cursors, v, w, record); }
  }

  /** Where the log grew at its end, reading on from a first visit's cursors is reading the rest of it. */
  lemma LogSplits(wan: string, decode: MessageDecoder, a: map<string, File>, b: map<string, File>,
                  cursors: map<string, Cursor>, v: Visit, w: Visit, all: Visit)
    requires CursorsOk(a, cursors) && Grew(a, b) && IsVisit(decode, a, cursors, v) && IsVisit(decode, b, v.next, w)
    requires IsVisit(decode, b, cursors, all) && Ordering(wan, v.records) <= Ordering(wan, all.records)
    ensures Ordering(wan, w.records) == Ordering(wan, all.records)[|Ordering(wan, v.records)|..]
    ensures all.next == w.next
  {
    var log, read := Ordering(wan, all.records), |Ordering(wan, v.records)|;
    OrderingSorts(wan, decode, b, cursors, all.paths);
    OrderingSorts(wan, decode, b, v.next, w.paths);
    RecordOrderIsStrict();
    forall record ensures record in log[read..] <==> record in Ordering(wan, w.records) {
      OrderedParts(log, read, record);
      SecondReadsRest(wan, decode, a, b, cursors, v, w, all, record);
    }
    OrderedTail(log, read);
    SortUnique(RecordBefore, Ordering(wan, w.records), log[read..]);
    TwoVisits(decode, a, b, cursors, v, w);
    ChainCursors(decode, [a, b], cursors, [v, w]);
    VisitDeterminesCursors(decode, b, cursors, all.paths, all.next, all.records);
  }

  lemma OrderedTail(s: seq<StoredRecord>, k: nat)
    requires Ordered(RecordBefore, s) && k <= |s|
    ensures Ordered(RecordBefore, s[k..])
  {
    forall m, n | 0 <= m < n < |s[k..]| ensures RecordBefore(s[k..][m], s[k..][n]) {
      assert s[k..][m] == s[k + m] && s[k..][n] == s[k + n];
    }
  }
}
