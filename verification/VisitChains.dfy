/** Visits chained by their cursors over a store that only grows: no partition is ever reported as changed,
    and the records of each partition are read exactly once. */
module VisitChains {
  import opened Wrappers
  import opened Sorting
  import opened MessageStore
  import opened Messages
  import opened AppendReader

  /** Partitions only appear and grow. */
  ghost predicate Grew(a: map<string, File>, b: map<string, File>) {
    forall file :: file in a ==> file in b && a[file].content <= b[file].content
  }

  ghost predicate GrowingStore(stores: seq<map<string, File>>) {
    forall n :: 0 < n < |stores| ==> Grew(stores[n - 1], stores[n])
  }

  /** The cursor is where a visit of a store no larger than this one left it. */
  predicate CursorOk(files: map<string, File>, cursors: map<string, Cursor>, file: string)
    requires file in cursors
  {
    file in files && !Changed(files[file].content, cursors[file]) && Boundary(files[file].content, cursors[file].offset)
  }

  ghost predicate CursorsOk(files: map<string, File>, cursors: map<string, Cursor>) {
    forall file :: file in cursors ==> CursorOk(files, cursors, file)
  }

  /** The cursors a successful visit leaves behind. */
  function NextCursors(files: map<string, File>, cursors: map<string, Cursor>): map<string, Cursor> {
    map file | file in cursors.Keys + files.Keys ::
      if file in files then CursorAfter(files, cursors, file) else cursors[file]
  }

  /** What one successful visit produced. */
  datatype Visit = Visit(paths: seq<string>, next: map<string, Cursor>, records: seq<StoredRecord>)

  /** One visit per state of the store, each from the cursors the one before left behind. */
  ghost predicate Chained(decode: MessageDecoder, stores: seq<map<string, File>>, cursors: map<string, Cursor>,
                          visits: seq<Visit>)
    decreases |stores|
  {
    && |visits| == |stores|
    && (stores != [] ==>
          && Visits(decode, stores[0], cursors, visits[0].paths, visits[0].next, visits[0].records)
          && Chained(decode, stores[1..], visits[0].next, visits[1..]))
  }

  /** The records the visits delivered of one partition. */
  function Delivered(visits: seq<Visit>, file: string): seq<StoredRecord> {
    if visits == [] then []
    else Filter((record: StoredRecord) => OfFile(record, file), visits[0].records) + Delivered(visits[1..], file)
  }

  // ---------- one visit ----------

  lemma VisitDeterminesCursors(decode: MessageDecoder, files: map<string, File>, cursors: map<string, Cursor>,
                               paths: seq<string>, next: map<string, Cursor>, records: seq<StoredRecord>)
    requires Visits(decode, files, cursors, paths, next, records)
    ensures next == NextCursors(files, cursors)
  {
    forall file ensures file in next <==> file in cursors || file in files {
      assert Moved(files, cursors, paths, next, file);
    }
    forall file | file in next ensures next[file] == NextCursors(files, cursors)[file] {
      assert Moved(files, cursors, paths, next, file);
    }
  }

  lemma FreshCursorOk(content: string)
    ensures !Changed(content, NO_CURSOR) && Boundary(content, NO_CURSOR.offset)
  {
    assert content[..0] == [];
  }

  lemma CursorOfOk(files: map<string, File>, cursors: map<string, Cursor>, file: string)
    requires CursorsOk(files, cursors) && file in files
    ensures !Changed(files[file].content, CursorOf(cursors, file))
    ensures Boundary(files[file].content, CursorOf(cursors, file).offset)
    ensures OffsetFits(files, cursors, file)
  {
    if file in cursors { assert CursorOk(files, cursors, file); } else { FreshCursorOk(files[file].content); }
  }

  /** Growth after a visit leaves its cursors good: on line boundaries, with nothing changed. */
  lemma NextCursorsOk(files: map<string, File>, cursors: map<string, Cursor>, grown: map<string, File>)
    requires CursorsOk(files, cursors) && Grew(files, grown)
    ensures CursorsOk(grown, NextCursors(files, cursors))
  {
    var next := NextCursors(files, cursors);
    forall file | file in next ensures CursorOk(grown, next, file) {
      if file in cursors { assert CursorOk(files, cursors, file); }
      CursorOfOk(files, cursors, file);
      GrowthIsNotChange(files[file].content, grown[file].content, CursorOf(cursors, file));
    }
  }

  /** The records of a partition from a cursor on; none if it does not exist yet. */
  function RecordsIn(decode: MessageDecoder, files: map<string, File>, cursors: map<string, Cursor>,
                     file: string): Option<seq<StoredRecord>>
  {
    if file in files then FileRecords(decode, files, cursors, file) else Some([])
  }

  /** Reading a partition now, and what it grew by later, is reading it once later. */
  lemma ReadingSplits(decode: MessageDecoder, files: map<string, File>, cursors: map<string, Cursor>,
                      grown: map<string, File>, file: string)
    requires CursorsOk(files, cursors) && Grew(files, grown) && file in grown
    ensures FileRecords(decode, grown, cursors, file) ==
      Joined(RecordsIn(decode, files, cursors, file), FileRecords(decode, grown, NextCursors(files, cursors), file))
  {
    var next := NextCursors(files, cursors);
    if file in files {
      CursorOfOk(files, cursors, file);
      VisitResumes(decode, file, files[file].content, grown[file].content, CursorOf(cursors, file).offset);
      assert CursorOf(next, file) == NextCursor(files[file].content, CursorOf(cursors, file));
    } else {
      assert file in cursors ==> CursorOk(files, cursors, file);
      assert CursorOf(next, file) == CursorOf(cursors, file);
      JoinedNothing(FileRecords(decode, grown, cursors, file));
    }
  }

  lemma VisitDelivers(decode: MessageDecoder, files: map<string, File>, cursors: map<string, Cursor>, visit: Visit,
                      file: string)
    requires Visits(decode, files, cursors, visit.paths, visit.next, visit.records)
    ensures RecordsIn(decode, files, cursors, file) ==
      Some(Filter((record: StoredRecord) => OfFile(record, file), visit.records))
  {
    forall path | path in visit.paths ensures FileRecords(decode, files, cursors, path).Some? {
      assert PartitionOk(decode, files, cursors, path);
    }
    GatherPerFile(decode, files, cursors, visit.paths, file);
    if file in files { assert PartitionOk(decode, files, cursors, file); }
  }

  // ---------- chains ----------

  lemma {:induction false} GrewToLast(stores: seq<map<string, File>>)
    requires GrowingStore(stores) && stores != []
    ensures Grew(stores[0], stores[|stores| - 1])
    decreases |stores|
  {
    if |stores| > 1 {
      forall n | 0 < n < |stores[1..]| ensures Grew(stores[1..][n - 1], stores[1..][n]) {
        assert Grew(stores[n], stores[n + 1]);
      }
      GrewToLast(stores[1..]);
      GrewTransitive(stores[0], stores[1], stores[|stores| - 1]);
    }
  }

  lemma GrewTransitive(a: map<string, File>, b: map<string, File>, c: map<string, File>)
    requires Grew(a, b) && Grew(b, c)
    ensures Grew(a, c)
  {
  }

  lemma GrowingTail(stores: seq<map<string, File>>)
    requires GrowingStore(stores) && |stores| > 1
    ensures GrowingStore(stores[1..]) && Grew(stores[0], stores[1]) && stores[1..][|stores| - 2] == stores[|stores| - 1]
  {
    forall n | 0 < n < |stores[1..]| ensures Grew(stores[1..][n - 1], stores[1..][n]) {
      assert Grew(stores[n], stores[n + 1]);
    }
  }

  /** Exactly-once reading of the store: whatever partitions appear and grow between visits chained by their cursors,
      the records they deliver of each partition are those of one visit of its final content from the first cursors. */
  lemma {:induction false} ChainReadsExactlyOnce(decode: MessageDecoder, stores: seq<map<string, File>>,
                                                 cursors: map<string, Cursor>, visits: seq<Visit>, file: string)
    requires GrowingStore(stores) && stores != [] && CursorsOk(stores[0], cursors)
    requires Chained(decode, stores, cursors, visits)
    requires file in stores[|stores| - 1]
    ensures FileRecords(decode, stores[|stores| - 1], cursors, file) == Some(Delivered(visits, file))
    decreases |stores|
  {
    var first, last := visits[0], stores[|stores| - 1];
    VisitDelivers(decode, stores[0], cursors, first, file);
    VisitDeterminesCursors(decode, stores[0], cursors, first.paths, first.next, first.records);
    if |stores| == 1 {
      assert Delivered(visits, file) == Delivered([first], file);
      JoinedNothing(FileRecords(decode, last, cursors, file));
    } else {
      GrowingTail(stores);
      GrewToLast(stores);
      NextCursorsOk(stores[0], cursors, stores[1]);
      ReadingSplits(decode, stores[0], cursors, last, file);
      ChainReadsExactlyOnce(decode, stores[1..], first.next, visits[1..], file);
    }
  }

  /** Every visit of the chain succeeds, and leaves good cursors. */
  ghost predicate NeverFails(decode: MessageDecoder, stores: seq<map<string, File>>, cursors: map<string, Cursor>)
    decreases |stores|
  {
    stores == [] || (
      && Readable(decode, stores[0], cursors)
      && CursorsOk(stores[0], NextCursors(stores[0], cursors))
      && NeverFails(decode, stores[1..], NextCursors(stores[0], cursors)))
  }

  /** Every complete line beyond the cursors decodes. */
  ghost predicate Decodes(decode: MessageDecoder, files: map<string, File>, cursors: map<string, Cursor>) {
    forall file :: file in files ==> FileRecords(decode, files, cursors, file).Some?
  }

  lemma ReadableWhenDecodes(decode: MessageDecoder, files: map<string, File>, cursors: map<string, Cursor>)
    requires CursorsOk(files, cursors)
    ensures Readable(decode, files, cursors) <==> Decodes(decode, files, cursors)
  {
    forall file | file in files
      ensures PartitionOk(decode, files, cursors, file) <==> FileRecords(decode, files, cursors, file).Some?
    {
      CursorOfOk(files, cursors, file);
    }
    forall file | file in cursors ensures file in files { assert CursorOk(files, cursors, file); }
  }

  lemma DecodesSplits(decode: MessageDecoder, files: map<string, File>, cursors: map<string, Cursor>,
                      grown: map<string, File>)
    requires CursorsOk(files, cursors) && Grew(files, grown)
    ensures Decodes(decode, grown, cursors) <==>
      Decodes(decode, files, cursors) && Decodes(decode, grown, NextCursors(files, cursors))
  {
    forall file | file in grown
      ensures FileRecords(decode, grown, cursors, file).Some? <==>
        && RecordsIn(decode, files, cursors, file).Some?
        && FileRecords(decode, grown, NextCursors(files, cursors), file).Some?
    {
      ReadingSplits(decode, files, cursors, grown, file);
    }
  }

  /** Append-only growth is never an error: every visit of a growing store succeeds, leaving its cursors on line
      boundaries, exactly if what is there in the end decodes. */
  lemma {:induction false} GrowthNeverFails(decode: MessageDecoder, stores: seq<map<string, File>>,
                                            cursors: map<string, Cursor>)
    requires GrowingStore(stores) && stores != [] && CursorsOk(stores[0], cursors)
    ensures NeverFails(decode, stores, cursors) <==> Decodes(decode, stores[|stores| - 1], cursors)
    decreases |stores|
  {
    ReadableWhenDecodes(decode, stores[0], cursors);
    NextCursorsOk(stores[0], cursors, stores[0]);
    if |stores| > 1 {
      GrowingTail(stores);
      GrewToLast(stores);
      NextCursorsOk(stores[0], cursors, stores[1]);
      DecodesSplits(decode, stores[0], cursors, stores[|stores| - 1]);
      GrowthNeverFails(decode, stores[1..], NextCursors(stores[0], cursors));
    }
  }
}
