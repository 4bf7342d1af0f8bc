/** Reading the store forward: resumable cursors, fingerprints of what was read, and exactly-once records. */
module AppendReader {
  import opened Wrappers
  import opened Lines
  import opened Sorting
  import opened MessageStore
  import opened Messages

  const WINDOW: nat := 2048

  /** The hashed bytes of a prefix: its first window, and its last one when it is longer. The hash is taken to be
      injective. */
  function Fingerprint(content: string, size: nat): string
    requires size <= |content|
  {
    if size <= WINDOW then content[..size] else content[..WINDOW] + content[size - WINDOW..size]
  }

  /** Source progress in one partition; a missing cursor has no fingerprint. */
  datatype Cursor = Cursor(offset: int, fingerprint: Option<string>)

  const NO_CURSOR := Cursor(0, None)

  datatype StoredRecord = StoredRecord(message: Message, file: string, offset: nat)

  datatype VisitError = PartitionChanged(file: string) | Undecodable(file: string)

  /** Any change in the first or last window of the prefix shows. */
  lemma FingerprintDetects(a: string, b: string, size: nat)
    requires size <= |a| && size <= |b|
    ensures Fingerprint(a, size) == Fingerprint(b, size) <==>
      forall n :: 0 <= n < size && (n < 2048 || size - 2048 <= n) ==> a[n] == b[n]
  {
    var f, g := Fingerprint(a, size), Fingerprint(b, size);
    if size > WINDOW {
      assert forall n :: 0 <= n < WINDOW ==> f[n] == a[n] && g[n] == b[n];
      assert forall n :: size - WINDOW <= n < size ==>
        f[n - (size - WINDOW) + WINDOW] == a[n] && g[n - (size - WINDOW) + WINDOW] == b[n];
      if forall n :: 0 <= n < size && (n < WINDOW || size - WINDOW <= n) ==> a[n] == b[n] {
        assert a[..WINDOW] == b[..WINDOW] && a[size - WINDOW..size] == b[size - WINDOW..size];
      }
    } else {
      assert forall n :: 0 <= n < size ==> f[n] == a[n] && g[n] == b[n];
    }
  }

  /** For short prefixes the fingerprint is as good as the prefix. */
  lemma ShortFingerprintExact(a: string, b: string, size: nat)
    requires size <= |a| && size <= |b| && size <= 4096
    ensures Fingerprint(a, size) == Fingerprint(b, size) <==> a[..size] == b[..size]
  {
    FingerprintDetects(a, b, size);
    if a[..size] == b[..size] {
      forall n | 0 <= n < size ensures a[n] == b[n] { assert a[..size][n] == b[..size][n]; }
    }
  }

  /** Beyond 4096 bytes a change strictly between the two windows goes unnoticed. */
  lemma LongFingerprintMisses(a: string, b: string, size: nat, n: nat)
    requires size <= |a| && |b| == |a| && 2048 <= n < size - 2048 && a[n] != b[n]
    requires forall m :: 0 <= m < |a| && m != n ==> a[m] == b[m]
    ensures Fingerprint(a, size) == Fingerprint(b, size) && a[..size] != b[..size]
  {
    FingerprintDetects(a, b, size);
    assert a[..size][n] != b[..size][n];
  }

  // ---------- records ----------

  function Joined(a: Option<seq<StoredRecord>>, b: Option<seq<StoredRecord>>): Option<seq<StoredRecord>> {
    if a.Some? && b.Some? then Some(a.value + b.value) else None
  }

  /** The record of a line, if it decodes; end is the offset just after the line. */
  function LineRecord(decode: MessageDecoder, file: string, line: string, end: nat): Option<seq<StoredRecord>> {
    match decode(line)
    case Some(message) => Some([StoredRecord(message, file, end)])
    case None => None
  }

  /** The records of consecutive complete lines, each with the offset just after it. */
  function RecordsOf(decode: MessageDecoder, file: string, lines: seq<string>, offset: nat): Option<seq<StoredRecord>> {
    if lines == [] then Some([])
    else
      var end := offset + |lines[0]|;
      Joined(LineRecord(decode, file, lines[0], end), RecordsOf(decode, file, lines[1..], end))
  }

  /** Where reading from an offset ends: after the last complete line. */
  function End(content: string, offset: nat): nat
    requires offset <= |content|
  {
    offset + WholePart(content[offset..])
  }

  /** The records of the complete lines of what is left to read. */
  function RestRecords(decode: MessageDecoder, file: string, rest: string, offset: nat): Option<seq<StoredRecord>> {
    RecordsOf(decode, file, SplitLines(rest[..WholePart(rest)]), offset)
  }

  /** The records of the complete lines from an offset on. */
  function Visited(decode: MessageDecoder, file: string, content: string, offset: nat): Option<seq<StoredRecord>>
    requires offset <= |content|
  {
    RestRecords(decode, file, content[offset..], offset)
  }

  /** An offset at which a line starts. */
  predicate Boundary(content: string, offset: int) {
    0 <= offset <= |content| && Whole(content[..offset])
  }

  lemma JoinedAssociates(a: Option<seq<StoredRecord>>, b: Option<seq<StoredRecord>>, c: Option<seq<StoredRecord>>)
    ensures Joined(Joined(a, b), c) == Joined(a, Joined(b, c))
  {
    if a.Some? && b.Some? && c.Some? { assert (a.value + b.value) + c.value == a.value + (b.value + c.value); }
  }

  lemma JoinedNothing(a: Option<seq<StoredRecord>>)
    ensures Joined(Some([]), a) == a && Joined(a, Some([])) == a
  {
    if a.Some? { assert [] + a.value == a.value && a.value + [] == a.value; }
  }

  lemma {:induction false} RecordsConcat(decode: MessageDecoder, file: string, lines: seq<string>, a: seq<string>,
                                         b: seq<string>, offset: nat, middle: nat)
    requires lines == a + b && middle == offset + |Join(a)|
    ensures RecordsOf(decode, file, lines, offset)
      == Joined(RecordsOf(decode, file, a, offset), RecordsOf(decode, file, b, middle))
    decreases |a|
  {
    if a == [] {
      assert lines == b;
      JoinedNothing(RecordsOf(decode, file, b, offset));
    } else {
      var end := offset + |a[0]|;
      assert lines[0] == a[0] && lines[1..] == a[1..] + b;
      assert middle == end + |Join(a[1..])|;
      RecordsConcat(decode, file, lines[1..], a[1..], b, end, middle);
      JoinedAssociates(LineRecord(decode, file, a[0], end), RecordsOf(decode, file, a[1..], end),
                       RecordsOf(decode, file, b, middle));
    }
  }

  /** Reading in two steps gives the records of reading once. */
  lemma ReadingResumes(decode: MessageDecoder, file: string, a: string, b: string, offset: nat)
    requires Whole(a)
    ensures RecordsOf(decode, file, SplitLines(a + b), offset) ==
      Joined(RecordsOf(decode, file, SplitLines(a), offset), RecordsOf(decode, file, SplitLines(b), offset + |a|))
  {
    SplitConcat(a, b);
    SplitJoins(a);
    RecordsConcat(decode, file, SplitLines(a + b), SplitLines(a), SplitLines(b), offset, offset + |a|);
  }

  lemma {:induction false} WholePartConcat(a: string, b: string)
    requires Whole(a)
    ensures WholePart(a + b) == |a| + WholePart(b)
    decreases |b|
  {
    if b == [] {
      assert a + b == a;
    } else {
      assert (a + b)[..|a + b| - 1] == a + b[..|b| - 1];
      if b[|b| - 1] != '\n' { WholePartConcat(a, b[..|b| - 1]); }
    }
  }

  lemma RestResumes(decode: MessageDecoder, file: string, a: string, b: string, offset: nat)
    requires Whole(a)
    ensures WholePart(a + b) == |a| + WholePart(b)
    ensures RestRecords(decode, file, a + b, offset) ==
      Joined(RecordsOf(decode, file, SplitLines(a), offset), RestRecords(decode, file, b, offset + |a|))
  {
    WholePartConcat(a, b);
    var whole := b[..WholePart(b)];
    assert (a + b)[..|a| + WholePart(b)] == a + whole;
    assert RestRecords(decode, file, a + b, offset) == RecordsOf(decode, file, SplitLines(a + whole), offset);
    ReadingResumes(decode, file, a, whole, offset);
  }

  /** Visiting, then visiting the grown file from where the first visit ended, is one visit of the grown file. */
  lemma VisitResumes(decode: MessageDecoder, file: string, content: string, grown: string, offset: nat)
    requires offset <= |content| && content <= grown
    ensures End(content, offset) <= |grown|
    ensures End(grown, End(content, offset)) == End(grown, offset)
    ensures Visited(decode, file, grown, offset) ==
      Joined(Visited(decode, file, content, offset), Visited(decode, file, grown, End(content, offset)))
  {
    var rest := content[offset..];
    var a, b := rest[..WholePart(rest)], grown[End(content, offset)..];
    assert grown[offset..] == a + b by {
      assert grown == content + grown[|content|..];
    }
    RestResumes(decode, file, a, b, offset);
  }

  // ---------- exactly once ----------

  /** The file only grew from one version to the next. */
  predicate Growing(versions: seq<string>) {
    forall n :: 0 < n < |versions| ==> versions[n - 1] <= versions[n]
  }

  /** One visit per version, each from the cursor the one before left behind. */
  function ReadChain(decode: MessageDecoder, file: string, versions: seq<string>,
                     offset: nat): Option<seq<StoredRecord>>
    requires Growing(versions) && (versions != [] ==> offset <= |versions[0]|)
    decreases |versions|
  {
    if versions == [] then Some([])
    else
      Joined(Visited(decode, file, versions[0], offset),
             if |versions| == 1 then Some([])
             else assert versions[0] <= versions[1]; ReadChain(decode, file, versions[1..], End(versions[0], offset)))
  }

  /** Exactly-once reading: however a partition grows, chained visits together read what one visit of the final
      content from the first offset reads. */
  lemma {:induction false} ReadsExactlyOnce(decode: MessageDecoder, file: string, versions: seq<string>, offset: nat)
    requires Growing(versions) && versions != [] && offset <= |versions[0]|
    ensures offset <= |versions[|versions| - 1]|
    ensures ReadChain(decode, file, versions, offset) == Visited(decode, file, versions[|versions| - 1], offset)
    decreases |versions|
  {
    var first := Visited(decode, file, versions[0], offset);
    if |versions| == 1 {
      JoinedNothing(first);
    } else {
      var rest, last := versions[1..], versions[|versions| - 1];
      assert versions[0] <= versions[1];
      ReadsExactlyOnce(decode, file, rest, End(versions[0], offset));
      assert rest[|rest| - 1] == last;
      GrowsToLast(versions);
      VisitResumes(decode, file, versions[0], last, offset);
    }
  }

  lemma {:induction false} GrowsToLast(versions: seq<string>)
    requires Growing(versions) && versions != []
    ensures versions[0] <= versions[|versions| - 1]
    decreases |versions|
  {
    if |versions| > 1 {
      GrowsToLast(versions[1..]);
      assert versions[0] <= versions[1];
    }
  }

  /** The partition no longer starts with what was read. */
  predicate Changed(content: string, cursor: Cursor) {
    || cursor.offset < 0 || cursor.offset > |content|
    || (cursor.fingerprint.Some? && cursor.fingerprint.value != Fingerprint(content, cursor.offset))
  }

  /** The cursor a visit leaves behind. */
  function NextCursor(content: string, cursor: Cursor): Cursor
    requires 0 <= cursor.offset <= |content|
  {
    Cursor(End(content, cursor.offset), Some(Fingerprint(content, End(content, cursor.offset))))
  }

  /** Growth is never reported as a change, and cursors stay on line boundaries. */
  lemma GrowthIsNotChange(content: string, grown: string, cursor: Cursor)
    requires !Changed(content, cursor) && Boundary(content, cursor.offset) && content <= grown
    ensures !Changed(grown, NextCursor(content, cursor)) && Boundary(grown, NextCursor(content, cursor).offset)
  {
    var end := End(content, cursor.offset);
    assert grown[..end] == content[..end];
    FingerprintDetects(content, grown, end);
    var read := content[cursor.offset..][..WholePart(content[cursor.offset..])];
    assert content[..end] == content[..cursor.offset] + read;
  }

  // ---------- the visit ----------

  function CursorOf(cursors: map<string, Cursor>, file: string): Cursor {
    if file in cursors then cursors[file] else NO_CURSOR
  }

  /** Reads line by line until no complete line is left. */
  method ReadLines(decode: MessageDecoder, file: string, content: string, offset: nat)
    returns (records: Option<seq<StoredRecord>>, current: nat)
    requires offset <= |content|
    ensures records == Visited(decode, file, content, offset)
    ensures records.Some? ==> current == End(content, offset)
  {
    var rest, read: seq<StoredRecord> := content[offset..], [];
    ghost var all := Visited(decode, file, content, offset);
    current := offset;
    JoinedNothing(all);
    while true
      invariant current + WholePart(rest) == End(content, offset)
      invariant Joined(Some(read), RestRecords(decode, file, rest, current)) == all
      decreases |rest|
    {
      var line := NextLine(rest);
      if line == [] || line[|line| - 1] != '\n' {
        NoLineLeft(decode, file, rest, current);
        JoinedNothing(Some(read));
        return Some(read), current;
      }
      ClosedFirstLine(rest);
      assert line + rest[|line|..] == rest;
      OneMoreLine(decode, file, line, rest[|line|..], current, read);
      var message := decode(line);
      if message.None? {
        return None, current;
      }
      current := current + |line|;
      read := read + [StoredRecord(message.value, file, current)];
      rest := rest[|line|..];
    }
  }

  /** Reads one partition from its cursor. */
  method VisitPartition(decode: MessageDecoder, file: string, content: string, cursor: Cursor)
    returns (r: Result<seq<StoredRecord>, VisitError>, next: Cursor)
    ensures r == Failure(PartitionChanged(file)) <==> Changed(content, cursor)
    ensures r.Success? ==> next == NextCursor(content, cursor)
    ensures !Changed(content, cursor) ==>
      r == match Visited(decode, file, content, cursor.offset)
           case Some(records) => Success(records)
           case None => Failure(Undecodable(file))
  {
    next := NO_CURSOR;
    if cursor.offset < 0 || cursor.offset > |content| {
      return Failure(PartitionChanged(file)), next;
    }
    if cursor.fingerprint.Some? {
      if cursor.fingerprint.value != Fingerprint(content, cursor.offset) {
        return Failure(PartitionChanged(file)), next;
      }
    }
    var records, current := ReadLines(decode, file, content, cursor.offset);
    if records.None? {
      return Failure(Undecodable(file)), next;
    }
    return Success(records.value), Cursor(current, Some(Fingerprint(content, current)));
  }

  lemma {:induction false} NothingWhole(s: string)
    requires forall n :: 0 <= n < |s| ==> s[n] != '\n'
    ensures WholePart(s) == 0
    decreases |s|
  {
    if s != [] { NothingWhole(s[..|s| - 1]); }
  }

  lemma NoLineLeft(decode: MessageDecoder, file: string, rest: string, offset: nat)
    requires rest == [] || rest[Cut(rest) - 1] != '\n'
    ensures WholePart(rest) == 0 && RestRecords(decode, file, rest, offset) == Some([])
  {
    assert rest != [] ==> Cut(rest) == |rest|;
    NothingWhole(rest);
  }

  lemma OneLineRecords(decode: MessageDecoder, file: string, line: string, offset: nat)
    requires IsLine(line)
    ensures RecordsOf(decode, file, SplitLines(line), offset) == LineRecord(decode, file, line, offset + |line|)
  {
    OneLine(line);
    var lines: seq<string> := [line];
    assert lines[1..] == [] && lines[0] == line;
    JoinedNothing(LineRecord(decode, file, line, offset + |line|));
  }

  /** Reading a line moves its record from what is left to what was read. */
  lemma OneMoreLine(decode: MessageDecoder, file: string, line: string, left: string, offset: nat,
                    records: seq<StoredRecord>)
    requires IsLine(line)
    ensures WholePart(line + left) == |line| + WholePart(left)
    ensures decode(line).None? ==> RestRecords(decode, file, line + left, offset).None?
    ensures decode(line).Some? ==>
      Joined(Some(records + [StoredRecord(decode(line).value, file, offset + |line|)]),
             RestRecords(decode, file, left, offset + |line|))
      == Joined(Some(records), RestRecords(decode, file, line + left, offset))
  {
    RestResumes(decode, file, line, left, offset);
    OneLineRecords(decode, file, line, offset);
    JoinedAssociates(Some(records), LineRecord(decode, file, line, offset + |line|),
                     RestRecords(decode, file, left, offset + |line|));
  }

  lemma ClosedFirstLine(rest: string)
    requires rest != [] && rest[Cut(rest) - 1] == '\n'
    ensures IsLine(rest[..Cut(rest)])
  {
    if Cut(rest) == |rest| { assert Whole(rest); }
    FirstIsLine(rest);
  }

  lemma OneLine(line: string)
    requires IsLine(line)
    ensures SplitLines(line) == [line]
  {
    assert Cut(line) == |line|;
    assert line[..Cut(line)] == line && line[Cut(line)..] == [];
  }

  // ---------- exactly which records ----------

  /** A complete line of the content that starts at or after the start. */
  predicate CompleteLine(content: string, start: nat, from: nat, to: nat) {
    && start <= from < to <= |content|
    && (from == start || content[from - 1] == '\n')
    && content[to - 1] == '\n' && forall m :: from <= m < to - 1 ==> content[m] != '\n'
  }

  /** The record is what that line says, and its offset is where the line ends. */
  predicate RecordOfLine(decode: MessageDecoder, file: string, content: string, start: nat, from: nat,
                         record: StoredRecord)
  {
    && record.file == file && CompleteLine(content, start, from, record.offset)
    && decode(content[from..record.offset]) == Some(record.message)
  }

  ghost predicate OfSomeLine(decode: MessageDecoder, file: string, content: string, start: nat, record: StoredRecord) {
    exists from: nat :: RecordOfLine(decode, file, content, start, from, record)
  }

  /** The first complete line from the offset on ends at next. */
  ghost predicate FirstLine(content: string, offset: nat, next: nat) {
    offset < next <= |content| && IsLine(content[offset..next])
  }

  lemma NextLines(content: string, offset: nat, next: nat, from: nat, to: nat)
    requires FirstLine(content, offset, next)
    ensures CompleteLine(content, offset, from, to) <==>
      (from == offset && to == next) || CompleteLine(content, next, from, to)
  {
    var line := content[offset..next];
    assert content[next - 1] == line[|line| - 1];
    forall m | offset <= m < next - 1 ensures content[m] != '\n' { assert content[m] == line[m - offset]; }
  }

  lemma VisitedNext(decode: MessageDecoder, file: string, content: string, offset: nat, next: nat)
    requires FirstLine(content, offset, next)
    ensures Visited(decode, file, content, offset) ==
      Joined(LineRecord(decode, file, content[offset..next], next), Visited(decode, file, content, next))
  {
    var line, left := content[offset..next], content[next..];
    assert content[offset..] == line + left;
    RestResumes(decode, file, line, left, offset);
    OneLineRecords(decode, file, line, offset);
  }

  lemma LastLines(decode: MessageDecoder, file: string, content: string, offset: nat)
    requires offset <= |content|
    ensures
      || (Visited(decode, file, content, offset) == Some([])
          && forall from: nat, to: nat :: !CompleteLine(content, offset, from, to))
      || exists next: nat :: FirstLine(content, offset, next)
  {
    var rest := content[offset..];
    if rest == [] || rest[Cut(rest) - 1] != '\n' {
      NoLineLeft(decode, file, rest, offset);
      forall m | offset <= m < |content| ensures content[m] != '\n' { assert content[m] == rest[m - offset]; }
    } else {
      ClosedFirstLine(rest);
      assert content[offset..offset + Cut(rest)] == rest[..Cut(rest)];
      assert FirstLine(content, offset, offset + Cut(rest));
    }
  }

  lemma FirstRecord(decode: MessageDecoder, file: string, content: string, offset: nat, next: nat,
                    record: StoredRecord)
    requires FirstLine(content, offset, next)
    ensures OfSomeLine(decode, file, content, offset, record) <==>
      || (decode(content[offset..next]).Some?
          && record == StoredRecord(decode(content[offset..next]).value, file, next))
      || OfSomeLine(decode, file, content, next, record)
  {
    forall from: nat
      ensures RecordOfLine(decode, file, content, offset, from, record) <==>
        || (from == offset && record.offset == next && record.file == file
            && decode(content[offset..next]) == Some(record.message))
        || RecordOfLine(decode, file, content, next, from, record)
    {
      NextLines(content, offset, next, from, record.offset);
    }
    assert RecordOfLine(decode, file, content, offset, offset, record) <==>
      || (record.offset == next && record.file == file && decode(content[offset..next]) == Some(record.message))
      || RecordOfLine(decode, file, content, next, offset, record);
  }

  /** Exactly the complete lines are read, from the offset on, each as one record that ends where the line ends. */
  lemma {:induction false} VisitedExact(decode: MessageDecoder, file: string, content: string, offset: nat,
                                        record: StoredRecord)
    requires offset <= |content| && Visited(decode, file, content, offset).Some?
    ensures record in Visited(decode, file, content, offset).value <==>
      OfSomeLine(decode, file, content, offset, record)
    decreases |content| - offset
  {
    LastLines(decode, file, content, offset);
    if next: nat :| FirstLine(content, offset, next) {
      VisitedNext(decode, file, content, offset, next);
      VisitedExact(decode, file, content, next, record);
      FirstRecord(decode, file, content, offset, next, record);
    }
  }

  predicate UndecodableLine(decode: MessageDecoder, content: string, start: nat, from: nat, to: nat) {
    CompleteLine(content, start, from, to) && decode(content[from..to]).None?
  }

  /** Reading fails exactly when some complete line does not decode. */
  lemma {:induction false} UndecodableExact(decode: MessageDecoder, file: string, content: string, offset: nat)
    requires offset <= |content|
    ensures Visited(decode, file, content, offset).None? <==>
      exists from: nat, to: nat :: UndecodableLine(decode, content, offset, from, to)
    decreases |content| - offset
  {
    LastLines(decode, file, content, offset);
    if next: nat :| FirstLine(content, offset, next) {
      VisitedNext(decode, file, content, offset, next);
      UndecodableExact(decode, file, content, next);
      forall from: nat, to: nat
        ensures UndecodableLine(decode, content, offset, from, to) <==>
          || (from == offset && to == next && decode(content[offset..next]).None?)
          || UndecodableLine(decode, content, next, from, to)
      {
        NextLines(content, offset, next, from, to);
      }
      assert UndecodableLine(decode, content, offset, offset, next) <==> decode(content[offset..next]).None?;
    }
  }

  /** What a visit takes for a change since the visit that left the cursor: the partition is shorter than what was read,
      or one of the first or last 2048 characters read is another one; nothing else. */
  lemma ChangeExact(read: string, content: string, cursor: Cursor)
    requires 0 <= cursor.offset <= |read|
    ensures Changed(content, NextCursor(read, cursor)) <==>
      var end := NextCursor(read, cursor).offset;
      || |content| < end
      || exists n :: 0 <= n < end && (n < 2048 || end - 2048 <= n) && content[n] != read[n]
  {
    var end := NextCursor(read, cursor).offset;
    if end <= |content| { FingerprintDetects(content, read, end); }
  }

  // ---------- all partitions ----------

  predicate OffsetFits(files: map<string, File>, cursors: map<string, Cursor>, file: string) {
    file in files && 0 <= CursorOf(cursors, file).offset <= |files[file].content|
  }

  /** The records a visit finds in one partition. */
  function FileRecords(decode: MessageDecoder, files: map<string, File>, cursors: map<string, Cursor>,
                       file: string): Option<seq<StoredRecord>>
  {
    if OffsetFits(files, cursors, file) then
      Visited(decode, file, files[file].content, CursorOf(cursors, file).offset)
    else
      None
  }

  /** The records of the partitions, one partition after the other. */
  function Gather(decode: MessageDecoder, files: map<string, File>, cursors: map<string, Cursor>,
                  paths: seq<string>): seq<StoredRecord>
  {
    if paths == [] then []
    else
      var last := |paths| - 1;
      Gather(decode, files, cursors, paths[..last]) + FileRecords(decode, files, cursors, paths[last]).GetOr([])
  }

  predicate PartitionOk(decode: MessageDecoder, files: map<string, File>, cursors: map<string, Cursor>, file: string) {
    && file in files && !Changed(files[file].content, CursorOf(cursors, file))
    && FileRecords(decode, files, cursors, file).Some?
  }

  /** No partition was truncated, replaced, deleted or made unreadable. */
  ghost predicate Readable(decode: MessageDecoder, files: map<string, File>, cursors: map<string, Cursor>) {
    && (forall file :: file in files ==> PartitionOk(decode, files, cursors, file))
    && (forall file :: file in cursors && cursors[file].offset > 0 ==> file in files)
  }

  /** Why a visit fails. */
  ghost predicate Blames(decode: MessageDecoder, files: map<string, File>, cursors: map<string, Cursor>,
                         error: VisitError)
  {
    match error
    case PartitionChanged(file) =>
      if file in files then
        Changed(files[file].content, CursorOf(cursors, file))
      else
        file in cursors && cursors[file].offset > 0
    case Undecodable(file) =>
      && file in files && !Changed(files[file].content, CursorOf(cursors, file))
      && FileRecords(decode, files, cursors, file).None?
  }

  function CursorAfter(files: map<string, File>, cursors: map<string, Cursor>, file: string): Cursor {
    if OffsetFits(files, cursors, file) then
      NextCursor(files[file].content, CursorOf(cursors, file))
    else
      CursorOf(cursors, file)
  }

  /** The cursor of one partition, after the partitions in done have been read. */
  predicate Moved(files: map<string, File>, cursors: map<string, Cursor>, done: seq<string>, next: map<string, Cursor>,
                  file: string)
  {
    && (file in next <==> file in cursors || file in done)
    && (file in next ==> next[file] == if file in done then CursorAfter(files, cursors, file) else cursors[file])
  }

  /** The visit so far: the partitions in done have been read. */
  ghost predicate VisitedSoFar(decode: MessageDecoder, files: map<string, File>, cursors: map<string, Cursor>,
                               done: seq<string>, next: map<string, Cursor>, records: seq<StoredRecord>)
  {
    && (forall file :: file in done ==> PartitionOk(decode, files, cursors, file))
    && (forall file :: Moved(files, cursors, done, next, file))
    && records == Gather(decode, files, cursors, done)
  }

  lemma VisitedOneMore(decode: MessageDecoder, files: map<string, File>, cursors: map<string, Cursor>,
                       done: seq<string>, next: map<string, Cursor>, records: seq<StoredRecord>, file: string,
                       next': map<string, Cursor>, found: seq<StoredRecord>)
    requires VisitedSoFar(decode, files, cursors, done, next, records) && file !in done
    requires PartitionOk(decode, files, cursors, file)
    requires next' == next[file := CursorAfter(files, cursors, file)]
    requires FileRecords(decode, files, cursors, file) == Some(found)
    ensures VisitedSoFar(decode, files, cursors, done + [file], next', records + found)
  {
    var done' := done + [file];
    assert done'[..|done|] == done && done'[|done|] == file;
    forall other ensures Moved(files, cursors, done', next', other) {
      assert Moved(files, cursors, done, next, other);
    }
  }

  lemma OrderedDistinct(paths: seq<string>, n: nat)
    requires Ordered(StringBefore, paths) && n < |paths|
    ensures paths[n] !in paths[..n]
  {
    if m :| 0 <= m < n && paths[m] == paths[n] {
      assert StringBefore(paths[m], paths[n]);
      StringTrichotomy(paths[n], paths[n]);
    }
  }

  /** Reads one more partition. */
  method VisitNext(decode: MessageDecoder, files: map<string, File>, cursors: map<string, Cursor>, file: string,
                   ghost done: seq<string>, next: map<string, Cursor>, records: seq<StoredRecord>)
    returns (r: Result<seq<StoredRecord>, VisitError>, next': map<string, Cursor>)
    requires VisitedSoFar(decode, files, cursors, done, next, records) && file !in done && file in files
    ensures r.Success? ==> VisitedSoFar(decode, files, cursors, done + [file], next', r.value)
    ensures r.Failure? ==> Blames(decode, files, cursors, r.error) && !PartitionOk(decode, files, cursors, file)
  {
    assert Moved(files, cursors, done, next, file);
    var cursor := if file in next then next[file] else NO_CURSOR;
    assert cursor == CursorOf(cursors, file);
    var visited, moved := VisitPartition(decode, file, files[file].content, cursor);
    if visited.Failure? {
      return Failure(visited.error), next;
    }
    next' := next[file := moved];
    r := Success(records + visited.value);
    VisitedOneMore(decode, files, cursors, done, next, records, file, next', visited.value);
  }

  method VisitPartitions(decode: MessageDecoder, files: map<string, File>, cursors: map<string, Cursor>,
                         paths: seq<string>)
    returns (r: Result<seq<StoredRecord>, VisitError>, next: map<string, Cursor>)
    requires Ordered(StringBefore, paths) && forall file :: file in paths ==> file in files
    ensures r.Success? ==> VisitedSoFar(decode, files, cursors, paths, next, r.value)
    ensures r.Failure? ==> Blames(decode, files, cursors, r.error)
    ensures r.Failure? ==> exists file :: file in paths && !PartitionOk(decode, files, cursors, file)
  {
    next, r := cursors, Success([]);
    assert VisitedSoFar(decode, files, cursors, [], next, []) by {
      forall file ensures Moved(files, cursors, [], next, file) {}
    }
    var n := 0;
    while n < |paths|
      invariant n <= |paths| && r.Success?
      invariant VisitedSoFar(decode, files, cursors, paths[..n], next, r.value)
    {
      OrderedDistinct(paths, n);
      var file := paths[n];
      r, next := VisitNext(decode, files, cursors, file, paths[..n], next, r.value);
      assert file in paths && paths[..n + 1] == paths[..n] + [file];
      if r.Failure? { return; }
      n := n + 1;
    }
    assert paths[..n] == paths;
  }

  /** A partition that was read and is gone. */
  method MissingPartition(files: map<string, File>, cursors: map<string, Cursor>) returns (missing: Option<string>)
    ensures missing.Some? ==> missing.value in cursors && cursors[missing.value].offset > 0 && missing.value !in files
    ensures missing.None? ==> forall file :: file in cursors && cursors[file].offset > 0 ==> file in files
  {
    var rest := cursors.Keys;
    while rest != {}
      invariant rest <= cursors.Keys
      invariant forall file :: file in cursors && file !in rest && cursors[file].offset > 0 ==> file in files
      decreases |rest|
    {
      var file :| file in rest;
      rest := rest - {file};
      if cursors[file].offset > 0 && file !in files {
        return Some(file);
      }
    }
    return None;
  }

  /** A visit read every partition from the given cursors, and moved them past what it read. */
  ghost predicate Visits(decode: MessageDecoder, files: map<string, File>, from: map<string, Cursor>,
                         paths: seq<string>, next: map<string, Cursor>, records: seq<StoredRecord>)
  {
    && Readable(decode, files, from)
    && Ordered(StringBefore, paths) && (forall file :: file in paths <==> file in files)
    && (forall file :: Moved(files, from, paths, next, file))
    && records == Gather(decode, files, from, paths)
  }

  /** Nothing counts as changed when nothing was read before. */
  lemma NothingReadNothingChanged(decode: MessageDecoder, files: map<string, File>, error: VisitError)
    requires Blames(decode, files, map[], error)
    ensures error.Undecodable?
  {
  }

  /** Visits every partition in path order from its cursor. It succeeds exactly when nothing already read has changed
      and every complete line decodes; then each cursor moves past its last complete line. */
  method VisitAfter(store: FileStore, decode: MessageDecoder, cursors: map<string, Cursor>)
    returns (r: Result<seq<StoredRecord>, VisitError>, next: map<string, Cursor>, ghost paths: seq<string>)
    ensures r.Success? <==> Readable(decode, store.files, cursors)
    ensures r.Failure? ==> Blames(decode, store.files, cursors, r.error)
    ensures r.Success? ==> Visits(decode, store.files, cursors, paths, next, r.value)
  {
    var listed := store.MessageFiles();
    StringOrder(listed);
    SortSorts(StringBefore, listed);
    var sorted := Sort(StringBefore, listed);
    paths := sorted;
    assert forall file :: file in sorted <==> file in store.files;
    r, next := VisitPartitions(decode, store.files, cursors, sorted);
    if r.Failure? {
      return;
    }
    var missing := MissingPartition(store.files, cursors);
    if missing.Some? {
      r := Failure(PartitionChanged(missing.value));
    }
  }

  lemma StringOrder(items: seq<string>)
    requires Ordered(PathBefore, items)
    ensures Transitive(StringBefore) && Asymmetric(StringBefore) && Comparable(StringBefore, items)
  {
    forall a, b, c | StringBefore(a, b) && StringBefore(b, c) ensures StringBefore(a, c) { StringTransitive(a, b, c); }
    forall a, b ensures StringBefore(a, b) ==> !StringBefore(b, a) { StringTrichotomy(a, b); }
    forall m, n | 0 <= m < n < |items| ensures StringBefore(items[m], items[n]) || StringBefore(items[n], items[m]) {
      assert PathBefore(items[m], items[n]);
    }
  }

  /** Truncation below the cursor and deletion of a read partition are always reported. */
  lemma TruncationAndDeletionDetected(decode: MessageDecoder, files: map<string, File>, cursors: map<string, Cursor>,
                                      file: string)
    requires file in cursors && cursors[file].offset > 0
    requires file in files ==> |files[file].content| < cursors[file].offset
    ensures !Readable(decode, files, cursors)
  {
  }

  predicate OfFile(record: StoredRecord, file: string) { record.file == file }

  lemma {:induction false} RecordsNameTheirFile(decode: MessageDecoder, file: string, lines: seq<string>, offset: nat,
                                                record: StoredRecord)
    requires RecordsOf(decode, file, lines, offset).Some? && record in RecordsOf(decode, file, lines, offset).value
    ensures record.file == file
    decreases |lines|
  {
    if lines != [] {
      var rest := RecordsOf(decode, file, lines[1..], offset + |lines[0]|).value;
      if record in rest { RecordsNameTheirFile(decode, file, lines[1..], offset + |lines[0]|, record); }
    }
  }

  lemma FileRecordsOf(decode: MessageDecoder, files: map<string, File>, cursors: map<string, Cursor>, own: string,
                      record: StoredRecord)
    requires FileRecords(decode, files, cursors, own).Some? && record in FileRecords(decode, files, cursors, own).value
    ensures record.file == own
  {
    var rest := files[own].content[CursorOf(cursors, own).offset..];
    RecordsNameTheirFile(decode, own, SplitLines(rest[..WholePart(rest)]), CursorOf(cursors, own).offset, record);
  }

  lemma {:induction false} FilterAll<T(!new)>(keep: T -> bool, s: seq<T>)
    requires forall x :: x in s ==> keep(x)
    ensures Filter(keep, s) == s
    decreases |s|
  {
    if s != [] {
      assert s[0] in s && s == [s[0]] + s[1..];
      FilterAll(keep, s[1..]);
    }
  }

  /** Of one partition's records, a partition keeps its own. */
  lemma OwnRecords(decode: MessageDecoder, files: map<string, File>, cursors: map<string, Cursor>, own: string,
                   file: string)
    requires FileRecords(decode, files, cursors, own).Some?
    ensures Filter((record: StoredRecord) => OfFile(record, file), FileRecords(decode, files, cursors, own).value) ==
      if own == file then FileRecords(decode, files, cursors, own).value else []
  {
    var keep, records := (record: StoredRecord) => OfFile(record, file), FileRecords(decode, files, cursors, own).value;
    forall record | record in records ensures keep(record) <==> own == file {
      FileRecordsOf(decode, files, cursors, own, record);
    }
    if own == file { FilterAll(keep, records); } else { FilterNone(keep, records); }
  }

  /** A visit's records, seen from one partition, are that partition's. */
  lemma {:induction false} GatherPerFile(decode: MessageDecoder, files: map<string, File>,
                                         cursors: map<string, Cursor>, paths: seq<string>, file: string)
    requires Ordered(StringBefore, paths)
    requires forall path :: path in paths ==> FileRecords(decode, files, cursors, path).Some?
    ensures Filter((record: StoredRecord) => OfFile(record, file), Gather(decode, files, cursors, paths)) ==
      if file in paths then FileRecords(decode, files, cursors, file).value else []
    decreases |paths|
  {
    if paths != [] {
      var last := |paths| - 1;
      var front, own := paths[..last], paths[last];
      var keep, records := (record: StoredRecord) => OfFile(record, file),
        FileRecords(decode, files, cursors, own).value;
      assert paths == front + [own];
      GatherPerFile(decode, files, cursors, front, file);
      FilterConcat(keep, Gather(decode, files, cursors, front), records);
      OwnRecords(decode, files, cursors, own, file);
      OrderedDistinct(paths, last);
      assert [] + records == records;
    }
  }
}
