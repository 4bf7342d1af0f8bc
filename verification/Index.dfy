/** The position index of one message partition, and when extending it is as good as rescanning. */
module PartitionIndex {
  import opened Wrappers
  import opened IncidentState
  import opened Lines
  import opened Sorting

  /** Position and filter keys of one stored record. */
  datatype Entry = Entry(receivedAt: Time, host: string, offset: nat, length: nat)

  datatype RecordKey = RecordKey(receivedAt: Time, host: string)

  /** JSON decoding of the filter keys of a line; None is a decoding error. */
  type KeyDecoder = string -> Option<RecordKey>

  /** The entries of consecutive lines from an offset on, or None if one does not decode. */
  function EntriesOf(decode: KeyDecoder, lines: seq<string>, offset: nat): Option<seq<Entry>> {
    if lines == [] then Some([])
    else match (decode(lines[0]), EntriesOf(decode, lines[1..], offset + |lines[0]|))
      case (Some(key), Some(rest)) => Some([Entry(key.receivedAt, key.host, offset, |lines[0]|)] + rest)
      case _ => None
  }

  function Scan(decode: KeyDecoder, content: string, offset: nat): Option<seq<Entry>> {
    EntriesOf(decode, SplitLines(content), offset)
  }

  /** Index order: newest first, and last written first among equals. */
  predicate EntryBefore(a: Entry, b: Entry) {
    a.receivedAt > b.receivedAt || (a.receivedAt == b.receivedAt && a.offset > b.offset)
  }

  /** The index of a whole content: its scan, sorted. */
  function IndexOf(decode: KeyDecoder, content: string): Option<seq<Entry>> {
    match Scan(decode, content, 0)
    case Some(entries) => Some(Sort(EntryBefore, entries))
    case None => None
  }

  lemma {:induction false} JoinConcat(a: seq<string>, b: seq<string>)
    ensures Join(a + b) == Join(a) + Join(b)
    decreases |a|
  {
    if a == [] {
      assert a + b == b;
    } else {
      assert (a + b)[1..] == a[1..] + b;
      JoinConcat(a[1..], b);
    }
  }

  function Both(a: Option<seq<Entry>>, b: Option<seq<Entry>>): Option<seq<Entry>> {
    if a.Some? && b.Some? then Some(a.value + b.value) else None
  }

  lemma {:induction false} EntriesConcat(decode: KeyDecoder, a: seq<string>, b: seq<string>, offset: nat)
    ensures EntriesOf(decode, a + b, offset)
      == Both(EntriesOf(decode, a, offset), EntriesOf(decode, b, offset + |Join(a)|))
    decreases |a|
  {
    if a == [] {
      assert a + b == b;
      var y := EntriesOf(decode, b, offset);
      if y.Some? { assert [] + y.value == y.value; }
    } else {
      assert (a + b)[1..] == a[1..] + b;
      EntriesConcat(decode, a[1..], b, offset + |a[0]|);
      var x, y := EntriesOf(decode, a[1..], offset + |a[0]|), EntriesOf(decode, b, offset + |Join(a)|);
      if x.Some? && y.Some? && decode(a[0]).Some? {
        var e := Entry(decode(a[0]).value.receivedAt, decode(a[0]).value.host, offset, |a[0]|);
        assert [e] + (x.value + y.value) == ([e] + x.value) + y.value;
      }
    }
  }

  /** Scanning what was appended to whole content completes the scan of the whole. */
  lemma ScanExtends(decode: KeyDecoder, past: string, added: string)
    requires Whole(past)
    ensures Scan(decode, past + added, 0) == Both(Scan(decode, past, 0), Scan(decode, added, |past|))
  {
    SplitConcat(past, added);
    SplitJoins(past);
    EntriesOfSplit(decode, SplitLines(past + added), SplitLines(past), SplitLines(added), |past|);
  }

  lemma EntriesOfSplit(decode: KeyDecoder, lines: seq<string>, a: seq<string>, b: seq<string>, middle: nat)
    requires lines == a + b && middle == |Join(a)|
    ensures EntriesOf(decode, lines, 0) == Both(EntriesOf(decode, a, 0), EntriesOf(decode, b, middle))
  {
    EntriesConcat(decode, a, b, 0);
  }

  /** Entry n reads exactly line n, and the entries tile the content without gap or overlap. */
  lemma {:induction false} EntriesTile(decode: KeyDecoder, lines: seq<string>, offset: nat, n: nat)
    requires EntriesOf(decode, lines, offset).Some? && n < |lines|
    ensures
      var entries := EntriesOf(decode, lines, offset).value;
      && |entries| == |lines|
      && entries[n].offset == offset + |Join(lines[..n])|
      && entries[n].length == |lines[n]|
      && decode(lines[n]) == Some(RecordKey(entries[n].receivedAt, entries[n].host))
    decreases |lines|
  {
    if n > 0 {
      EntriesTile(decode, lines[1..], offset + |lines[0]|, n - 1);
      assert lines[..n] == [lines[0]] + lines[1..][..n - 1];
    } else if |lines| > 1 {
      EntriesTile(decode, lines[1..], offset + |lines[0]|, 0);
    }
  }

  /** The bytes an entry points at. */
  function Slice(content: string, e: Entry): string
    requires e.offset + e.length <= |content|
  {
    content[e.offset..e.offset + e.length]
  }

  /** Every entry of a scan points at exactly one stored line, and consecutive entries touch. */
  lemma ScanReadsLines(decode: KeyDecoder, content: string, n: nat)
    requires Scan(decode, content, 0).Some? && n < |SplitLines(content)|
    ensures
      var lines, entries := SplitLines(content), Scan(decode, content, 0).value;
      && |entries| == |lines|
      && entries[n].offset + entries[n].length <= |content|
      && Slice(content, entries[n]) == lines[n]
      && decode(lines[n]) == Some(RecordKey(entries[n].receivedAt, entries[n].host))
      && (n == 0 ==> entries[n].offset == 0)
      && (if n + 1 < |entries| then entries[n + 1].offset else |content|) == entries[n].offset + entries[n].length
  {
    var lines := SplitLines(content);
    EntriesTile(decode, lines, 0, n);
    SplitJoins(content);
    assert lines == lines[..n] + [lines[n]] + lines[n + 1..];
    JoinConcat(lines[..n] + [lines[n]], lines[n + 1..]);
    JoinConcat(lines[..n], [lines[n]]);
    assert Join([lines[n]]) == lines[n];
    if n + 1 < |lines| {
      EntriesTile(decode, lines, 0, n + 1);
      assert lines[..n + 1] == lines[..n] + [lines[n]];
    } else {
      assert lines[n + 1..] == [];
    }
  }

  /** What a running query reads through its entries does not change when the partition grows. */
  lemma SliceStable(content: string, added: string, e: Entry)
    requires e.offset + e.length <= |content|
    ensures Slice(content + added, e) == Slice(content, e)
  {
  }

  /** An entry a running query holds keeps reading its own line, whatever is appended and indexed meanwhile. */
  lemma EntriesStayReadable(decode: KeyDecoder, content: string, added: string, e: Entry)
    requires IndexOf(decode, content).Some? && e in IndexOf(decode, content).value
    ensures e.offset + e.length <= |content + added|
    ensures Slice(content + added, e) in SplitLines(content)
    ensures decode(Slice(content + added, e)) == Some(RecordKey(e.receivedAt, e.host))
    ensures Whole(content) && IndexOf(decode, content + added).Some? ==> e in IndexOf(decode, content + added).value
  {
    IndexSorts(decode, content);
    var scanned, lines := Scan(decode, content, 0).value, SplitLines(content);
    var n :| 0 <= n < |scanned| && scanned[n] == e;
    if lines != [] { EntriesTile(decode, lines, 0, 0); }
    ScanReadsLines(decode, content, n);
    SliceStable(content, added, e);
    assert lines[n] in lines;
    if Whole(content) && IndexOf(decode, content + added).Some? {
      ScanExtends(decode, content, added);
      IndexSorts(decode, content + added);
      assert Scan(decode, content + added, 0).value[n] == e;
    }
  }

  lemma EntryBeforeIsStrict()
    ensures Transitive(EntryBefore) && Asymmetric(EntryBefore)
  {
  }

  lemma {:induction false} OffsetsIncrease(decode: KeyDecoder, lines: seq<string>, offset: nat, m: nat, n: nat)
    requires EntriesOf(decode, lines, offset).Some? && m < n < |lines| && forall l :: l in lines ==> l != []
    ensures
      var entries := EntriesOf(decode, lines, offset).value;
      |entries| == |lines| && entries[m].offset < entries[n].offset
  {
    EntriesTile(decode, lines, offset, m);
    EntriesTile(decode, lines, offset, n);
    assert lines[..n] == lines[..m] + [lines[m]] + lines[m + 1..n];
    JoinConcat(lines[..m] + [lines[m]], lines[m + 1..n]);
    JoinConcat(lines[..m], [lines[m]]);
    assert Join([lines[m]]) == lines[m] && lines[m] in lines;
  }

  lemma {:induction false} NoEmptyLines(content: string, l: string)
    requires l in SplitLines(content)
    ensures l != []
    decreases |content|
  {
    var rest := SplitLines(content[Cut(content)..]);
    assert SplitLines(content) == [content[..Cut(content)]] + rest;
    if l != content[..Cut(content)] { NoEmptyLines(content[Cut(content)..], l); }
  }

  /** The entries of a scan can be compared pairwise, so sorting them has one result. */
  lemma ScanComparable(decode: KeyDecoder, content: string, offset: nat)
    requires Scan(decode, content, offset).Some?
    ensures Comparable(EntryBefore, Scan(decode, content, offset).value)
  {
    var lines, entries := SplitLines(content), Scan(decode, content, offset).value;
    if lines != [] { EntriesTile(decode, lines, offset, 0); } else { assert entries == []; }
    forall l | l in lines ensures l != [] { NoEmptyLines(content, l); }
    forall m, n | 0 <= m < n < |entries|
      ensures EntryBefore(entries[m], entries[n]) || EntryBefore(entries[n], entries[m])
    {
      OffsetsIncrease(decode, lines, offset, m, n);
    }
  }

  lemma IndexSorts(decode: KeyDecoder, content: string)
    requires IndexOf(decode, content).Some?
    ensures SortOf(EntryBefore, IndexOf(decode, content).value, Scan(decode, content, 0).value)
  {
    ScanComparable(decode, content, 0);
    EntryBeforeIsStrict();
    SortSorts(EntryBefore, Scan(decode, content, 0).value);
  }

  /** Sorting the first part of comparable entries leaves the whole comparable. */
  lemma StaysComparable(scanned: seq<Entry>, index: seq<Entry>, tail: seq<Entry>)
    requires SortOf(EntryBefore, index, scanned) && Comparable(EntryBefore, scanned + tail)
    ensures Comparable(EntryBefore, index + tail)
  {
    forall m, n | 0 <= m < n < |index + tail|
      ensures EntryBefore((index + tail)[m], (index + tail)[n]) || EntryBefore((index + tail)[n], (index + tail)[m])
    {
      if n >= |index| && m < |index| {
        assert index[m] in scanned;
        var l :| 0 <= l < |scanned| && scanned[l] == index[m];
        assert (scanned + tail)[l] == index[m] && (scanned + tail)[|scanned| + n - |index|] == tail[n - |index|];
      } else if m >= |index| {
        assert (scanned + tail)[|scanned| + m - |index|] == tail[m - |index|];
        assert (scanned + tail)[|scanned| + n - |index|] == tail[n - |index|];
      }
    }
  }

  lemma SortedAlike(scanned: seq<Entry>, index: seq<Entry>, tail: seq<Entry>)
    requires SortOf(EntryBefore, index, scanned) && Comparable(EntryBefore, scanned + tail)
    ensures Sort(EntryBefore, index + tail) == Sort(EntryBefore, scanned + tail)
  {
    StaysComparable(scanned, index, tail);
    EntryBeforeIsStrict();
    SortSorts(EntryBefore, index + tail);
    SortSorts(EntryBefore, scanned + tail);
    SortUnique(EntryBefore, Sort(EntryBefore, index + tail), Sort(EntryBefore, scanned + tail));
  }

  /** The cached index equals a full rescan: the old index, followed by the entries of the added lines and sorted again,
      is the index of the whole content, and it fails to decode exactly when a full rescan does. */
  lemma ExtendedIndexIsRescan(decode: KeyDecoder, past: string, added: string)
    requires Whole(past) && IndexOf(decode, past).Some?
    ensures IndexOf(decode, past + added) ==
      match Scan(decode, added, |past|)
        case Some(tail) => Some(Sort(EntryBefore, IndexOf(decode, past).value + tail))
        case None => None
  {
    ScanExtends(decode, past, added);
    if Scan(decode, added, |past|).Some? {
      IndexSorts(decode, past);
      ScanComparable(decode, past + added, 0);
      SortedAlike(Scan(decode, past, 0).value, IndexOf(decode, past).value, Scan(decode, added, |past|).value);
    }
  }

  // ---------- extending whatever index there is ----------

  /** What every cached index is, right or wrong: in index order, and within the size it was made for. */
  ghost predicate IndexShape(entries: seq<Entry>, size: nat) {
    Ordered(EntryBefore, entries) && forall e :: e in entries ==> e.length > 0 && e.offset + e.length <= size
  }

  /** The entries of a scan lie within what was scanned. */
  lemma ScanWithin(decode: KeyDecoder, content: string, offset: nat, e: Entry)
    requires Scan(decode, content, offset).Some? && e in Scan(decode, content, offset).value
    ensures offset <= e.offset && e.length > 0 && e.offset + e.length <= offset + |content|
  {
    var lines := SplitLines(content);
    if lines != [] { EntriesTile(decode, lines, offset, 0); }
    var n :| 0 <= n < |lines| && Scan(decode, content, offset).value[n] == e;
    EntriesTile(decode, lines, offset, n);
    SplitJoins(content);
    assert lines == lines[..n] + [lines[n]] + lines[n + 1..];
    JoinConcat(lines[..n] + [lines[n]], lines[n + 1..]);
    JoinConcat(lines[..n], [lines[n]]);
    assert Join([lines[n]]) == lines[n] && lines[n] in lines;
    NoEmptyLines(content, lines[n]);
  }

  lemma IndexIsShaped(decode: KeyDecoder, content: string)
    requires IndexOf(decode, content).Some?
    ensures IndexShape(IndexOf(decode, content).value, |content|)
  {
    IndexSorts(decode, content);
    forall e | e in IndexOf(decode, content).value ensures e.length > 0 && e.offset + e.length <= |content| {
      ScanWithin(decode, content, 0, e);
    }
  }

  /** The index after scanning only what lies beyond the size the cached one was made for. */
  function Extended(decode: KeyDecoder, entries: seq<Entry>, size: nat, content: string): Option<seq<Entry>>
    requires size <= |content|
  {
    match Scan(decode, content[size..], size)
    case Some(tail) => Some(Sort(EntryBefore, entries + tail))
    case None => None
  }

  lemma ExtensionComparable(decode: KeyDecoder, entries: seq<Entry>, size: nat, content: string)
    requires IndexShape(entries, size) && size <= |content| && Scan(decode, content[size..], size).Some?
    ensures Comparable(EntryBefore, entries + Scan(decode, content[size..], size).value)
  {
    var tail := Scan(decode, content[size..], size).value;
    ScanComparable(decode, content[size..], size);
    forall m, n | 0 <= m < n < |entries + tail|
      ensures EntryBefore((entries + tail)[m], (entries + tail)[n])
        || EntryBefore((entries + tail)[n], (entries + tail)[m])
    {
      if n >= |entries| {
        ScanWithin(decode, content[size..], size, tail[n - |entries|]);
        if m < |entries| {
          assert entries[m] in entries;
        } else {
          assert EntryBefore(tail[m - |entries|], tail[n - |entries|])
            || EntryBefore(tail[n - |entries|], tail[m - |entries|]);
        }
      }
    }
  }

  lemma ExtensionSorts(decode: KeyDecoder, entries: seq<Entry>, size: nat, content: string)
    requires IndexShape(entries, size) && size <= |content| && Scan(decode, content[size..], size).Some?
    ensures SortOf(EntryBefore, Extended(decode, entries, size, content).value,
                   entries + Scan(decode, content[size..], size).value)
    ensures IndexShape(Extended(decode, entries, size, content).value, |content|)
  {
    var tail, extended := Scan(decode, content[size..], size).value, Extended(decode, entries, size, content).value;
    ExtensionComparable(decode, entries, size, content);
    EntryBeforeIsStrict();
    SortSorts(EntryBefore, entries + tail);
    forall e | e in extended ensures e.length > 0 && e.offset + e.length <= |content| {
      if e in tail { ScanWithin(decode, content[size..], size, e); }
    }
  }

  /** Content up to the start of one of its lines ends at a line boundary. */
  lemma LineStartIsWhole(content: string, n: nat)
    requires n < |SplitLines(content)|
    ensures |Join(SplitLines(content)[..n])| <= |content|
    ensures Whole(content[..|Join(SplitLines(content)[..n])|])
  {
    var lines := SplitLines(content);
    var head := Join(lines[..n]);
    assert lines == lines[..n] + lines[n..];
    JoinConcat(lines[..n], lines[n..]);
    SplitJoins(content);
    assert content[..|head|] == head;
    if n > 0 {
      SplitIntoLines(content, n - 1);
      assert lines[..n] == lines[..n - 1] + [lines[n - 1]];
      JoinConcat(lines[..n - 1], [lines[n - 1]]);
      assert Join([lines[n - 1]]) == lines[n - 1];
      assert head[|head| - 1] == lines[n - 1][|lines[n - 1]| - 1];
    }
  }

  /** If the extended index is that of a rescan, the part not scanned again ends at a line boundary. */
  lemma RightExtensionIsWhole(decode: KeyDecoder, entries: seq<Entry>, size: nat, content: string)
    requires IndexShape(entries, size) && size < |content| && Scan(decode, content[size..], size).Some?
    requires IndexOf(decode, content) == Extended(decode, entries, size, content)
    ensures Whole(content[..size])
  {
    var lines, tailLines := SplitLines(content), SplitLines(content[size..]);
    EntriesTile(decode, tailLines, size, 0);
    var first := Scan(decode, content[size..], size).value[0];
    assert first.offset == size;
    ExtensionSorts(decode, entries, size, content);
    IndexSorts(decode, content);
    assert first in entries + Scan(decode, content[size..], size).value;
    EntriesTile(decode, lines, 0, 0);
    var n :| 0 <= n < |lines| && Scan(decode, content, 0).value[n] == first;
    EntriesTile(decode, lines, 0, n);
    LineStartIsWhole(content, n);
  }

  /** Extensions by the same entries are alike only if what they extend is. */
  lemma SameHeads(a: seq<Entry>, b: seq<Entry>, size: nat, tail: seq<Entry>)
    requires IndexShape(a, size) && IndexShape(b, size) && forall t :: t in tail ==> t.offset >= size
    requires Sort(EntryBefore, a + tail) == Sort(EntryBefore, b + tail)
    ensures a == b
  {
    forall x ensures x in a <==> x in b {
      SortMembers(EntryBefore, a + tail, x);
      SortMembers(EntryBefore, b + tail, x);
    }
    EntryBeforeIsStrict();
    SortUnique(EntryBefore, a, b);
  }

  /** When an extended index is right, whatever the cached entries are and however the partition was written since:
      exactly if the part not scanned again ends at a line boundary and has the cached entries as its index. */
  lemma ExtensionExact(decode: KeyDecoder, entries: seq<Entry>, size: nat, content: string)
    requires IndexShape(entries, size) && size < |content| && Scan(decode, content[size..], size).Some?
    ensures Extended(decode, entries, size, content) == IndexOf(decode, content) <==>
      Whole(content[..size]) && IndexOf(decode, content[..size]) == Some(entries)
  {
    var past, added := content[..size], content[size..];
    var tail := Scan(decode, added, size).value;
    assert past + added == content;
    if Extended(decode, entries, size, content) == IndexOf(decode, content) {
      RightExtensionIsWhole(decode, entries, size, content);
      ScanExtends(decode, past, added);
      ExtendedIndexIsRescan(decode, past, added);
      IndexIsShaped(decode, past);
      forall t | t in tail ensures t.offset >= size { ScanWithin(decode, added, size, t); }
      SameHeads(entries, IndexOf(decode, past).value, size, tail);
    } else if Whole(past) && IndexOf(decode, past) == Some(entries) {
      ExtendedIndexIsRescan(decode, past, added);
    }
  }

  /** So a partition rewritten in place and then grown past its old size has the right index exactly if the new content
      has a line boundary there and the old index up to it. */
  lemma RewriteThenGrowth(decode: KeyDecoder, past: string, content: string)
    requires IndexOf(decode, past).Some? && |past| < |content| && Scan(decode, content[|past|..], |past|).Some?
    ensures Extended(decode, IndexOf(decode, past).value, |past|, content) == IndexOf(decode, content) <==>
      Whole(content[..|past|]) && IndexOf(decode, content[..|past|]) == IndexOf(decode, past)
  {
    IndexIsShaped(decode, past);
    ExtensionExact(decode, IndexOf(decode, past).value, |past|, content);
  }

  /** An index that is wrong stays wrong however the partition grows: refreshing it does not mend it. */
  lemma WrongStaysWrong(decode: KeyDecoder, entries: seq<Entry>, content: string, added: string)
    requires IndexShape(entries, |content|) && added != []
    requires IndexOf(decode, content) != Some(entries)
    ensures
      var extended := Extended(decode, entries, |content|, content + added);
      extended.None? || extended != IndexOf(decode, content + added)
  {
    assert (content + added)[..|content|] == content && (content + added)[|content|..] == added;
    if Scan(decode, added, |content|).Some? { ExtensionExact(decode, entries, |content|, content + added); }
  }
}
