/** Querying the store: a merge of the partition indexes that refines scan, sort, filter, drop and take. */
module MessageQuery {
  import opened Wrappers
  import opened IncidentState
  import opened Sorting
  import opened PartitionIndex
  import opened MessageStore
  import opened QueryHeap
  import opened Messages

  /** The compiled text filter; an empty text matches everything. */
  datatype TextFilter = InvalidFilter | AllText | Matching(keep: Message -> bool)

  datatype Query = Query(text: TextFilter, hosts: set<string>, limit: int, offset: int, since: Option<Time>,
                         until: Option<Time>)

  datatype QueryError = BadFilter | UndecodableIndex | UndecodableMessage

  const DEFAULT_QUERY_LIMIT := 200

  // ---------- the simple query ----------

  /** A stored record: its partition's place in the listing, and its index entry. */
  datatype Ref = Ref(order: nat, entry: Entry)

  /** Result order: newest first, then partition order, then last written first. */
  predicate Newer(a: Ref, b: Ref) {
    || a.entry.receivedAt > b.entry.receivedAt
    || (a.entry.receivedAt == b.entry.receivedAt
        && (a.order < b.order || (a.order == b.order && a.entry.offset > b.entry.offset)))
  }

  function RefsOf(order: nat, entries: seq<Entry>): (refs: seq<Ref>)
    ensures |refs| == |entries| && forall n :: 0 <= n < |refs| ==> refs[n] == Ref(order, entries[n])
  {
    seq(|entries|, n requires 0 <= n < |entries| => Ref(order, entries[n]))
  }

  /** All stored records, partition by partition. */
  function AllRefs(scans: seq<seq<Entry>>): seq<Ref> {
    if scans == [] then [] else AllRefs(scans[..|scans| - 1]) + RefsOf(|scans| - 1, scans[|scans| - 1])
  }

  predicate BeforeUntil(q: Query, at: Time) { q.until.Some? ==> at <= q.until.value }

  predicate SinceOk(q: Query, at: Time) { q.since.Some? ==> q.since.value <= at }

  predicate HostOk(q: Query, host: string) { q.hosts != {} ==> host in q.hosts }

  predicate TextOk(q: Query, message: Option<Message>) {
    match q.text
    case AllText => true
    case Matching(keep) => message.Some? && keep(message.value)
    case InvalidFilter => false
  }

  /** Where the lines of the partitions are. */
  function LineOf(contents: seq<string>, r: Ref): string {
    if r.order < |contents| && r.entry.offset + r.entry.length <= |contents[r.order]| then
      Slice(contents[r.order], r.entry)
    else
      ""
  }

  predicate Matches(q: Query, decode: MessageDecoder, contents: seq<string>, r: Ref) {
    && BeforeUntil(q, r.entry.receivedAt) && SinceOk(q, r.entry.receivedAt) && HostOk(q, r.entry.host)
    && TextOk(q, decode(LineOf(contents, r)))
  }

  function Limit(q: Query): nat { if q.limit <= 0 then DEFAULT_QUERY_LIMIT else q.limit }

  function Offset(q: Query): nat { if q.offset < 0 then 0 else q.offset }

  function Drop<T>(n: nat, s: seq<T>): seq<T> { if n <= |s| then s[n..] else [] }

  function Take<T>(n: nat, s: seq<T>): seq<T> { if n <= |s| then s[..n] else s }

  /** Scan everything, sort, filter, drop the offset, take the limit. */
  function NaiveQuery(q: Query, decode: MessageDecoder, contents: seq<string>, scans: seq<seq<Entry>>): seq<Ref> {
    Take(Limit(q), Drop(Offset(q), Filter((r: Ref) => Matches(q, decode, contents, r), Sort(Newer, AllRefs(scans)))))
  }

  // ---------- the stored records can be sorted ----------

  lemma NewerIsStrict()
    ensures Transitive(Newer) && Asymmetric(Newer)
  {
  }

  lemma {:induction false} AllRefsMembers(scans: seq<seq<Entry>>, r: Ref)
    ensures r in AllRefs(scans) <==> r.order < |scans| && r.entry in scans[r.order]
    decreases |scans|
  {
    if scans != [] {
      var last := |scans| - 1;
      AllRefsMembers(scans[..last], r);
      var refs := RefsOf(last, scans[last]);
      if r.order == last && r.entry in scans[last] {
        var n :| 0 <= n < |scans[last]| && scans[last][n] == r.entry;
        assert refs[n] == r;
      }
    }
  }

  lemma {:induction false} AllRefsComparable(scans: seq<seq<Entry>>)
    requires forall o :: 0 <= o < |scans| ==> Comparable(EntryBefore, scans[o])
    ensures Comparable(Newer, AllRefs(scans))
    decreases |scans|
  {
    if scans != [] {
      var last := |scans| - 1;
      var front, refs := AllRefs(scans[..last]), RefsOf(last, scans[last]);
      AllRefsComparable(scans[..last]);
      forall m, n | 0 <= m < n < |front + refs|
        ensures Newer((front + refs)[m], (front + refs)[n]) || Newer((front + refs)[n], (front + refs)[m])
      {
        if n < |front| {
          assert Newer(front[m], front[n]) || Newer(front[n], front[m]);
        } else if m < |front| {
          assert front[m] in front;
          AllRefsMembers(scans[..last], front[m]);
        } else {
          var a, b := scans[last][m - |front|], scans[last][n - |front|];
          assert EntryBefore(a, b) || EntryBefore(b, a);
        }
      }
    }
  }

  // ---------- the merge ----------

  /** The partitions of one query: their paths, and their index entries in index order. */
  datatype Parts = Parts(paths: seq<string>, entries: seq<seq<Entry>>)

  ghost predicate PartsOk(parts: Parts) {
    |parts.paths| == |parts.entries| && forall o :: 0 <= o < |parts.entries| ==> Ordered(EntryBefore, parts.entries[o])
  }

  ghost predicate PositionsOk(parts: Parts, starts: seq<nat>, pos: seq<nat>) {
    && |starts| == |pos| == |parts.entries|
    && forall o :: 0 <= o < |pos| ==> starts[o] <= pos[o] <= |parts.entries[o]|
  }

  /** The cursor the heap holds for its partition. */
  predicate Expected(parts: Parts, pos: seq<nat>, c: IndexCursor)
    requires |pos| == |parts.entries| == |parts.paths|
  {
    c.order < |pos| && pos[c.order] < |parts.entries[c.order]|
    && c == IndexCursor(parts.paths[c.order], parts.entries[c.order], pos[c.order], c.order)
  }

  ghost predicate HoldsExpected(parts: Parts, pos: seq<nat>, items: seq<IndexCursor>)
    requires |pos| == |parts.entries| == |parts.paths|
  {
    forall c :: multiset(items)[c] == if Expected(parts, pos, c) then 1 else 0
  }

  /** The record at position n of partition o. */
  predicate At(parts: Parts, r: Ref, n: nat) {
    r.order < |parts.entries| && n < |parts.entries[r.order]| && r.entry == parts.entries[r.order][n]
  }

  /** The records popped so far: exactly those between start and position, in result order, before all the others. */
  ghost predicate Merged(parts: Parts, starts: seq<nat>, pos: seq<nat>, popped: seq<Ref>)
    requires |starts| == |pos| == |parts.entries|
  {
    && Ordered(Newer, popped)
    && (forall r :: r in popped <==> exists n :: At(parts, r, n) && starts[r.order] <= n < pos[r.order])
    && (forall r, s, n :: r in popped && At(parts, s, n) && pos[s.order] <= n ==> Newer(r, s))
  }

  function Head(c: IndexCursor): Ref
    requires Ready(c)
  {
    Ref(c.order, c.entries[c.position])
  }

  /** The popped cursor's head precedes everything not yet popped. */
  lemma PoppedIsNext(parts: Parts, starts: seq<nat>, pos: seq<nat>, items: seq<IndexCursor>, x: IndexCursor, s: Ref,
                     n: nat)
    requires PartsOk(parts) && PositionsOk(parts, starts, pos) && HoldsExpected(parts, pos, items)
    requires x in items && forall k :: 0 <= k < |items| ==> NotAfter(x, items[k])
    requires At(parts, s, n) && pos[s.order] <= n && !(s.order == x.order && n == x.position)
    ensures Expected(parts, pos, x) && Newer(Head(x), s)
  {
    assert x in multiset(items);
    var c := IndexCursor(parts.paths[s.order], parts.entries[s.order], pos[s.order], s.order);
    assert Expected(parts, pos, c) && multiset(items)[c] == 1;
    assert c in items;
    var k :| 0 <= k < |items| && items[k] == c;
    assert NotAfter(x, c);
    if pos[s.order] < n { assert EntryBefore(parts.entries[s.order][pos[s.order]], parts.entries[s.order][n]); }
  }

  /** Popping extends the merge by one record. */
  lemma MergeStep(parts: Parts, starts: seq<nat>, pos: seq<nat>, popped: seq<Ref>, items: seq<IndexCursor>,
                  x: IndexCursor)
    requires PartsOk(parts) && PositionsOk(parts, starts, pos) && HoldsExpected(parts, pos, items)
    requires Merged(parts, starts, pos, popped)
    requires x in items && forall k :: 0 <= k < |items| ==> NotAfter(x, items[k])
    ensures Expected(parts, pos, x)
    ensures
      var pos' := pos[x.order := x.position + 1];
      PositionsOk(parts, starts, pos') && Merged(parts, starts, pos', popped + [Head(x)])
  {
    assert x in multiset(items);
    var pos', head := pos[x.order := x.position + 1], Head(x);
    var popped' := popped + [head];
    assert At(parts, head, x.position);
    forall r, s, n | r in popped' && At(parts, s, n) && pos'[s.order] <= n ensures Newer(r, s) {
      if r !in popped { PoppedIsNext(parts, starts, pos, items, x, s, n); }
    }
    forall r ensures r in popped' <==> exists n :: At(parts, r, n) && starts[r.order] <= n < pos'[r.order] {
      if r in popped {
        var n :| At(parts, r, n) && starts[r.order] <= n < pos[r.order];
        assert n < pos'[r.order];
      }
      if n :| At(parts, r, n) && starts[r.order] <= n < pos'[r.order] {
        if n < pos[r.order] { assert r in popped; } else { assert r == head; }
      }
      if r == head { assert At(parts, head, x.position) && starts[x.order] <= x.position < pos'[x.order]; }
    }
  }

  lemma ExpectedStep(parts: Parts, pos: seq<nat>, before: seq<IndexCursor>, x: IndexCursor, after: seq<IndexCursor>)
    requires |pos| == |parts.entries| == |parts.paths| && HoldsExpected(parts, pos, before) && Expected(parts, pos, x)
    requires
      var next := x.(position := x.position + 1);
      multiset(before) + (if Ready(next) then multiset{next} else multiset{}) == multiset(after) + multiset{x}
    ensures HoldsExpected(parts, pos[x.order := x.position + 1], after)
  {
    var pos' := pos[x.order := x.position + 1];
    var next := x.(position := x.position + 1);
    forall c ensures multiset(after)[c] == if Expected(parts, pos', c) then 1 else 0 {
      var left := multiset(before) + (if Ready(next) then multiset{next} else multiset{});
      var right := multiset(after) + multiset{x};
      assert left[c] == right[c];
    }
  }

  // ---------- from the merge to the page ----------

  /** The records that could not be reached because they are newer than until, and those not popped yet. */
  predicate TooNew(q: Query, r: Ref) { !BeforeUntil(q, r.entry.receivedAt) }

  predicate Left(q: Query, popped: seq<Ref>, r: Ref) { BeforeUntil(q, r.entry.receivedAt) && r !in popped }

  /** The sorted records are the too new ones, then the popped ones, then the rest. */
  lemma SortedSplits(q: Query, parts: Parts, starts: seq<nat>, pos: seq<nat>, popped: seq<Ref>, sorted: seq<Ref>)
    requires PartsOk(parts) && PositionsOk(parts, starts, pos) && Merged(parts, starts, pos, popped)
    requires forall o, n :: 0 <= o < |parts.entries| && 0 <= n < |parts.entries[o]| ==>
      (n < starts[o] <==> !BeforeUntil(q, parts.entries[o][n].receivedAt))
    requires Ordered(Newer, sorted) && forall r :: r in sorted <==> exists n :: At(parts, r, n)
    ensures sorted == Filter((r: Ref) => TooNew(q, r), sorted) + popped + Filter((r: Ref) => Left(q, popped, r), sorted)
  {
    var front, back := Filter((r: Ref) => TooNew(q, r), sorted), Filter((r: Ref) => Left(q, popped, r), sorted);
    FilterOrdered(Newer, (r: Ref) => TooNew(q, r), sorted);
    FilterOrdered(Newer, (r: Ref) => Left(q, popped, r), sorted);
    forall r ensures r in front <==> r in sorted && TooNew(q, r) { FilterMembers((r: Ref) => TooNew(q, r), sorted, r); }
    forall r ensures r in back <==> r in sorted && Left(q, popped, r) {
      FilterMembers((r: Ref) => Left(q, popped, r), sorted, r);
    }
    forall r | r in popped ensures r in sorted && BeforeUntil(q, r.entry.receivedAt) {
      var n :| At(parts, r, n) && starts[r.order] <= n < pos[r.order];
    }
    forall r, s | r in popped && s in back ensures Newer(r, s) {
      var n :| At(parts, s, n);
      assert !(starts[s.order] <= n < pos[s.order]);
    }
    ThreeOrdered(front, popped, back);
    NewerIsStrict();
    var joined := front + popped + back;
    forall r ensures r in joined <==> r in sorted {}
    SortUnique(Newer, sorted, joined);
  }

  lemma ThreeOrdered(a: seq<Ref>, b: seq<Ref>, c: seq<Ref>)
    requires Ordered(Newer, a) && Ordered(Newer, b) && Ordered(Newer, c)
    requires forall x, y :: x in a && (y in b || y in c) ==> Newer(x, y)
    requires forall x, y :: x in b && y in c ==> Newer(x, y)
    ensures Ordered(Newer, a + b + c)
  {
    var s := a + b + c;
    forall m, n | 0 <= m < n < |s| ensures Newer(s[m], s[n]) {
      if n < |a| {
      } else if m < |a| {
        assert s[m] in a;
        if n < |a| + |b| { assert s[n] == b[n - |a|]; } else { assert s[n] == c[n - |a| - |b|]; }
      } else if n < |a| + |b| {
        assert s[m] == b[m - |a|] && s[n] == b[n - |a|];
      } else {
        assert s[n] == c[n - |a| - |b|];
        if m < |a| + |b| { assert s[m] == b[m - |a|]; } else { assert s[m] == c[m - |a| - |b|]; }
      }
    }
  }

  lemma DropTakePrefix<T>(offset: nat, limit: nat, matched: seq<T>, more: seq<T>)
    requires limit > 0 && |Drop(offset, matched)| <= limit
    requires |Drop(offset, matched)| == limit || more == []
    ensures Take(limit, Drop(offset, matched + more)) == Drop(offset, matched)
  {
    if more == [] {
      assert matched + more == matched;
    } else {
      assert (matched + more)[offset..] == matched[offset..] + more;
    }
  }

  /** Stopping the merge is safe when the limit is reached or when nothing left can match. */
  lemma PageComplete(q: Query, keep: Ref -> bool, sorted: seq<Ref>, front: seq<Ref>, popped: seq<Ref>, back: seq<Ref>)
    requires sorted == front + popped + back
    requires forall r :: r in front ==> !keep(r)
    requires |Drop(Offset(q), Filter(keep, popped))| == Limit(q) || forall r :: r in back ==> !keep(r)
    requires |Drop(Offset(q), Filter(keep, popped))| <= Limit(q)
    ensures Take(Limit(q), Drop(Offset(q), Filter(keep, sorted))) == Drop(Offset(q), Filter(keep, popped))
  {
    FilterConcat(keep, front + popped, back);
    FilterConcat(keep, front, popped);
    FilterNone(keep, front);
    var matched := Filter(keep, popped);
    assert [] + matched == matched;
    if |Drop(Offset(q), matched)| != Limit(q) { FilterNone(keep, back); }
    DropTakePrefix(Offset(q), Limit(q), matched, Filter(keep, back));
  }

  // ---------- the loop ----------

  /** The messages are the decoded lines of the records. */
  ghost predicate Decoded(decode: MessageDecoder, contents: seq<string>, refs: seq<Ref>, messages: seq<Message>) {
    |messages| == |refs| && forall n :: 0 <= n < |refs| ==> decode(LineOf(contents, refs[n])) == Some(messages[n])
  }

  ghost predicate Merging(parts: Parts, starts: seq<nat>, pos: seq<nat>, popped: seq<Ref>, items: seq<IndexCursor>) {
    && PartsOk(parts) && PositionsOk(parts, starts, pos) && HoldsExpected(parts, pos, items)
    && Merged(parts, starts, pos, popped)
  }

  /** Of the records popped so far, the first matching ones were skipped and the others returned. */
  ghost predicate Emitted(q: Query, decode: MessageDecoder, contents: seq<string>, popped: seq<Ref>, skipped: nat,
                          messages: seq<Message>)
  {
    var matched := Filter((r: Ref) => Matches(q, decode, contents, r), popped);
    && skipped == (if |matched| < Offset(q) then |matched| else Offset(q))
    && Decoded(decode, contents, Drop(Offset(q), matched), messages)
  }

  lemma EmitStep(q: Query, decode: MessageDecoder, contents: seq<string>, popped: seq<Ref>, skipped: nat,
                 messages: seq<Message>, head: Ref)
    requires Emitted(q, decode, contents, popped, skipped, messages)
    ensures !Matches(q, decode, contents, head) ==> Emitted(q, decode, contents, popped + [head], skipped, messages)
    ensures Matches(q, decode, contents, head) && skipped < Offset(q) ==>
      Emitted(q, decode, contents, popped + [head], skipped + 1, messages)
    ensures Matches(q, decode, contents, head) && skipped == Offset(q) && decode(LineOf(contents, head)).Some? ==>
      Emitted(q, decode, contents, popped + [head], skipped, messages + [decode(LineOf(contents, head)).value])
  {
    var keep := (r: Ref) => Matches(q, decode, contents, r);
    FilterConcat(keep, popped, [head]);
    assert Filter(keep, [head]) == if keep(head) then [head] else [];
    var matched := Filter(keep, popped);
    if keep(head) {
      if skipped < Offset(q) {
        assert Drop(Offset(q), matched + [head]) == Drop(Offset(q), matched);
      } else {
        assert (matched + [head])[Offset(q)..] == matched[Offset(q)..] + [head];
      }
    } else {
      assert matched + [] == matched;
    }
  }

  ghost function Remaining(parts: Parts, pos: seq<nat>, upto: nat): int
    requires |pos| == |parts.entries| && upto <= |pos|
  {
    if upto == 0 then 0 else |parts.entries[upto - 1]| - pos[upto - 1] + Remaining(parts, pos, upto - 1)
  }

  lemma {:induction false} RemainingStep(parts: Parts, pos: seq<nat>, o: nat, upto: nat)
    requires |pos| == |parts.entries| && upto <= |pos| && o < |pos|
    ensures Remaining(parts, pos[o := pos[o] + 1], upto) == Remaining(parts, pos, upto) - (if o < upto then 1 else 0)
    decreases upto
  {
    if upto > 0 { RemainingStep(parts, pos, o, upto - 1); }
  }

  lemma {:induction false} RemainingPositive(parts: Parts, starts: seq<nat>, pos: seq<nat>, upto: nat)
    requires PositionsOk(parts, starts, pos) && upto <= |pos|
    ensures Remaining(parts, pos, upto) >= 0
    decreases upto
  {
    if upto > 0 { RemainingPositive(parts, starts, pos, upto - 1); }
  }

  /** sort.Search: the first entry not newer than until. */
  method SearchUntil(q: Query, entries: seq<Entry>) returns (position: nat)
    requires Ordered(EntryBefore, entries)
    ensures position <= |entries|
    ensures forall n :: 0 <= n < |entries| ==> (n < position <==> !BeforeUntil(q, entries[n].receivedAt))
  {
    position := 0;
    if q.until.Some? {
      var high := |entries|;
      while position < high
        invariant position <= high <= |entries|
        invariant forall n :: 0 <= n < position ==> entries[n].receivedAt > q.until.value
        invariant forall n :: high <= n < |entries| ==> entries[n].receivedAt <= q.until.value
      {
        var middle := (position + high) / 2;
        if entries[middle].receivedAt > q.until.value {
          forall n | 0 <= n < middle ensures entries[n].receivedAt > q.until.value {
            assert EntryBefore(entries[n], entries[middle]);
          }
          position := middle + 1;
        } else {
          forall n | middle < n < |entries| ensures entries[n].receivedAt <= q.until.value {
            assert EntryBefore(entries[middle], entries[n]);
          }
          high := middle;
        }
      }
    }
  }

  ghost predicate StartsAtUntil(q: Query, parts: Parts, starts: seq<nat>) {
    && |starts| == |parts.entries|
    && forall o, n :: 0 <= o < |parts.entries| && 0 <= n < |parts.entries[o]| ==>
         (n < starts[o] <==> !BeforeUntil(q, parts.entries[o][n].receivedAt))
  }

  predicate StartsAt(parts: Parts, position: nat, c: IndexCursor)
    requires |parts.paths| == |parts.entries|
  {
    && c.order < |parts.entries| && position < |parts.entries[c.order]|
    && c == IndexCursor(parts.paths[c.order], parts.entries[c.order], position, c.order)
  }

  /** One cursor per partition that has records to offer. */
  method StartCursors(q: Query, parts: Parts) returns (items: seq<IndexCursor>, starts: seq<nat>)
    requires PartsOk(parts)
    ensures AllReady(items) && StartsAtUntil(q, parts, starts)
    ensures Merging(parts, starts, starts, [], items)
  {
    items, starts := [], [];
    for o := 0 to |parts.entries|
      invariant |starts| == o && AllReady(items)
      invariant forall p :: 0 <= p < o ==> starts[p] <= |parts.entries[p]|
      invariant forall p, n :: 0 <= p < o && 0 <= n < |parts.entries[p]| ==>
        (n < starts[p] <==> !BeforeUntil(q, parts.entries[p][n].receivedAt))
      invariant forall c :: multiset(items)[c] == if c.order < o && StartsAt(parts, starts[c.order], c) then 1 else 0
    {
      var position := SearchUntil(q, parts.entries[o]);
      if position < |parts.entries[o]| {
        items := items + [IndexCursor(parts.paths[o], parts.entries[o], position, o)];
      }
      starts := starts + [position];
    }
  }

  /** When the loop stops, what was returned is the page of the simple query. */
  lemma Conclude(q: Query, decode: MessageDecoder, contents: seq<string>, scans: seq<seq<Entry>>, parts: Parts,
                 starts: seq<nat>, pos: seq<nat>, popped: seq<Ref>, items: seq<IndexCursor>, skipped: nat,
                 messages: seq<Message>)
    requires Merging(parts, starts, pos, popped, items) && StartsAtUntil(q, parts, starts)
    requires |scans| == |parts.entries| && forall o :: 0 <= o < |scans| ==>
      Comparable(EntryBefore, scans[o]) && SortOf(EntryBefore, parts.entries[o], scans[o])
    requires Emitted(q, decode, contents, popped, skipped, messages) && |messages| <= Limit(q)
    requires |messages| == Limit(q) || forall r, n :: At(parts, r, n) && pos[r.order] <= n ==>
      !Matches(q, decode, contents, r)
    ensures Decoded(decode, contents, NaiveQuery(q, decode, contents, scans), messages)
  {
    var keep := (r: Ref) => Matches(q, decode, contents, r);
    var sorted := Sort(Newer, AllRefs(scans));
    AllRefsComparable(scans);
    NewerIsStrict();
    SortSorts(Newer, AllRefs(scans));
    forall r ensures r in sorted <==> exists n :: At(parts, r, n) {
      AllRefsMembers(scans, r);
      if r in sorted {
        assert r.entry in parts.entries[r.order];
        var n :| 0 <= n < |parts.entries[r.order]| && parts.entries[r.order][n] == r.entry;
        assert At(parts, r, n);
      }
      if n :| At(parts, r, n) { assert r.entry in parts.entries[r.order]; }
    }
    SortedSplits(q, parts, starts, pos, popped, sorted);
    var front, back := Filter((r: Ref) => TooNew(q, r), sorted), Filter((r: Ref) => Left(q, popped, r), sorted);
    forall r | r in front ensures !keep(r) { FilterMembers((r: Ref) => TooNew(q, r), sorted, r); }
    if |messages| != Limit(q) {
      forall r | r in back ensures !keep(r) {
        FilterMembers((r: Ref) => Left(q, popped, r), sorted, r);
        var n :| At(parts, r, n);
        assert n >= pos[r.order];
      }
    }
    PageComplete(q, keep, sorted, front, popped, back);
  }

  /** Nothing is left when the heap is empty. */
  lemma EmptyHeapIsDone(parts: Parts, starts: seq<nat>, pos: seq<nat>, popped: seq<Ref>)
    requires Merging(parts, starts, pos, popped, [])
    ensures forall r, n :: At(parts, r, n) ==> n < pos[r.order]
  {
    forall r, n | At(parts, r, n) ensures n < pos[r.order] {
      var c := IndexCursor(parts.paths[r.order], parts.entries[r.order], pos[r.order], r.order);
      assert multiset([])[c] == 0;
      assert !Expected(parts, pos, c);
    }
  }

  /** Once the newest head is older than since, everything left is. */
  lemma TooOldFromHere(q: Query, parts: Parts, starts: seq<nat>, pos: seq<nat>, popped: seq<Ref>,
                       items: seq<IndexCursor>, x: IndexCursor, r: Ref, n: nat)
    requires Merging(parts, starts, pos, popped, items) && At(parts, r, n) && pos[r.order] <= n
    requires x in items && (forall k :: 0 <= k < |items| ==> NotAfter(x, items[k]))
    requires Ready(x) && !SinceOk(q, Head(x).entry.receivedAt)
    ensures !SinceOk(q, r.entry.receivedAt)
  {
    assert x in multiset(items);
    if !(r.order == x.order && n == x.position) { PoppedIsNext(parts, starts, pos, items, x, r, n); }
  }

  /** What happens to one popped record: host filter, early skip without a text filter, text filter, late skip,
      collect. */
  method Consider(q: Query, decode: MessageDecoder, contents: seq<string>, head: Ref, skipped: nat,
                  messages: seq<Message>, ghost popped: seq<Ref>)
    returns (readable: bool, skipped': nat, messages': seq<Message>)
    requires !q.text.InvalidFilter? && BeforeUntil(q, head.entry.receivedAt) && SinceOk(q, head.entry.receivedAt)
    requires Emitted(q, decode, contents, popped, skipped, messages) && |messages| < Limit(q)
    ensures readable ==> Emitted(q, decode, contents, popped + [head], skipped', messages') && |messages'| <= Limit(q)
    ensures !readable ==> decode(LineOf(contents, head)).None?
  {
    readable, skipped', messages' := true, skipped, messages;
    EmitStep(q, decode, contents, popped, skipped, messages, head);
    if q.hosts != {} && head.entry.host !in q.hosts {
      return;
    }
    if q.text.AllText? && skipped < Offset(q) {
      skipped' := skipped + 1;
      return;
    }
    var message := decode(LineOf(contents, head));
    if message.None? {
      readable := false;
      return;
    }
    if q.text.Matching? && !q.text.keep(message.value) {
      return;
    }
    if skipped < Offset(q) {
      skipped' := skipped + 1;
      return;
    }
    messages' := messages + [message.value];
  }

  /** Puts the popped cursor back at its next record, if it has one. */
  method Reinsert(pending: Heap, cursor: IndexCursor, ghost parts: Parts, ghost pos: seq<nat>,
                  ghost before: seq<IndexCursor>)
    requires IsHeap(pending.items) && Ready(cursor)
    requires |pos| == |parts.entries| == |parts.paths| && HoldsExpected(parts, pos, before)
    requires Expected(parts, pos, cursor)
    requires multiset(before) == multiset(pending.items) + multiset{cursor}
    modifies pending
    ensures IsHeap(pending.items) && HoldsExpected(parts, pos[cursor.order := cursor.position + 1], pending.items)
  {
    var next := cursor.(position := cursor.position + 1);
    if next.position < |next.entries| {
      pending.Push(next);
    }
    ExpectedStep(parts, pos, before, cursor, pending.items);
  }

  lemma PoppedFacts(q: Query, parts: Parts, starts: seq<nat>, pos: seq<nat>, popped: seq<Ref>,
                    before: seq<IndexCursor>, cursor: IndexCursor)
    requires Merging(parts, starts, pos, popped, before) && StartsAtUntil(q, parts, starts)
    requires cursor in before && (forall k :: 0 <= k < |before| ==> NotAfter(cursor, before[k]))
    ensures Expected(parts, pos, cursor)
    ensures
      var pos' := pos[cursor.order := cursor.position + 1];
      && PositionsOk(parts, starts, pos') && Merged(parts, starts, pos', popped + [Head(cursor)])
      && 0 <= Remaining(parts, pos', |pos'|) < Remaining(parts, pos, |pos|)
    ensures BeforeUntil(q, Head(cursor).entry.receivedAt) && Head(cursor).entry in parts.entries[cursor.order]
  {
    MergeStep(parts, starts, pos, popped, before, cursor);
    RemainingStep(parts, pos, cursor.order, |pos|);
    var pos' := pos[cursor.order := cursor.position + 1];
    RemainingPositive(parts, starts, pos', |pos'|);
    assert pos[cursor.order] == cursor.position && starts[cursor.order] <= cursor.position;
  }

  /** The merge loop: pops the newest head, stops at since, filters, skips and collects. */
  method Merge(q: Query, decode: MessageDecoder, contents: seq<string>, ghost scans: seq<seq<Entry>>, parts: Parts)
    returns (r: Result<seq<Message>, QueryError>)
    requires !q.text.InvalidFilter? && PartsOk(parts) && |contents| == |parts.entries|
    requires |scans| == |parts.entries| && forall o :: 0 <= o < |scans| ==>
      Comparable(EntryBefore, scans[o]) && SortOf(EntryBefore, parts.entries[o], scans[o])
    ensures r.Success? ==> Decoded(decode, contents, NaiveQuery(q, decode, contents, scans), r.value)
    ensures r.Failure? ==> r.error == UndecodableMessage
    ensures r.Failure? ==> exists ref :: ref in AllRefs(scans) && decode(LineOf(contents, ref)).None?
  {
    var items, starts := StartCursors(q, parts);
    var pending := new Heap(items);
    pending.Init();
    ghost var pos: seq<nat>, popped: seq<Ref> := starts, [];
    var messages: seq<Message> := [];
    var skipped := 0;
    while |pending.items| > 0 && |messages| < Limit(q)
      invariant IsHeap(pending.items)
      invariant Merging(parts, starts, pos, popped, pending.items)
      invariant Emitted(q, decode, contents, popped, skipped, messages) && |messages| <= Limit(q)
      decreases Remaining(parts, pos, |pos|)
    {
      ghost var before := pending.items;
      var cursor := pending.Pop();
      assert cursor in multiset(before);
      PoppedFacts(q, parts, starts, pos, popped, before, cursor);
      var head := Head(cursor);
      if q.since.Some? && head.entry.receivedAt < q.since.value {
        forall s, n | At(parts, s, n) && pos[s.order] <= n ensures !Matches(q, decode, contents, s) {
          TooOldFromHere(q, parts, starts, pos, popped, before, cursor, s, n);
        }
        Conclude(q, decode, contents, scans, parts, starts, pos, popped, before, skipped, messages);
        return Success(messages);
      }
      Reinsert(pending, cursor, parts, pos, before);
      var readable;
      readable, skipped, messages := Consider(q, decode, contents, head, skipped, messages, popped);
      if !readable {
        AllRefsMembers(scans, head);
        return Failure(UndecodableMessage);
      }
      pos := pos[cursor.order := cursor.position + 1];
      popped := popped + [head];
    }
    if |messages| < Limit(q) {
      EmptyHeapIsDone(parts, starts, pos, popped);
    }
    Conclude(q, decode, contents, scans, parts, starts, pos, popped, pending.items, skipped, messages);
    return Success(messages);
  }

  // ---------- the query ----------

  function Contents(files: map<string, File>, paths: seq<string>): (contents: seq<string>)
    requires forall path :: path in paths ==> path in files
    ensures |contents| == |paths| && forall o :: 0 <= o < |paths| ==> contents[o] == files[paths[o]].content
  {
    seq(|paths|, o requires 0 <= o < |paths| => assert paths[o] in paths; files[paths[o]].content)
  }

  /** What the query takes to be stored: of each partition the records of a scan, where its index was right when
      asked, and else what the refreshed index says. */
  ghost predicate Known(store: FileStore, right: set<string>, paths: seq<string>, scans: seq<seq<Entry>>)
    requires forall path :: path in paths ==> path in store.files
    reads store
  {
    && |scans| == |paths|
    && forall o :: 0 <= o < |paths| ==> KnownAt(store, right, paths[o], scans[o])
  }

  ghost predicate KnownAt(store: FileStore, right: set<string>, path: string, scan: seq<Entry>)
    reads store
  {
    && path in store.files && path in store.indexes
    && if path in right then Scan(store.decode, store.files[path].content, 0) == Some(scan)
       else scan == store.indexes[path].entries
  }

  /** The partitions whose index, as far as it is trusted, is right. */
  ghost function FreshPaths(store: FileStore): set<string>
    reads store
  {
    set path | path in store.files && store.FreshAt(path)
  }

  /** What is known of a partition has one index order, that of its refreshed index. */
  lemma KnownSorts(store: FileStore, right: set<string>, path: string) returns (scan: seq<Entry>)
    requires store.Sound() && path in store.files && path in store.indexes
    requires path in right ==> store.RescannedAt(store.indexes[path], path)
    ensures KnownAt(store, right, path, scan)
    ensures Comparable(EntryBefore, scan) && SortOf(EntryBefore, store.indexes[path].entries, scan)
  {
    if path in right {
      scan := Scan(store.decode, store.files[path].content, 0).value;
      ScanComparable(store.decode, store.files[path].content, 0);
      IndexSorts(store.decode, store.files[path].content);
    } else {
      scan := store.indexes[path].entries;
    }
  }

  lemma AllKnown(store: FileStore, right: set<string>, paths: seq<string>) returns (scans: seq<seq<Entry>>)
    requires store.Sound() && forall path :: path in paths ==> path in store.files && path in store.indexes
    requires forall path :: path in right && path in paths ==> store.RescannedAt(store.indexes[path], path)
    ensures Known(store, right, paths, scans)
    ensures forall o :: 0 <= o < |paths| ==>
      Comparable(EntryBefore, scans[o]) && SortOf(EntryBefore, store.indexes[paths[o]].entries, scans[o])
  {
    scans := [];
    for n := 0 to |paths|
      invariant |scans| == n
      invariant forall o :: 0 <= o < n ==> KnownAt(store, right, paths[o], scans[o])
      invariant forall o :: 0 <= o < n ==>
        Comparable(EntryBefore, scans[o]) && SortOf(EntryBefore, store.indexes[paths[o]].entries, scans[o])
    {
      assert paths[n] in paths;
      var scan := KnownSorts(store, right, paths[n]);
      scans := scans + [scan];
    }
  }

  /** The entries of the partitions, as listed. */
  function PartsOf(indexes: map<string, FileIndex>, paths: seq<string>): (parts: Parts)
    requires forall path :: path in paths ==> path in indexes
    ensures parts.paths == paths && |parts.entries| == |paths|
    ensures forall o :: 0 <= o < |paths| ==> parts.entries[o] == indexes[paths[o]].entries
  {
    Parts(paths, seq(|paths|, o requires 0 <= o < |paths| => assert paths[o] in paths; indexes[paths[o]].entries))
  }

  /** Query refines the simple one: it returns the decoded page of sorting and filtering everything known to be stored,
      which is everything stored unless a partition was rewritten behind its index; it fails only on a bad filter or
      when some stored line does not decode. */
  method RunQuery(store: FileStore, decode: MessageDecoder, q: Query)
    returns (r: Result<seq<Message>, QueryError>, ghost paths: seq<string>, ghost scans: seq<seq<Entry>>)
    requires store.Sound()
    modifies store`indexes
    ensures store.Sound() && (old(store.Fresh()) ==> store.Fresh())
    ensures r.Success? || (r.Failure? && r.error == UndecodableMessage) ==>
      && SortOf(PathBefore, paths, paths) && (forall path :: path in paths <==> path in store.files)
      && Known(store, old(FreshPaths(store)), paths, scans)
      && forall path :: path in store.files ==> var idx := store.indexes[path]; old(store.CarriedAt(path, idx.entries))
    ensures r.Success? ==>
      var contents := Contents(store.files, paths);
      Decoded(decode, contents, NaiveQuery(q, decode, contents, scans), r.value)
    ensures r.Failure? && r.error == UndecodableMessage ==>
      var contents := Contents(store.files, paths);
      exists ref :: ref in AllRefs(scans) && decode(LineOf(contents, ref)).None?
    ensures r.Failure? && r.error == UndecodableIndex ==>
      && (exists path :: store.UndecodableAt(path))
      && (old(store.Fresh()) ==>
            exists path :: path in store.files && Scan(store.decode, store.files[path].content, 0).None?)
    ensures r == Failure(BadFilter) <==> q.text.InvalidFilter?
  {
    paths, scans := [], [];
    if q.text.InvalidFilter? {
      return Failure(BadFilter), paths, scans;
    }
    ghost var right := FreshPaths(store);
    var ok, listed := store.QueryIndexes();
    if !ok {
      return Failure(UndecodableIndex), paths, scans;
    }
    paths := listed;
    var contents := Contents(store.files, listed);
    var parts := PartsOf(store.indexes, listed);
    scans := AllKnown(store, right, listed);
    r := Merge(q, decode, contents, scans, parts);
  }
}
