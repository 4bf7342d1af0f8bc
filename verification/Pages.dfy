/** Pages of query results: over-fetching by one tells whether there are more. */
module Pages {
  import opened Wrappers
  import opened Sorting
  import opened PartitionIndex
  import opened MessageStore
  import opened MessageQuery
  import opened Messages

  datatype Page = Page(data: seq<Message>, count: nat, limit: int, offset: int, hasMore: bool)

  lemma {:induction false} FilterSame<T(!new)>(a: T -> bool, b: T -> bool, s: seq<T>)
    requires forall x :: a(x) == b(x)
    ensures Filter(a, s) == Filter(b, s)
    decreases |s|
  {
    if s != [] { FilterSame(a, b, s[1..]); }
  }

  /** Every matching record, in result order. */
  function AllMatches(q: Query, decode: MessageDecoder, contents: seq<string>, scans: seq<seq<Entry>>): seq<Ref> {
    Filter((r: Ref) => Matches(q, decode, contents, r), Sort(Newer, AllRefs(scans)))
  }

  /** The stored record is within the times and among the hosts asked for, both times included; no hosts means any. */
  predicate Asked(q: Query, entry: Entry) {
    && (q.since.Some? ==> q.since.value <= entry.receivedAt)
    && (q.until.Some? ==> entry.receivedAt <= q.until.value)
    && (q.hosts == {} || entry.host in q.hosts)
  }

  /** The text asked for is found in the stored line, or none was asked for. */
  predicate TextFound(q: Query, decode: MessageDecoder, line: string) {
    q.text == AllText || (q.text.Matching? && decode(line).Some? && q.text.keep(decode(line).value))
  }

  /** The matches are exactly the stored records asked for in which the text is found. */
  lemma MatchesExact(q: Query, decode: MessageDecoder, contents: seq<string>, scans: seq<seq<Entry>>, r: Ref)
    requires |contents| == |scans|
    requires r.order < |scans| && r.entry in scans[r.order] ==>
      r.entry.offset + r.entry.length <= |contents[r.order]|
    ensures r in AllMatches(q, decode, contents, scans) <==>
      && r.order < |scans| && r.entry in scans[r.order] && Asked(q, r.entry)
      && TextFound(q, decode, contents[r.order][r.entry.offset..r.entry.offset + r.entry.length])
  {
    FilterMembers((ref: Ref) => Matches(q, decode, contents, ref), Sort(Newer, AllRefs(scans)), r);
    SortMembers(Newer, AllRefs(scans), r);
    AllRefsMembers(scans, r);
  }

  /** They are listed newest first; of one instant, by their partitions' place in the listing; of one partition, last
      written first. None is listed twice. */
  lemma MatchesInOrder(q: Query, decode: MessageDecoder, contents: seq<string>, scans: seq<seq<Entry>>, m: nat, n: nat)
    requires forall o :: 0 <= o < |scans| ==> Comparable(EntryBefore, scans[o])
    requires m < n < |AllMatches(q, decode, contents, scans)|
    ensures
      var a, b := AllMatches(q, decode, contents, scans)[m], AllMatches(q, decode, contents, scans)[n];
      if a.entry.receivedAt != b.entry.receivedAt then a.entry.receivedAt > b.entry.receivedAt
      else if a.order != b.order then a.order < b.order
      else a.entry.offset > b.entry.offset
  {
    NewerIsStrict();
    AllRefsComparable(scans);
    SortSorts(Newer, AllRefs(scans));
    FilterOrdered(Newer, (ref: Ref) => Matches(q, decode, contents, ref), Sort(Newer, AllRefs(scans)));
  }

  /** A query shows the matches from its offset on, as many as its limit: a negative offset is none, and without a
      positive limit it is 200. */
  lemma WindowExact(q: Query, decode: MessageDecoder, contents: seq<string>, scans: seq<seq<Entry>>, n: nat)
    ensures
      var all, shown := AllMatches(q, decode, contents, scans), NaiveQuery(q, decode, contents, scans);
      var skipped, limit := if q.offset > 0 then q.offset else 0, if q.limit > 0 then q.limit else 200;
      && (n < |shown| <==> n < limit && skipped + n < |all|)
      && (n < |shown| ==> shown[n] == all[skipped + n])
  {
  }

  /** Changing limit and offset only moves the window over the matches. */
  lemma QueryIsWindow(q: Query, decode: MessageDecoder, contents: seq<string>, scans: seq<seq<Entry>>, limit: nat,
                      offset: nat)
    requires limit > 0
    ensures NaiveQuery(q.(limit := limit, offset := offset), decode, contents, scans) ==
      Take(limit, Drop(offset, AllMatches(q, decode, contents, scans)))
  {
    var p := q.(limit := limit, offset := offset);
    FilterSame((r: Ref) => Matches(p, decode, contents, r), (r: Ref) => Matches(q, decode, contents, r),
               Sort(Newer, AllRefs(scans)));
  }

  /** One record more than the page shows tells whether there are more. */
  lemma OverFetched(q: Query, decode: MessageDecoder, contents: seq<string>, scans: seq<seq<Entry>>,
                    messages: seq<Message>)
    requires q.limit > 0 && q.offset >= 0
    requires Decoded(decode, contents, NaiveQuery(q.(limit := q.limit + 1), decode, contents, scans), messages)
    ensures
      var all := AllMatches(q, decode, contents, scans);
      && (|messages| > q.limit <==> q.offset + q.limit < |all|)
      && Decoded(decode, contents, Take(q.limit, Drop(q.offset, all)), Take(q.limit, messages))
  {
    QueryIsWindow(q, decode, contents, scans, q.limit + 1, q.offset);
  }

  /** One page request. The query's limit and offset come parsed: at least one, and not negative. */
  method HandleMessages(store: FileStore, decode: MessageDecoder, q: Query)
    returns (r: Result<Page, QueryError>, ghost paths: seq<string>, ghost scans: seq<seq<Entry>>)
    requires store.Sound() && q.limit > 0 && q.offset >= 0
    modifies store`indexes
    ensures store.Sound() && (old(store.Fresh()) ==> store.Fresh())
    ensures r == Failure(BadFilter) <==> q.text.InvalidFilter?
    ensures r.Failure? && r.error == UndecodableIndex ==>
      && (exists path :: store.UndecodableAt(path))
      && (old(store.Fresh()) ==>
            exists path :: path in store.files && Scan(store.decode, store.files[path].content, 0).None?)
    ensures r.Success? ==>
      && SortOf(PathBefore, paths, paths) && (forall path :: path in paths <==> path in store.files)
      && Known(store, old(FreshPaths(store)), paths, scans)
    ensures r.Success? ==>
      var contents := Contents(store.files, paths);
      var all := AllMatches(q, decode, contents, scans);
      && Decoded(decode, contents, Take(q.limit, Drop(q.offset, all)), r.value.data)
      && r.value.count == |r.value.data| && r.value.limit == q.limit && r.value.offset == q.offset
      && (r.value.hasMore <==> q.offset + q.limit < |all|)
  {
    var storeQuery := q.(limit := q.limit + 1);
    var result;
    result, paths, scans := RunQuery(store, decode, storeQuery);
    if result.Failure? {
      return Failure(result.error), paths, scans;
    }
    var messages := result.value;
    ghost var contents := Contents(store.files, paths);
    ghost var all := AllMatches(q, decode, contents, scans);
    OverFetched(q, decode, contents, scans, messages);
    var hasMore := |messages| > q.limit;
    if hasMore {
      messages := messages[..q.limit];
    }
    r := Success(Page(messages, |messages|, q.limit, q.offset, hasMore));
  }

  /** Following the pages from an offset until the last one says there are no more. */
  function Walk<T>(all: seq<T>, limit: nat, offset: nat): seq<T>
    requires limit > 0
    decreases if offset < |all| then |all| - offset else 0
  {
    Take(limit, Drop(offset, all)) + if offset + limit < |all| then Walk(all, limit, offset + limit) else []
  }

  /** Walking the pages visits every matching record once, in order. */
  lemma {:induction false} WalkIsComplete<T>(all: seq<T>, limit: nat, offset: nat)
    requires limit > 0
    ensures Walk(all, limit, offset) == Drop(offset, all)
    decreases if offset < |all| then |all| - offset else 0
  {
    if offset + limit < |all| {
      WalkIsComplete(all, limit, offset + limit);
      assert all[offset..] == all[offset..][..limit] + all[offset + limit..];
    }
  }

  /** The page walk over an unchanged store: requests at offsets 0, limit, 2*limit, ... give exactly the matches. */
  lemma PageWalk(q: Query, decode: MessageDecoder, contents: seq<string>, scans: seq<seq<Entry>>, limit: nat)
    requires limit > 0
    ensures Walk(AllMatches(q, decode, contents, scans), limit, 0) == AllMatches(q, decode, contents, scans)
    ensures forall offset: nat ::
      var asked := NaiveQuery(q.(limit := limit + 1, offset := offset), decode, contents, scans);
      && (|asked| > limit <==> offset + limit < |AllMatches(q, decode, contents, scans)|)
      && Take(limit, asked) == Take(limit, Drop(offset, AllMatches(q, decode, contents, scans)))
  {
    WalkIsComplete(AllMatches(q, decode, contents, scans), limit, 0);
    forall offset: nat
      ensures
        var asked := NaiveQuery(q.(limit := limit + 1, offset := offset), decode, contents, scans);
        && (|asked| > limit <==> offset + limit < |AllMatches(q, decode, contents, scans)|)
        && Take(limit, asked) == Take(limit, Drop(offset, AllMatches(q, decode, contents, scans)))
    {
      QueryIsWindow(q, decode, contents, scans, limit + 1, offset);
    }
  }
}
