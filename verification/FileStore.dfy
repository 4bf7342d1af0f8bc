/** The message store: partitions that grow by whole lines, and the cached index of each. */
module MessageStore {
  import opened Wrappers
  import opened IncidentState
  import opened Lines
  import opened Sorting
  import opened PartitionIndex

  /** A partition as the file system shows it. */
  datatype File = File(inode: nat, modTime: Time, content: string)

  datatype FileInfo = FileInfo(inode: nat, size: nat, modTime: Time)

  datatype FileIndex = FileIndex(info: FileInfo, entries: seq<Entry>)

  function Stat(f: File): FileInfo { FileInfo(f.inode, |f.content|, f.modTime) }

  // ---------- path order ----------

  predicate StringBefore(a: string, b: string) {
    if b == [] then false
    else if a == [] then true
    else a[0] < b[0] || (a[0] == b[0] && StringBefore(a[1..], b[1..]))
  }

  /** Partitions are listed in descending path order. */
  predicate PathBefore(a: string, b: string) { StringBefore(b, a) }

  lemma {:induction false} StringTrichotomy(a: string, b: string)
    ensures a == b || StringBefore(a, b) || StringBefore(b, a)
    ensures !(StringBefore(a, b) && StringBefore(b, a))
    decreases |a|
  {
    if a != [] && b != [] && a[0] == b[0] {
      StringTrichotomy(a[1..], b[1..]);
      assert a == [a[0]] + a[1..] && b == [b[0]] + b[1..];
    }
  }

  lemma {:induction false} StringTransitive(a: string, b: string, c: string)
    requires StringBefore(a, b) && StringBefore(b, c)
    ensures StringBefore(a, c)
    decreases |a|
  {
    if a != [] && b != [] && c != [] && a[0] == b[0] == c[0] {
      StringTransitive(a[1..], b[1..], c[1..]);
    }
  }

  lemma PathOrderIsStrict(items: seq<string>)
    requires forall m, n :: 0 <= m < n < |items| ==> items[m] != items[n]
    ensures Transitive(PathBefore) && Asymmetric(PathBefore) && Comparable(PathBefore, items)
  {
    forall a, b, c | PathBefore(a, b) && PathBefore(b, c) ensures PathBefore(a, c) { StringTransitive(c, b, a); }
    forall a, b ensures PathBefore(a, b) ==> !PathBefore(b, a) { StringTrichotomy(a, b); }
    forall m, n | 0 <= m < n < |items| ensures PathBefore(items[m], items[n]) || PathBefore(items[n], items[m]) {
      StringTrichotomy(items[m], items[n]);
    }
  }

  /** The strings agree up to n, where a ends, or has the smaller character. */
  predicate PartsFirst(a: string, b: string, n: nat) {
    && n <= |a| && n < |b| && a[..n] == b[..n]
    && (n < |a| ==> a[n] < b[n])
  }

  /** After a common prefix the smaller character comes first, and a string comes before its extensions. */
  ghost predicate InFront(a: string, b: string) {
    exists n: nat :: PartsFirst(a, b, n)
  }

  lemma PartsLater(a: string, b: string, n: nat)
    requires n > 0 && PartsFirst(a, b, n)
    ensures a != [] && b != [] && a[0] == b[0] && PartsFirst(a[1..], b[1..], n - 1)
  {
    assert a[..n][0] == b[..n][0];
    assert a[1..][..n - 1] == a[..n][1..] && b[1..][..n - 1] == b[..n][1..];
  }

  /** The order on concrete positions. */
  lemma {:induction false} StringOrderExact(a: string, b: string)
    ensures StringBefore(a, b) <==> InFront(a, b)
    decreases |a|
  {
    if n: nat :| n > 0 && PartsFirst(a, b, n) { PartsLater(a, b, n); }
    if a == [] || b == [] || a[0] != b[0] {
      if b != [] && (a == [] || a[0] < b[0]) { assert PartsFirst(a, b, 0); }
    } else {
      StringOrderExact(a[1..], b[1..]);
      assert a == [a[0]] + a[1..] && b == [b[0]] + b[1..];
      if n: nat :| PartsFirst(a[1..], b[1..], n) {
        assert a[..n + 1] == [a[0]] + a[1..][..n] && b[..n + 1] == [b[0]] + b[1..][..n];
        assert PartsFirst(a, b, n + 1);
      }
    }
  }

  /** Where two listed paths part, the later one has the smaller character, or ends. */
  ghost predicate NewestFirst(paths: seq<string>) {
    forall m, n :: 0 <= m < n < |paths| ==> InFront(paths[n], paths[m])
  }

  lemma ListedNewestFirst(paths: seq<string>)
    requires Ordered(PathBefore, paths)
    ensures NewestFirst(paths)
  {
    forall m, n | 0 <= m < n < |paths| ensures InFront(paths[n], paths[m]) {
      assert PathBefore(paths[m], paths[n]);
      StringOrderExact(paths[n], paths[m]);
    }
  }

  // ---------- scanning ----------

  /** The next line: everything up to and including the first newline, or all that is left. */
  method NextLine(data: string) returns (line: string)
    ensures line == data[..Cut(data)]
  {
    for n := 0 to |data|
      invariant forall m :: 0 <= m < n ==> data[m] != '\n'
    {
      if data[n] == '\n' {
        return data[..n + 1];
      }
    }
    return data;
  }

  /** Appends the entries of the data to those given, or fails on a line that does not decode. */
  method ScanIndex(decode: KeyDecoder, data: string, start: nat, previous: seq<Entry>) returns (r: Option<seq<Entry>>)
    ensures r == Both(Some(previous), Scan(decode, data, start))
  {
    var entries, rest := previous, data;
    var offset: nat := start;
    while rest != []
      invariant Both(Some(entries), Scan(decode, rest, offset)) == Both(Some(previous), Scan(decode, data, start))
      decreases |rest|
    {
      var line := NextLine(rest);
      var lines := SplitLines(rest[|line|..]);
      assert SplitLines(rest) == [line] + lines;
      assert ([line] + lines)[1..] == lines;
      match decode(line) {
        case None => return None;
        case Some(key) =>
          var entry := Entry(key.receivedAt, key.host, offset, |line|);
          ghost var tail := EntriesOf(decode, lines, offset + |line|);
          if tail.Some? { assert entries + ([entry] + tail.value) == (entries + [entry]) + tail.value; }
          entries := entries + [entry];
          offset := offset + |line|;
          rest := rest[|line|..];
      }
    }
    assert entries + [] == entries;
    return Some(entries);
  }

  class FileStore {
    /** Decodes the filter keys of a line. */
    const decode: KeyDecoder
    var files: map<string, File>
    var indexes: map<string, FileIndex>

    constructor (decode: KeyDecoder)
      ensures this.decode == decode && files == map[] && indexes == map[]
      ensures Valid()
    {
      this.decode := decode;
      files, indexes := map[], map[];
    }

    /** The cached index would be reused or extended, judging by what the file system shows. */
    predicate Trusted(idx: FileIndex, f: File) {
      && idx.info.inode == f.inode
      && (idx.info.size < |f.content| || (idx.info.size == |f.content| && idx.info.modTime == f.modTime))
    }

    /** The cached entries are the index of the part of the file they cover, and nothing of a line beyond it. */
    ghost predicate Covers(idx: FileIndex, f: File) {
      && idx.info.size <= |f.content|
      && IndexOf(decode, f.content[..idx.info.size]) == Some(idx.entries)
      && (idx.info.size < |f.content| ==> Whole(f.content[..idx.info.size]))
    }

    /** What holds of every cached index, right or wrong, whatever happens to the partitions. */
    ghost predicate Sound()
      reads this`indexes
    {
      forall path :: path in indexes ==> IndexShape(indexes[path].entries, indexes[path].info.size)
    }

    /** If the index of the partition is trusted now, it is right. */
    ghost predicate FreshAt(path: string)
      requires path in files
      reads this
    {
      path in indexes && Trusted(indexes[path], files[path]) ==> Covers(indexes[path], files[path])
    }

    /** Every index that would be trusted now is right. */
    ghost predicate Fresh()
      reads this
    {
      forall path :: path in files ==> FreshAt(path)
    }

    ghost predicate WholeFiles()
      reads this
    {
      forall path :: path in files ==> Whole(files[path].content)
    }

    /** Every index of a file that is still the same file is right: appending whole lines keeps it so. */
    ghost predicate Valid()
      reads this
    {
      && WholeFiles()
      && forall path :: path in files && path in indexes && indexes[path].info.inode == files[path].inode ==>
        Covers(indexes[path], files[path])
    }

    /** Appends one whole line, creating the partition if need be. Indexes that were right stay right, as long as
        a partition created anew is another file than the one indexed under its path. */
    method Append(path: string, line: string, inode: nat, modTime: Time)
      requires IsLine(line)
      modifies this`files
      ensures files == old(files)[path :=
        if path in old(files) then old(files)[path].(content := old(files)[path].content + line, modTime := modTime)
        else File(inode, modTime, line)]
      ensures old(WholeFiles()) ==> WholeFiles()
      ensures old(Valid()) && (path !in old(files) && path in indexes ==> indexes[path].info.inode != inode) ==> Valid()
    {
      if path in files {
        var f := files[path];
        files := files[path := f.(content := f.content + line, modTime := modTime)];
        if path in indexes && indexes[path].info.size <= |f.content| {
          assert (f.content + line)[..indexes[path].info.size] == f.content[..indexes[path].info.size];
        }
      } else {
        files := files[path := File(inode, modTime, line)];
      }
    }

    /** Replaces a partition by another file. */
    method Replace(path: string, f: File)
      modifies this`files
      ensures files == old(files)[path := f]
      ensures old(Fresh()) && (path in indexes ==> f.inode != indexes[path].info.inode) ==> Fresh()
      ensures old(Valid()) && Whole(f.content) && (path in indexes ==> f.inode != indexes[path].info.inode) ==> Valid()
    {
      assert old(Fresh()) ==> forall other :: other in files && other != path ==> old(FreshAt(other));
      files := files[path := f];
    }

    /** Rewrites a partition in place. The next refresh notices if the file shrank or kept its size under a new time. */
    method Rewrite(path: string, modTime: Time, content: string)
      requires path in files
      modifies this`files
      ensures files == old(files)[path := File(old(files)[path].inode, modTime, content)]
      ensures
        && old(Fresh())
        && (path in indexes ==>
              || |content| < indexes[path].info.size
              || (|content| == indexes[path].info.size && modTime != indexes[path].info.modTime))
        ==> Fresh()
    {
      assert old(Fresh()) ==> forall other :: other in files && other != path ==> old(FreshAt(other));
      files := files[path := File(files[path].inode, modTime, content)];
    }

    method Remove(path: string)
      modifies this`files
      ensures files == old(files) - {path} && (old(Fresh()) ==> Fresh()) && (old(Valid()) ==> Valid())
    {
      assert old(Fresh()) ==> forall other :: other in files ==> old(FreshAt(other));
      files := files - {path};
    }

    /** All partitions, newest path first. */
    method MessageFiles() returns (paths: seq<string>)
      ensures SortOf(PathBefore, paths, paths) && forall path :: path in paths <==> path in files
      ensures NewestFirst(paths)
    {
      var listed: seq<string> := [];
      var rest := files.Keys;
      while rest != {}
        invariant rest <= files.Keys
        invariant forall path :: path in listed <==> path in files && path !in rest
        invariant forall m, n :: 0 <= m < n < |listed| ==> listed[m] != listed[n]
        decreases |rest|
      {
        var path :| path in rest;
        rest := rest - {path};
        listed := listed + [path];
      }
      PathOrderIsStrict(listed);
      SortSorts(PathBefore, listed);
      paths := Sort(PathBefore, listed);
      ListedNewestFirst(paths);
    }

    /** Whether the index is that of a full rescan of its partition. */
    predicate RescannedAt(idx: FileIndex, path: string)
      reads this
    {
      path in files && IndexOf(decode, files[path].content) == Some(idx.entries)
    }

    /** What becomes of a trusted index: it is reused, or extended by what the partition grew by. */
    ghost predicate CarriedAt(path: string, entries: seq<Entry>)
      requires path in files
      reads this
    {
      path in indexes && Trusted(indexes[path], files[path]) ==>
        var previous := indexes[path];
        if previous.info.size == |files[path].content| then entries == previous.entries
        else Some(entries) == Extended(decode, previous.entries, previous.info.size, files[path].content)
    }

    /** Some part of the partition does not decode. */
    ghost predicate UndecodableAt(path: string)
      reads this
    {
      path in files && exists from: nat ::
        from <= |files[path].content| && Scan(decode, files[path].content[from..], from).None?
    }

    /** The partition is the file that was indexed, and not smaller than it was then. */
    predicate SameFile(path: string)
      reads this
    {
      && path in files && path in indexes && indexes[path].info.inode == files[path].inode
      && indexes[path].info.size <= |files[path].content|
    }

    /** The file is another one than was indexed, or smaller, or of the same size and another time. */
    predicate RescansAt(path: string)
      reads this
    {
      !SameFile(path)
      || (indexes[path].info.size == |files[path].content| && indexes[path].info.modTime != files[path].modTime)
    }

    /** The index of one partition: reused, extended, or scanned afresh. It is that of a full rescan exactly if the
        cached one, as far as it is trusted, was right. A cached index is extended if its file is larger than it was,
        reused if the file has the size and the time it had, and not looked at otherwise. */
    method RefreshOne(path: string) returns (r: Option<FileIndex>)
      requires Sound() && path in files
      ensures r.Some? ==> r.value.info == Stat(files[path]) && IndexShape(r.value.entries, |files[path].content|)
      ensures r.Some? ==> CarriedAt(path, r.value.entries) && (RescannedAt(r.value, path) <==> FreshAt(path))
      ensures r.Some? && SameFile(path) && indexes[path].info.size < |files[path].content| ==>
        Some(r.value.entries) == Extended(decode, indexes[path].entries, indexes[path].info.size, files[path].content)
      ensures SameFile(path) && indexes[path].info == Stat(files[path]) ==> r == Some(indexes[path])
      ensures r.Some? && RescansAt(path) ==> RescannedAt(r.value, path)
      ensures r.None? ==> UndecodableAt(path) && (FreshAt(path) ==> IndexOf(decode, files[path].content).None?)
    {
      var f := files[path];
      if path in indexes {
        var previous := indexes[path];
        var size := previous.info.size;
        if previous.info.inode == f.inode && size == |f.content| && previous.info.modTime == f.modTime {
          assert f.content[..size] == f.content;
          return Some(previous);
        }
        if previous.info.inode == f.inode && |f.content| > size {
          assert f.content[..size] + f.content[size..] == f.content;
          var extended := ScanIndex(decode, f.content[size..], size, previous.entries);
          if extended.None? {
            if FreshAt(path) { ExtendedIndexIsRescan(decode, f.content[..size], f.content[size..]); }
            return None;
          }
          ExtensionSorts(decode, previous.entries, size, f.content);
          ExtensionExact(decode, previous.entries, size, f.content);
          return Some(FileIndex(Stat(f), Sort(EntryBefore, extended.value)));
        }
      }
      assert f.content[0..] == f.content;
      var scanned := ScanIndex(decode, f.content, 0, []);
      if scanned.None? { return None; }
      assert [] + Scan(decode, f.content, 0).value == Scan(decode, f.content, 0).value;
      IndexIsShaped(decode, f.content);
      return Some(FileIndex(Stat(f), Sort(EntryBefore, scanned.value)));
    }

    /** The cache after a refresh of its partitions. */
    ghost predicate Refreshed(cache: map<string, FileIndex>)
      reads this
    {
      forall path :: path in cache ==>
        && path in files
        && cache[path].info == Stat(files[path]) && IndexShape(cache[path].entries, |files[path].content|)
        && CarriedAt(path, cache[path].entries) && (RescannedAt(cache[path], path) <==> FreshAt(path))
    }

    lemma RefreshedIsValid(cache: map<string, FileIndex>)
      requires Fresh() && Refreshed(cache)
      ensures forall path :: path in files && path in cache ==>
        Covers(cache[path], files[path]) && IndexOf(decode, files[path].content).Some?
    {
      forall path | path in files && path in cache
        ensures Covers(cache[path], files[path]) && IndexOf(decode, files[path].content).Some?
      {
        assert FreshAt(path) && RescannedAt(cache[path], path);
        assert files[path].content[..|files[path].content|] == files[path].content;
      }
    }

    method RefreshAll(paths: seq<string>) returns (ok: bool, next: map<string, FileIndex>)
      requires Sound() && forall path :: path in paths ==> path in files
      ensures ok ==> Refreshed(next) && forall path :: path in next <==> path in paths
      ensures !ok ==> exists path ::
        path in paths && UndecodableAt(path) && (FreshAt(path) ==> IndexOf(decode, files[path].content).None?)
    {
      next := map[];
      for n := 0 to |paths|
        invariant forall path :: path in next <==> path in paths[..n]
        invariant Refreshed(next)
      {
        var path := paths[n];
        assert path in paths && paths[..n + 1] == paths[..n] + [path];
        var idx := RefreshOne(path);
        if idx.None? { return false, next; }
        next := next[path := idx.value];
      }
      assert paths[..|paths|] == paths;
      ok := true;
    }

    /** Refreshes every index. Afterwards each one is that of a full rescan exactly if what was trusted of the cached
        one was right; if a line does not decode, nothing changes. */
    method QueryIndexes() returns (ok: bool, paths: seq<string>)
      requires Sound()
      modifies this`indexes
      ensures Sound()
      ensures ok ==> indexes.Keys == files.Keys && forall path :: path in files ==>
        var idx := indexes[path];
        && idx.info == Stat(files[path]) && (RescannedAt(idx, path) <==> old(FreshAt(path)))
        && old(CarriedAt(path, idx.entries))
      ensures ok && old(Fresh()) ==> Fresh() && (WholeFiles() ==> Valid())
      ensures old(Fresh()) ==> (ok <==> forall path :: path in files ==> IndexOf(decode, files[path].content).Some?)
      ensures ok ==> SortOf(PathBefore, paths, paths) && forall path :: path in paths <==> path in files
      ensures !ok ==> indexes == old(indexes) && exists path :: UndecodableAt(path)
    {
      paths := MessageFiles();
      var next;
      ok, next := RefreshAll(paths);
      if ok {
        if Fresh() { RefreshedIsValid(next); }
        indexes := next;
      }
    }
  }
}
