/** Message partitions as byte strings, and how they split into lines. */
module Lines {

  /** The length of the first line, its newline included; a last line may lack one. */
  function Cut(s: string): (n: nat)
    ensures n <= |s| && (s != [] ==> n > 0)
    ensures forall m :: 0 <= m < n - 1 ==> s[m] != '\n'
    ensures n < |s| ==> s[n - 1] == '\n'
  {
    if s == [] then 0 else if s[0] == '\n' then 1 else 1 + Cut(s[1..])
  }

  function SplitLines(s: string): (lines: seq<string>)
    decreases |s|
  {
    if s == [] then [] else [s[..Cut(s)]] + SplitLines(s[Cut(s)..])
  }

  /** The content ends at a line boundary. */
  predicate Whole(s: string) {
    s == [] || s[|s| - 1] == '\n'
  }

  function Join(lines: seq<string>): string {
    if lines == [] then [] else lines[0] + Join(lines[1..])
  }

  /** A stored line: a newline at its end and nowhere else. */
  predicate IsLine(line: string) {
    line != [] && line[|line| - 1] == '\n' && forall m :: 0 <= m < |line| - 1 ==> line[m] != '\n'
  }

  lemma {:induction false} CutOfConcat(a: string, b: string)
    requires a != [] && (Cut(a) < |a| || Whole(a))
    ensures Cut(a + b) == Cut(a)
    decreases |a|
  {
    if a[0] != '\n' {
      assert a[1..] != [] && (a + b)[1..] == a[1..] + b;
      CutOfConcat(a[1..], b);
    }
  }

  /** Splitting distributes over content that ends at a line boundary. */
  lemma {:induction false} SplitConcat(a: string, b: string)
    requires Whole(a)
    ensures SplitLines(a + b) == SplitLines(a) + SplitLines(b)
    decreases |a|
  {
    if a == [] {
      assert a + b == b;
    } else {
      CutOfConcat(a, b);
      assert (a + b)[Cut(a)..] == a[Cut(a)..] + b;
      assert (a + b)[..Cut(a)] == a[..Cut(a)];
      SplitConcat(a[Cut(a)..], b);
    }
  }

  lemma {:induction false} CutOfPartial(a: string, b: string)
    requires a != [] && Cut(a) == |a| && !Whole(a) && b != []
    ensures Cut(a + b) > |a|
    decreases |a|
  {
    assert (a + b)[1..] == a[1..] + b;
    if |a| > 1 { CutOfPartial(a[1..], b); } else { assert a[1..] + b == b; }
  }

  lemma {:induction false} SplitPartial(a: string, b: string)
    requires !Whole(a) && b != []
    ensures SplitLines(a + b) != SplitLines(a) + SplitLines(b)
    decreases |a|
  {
    if Cut(a) == |a| {
      CutOfPartial(a, b);
      assert SplitLines(a + b)[0] == (a + b)[..Cut(a + b)];
      assert (SplitLines(a) + SplitLines(b))[0] == a[..Cut(a)];
    } else {
      CutOfConcat(a, b);
      assert (a + b)[Cut(a)..] == a[Cut(a)..] + b;
      SplitPartial(a[Cut(a)..], b);
      ConsDiffers(a[..Cut(a)], SplitLines(a[Cut(a)..] + b), SplitLines(a[Cut(a)..]), SplitLines(b));
    }
  }

  lemma ConsDiffers(line: string, xs: seq<string>, ys: seq<string>, zs: seq<string>)
    requires xs != ys + zs
    ensures [line] + xs != ([line] + ys) + zs
  {
    assert ([line] + xs)[1..] == xs;
    assert (([line] + ys) + zs)[1..] == ys + zs;
  }

  /** Scanning only the new part of a grown partition is right exactly when the old part ended at a line boundary. */
  lemma ExtendingIsExact(a: string, b: string)
    ensures SplitLines(a + b) == SplitLines(a) + SplitLines(b) <==> Whole(a) || b == []
  {
    if Whole(a) { SplitConcat(a, b); }
    else if b == [] { assert a + b == a; }
    else { SplitPartial(a, b); }
  }

  /** The lines are the content, cut after every newline. */
  lemma {:induction false} SplitJoins(s: string)
    ensures Join(SplitLines(s)) == s
    decreases |s|
  {
    if s != [] {
      SplitJoins(s[Cut(s)..]);
      var line, rest := s[..Cut(s)], SplitLines(s[Cut(s)..]);
      assert ([line] + rest)[1..] == rest;
    }
  }

  lemma FirstIsLine(s: string)
    requires s != [] && (Whole(s) || Cut(s) < |s|)
    ensures IsLine(s[..Cut(s)])
  {
    var n := Cut(s);
    assert s[..n][n - 1] == s[n - 1];
    forall m | 0 <= m < n - 1 ensures s[..n][m] != '\n' {}
  }

  /** Every complete line ends with its only newline. */
  lemma {:induction false} SplitIntoLines(s: string, n: nat)
    requires n < |SplitLines(s)| && (Whole(s) || n < |SplitLines(s)| - 1)
    ensures IsLine(SplitLines(s)[n])
    decreases |s|
  {
    var line, rest := s[..Cut(s)], s[Cut(s)..];
    assert SplitLines(s) == [line] + SplitLines(rest);
    if n == 0 {
      assert rest == [] ==> SplitLines(rest) == [];
      FirstIsLine(s);
    } else {
      SplitIntoLines(rest, n - 1);
    }
  }

  /** The complete part of the content: up to its last newline. */
  function WholePart(s: string): (n: nat)
    ensures n <= |s| && Whole(s[..n])
    ensures forall m :: n <= m < |s| ==> s[m] != '\n'
  {
    if s == [] then 0
    else if s[|s| - 1] == '\n' then |s|
    else
      var n := WholePart(s[..|s| - 1]);
      assert s[..|s| - 1][..n] == s[..n];
      n
  }
}
