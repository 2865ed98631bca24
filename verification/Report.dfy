/** internal/report/table.go: splicing a generated section into the README. */
module Report {
  import opened Events

  const MARKER_BEGIN := "<!-- RESULTS:BEGIN -->"
  const MARKER_END := "<!-- RESULTS:END -->"

  /** `m` occurs in `s` at position `i`. */
  predicate OccursAt(s: string, m: string, i: int) {
    0 <= i && i + |m| <= |s| && s[i..i + |m|] == m
  }

  /** `m` does not occur in `s` from position `from` on and before position `n`. */
  ghost predicate Free(s: string, m: string, from: int, n: int) {
    forall j :: from <= j < n ==> !OccursAt(s, m, j)
  }

  ghost predicate FreeBefore(s: string, m: string, n: int) {
    Free(s, m, 0, n)
  }

  function IndexFrom(s: string, m: string, from: nat): (i: int)
    ensures i == -1 ==> Free(s, m, from, |s| + 1)
    ensures i != -1 ==> i >= from && OccursAt(s, m, i) && Free(s, m, from, i)
    decreases |s| - from
  {
    if from + |m| > |s| then -1
    else if s[from..from + |m|] == m then from
    else if from == |s| then -1
    else IndexFrom(s, m, from + 1)
  }

  /** strings.Index: the first occurrence, or -1. */
  function Index(s: string, m: string): (i: int)
    ensures i == -1 ==> FreeBefore(s, m, |s| + 1)
    ensures i != -1 ==> OccursAt(s, m, i) && FreeBefore(s, m, i)
  {
    IndexFrom(s, m, 0)
  }

  /** The splice between any two markers. */
  function Splice(original: string, b: string, e: string, replacement: string): Option<string> {
    var begin := Index(original, b);
    var end := Index(original, e);
    if begin == -1 || end == -1 || end < begin then None else
      Some(original[..begin] + replacement + original[end + |e|..])
  }

  function ReplaceBetweenMarkers(original: string, replacement: string): Option<string> {
    Splice(original, MARKER_BEGIN, MARKER_END, replacement)
  }

  /** `r` starts with `b`, and its first `e` ends it. */
  ghost predicate Delimited(r: string, b: string, e: string) {
    |e| <= |r| && OccursAt(r, b, 0) && Index(r, e) == |r| - |e|
  }

  /** A generated section: it starts with the begin marker, and its first end marker ends it. */
  ghost predicate Section(r: string) {
    Delimited(r, MARKER_BEGIN, MARKER_END)
  }

  lemma FirstIs(s: string, m: string, i: nat)
    ensures Index(s, m) == i <==> OccursAt(s, m, i) && FreeBefore(s, m, i)
  {
  }

  /** `i` and `j` are the first places of the two markers, the end marker not before the begin marker. */
  ghost predicate MarkersAt(s: string, i: nat, j: nat) {
    && i <= j && OccursAt(s, MARKER_BEGIN, i) && FreeBefore(s, MARKER_BEGIN, i)
    && OccursAt(s, MARKER_END, j) && FreeBefore(s, MARKER_END, j)
  }

  /** The splice succeeds exactly when both markers are there in this order; then the text before the first
      begin marker and the text after the first end marker stay, and what was between them is replaced. */
  lemma SpliceMeans(original: string, replacement: string)
    ensures ReplaceBetweenMarkers(original, replacement).Some?
       <==> exists i: nat, j: nat :: MarkersAt(original, i, j)
    ensures forall i: nat, j: nat :: MarkersAt(original, i, j) ==>
              j + |MARKER_END| <= |original| &&
              ReplaceBetweenMarkers(original, replacement)
              == Some(original[..i] + replacement + original[j + |MARKER_END|..])
  {
    var begin, end := Index(original, MARKER_BEGIN), Index(original, MARKER_END);
    forall i: nat, j: nat | MarkersAt(original, i, j)
      ensures begin == i && end == j
    {
      FirstIs(original, MARKER_BEGIN, i);
      FirstIs(original, MARKER_END, j);
    }
    if 0 <= begin <= end {
      assert MarkersAt(original, begin, end);
    }
  }

  lemma OccursInPrefix(s: string, t: string, m: string, n: nat, j: nat)
    requires n <= |s| && n <= |t| && s[..n] == t[..n] && j + |m| <= n
    ensures OccursAt(s, m, j) <==> OccursAt(t, m, j)
  {
    assert s[j..j + |m|] == s[..n][j..j + |m|];
    assert t[j..j + |m|] == t[..n][j..j + |m|];
  }

  /** Up to the end of the begin marker, the spliced text is the original. */
  lemma SamePrefix(original: string, begin: nat, m: string, r: string, post: string)
    requires OccursAt(original, m, begin) && OccursAt(r, m, 0)
    ensures var o := original[..begin] + r + post;
            begin + |m| <= |o| && o[..begin + |m|] == original[..begin + |m|]
  {
  }

  /** Before the spliced text nothing new appears: no occurrence straddles the join. */
  lemma NothingBefore(original: string, begin: nat, b: string, m: string, o: string)
    requires begin + |b| <= |o| && begin + |b| <= |original| && o[..begin + |b|] == original[..begin + |b|]
    requires |m| <= |b| && FreeBefore(original, m, begin)
    ensures FreeBefore(o, m, begin)
  {
    forall j | 0 <= j < begin
      ensures !OccursAt(o, m, j)
    {
      OccursInPrefix(o, original, m, begin + |b|, j);
    }
  }

  /** Inside the spliced text the marker occurs where it occurs in that text. */
  lemma SameInside(o: string, begin: nat, r: string, m: string, j: nat)
    requires begin + |r| <= |o| && o[begin..begin + |r|] == r && j + |m| <= |r|
    ensures OccursAt(o, m, begin + j) <==> OccursAt(r, m, j)
  {
    var a, b := o[begin + j..begin + j + |m|], r[j..j + |m|];
    forall k | 0 <= k < |m|
      ensures a[k] == b[k]
    {
      assert a[k] == o[begin..begin + |r|][j + k];
    }
    assert a == b;
  }

  lemma EndAfterSplice(o: string, begin: nat, r: string, e: string)
    requires begin + |r| <= |o| && o[begin..begin + |r|] == r && |e| <= |r| && OccursAt(r, e, |r| - |e|)
    requires FreeBefore(r, e, |r| - |e|) && FreeBefore(o, e, begin)
    ensures OccursAt(o, e, begin + |r| - |e|) && FreeBefore(o, e, begin + |r| - |e|)
  {
    SameInside(o, begin, r, e, |r| - |e|);
    forall j | 0 <= j < begin + |r| - |e|
      ensures !OccursAt(o, e, j)
    {
      if j >= begin {
        SameInside(o, begin, r, e, j - begin);
      }
    }
  }

  /** Both markers are found around the new text. */
  lemma MarkersAfterSplice(original: string, begin: nat, b: string, e: string, r: string, post: string)
    requires |e| <= |b| && OccursAt(original, b, begin)
    requires FreeBefore(original, b, begin) && FreeBefore(original, e, begin)
    requires |e| <= |r| && OccursAt(r, b, 0) && OccursAt(r, e, |r| - |e|) && FreeBefore(r, e, |r| - |e|)
    ensures var o, end := original[..begin] + r + post, begin + |r| - |e|;
            && OccursAt(o, b, begin) && FreeBefore(o, b, begin)
            && OccursAt(o, e, end) && FreeBefore(o, e, end)
  {
    var o := original[..begin] + r + post;
    SamePrefix(original, begin, b, r, post);
    NothingBefore(original, begin, b, b, o);
    OccursInPrefix(o, original, b, begin + |b|, begin);
    NothingBefore(original, begin, b, e, o);
    assert o[begin..begin + |r|] == r;
    EndAfterSplice(o, begin, r, e);
  }

  lemma SpliceAgain(original: string, b: string, e: string, r: string, next: string)
    requires |e| <= |b| && Delimited(r, b, e) && Splice(original, b, e, r).Some?
    ensures Splice(Splice(original, b, e, r).value, b, e, next) == Splice(original, b, e, next)
  {
    var begin, end := Index(original, b), Index(original, e);
    FirstIs(original, b, begin);
    FirstIs(original, e, end);
    FirstIs(r, e, |r| - |e|);
    MarkersAfterSplice(original, begin, b, e, r, original[end + |e|..]);
    var o := Splice(original, b, e, r).value;
    FirstIs(o, b, begin);
    FirstIs(o, e, begin + |r| - |e|);
    assert o[..begin] == original[..begin];
    assert o[begin + |r|..] == original[end + |e|..];
  }

  /** Splicing a section and then anything equals splicing the latter alone. */
  lemma SpliceTwice(original: string, r: string, next: string)
    requires Section(r) && ReplaceBetweenMarkers(original, r).Some?
    ensures ReplaceBetweenMarkers(ReplaceBetweenMarkers(original, r).value, next)
         == ReplaceBetweenMarkers(original, next)
  {
    SpliceAgain(original, MARKER_BEGIN, MARKER_END, r, next);
  }

  /** The text a splice cuts out, from the first begin marker through the first end marker. */
  ghost function CutOut(original: string): string
    requires ReplaceBetweenMarkers(original, "").Some?
  {
    Cut(original, MARKER_BEGIN, MARKER_END)
  }

  ghost function Cut(s: string, b: string, e: string): string
    requires 0 <= Index(s, b) <= Index(s, e)
  {
    s[Index(s, b)..Index(s, e) + |e|]
  }

  lemma MarkersApart(s: string, begin: nat, end: nat)
    requires OccursAt(s, MARKER_BEGIN, begin) && OccursAt(s, MARKER_END, end) && begin <= end
    ensures end >= begin + 2
  {
    var b, e := s[begin..begin + |MARKER_BEGIN|], s[end..end + |MARKER_END|];
    assert b[13] == 'B' && b[1] == '!' && e[13] == 'E' && e[0] == '<';
    assert s[begin + 13] == b[13] && s[begin + 1] == b[1] && s[end + 13] == e[13] && s[end] == e[0];
  }

  /** The stretch from `b` through the first `e`, of which `e` is the end. */
  lemma CutIsDelimited(s: string, begin: nat, end: nat, b: string, e: string)
    requires begin <= end && OccursAt(s, b, begin) && begin + |b| <= end + |e| && Index(s, e) == end
    ensures Delimited(s[begin..end + |e|], b, e)
  {
    var cut := s[begin..end + |e|];
    FirstIs(s, e, end);
    SameInside(s, begin, cut, b, 0);
    SameInside(s, begin, cut, e, end - begin);
    forall j | 0 <= j < end - begin
      ensures !OccursAt(cut, e, j)
    {
      SameInside(s, begin, cut, e, j);
    }
    FirstIs(cut, e, end - begin);
  }

  /** The same for any two markers that are far enough apart. */
  lemma CutBetween(s: string, b: string, e: string)
    requires 0 <= Index(s, b) <= Index(s, e) && |b| <= |e| + 2 && Index(s, e) >= Index(s, b) + 2
    ensures Delimited(Cut(s, b, e), b, e)
  {
    CutIsDelimited(s, Index(s, b), Index(s, e), b, e);
  }

  lemma CutIsSection(original: string)
    requires ReplaceBetweenMarkers(original, "").Some?
    ensures Section(CutOut(original))
  {
    MarkersFar(original);
    CutBetween(original, MARKER_BEGIN, MARKER_END);
  }

  lemma MarkersFar(original: string)
    requires ReplaceBetweenMarkers(original, "").Some?
    ensures |MARKER_BEGIN| <= |MARKER_END| + 2
    ensures 0 <= Index(original, MARKER_BEGIN) <= Index(original, MARKER_END) - 2
  {
    MarkersApart(original, Index(original, MARKER_BEGIN), Index(original, MARKER_END));
  }

  lemma CutAndPaste(s: string, i: nat, j: nat)
    requires i <= j <= |s|
    ensures s[..i] + s[i..j] + s[j..] == s
  {
  }

  /** A splice exchanges one section and nothing else, so splicing the former section back in
      restores the file. */
  lemma SpliceUndone(original: string, r: string)
    requires Section(r) && ReplaceBetweenMarkers(original, r).Some?
    ensures Section(CutOut(original))
    ensures ReplaceBetweenMarkers(ReplaceBetweenMarkers(original, r).value, CutOut(original)) == Some(original)
  {
    CutIsSection(original);
    SpliceTwice(original, r, CutOut(original));
    CutAndPaste(original, Index(original, MARKER_BEGIN), Index(original, MARKER_END) + |MARKER_END|);
  }

  /** Regeneration works for every file exactly when the spliced text is a section. */
  lemma RegenerationIffSection(r: string)
    ensures Section(r) <==>
              forall original, next :: ReplaceBetweenMarkers(original, r).Some? ==>
                ReplaceBetweenMarkers(ReplaceBetweenMarkers(original, r).value, next) ==
                ReplaceBetweenMarkers(original, next)
  {
    if Section(r) {
      forall original, next | ReplaceBetweenMarkers(original, r).Some?
        ensures ReplaceBetweenMarkers(ReplaceBetweenMarkers(original, r).value, next)
             == ReplaceBetweenMarkers(original, next)
      {
        SpliceTwice(original, r, next);
      }
    } else {
      var bare := MARKER_BEGIN + MARKER_END;
      BareMarkers(r);
      BareMarkers("");
      assert ReplaceBetweenMarkers(r, "") != Some("");
    }
  }

  lemma BareEnd(bare: string)
    requires bare == MARKER_BEGIN + MARKER_END
    ensures FreeBefore(bare, MARKER_END, |MARKER_BEGIN|)
  {
    forall j | 0 <= j < |MARKER_BEGIN|
      ensures !OccursAt(bare, MARKER_END, j)
    {
      var here := bare[j..j + |MARKER_END|];
      assert here[0] == bare[j] && here[13] == bare[j + 13];
    }
  }

  lemma BareIndexes(bare: string)
    requires bare == MARKER_BEGIN + MARKER_END
    ensures Index(bare, MARKER_BEGIN) == 0 && Index(bare, MARKER_END) == |MARKER_BEGIN|
  {
    assert OccursAt(bare, MARKER_BEGIN, 0) && OccursAt(bare, MARKER_END, |MARKER_BEGIN|);
    BareEnd(bare);
    FirstIs(bare, MARKER_BEGIN, 0);
    FirstIs(bare, MARKER_END, |MARKER_BEGIN|);
  }

  lemma BareMarkers(r: string)
    ensures ReplaceBetweenMarkers(MARKER_BEGIN + MARKER_END, r) == Some(r)
  {
    var bare := MARKER_BEGIN + MARKER_END;
    BareIndexes(bare);
    assert bare[..0] + r + bare[|bare|..] == r;
  }
}
