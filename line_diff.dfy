/**
 * The line diff the reporter uses to compare multi-line renderings (the
 * "simplediff" algorithm): find the longest run of consecutive lines common to
 * both sides, keep it as unchanged lines, and diff what lies before and after it
 * recursively; when the two sides share no line at all, the whole of both sides
 * becomes one change node.
 *
 * `before` is the old side and `after` the new side. Lines are compared with
 * exact string equality.
 */
module LineDiff {

  /** An item of a diff: an unchanged line, or a node of deleted (`d`) and inserted (`i`) lines. */
  datatype Node = Line(text: string) | Change(d: seq<string>, i: seq<string>)

  /** A common run: its length and where it starts on the old and on the new side. */
  datatype Run = Run(len: nat, oStart: nat, nStart: nat)

  /**
   * The matrix cell for old line `o` and new line `n`: the length of the run of
   * equal lines that ends with this pair (0 where the lines differ).
   */
  function RunLen(before: seq<string>, after: seq<string>, o: nat, n: nat): (m: nat)
    requires o < |before| && n < |after|
    ensures m <= o + 1 && m <= n + 1
    ensures m > 0 <==> before[o] == after[n]
  {
    if before[o] != after[n] then 0
    else if o == 0 || n == 0 then 1
    else RunLen(before, after, o - 1, n - 1) + 1
  }

  /** Within a run ending at (o, n), the lines `k` places back are equal on both sides. */
  lemma {:induction false} RunLenMatches(before: seq<string>, after: seq<string>, o: nat, n: nat, k: nat)
    requires o < |before| && n < |after| && k < RunLen(before, after, o, n)
    ensures k <= o && k <= n && before[o - k] == after[n - k]
    decreases k
  {
    if k > 0 {
      RunLenMatches(before, after, o - 1, n - 1, k - 1);
    }
  }

  /** The lines of a run ending at (o, n) are equal on both sides. */
  lemma RunLenIsCommonRun(before: seq<string>, after: seq<string>, o: nat, n: nat)
    requires o < |before| && n < |after|
    ensures var m := RunLen(before, after, o, n);
      before[o + 1 - m..o + 1] == after[n + 1 - m..n + 1]
  {
    var m := RunLen(before, after, o, n);
    var left, right := before[o + 1 - m..o + 1], after[n + 1 - m..n + 1];
    forall k | 0 <= k < m
      ensures left[k] == right[k]
    {
      RunLenMatches(before, after, o, n, m - 1 - k);
    }
  }

  /** Cell (o, n) comes before cell (i, j) in the row-major scan of the matrix. */
  predicate Earlier(o: nat, n: nat, i: nat, j: nat)
  {
    o < i || (o == i && n < j)
  }

  /** Every cell scanned before (i, j) holds at most `len`. */
  ghost predicate AtMostBefore(before: seq<string>, after: seq<string>, i: nat, j: nat, len: nat)
  {
    forall o: nat, n: nat :: o < |before| && n < |after| && Earlier(o, n, i, j) ==>
      RunLen(before, after, o, n) <= len
  }

  /** Every cell scanned before (i, j) holds less than `len`. */
  ghost predicate BelowBefore(before: seq<string>, after: seq<string>, i: nat, j: nat, len: nat)
  {
    forall o: nat, n: nat :: o < |before| && n < |after| && Earlier(o, n, i, j) ==>
      RunLen(before, after, o, n) < len
  }

  /** One cell of the scan: a strictly longer run replaces the best so far. */
  function Step(before: seq<string>, after: seq<string>, best: Run, o: nat, n: nat): Run
    requires o < |before| && n < |after|
  {
    var m := RunLen(before, after, o, n);
    if m > best.len then Run(m, o + 1 - m, n + 1 - m) else best
  }

  /** The best run after scanning, row by row, every cell that comes before (i, j). */
  function ScanTo(before: seq<string>, after: seq<string>, i: nat, j: nat): Run
    requires (i < |before| && j <= |after|) || (i == |before| && j == 0)
    decreases i, j
  {
    if j == 0 then
      if i == 0 then Run(0, 0, 0) else ScanTo(before, after, i - 1, |after|)
    else
      Step(before, after, ScanTo(before, after, i, j - 1), i, j - 1)
  }

  /** The run the diff keeps: the result of scanning the whole matrix. */
  function LongestRun(before: seq<string>, after: seq<string>): Run
  {
    ScanTo(before, after, |before|, 0)
  }

  /** `r` is a non-empty run whose last cell holds its length. */
  ghost predicate EndsAt(before: seq<string>, after: seq<string>, r: Run)
  {
    r.len > 0 && r.oStart + r.len <= |before| && r.nStart + r.len <= |after| &&
    RunLen(before, after, r.oStart + r.len - 1, r.nStart + r.len - 1) == r.len
  }

  /** Every cell scanned so far holds at most the length of the best run found. */
  lemma {:induction false} ScanToAtMost(before: seq<string>, after: seq<string>, i: nat, j: nat)
    requires (i < |before| && j <= |after|) || (i == |before| && j == 0)
    ensures AtMostBefore(before, after, i, j, ScanTo(before, after, i, j).len)
    decreases i, j
  {
    var r := ScanTo(before, after, i, j);
    if j == 0 {
      if i > 0 {
        ScanToAtMost(before, after, i - 1, |after|);
        forall o: nat, n: nat | o < |before| && n < |after| && Earlier(o, n, i, j)
          ensures RunLen(before, after, o, n) <= r.len
        {
          assert Earlier(o, n, i - 1, |after|);
        }
      }
    } else {
      ScanToAtMost(before, after, i, j - 1);
      forall o: nat, n: nat | o < |before| && n < |after| && Earlier(o, n, i, j)
        ensures RunLen(before, after, o, n) <= r.len
      {
        if !(o == i && n == j - 1) {
          assert Earlier(o, n, i, j - 1);
        }
      }
    }
  }

  /**
   * `r` may be the best run after scanning the cells before (i, j): when it is not
   * empty it ends at a scanned cell holding its length, and every cell scanned
   * before that one holds less.
   */
  ghost predicate ChosenBy(before: seq<string>, after: seq<string>, r: Run, i: nat, j: nat)
  {
    r.len > 0 ==>
      EndsAt(before, after, r) &&
      Earlier(r.oStart + r.len - 1, r.nStart + r.len - 1, i, j) &&
      BelowBefore(before, after, r.oStart + r.len - 1, r.nStart + r.len - 1, r.len)
  }

  /** The end of one row is the start of the next. */
  lemma ChosenNextRow(before: seq<string>, after: seq<string>, r: Run, i: nat)
    requires ChosenBy(before, after, r, i, |after|)
    ensures ChosenBy(before, after, r, i + 1, 0)
  {
  }

  /** Scanning one more cell keeps the best run chosen, or replaces it by a strictly longer one. */
  lemma ChosenStep(before: seq<string>, after: seq<string>, prev: Run, i: nat, j: nat)
    requires i < |before| && j < |after|
    requires ChosenBy(before, after, prev, i, j) && AtMostBefore(before, after, i, j, prev.len)
    ensures ChosenBy(before, after, Step(before, after, prev, i, j), i, j + 1)
  {
    var m := RunLen(before, after, i, j);
    if m > prev.len {
      var r := Run(m, i + 1 - m, j + 1 - m);
      assert r.oStart + r.len - 1 == i && r.nStart + r.len - 1 == j;
      assert BelowBefore(before, after, i, j, m);
    }
  }

  /** The best run after any prefix of the scan is chosen as `ChosenBy` describes. */
  lemma {:induction false} ScanToEnds(before: seq<string>, after: seq<string>, i: nat, j: nat)
    requires (i < |before| && j <= |after|) || (i == |before| && j == 0)
    ensures ChosenBy(before, after, ScanTo(before, after, i, j), i, j)
    decreases i, j
  {
    if j == 0 {
      if i > 0 {
        ScanToEnds(before, after, i - 1, |after|);
        ChosenNextRow(before, after, ScanTo(before, after, i - 1, |after|), i - 1);
      }
    } else {
      ScanToEnds(before, after, i, j - 1);
      ScanToAtMost(before, after, i, j - 1);
      ChosenStep(before, after, ScanTo(before, after, i, j - 1), i, j - 1);
    }
  }

  lemma ScanToIsFirstLongest(before: seq<string>, after: seq<string>, i: nat, j: nat)
    requires (i < |before| && j <= |after|) || (i == |before| && j == 0)
    ensures var r := ScanTo(before, after, i, j);
      AtMostBefore(before, after, i, j, r.len) &&
      (r.len > 0 ==>
         EndsAt(before, after, r) &&
         Earlier(r.oStart + r.len - 1, r.nStart + r.len - 1, i, j) &&
         BelowBefore(before, after, r.oStart + r.len - 1, r.nStart + r.len - 1, r.len))
  {
    ScanToAtMost(before, after, i, j);
    ScanToEnds(before, after, i, j);
  }

  lemma LongestRunEnds(before: seq<string>, after: seq<string>)
    ensures LongestRun(before, after).len > 0 ==> EndsAt(before, after, LongestRun(before, after))
  {
    ScanToIsFirstLongest(before, after, |before|, 0);
  }

  /** The run kept is a common run of consecutive lines that fits both sides. */
  lemma LongestRunFits(before: seq<string>, after: seq<string>)
    ensures var r := LongestRun(before, after);
      r.len > 0 ==>
        r.oStart + r.len <= |before| && r.nStart + r.len <= |after| &&
        before[r.oStart..r.oStart + r.len] == after[r.nStart..r.nStart + r.len]
  {
    LongestRunEnds(before, after);
    var r := LongestRun(before, after);
    if r.len > 0 {
      RunFits(before, after, r);
    }
  }

  /** A run whose last cell holds its length covers equal slices of both sides. */
  lemma RunFits(before: seq<string>, after: seq<string>, r: Run)
    requires EndsAt(before, after, r)
    ensures before[r.oStart..r.oStart + r.len] == after[r.nStart..r.nStart + r.len]
  {
    var o, n := r.oStart + r.len - 1, r.nStart + r.len - 1;
    var left, right := before[r.oStart..r.oStart + r.len], after[r.nStart..r.nStart + r.len];
    forall k | 0 <= k < r.len
      ensures left[k] == right[k]
    {
      RunLenMatches(before, after, o, n, r.len - 1 - k);
    }
  }

  /**
   * The run the diff keeps is a longest common run of consecutive lines; among
   * runs of that length it is the first whose last line is reached in the
   * row-major scan (a later run must be strictly longer to win); its length is
   * zero exactly when the two sides share no line.
   */
  lemma LongestRunIsFirstLongest(before: seq<string>, after: seq<string>)
    ensures var r := LongestRun(before, after);
      (forall o: nat, n: nat :: o < |before| && n < |after| ==> RunLen(before, after, o, n) <= r.len) &&
      (r.len == 0 <==> forall o, n :: 0 <= o < |before| && 0 <= n < |after| ==> before[o] != after[n]) &&
      (r.len > 0 ==>
         EndsAt(before, after, r) &&
         BelowBefore(before, after, r.oStart + r.len - 1, r.nStart + r.len - 1, r.len))
  {
    LongestRunIsLongest(before, after);
    LongestRunEmpty(before, after);
    ScanToEnds(before, after, |before|, 0);
  }

  /** No cell of the matrix holds more than the run kept. */
  lemma LongestRunIsLongest(before: seq<string>, after: seq<string>)
    ensures forall o: nat, n: nat :: o < |before| && n < |after| ==>
      RunLen(before, after, o, n) <= LongestRun(before, after).len
  {
    ScanToAtMost(before, after, |before|, 0);
    forall o: nat, n: nat | o < |before| && n < |after|
      ensures RunLen(before, after, o, n) <= LongestRun(before, after).len
    {
      assert Earlier(o, n, |before|, 0);
    }
  }

  /** The run kept is empty exactly when the two sides share no line. */
  lemma LongestRunEmpty(before: seq<string>, after: seq<string>)
    ensures LongestRun(before, after).len == 0 <==>
      forall o, n :: 0 <= o < |before| && 0 <= n < |after| ==> before[o] != after[n]
  {
    var r := LongestRun(before, after);
    if r.len == 0 {
      LongestRunIsLongest(before, after);
      forall o, n | 0 <= o < |before| && 0 <= n < |after|
        ensures before[o] != after[n]
      {
        assert RunLen(before, after, o, n) <= 0;
      }
    } else {
      ScanToEnds(before, after, |before|, 0);
      var o, n := r.oStart + r.len - 1, r.nStart + r.len - 1;
      assert RunLen(before, after, o, n) == r.len;
      assert before[o] == after[n];
    }
  }

  /** Unchanged lines, one node each. */
  function Lines(xs: seq<string>): (r: seq<Node>)
    ensures |r| == |xs|
  {
    seq(|xs|, k requires 0 <= k < |xs| => Line(xs[k]))
  }

  /**
   * The diff as the algorithm defines it: the prefix diff, the kept run as
   * unchanged lines, the suffix diff; or one change node when nothing is shared.
   */
  function DiffSpec(before: seq<string>, after: seq<string>): seq<Node>
    decreases |before| + |after|
  {
    var r := LongestRun(before, after);
    if r.len == 0 then [Change(before, after)]
    else
      LongestRunFits(before, after);
      DiffSpec(before[..r.oStart], after[..r.nStart])
      + Lines(after[r.nStart..r.nStart + r.len])
      + DiffSpec(before[r.oStart + r.len..], after[r.nStart + r.len..])
  }

  /** What a node contributes to the old side. */
  function OldPart(node: Node): seq<string>
  {
    match node
    case Line(t) => [t]
    case Change(d, _) => d
  }

  /** What a node contributes to the new side. */
  function NewPart(node: Node): seq<string>
  {
    match node
    case Line(t) => [t]
    case Change(_, i) => i
  }

  /** The old side a diff describes: unchanged lines and deleted lines, in order. */
  function OldSide(nodes: seq<Node>): seq<string>
  {
    if nodes == [] then [] else OldPart(nodes[0]) + OldSide(nodes[1..])
  }

  /** The new side a diff describes: unchanged lines and inserted lines, in order. */
  function NewSide(nodes: seq<Node>): seq<string>
  {
    if nodes == [] then [] else NewPart(nodes[0]) + NewSide(nodes[1..])
  }

  lemma SidesOfConcat(a: seq<Node>, b: seq<Node>)
    ensures OldSide(a + b) == OldSide(a) + OldSide(b)
    ensures NewSide(a + b) == NewSide(a) + NewSide(b)
  {
    OldSideOfConcat(a, b);
    NewSideOfConcat(a, b);
  }

  lemma {:induction false} OldSideOfConcat(a: seq<Node>, b: seq<Node>)
    ensures OldSide(a + b) == OldSide(a) + OldSide(b)
  {
    if a == [] {
      assert a + b == b;
    } else {
      var ab := a + b;
      assert ab[0] == a[0] && ab[1..] == a[1..] + b;
      OldSideOfConcat(a[1..], b);
      calc {
        OldSide(ab);
        OldPart(a[0]) + OldSide(a[1..] + b);
        OldPart(a[0]) + (OldSide(a[1..]) + OldSide(b));
        (OldPart(a[0]) + OldSide(a[1..])) + OldSide(b);
      }
    }
  }

  lemma {:induction false} NewSideOfConcat(a: seq<Node>, b: seq<Node>)
    ensures NewSide(a + b) == NewSide(a) + NewSide(b)
  {
    if a == [] {
      assert a + b == b;
    } else {
      var ab := a + b;
      assert ab[0] == a[0] && ab[1..] == a[1..] + b;
      NewSideOfConcat(a[1..], b);
      calc {
        NewSide(ab);
        NewPart(a[0]) + NewSide(a[1..] + b);
        NewPart(a[0]) + (NewSide(a[1..]) + NewSide(b));
        (NewPart(a[0]) + NewSide(a[1..])) + NewSide(b);
      }
    }
  }

  lemma {:induction false} SidesOfLines(xs: seq<string>)
    ensures OldSide(Lines(xs)) == xs && NewSide(Lines(xs)) == xs
  {
    if xs != [] {
      SidesOfLines(xs[1..]);
      assert Lines(xs)[1..] == Lines(xs[1..]);
    }
  }

  /** One unfolding of `DiffSpec`, with the kept run known to fit both sides. */
  lemma DiffSpecUnfold(before: seq<string>, after: seq<string>)
    ensures var r := LongestRun(before, after);
      if r.len == 0 then DiffSpec(before, after) == [Change(before, after)]
      else
        r.oStart + r.len <= |before| && r.nStart + r.len <= |after| &&
        before[r.oStart..r.oStart + r.len] == after[r.nStart..r.nStart + r.len] &&
        DiffSpec(before, after) ==
          DiffSpec(before[..r.oStart], after[..r.nStart])
          + Lines(after[r.nStart..r.nStart + r.len])
          + DiffSpec(before[r.oStart + r.len..], after[r.nStart + r.len..])
  {
    LongestRunFits(before, after);
  }

  lemma SidesOfThree(a: seq<Node>, b: seq<Node>, c: seq<Node>)
    ensures OldSide(a + b + c) == OldSide(a) + OldSide(b) + OldSide(c)
    ensures NewSide(a + b + c) == NewSide(a) + NewSide(b) + NewSide(c)
  {
    SidesOfConcat(a + b, c);
    SidesOfConcat(a, b);
  }

  lemma ThreeSlices(s: seq<string>, o: nat, m: nat)
    requires o + m <= |s|
    ensures s[..o] + s[o..o + m] + s[o + m..] == s
  {
  }

  /**
   * Reconstruction: the unchanged lines together with each node's deleted lines
   * give back the old side, and with each node's inserted lines the new side.
   */
  lemma {:induction false} DiffReconstructs(before: seq<string>, after: seq<string>)
    ensures OldSide(DiffSpec(before, after)) == before
    ensures NewSide(DiffSpec(before, after)) == after
    decreases |before| + |after|
  {
    var r := LongestRun(before, after);
    DiffSpecUnfold(before, after);
    if r.len == 0 {
      assert OldSide([Change(before, after)]) == before + OldSide([]);
      assert NewSide([Change(before, after)]) == after + NewSide([]);
    } else {
      var o, n, m := r.oStart, r.nStart, r.len;
      var left := DiffSpec(before[..o], after[..n]);
      var mid := Lines(after[n..n + m]);
      var right := DiffSpec(before[o + m..], after[n + m..]);
      DiffReconstructs(before[..o], after[..n]);
      DiffReconstructs(before[o + m..], after[n + m..]);
      SidesOfThree(left, mid, right);
      SidesOfLines(after[n..n + m]);
      ThreeSlices(before, o, m);
      ThreeSlices(after, n, m);
    }
  }

  /**
   * When the two sides share no line the diff is exactly one change node holding
   * both sides, and only then; so `DiffSpec([], [])` is one node with both lists empty.
   */
  lemma DiffWithoutCommonLine(before: seq<string>, after: seq<string>)
    ensures (forall o, n :: 0 <= o < |before| && 0 <= n < |after| ==> before[o] != after[n])
            <==> DiffSpec(before, after) == [Change(before, after)]
  {
    var r := LongestRun(before, after);
    LongestRunEmpty(before, after);
    DiffSpecUnfold(before, after);
    if r.len > 0 {
      var left := DiffSpec(before[..r.oStart], after[..r.nStart]);
      var mid := Lines(after[r.nStart..r.nStart + r.len]);
      var right := DiffSpec(before[r.oStart + r.len..], after[r.nStart + r.len..]);
      NodeAtJoin(left, mid, right);
      assert DiffSpec(before, after)[|left|].Line?;
    }
  }

  lemma NodeAtJoin(left: seq<Node>, mid: seq<Node>, right: seq<Node>)
    requires mid != [] && mid[0].Line?
    ensures (left + mid + right)[|left|].Line?
  {
    assert (left + mid + right)[|left|] == mid[0];
  }

  lemma {:induction false} RunLenOnDiagonal(xs: seq<string>, k: nat)
    requires k < |xs|
    ensures RunLen(xs, xs, k, k) == k + 1
  {
    if k > 0 {
      RunLenOnDiagonal(xs, k - 1);
    }
  }

  /**
   * Diffing a text against itself keeps all of its lines as unchanged lines, in
   * order, with an empty change node on either side of them (one empty node alone
   * when the text has no lines).
   */
  lemma DiffOfIdenticalSides(xs: seq<string>)
    ensures DiffSpec(xs, xs) ==
      if xs == [] then [Change([], [])]
      else [Change([], [])] + Lines(xs) + [Change([], [])]
  {
    DiffWithoutCommonLine([], []);
    if xs != [] {
      LongestRunOfIdentical(xs);
      DiffSpecUnfold(xs, xs);
      assert xs[..0] == [] && xs[|xs|..] == [] && xs[0..|xs|] == xs;
    }
  }

  /** A non-empty text against itself: the run kept is the whole text. */
  lemma LongestRunOfIdentical(xs: seq<string>)
    requires xs != []
    ensures LongestRun(xs, xs) == Run(|xs|, 0, 0)
  {
    var r := LongestRun(xs, xs);
    LongestRunIsLongest(xs, xs);
    LongestRunEnds(xs, xs);
    RunLenOnDiagonal(xs, |xs| - 1);
    assert RunLen(xs, xs, |xs| - 1, |xs| - 1) <= r.len;
  }

  /**
   * `diff`: fills the matrix of run lengths row by row, remembering the first
   * strictly longest run, then recurses around it.
   */
  method Diff(before: seq<string>, after: seq<string>) returns (nodes: seq<Node>)
    ensures nodes == DiffSpec(before, after)
    decreases |before| + |after|
  {
    var maxlen, omax, nmax := FindLongestRun(before, after);
    if maxlen == 0 {
      return [Change(before, after)];
    }
    LongestRunFits(before, after);
    var left := Diff(before[..omax], after[..nmax]);
    var right := Diff(before[omax + maxlen..], after[nmax + maxlen..]);
    nodes := left + Lines(after[nmax..nmax + maxlen]) + right;
  }

  /** The matrix holds exactly the run lengths of the equal pairs scanned so far. */
  ghost predicate MatrixUpTo(before: seq<string>, after: seq<string>, matrix: map<(nat, nat), nat>, i: nat, j: nat)
  {
    (forall c :: c in matrix ==>
       c.0 < |before| && c.1 < |after| && Earlier(c.0, c.1, i, j) &&
       before[c.0] == after[c.1] && matrix[c] == RunLen(before, after, c.0, c.1)) &&
    (forall o: nat, n: nat :: o < |before| && n < |after| && Earlier(o, n, i, j) && before[o] == after[n] ==>
       (o, n) in matrix)
  }

  lemma RunLenStep(before: seq<string>, after: seq<string>, i: nat, j: nat)
    requires 0 < i < |before| && 0 < j < |after| && before[i] == after[j]
    ensures RunLen(before, after, i, j) == RunLen(before, after, i - 1, j - 1) + 1
  {
  }

  /** What the matrix says about an earlier cell. */
  lemma MatrixAt(before: seq<string>, after: seq<string>, matrix: map<(nat, nat), nat>, i: nat, j: nat, o: nat, n: nat)
    requires MatrixUpTo(before, after, matrix, i, j)
    requires o < |before| && n < |after| && Earlier(o, n, i, j)
    ensures (o, n) in matrix <==> before[o] == after[n]
    ensures (o, n) in matrix ==> matrix[(o, n)] == RunLen(before, after, o, n)
  {
  }

  /**
   * The cell computed from its diagonal neighbour: one more than the neighbour
   * when the neighbour is set, one otherwise.
   */
  lemma CellFromMatrix(before: seq<string>, after: seq<string>, matrix: map<(nat, nat), nat>, i: nat, j: nat)
    requires i < |before| && j < |after| && before[i] == after[j]
    requires i > 0 && j > 0 ==>
      ((i - 1, j - 1) in matrix <==> before[i - 1] == after[j - 1]) &&
      ((i - 1, j - 1) in matrix ==> matrix[(i - 1, j - 1)] == RunLen(before, after, i - 1, j - 1))
    ensures (if i > 0 && j > 0 && (i - 1, j - 1) in matrix then matrix[(i - 1, j - 1)] + 1 else 1)
            == RunLen(before, after, i, j)
  {
    if i > 0 && j > 0 {
      RunLenStep(before, after, i, j);
    }
  }

  /** The value `diff` writes into cell (i, j): one more than its diagonal neighbour, or one. */
  function CellValue(matrix: map<(nat, nat), nat>, i: nat, j: nat): nat
  {
    if i > 0 && j > 0 && (i - 1, j - 1) in matrix then matrix[(i - 1, j - 1)] + 1 else 1
  }

  /**
   * Scanning cell (i, j): the value written is the run length there, the matrix
   * invariant moves past the cell, and the best run is updated by `Step`.
   */
  lemma ScanCell(before: seq<string>, after: seq<string>, matrix: map<(nat, nat), nat>, i: nat, j: nat)
    requires i < |before| && j < |after|
    requires MatrixUpTo(before, after, matrix, i, j)
    ensures before[i] == after[j] ==>
      CellValue(matrix, i, j) == RunLen(before, after, i, j) &&
      MatrixUpTo(before, after, matrix[(i, j) := CellValue(matrix, i, j)], i, j + 1)
    ensures before[i] != after[j] ==>
      MatrixUpTo(before, after, matrix, i, j + 1) && RunLen(before, after, i, j) == 0
  {
    MatrixExtend(before, after, matrix, i, j);
    if before[i] == after[j] {
      if i > 0 && j > 0 {
        MatrixAt(before, after, matrix, i, j, i - 1, j - 1);
      }
      CellFromMatrix(before, after, matrix, i, j);
    }
  }

  /**
   * Scanning cell (i, j), whose run length is `m` when its lines are equal: a
   * strictly longer run replaces the best so far.
   */
  lemma ScanStep(before: seq<string>, after: seq<string>, i: nat, j: nat, m: nat)
    requires i < |before| && j < |after|
    requires before[i] == after[j] ==> m == RunLen(before, after, i, j)
    ensures var best := ScanTo(before, after, i, j);
      ScanTo(before, after, i, j + 1) ==
        if before[i] == after[j] && m > best.len then Run(m, i + 1 - m, j + 1 - m) else best
  {
  }

  /** Scanning cell (i, j) extends the matrix invariant by that cell. */
  lemma MatrixExtend(before: seq<string>, after: seq<string>, matrix: map<(nat, nat), nat>, i: nat, j: nat)
    requires i < |before| && j < |after|
    requires MatrixUpTo(before, after, matrix, i, j)
    ensures before[i] == after[j] ==>
      MatrixUpTo(before, after, matrix[(i, j) := RunLen(before, after, i, j)], i, j + 1)
    ensures before[i] != after[j] ==> MatrixUpTo(before, after, matrix, i, j + 1)
  {
  }

  /** The end of one row is the start of the next. */
  lemma MatrixNextRow(before: seq<string>, after: seq<string>, matrix: map<(nat, nat), nat>, i: nat)
    requires i < |before|
    requires MatrixUpTo(before, after, matrix, i, |after|)
    ensures MatrixUpTo(before, after, matrix, i + 1, 0)
  {
  }

  /** The nested loops of `diff`: the run it keeps, as `LongestRun` describes it. */
  method FindLongestRun(before: seq<string>, after: seq<string>) returns (maxlen: nat, omax: nat, nmax: nat)
    ensures Run(maxlen, omax, nmax) == LongestRun(before, after)
  {
    var matrix: map<(nat, nat), nat> := map[];
    maxlen, omax, nmax := 0, 0, 0;
    for i := 0 to |before|
      invariant Run(maxlen, omax, nmax) == ScanTo(before, after, i, 0)
      invariant MatrixUpTo(before, after, matrix, i, 0)
    {
      matrix, maxlen, omax, nmax := ScanRow(before, after, i, matrix, maxlen, omax, nmax);
      MatrixNextRow(before, after, matrix, i);
    }
  }

  /** The inner loop of `diff`: row `i` of the matrix, against every new line in turn. */
  method ScanRow(before: seq<string>, after: seq<string>, i: nat,
                 matrix0: map<(nat, nat), nat>, maxlen0: nat, omax0: nat, nmax0: nat)
    returns (matrix: map<(nat, nat), nat>, maxlen: nat, omax: nat, nmax: nat)
    requires i < |before|
    requires Run(maxlen0, omax0, nmax0) == ScanTo(before, after, i, 0)
    requires MatrixUpTo(before, after, matrix0, i, 0)
    ensures Run(maxlen, omax, nmax) == ScanTo(before, after, i, |after|)
    ensures MatrixUpTo(before, after, matrix, i, |after|)
  {
    matrix, maxlen, omax, nmax := matrix0, maxlen0, omax0, nmax0;
    for j := 0 to |after|
      invariant Run(maxlen, omax, nmax) == ScanTo(before, after, i, j)
      invariant MatrixUpTo(before, after, matrix, i, j)
    {
      ScanCell(before, after, matrix, i, j);
      ScanStep(before, after, i, j, CellValue(matrix, i, j));
      if before[i] == after[j] {
        var m := CellValue(matrix, i, j);
        matrix := matrix[(i, j) := m];
        if m > maxlen {
          maxlen := m;
          omax := i + 1 - m;
          nmax := j + 1 - m;
        }
      }
    }
  }
}
