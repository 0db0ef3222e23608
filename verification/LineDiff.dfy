/**
 * The line diff of a file change (apps/mobile/lib/diff.ts): a table of longest common
 * subsequences filled from the bottom right, and a greedy walk that turns it into lines.
 */
module LineDiff {
  import opened Prelude

  /** An element of the source's `Uint32Array` rows. */
  newtype uint32 = x: int | 0 <= x < 0x1_0000_0000

  const MAX_DIFF_CELLS := 250_000

  datatype Kind = Ctx | Del | Add | Meta
  datatype DiffLine = DiffLine(kind: Kind, text: string)

  // ----- What a diff says -----

  /** The lines a diff shows of the old file: everything but the additions. */
  function OldSide(d: seq<DiffLine>): seq<string> {
    if d == [] then []
    else (if d[0].kind == Ctx || d[0].kind == Del then [d[0].text] else []) + OldSide(d[1..])
  }

  /** The lines a diff shows of the new file: everything but the deletions. */
  function NewSide(d: seq<DiffLine>): seq<string> {
    if d == [] then []
    else (if d[0].kind == Ctx || d[0].kind == Add then [d[0].text] else []) + NewSide(d[1..])
  }

  function CountKind(d: seq<DiffLine>, kind: Kind): nat {
    if d == [] then 0 else (if d[0].kind == kind then 1 else 0) + CountKind(d[1..], kind)
  }

  /** Added plus deleted lines: the size of an edit script. */
  function Changes(d: seq<DiffLine>): nat {
    CountKind(d, Add) + CountKind(d, Del)
  }

  /** `d` is a line-by-line account of how `before` became `after`. */
  ghost predicate EditScript(d: seq<DiffLine>, before: seq<string>, after: seq<string>) {
    OldSide(d) == before && NewSide(d) == after && CountKind(d, Meta) == 0
  }

  // ----- Longest common subsequences -----

  ghost predicate Subsequence(s: seq<string>, a: seq<string>) {
    s == [] || (a != [] && ((s[0] == a[0] && Subsequence(s[1..], a[1..])) || Subsequence(s, a[1..])))
  }

  /** What a table cell holds: the recurrence the fill computes, over the two suffixes. */
  function Lcs(a: seq<string>, b: seq<string>): nat
    decreases |a| + |b|
  {
    if a == [] || b == [] then 0
    else if a[0] == b[0] then Lcs(a[1..], b[1..]) + 1
    else Max(Lcs(a[1..], b), Lcs(a, b[1..]))
  }

  /** Dropping one line from either file costs at most one common line. */
  lemma {:induction false} LcsDrop(a: seq<string>, b: seq<string>)
    ensures a != [] ==> Lcs(a[1..], b) <= Lcs(a, b) <= Lcs(a[1..], b) + 1
    ensures b != [] ==> Lcs(a, b[1..]) <= Lcs(a, b) <= Lcs(a, b[1..]) + 1
    decreases |a| + |b|
  {
    if a != [] && b != [] {
      LcsDrop(a[1..], b);
      LcsDrop(a, b[1..]);
    }
  }

  /** No cell exceeds either suffix's length, so no cell can wrap. */
  lemma {:induction false} LcsBound(a: seq<string>, b: seq<string>)
    ensures Lcs(a, b) <= Min(|a|, |b|)
    decreases |a| + |b|
  {
    if a != [] && b != [] {
      LcsBound(a[1..], b[1..]);
      LcsBound(a[1..], b);
      LcsBound(a, b[1..]);
    }
  }

  lemma {:induction false} CommonIsAtMostLcs(s: seq<string>, a: seq<string>, b: seq<string>)
    requires Subsequence(s, a) && Subsequence(s, b)
    ensures |s| <= Lcs(a, b)
    decreases |a| + |b|
  {
    if s != [] {
      LcsDrop(a, b);
      if !(s[0] == a[0] && Subsequence(s[1..], a[1..])) {
        CommonIsAtMostLcs(s, a[1..], b);
      } else if !(s[0] == b[0] && Subsequence(s[1..], b[1..])) {
        CommonIsAtMostLcs(s, a, b[1..]);
      } else {
        CommonIsAtMostLcs(s[1..], a[1..], b[1..]);
      }
    }
  }

  /** The longest common subsequence itself. */
  function Common(a: seq<string>, b: seq<string>): seq<string>
    decreases |a| + |b|
  {
    if a == [] || b == [] then []
    else if a[0] == b[0] then [a[0]] + Common(a[1..], b[1..])
    else if Lcs(a[1..], b) >= Lcs(a, b[1..]) then Common(a[1..], b)
    else Common(a, b[1..])
  }

  lemma {:induction false} CommonIsCommon(a: seq<string>, b: seq<string>)
    ensures Subsequence(Common(a, b), a) && Subsequence(Common(a, b), b)
    ensures |Common(a, b)| == Lcs(a, b)
    decreases |a| + |b|
  {
    if a != [] && b != [] {
      if a[0] == b[0] {
        CommonIsCommon(a[1..], b[1..]);
      } else if Lcs(a[1..], b) >= Lcs(a, b[1..]) {
        CommonIsCommon(a[1..], b);
      } else {
        CommonIsCommon(a, b[1..]);
      }
    }
  }

  /** A table cell is the length of a longest common subsequence: one of that length exists, none is longer. */
  lemma LcsIsLongest(a: seq<string>, b: seq<string>)
    ensures exists s :: Subsequence(s, a) && Subsequence(s, b) && |s| == Lcs(a, b)
    ensures forall s :: Subsequence(s, a) && Subsequence(s, b) ==> |s| <= Lcs(a, b)
    ensures Lcs(a, b) <= Min(|a|, |b|)
  {
    CommonIsCommon(a, b);
    LcsBound(a, b);
    forall s | Subsequence(s, a) && Subsequence(s, b)
      ensures |s| <= Lcs(a, b)
    {
      CommonIsAtMostLcs(s, a, b);
    }
  }

  // ----- The backtrace -----

  function Tagged(kind: Kind, lines: seq<string>): (d: seq<DiffLine>)
    ensures |d| == |lines| && forall k :: 0 <= k < |d| ==> d[k] == DiffLine(kind, lines[k])
  {
    if lines == [] then [] else [DiffLine(kind, lines[0])] + Tagged(kind, lines[1..])
  }

  /** The diff of two files: a deletion before an addition whenever both keep as much. */
  function Script(before: seq<string>, after: seq<string>): seq<DiffLine>
    decreases |before| + |after|
  {
    if before == [] then Tagged(Add, after)
    else if after == [] then Tagged(Del, before)
    else if before[0] == after[0] then [DiffLine(Ctx, before[0])] + Script(before[1..], after[1..])
    else if Lcs(before[1..], after) >= Lcs(before, after[1..])
        then [DiffLine(Del, before[0])] + Script(before[1..], after)
    else [DiffLine(Add, after[0])] + Script(before, after[1..])
  }

  lemma {:induction false} TaggedSides(kind: Kind, lines: seq<string>)
    requires kind == Add || kind == Del
    ensures var d := Tagged(kind, lines);
      && OldSide(d) == (if kind == Del then lines else [])
      && NewSide(d) == (if kind == Add then lines else [])
      && CountKind(d, Ctx) == CountKind(d, Meta) == 0
  {
    if lines != [] {
      TaggedSides(kind, lines[1..]);
      var d := Tagged(kind, lines);
      assert d[1..] == Tagged(kind, lines[1..]);
    }
  }

  /** The backtrace rebuilds both files and shows exactly the top-left cell's number of common lines. */
  lemma {:induction false} ScriptIsEditScript(before: seq<string>, after: seq<string>)
    ensures EditScript(Script(before, after), before, after)
    ensures CountKind(Script(before, after), Ctx) == Lcs(before, after)
    decreases |before| + |after|
  {
    if before == [] {
      TaggedSides(Add, after);
    } else if after == [] {
      TaggedSides(Del, before);
    } else {
      var d := Script(before, after);
      if before[0] == after[0] {
        ScriptIsEditScript(before[1..], after[1..]);
        assert d[1..] == Script(before[1..], after[1..]);
      } else if Lcs(before[1..], after) >= Lcs(before, after[1..]) {
        ScriptIsEditScript(before[1..], after);
        assert d[1..] == Script(before[1..], after);
      } else {
        ScriptIsEditScript(before, after[1..]);
        assert d[1..] == Script(before, after[1..]);
      }
    }
  }

  /** Every edit script spends one line per common line and one per change on each side. */
  lemma {:induction false} ScriptSizes(d: seq<DiffLine>)
    ensures |OldSide(d)| == CountKind(d, Ctx) + CountKind(d, Del)
    ensures |NewSide(d)| == CountKind(d, Ctx) + CountKind(d, Add)
  {
    if d != [] {
      ScriptSizes(d[1..]);
    }
  }

  lemma {:induction false} NoScriptKeepsMore(d: seq<DiffLine>)
    ensures CountKind(d, Ctx) <= Lcs(OldSide(d), NewSide(d))
  {
    if d != [] {
      NoScriptKeepsMore(d[1..]);
      var a, b := OldSide(d), NewSide(d);
      match d[0].kind
      case Ctx => assert a[1..] == OldSide(d[1..]) && b[1..] == NewSide(d[1..]);
      case Del => assert a[1..] == OldSide(d[1..]) && b == NewSide(d[1..]); LcsDrop(a, b);
      case Add => assert b[1..] == NewSide(d[1..]) && a == OldSide(d[1..]); LcsDrop(a, b);
      case Meta => assert a == OldSide(d[1..]) && b == NewSide(d[1..]);
    }
  }

  /** Optimality: no edit script between the two files has fewer added and deleted lines. */
  lemma ScriptIsMinimal(before: seq<string>, after: seq<string>)
    ensures forall d :: EditScript(d, before, after) ==> Changes(Script(before, after)) <= Changes(d)
  {
    ScriptIsEditScript(before, after);
    ScriptSizes(Script(before, after));
    forall d | EditScript(d, before, after)
      ensures Changes(Script(before, after)) <= Changes(d)
    {
      NoScriptKeepsMore(d);
      ScriptSizes(d);
    }
  }

  /** Where a script starts with a deletion after an addition, the addition was worth more than the deletion. */
  lemma AddMeansMore(before: seq<string>, after: seq<string>)
    requires Script(before, after) != [] && Script(before, after)[0].kind == Add && before != []
    ensures after != [] && Lcs(before[1..], after) < Lcs(before, after[1..])
  {}

  /** Deletions first: no addition is directly followed by a deletion. */
  lemma {:induction false} DeletionsComeFirst(before: seq<string>, after: seq<string>, k: nat)
    requires k + 1 < |Script(before, after)| && Script(before, after)[k].kind == Add
    ensures Script(before, after)[k + 1].kind != Del
    decreases |before| + |after|
  {
    var d := Script(before, after);
    if before == [] || after == [] {
    } else if k > 0 {
      if before[0] == after[0] {
        assert d[1..] == Script(before[1..], after[1..]);
        DeletionsComeFirst(before[1..], after[1..], k - 1);
      } else if d[0].kind == Del {
        assert d[1..] == Script(before[1..], after);
        DeletionsComeFirst(before[1..], after, k - 1);
      } else {
        assert d[1..] == Script(before, after[1..]);
        DeletionsComeFirst(before, after[1..], k - 1);
      }
    } else {
      var later := Script(before, after[1..]);
      assert d[1] == later[0];
      AddMeansMore(before, after);
      LcsDrop(before[1..], after);
    }
  }

  // ----- The algorithm -----

  /** Every cell of `table` below row `i`, and those of row `i` right of column `j`, hold their subsequence length. */
  ghost predicate Filled(table: array2<uint32>, a: seq<string>, b: seq<string>, i: int, j: int)
    reads table
  {
    && table.Length0 == |a| + 1 && table.Length1 == |b| + 1
    && forall r, c :: 0 <= r <= |a| && 0 <= c <= |b| && (i < r || (i == r && j < c)) ==>
         table[r, c] as int == Lcs(a[r..], b[c..])
  }

  /** The last column starts out, and stays, zero: the fill writes only left of it. */
  ghost predicate ZeroMargin(table: array2<uint32>)
    requires table.Length1 > 0
    reads table
  {
    forall r, c :: 0 <= r < table.Length0 && c == table.Length1 - 1 ==> table[r, c] == 0
  }

  lemma ProductExceeds(x: nat, y: nat)
    requires x > 500 && y > 500
    ensures x * y > MAX_DIFF_CELLS
  {
    assert x * y >= 501 * y;
  }

  /** Within the budget one side has at most 500 lines, so a cell plus one still fits 32 bits. */
  lemma CellFits(a: seq<string>, b: seq<string>, i: nat, j: nat)
    requires |a| * |b| <= MAX_DIFF_CELLS && i < |a| && j < |b|
    ensures Lcs(a[i + 1..], b[j + 1..]) <= 500
    ensures a[i..][1..] == a[i + 1..] && b[j..][1..] == b[j + 1..]
  {
    LcsBound(a[i + 1..], b[j + 1..]);
    if |a| > 500 && |b| > 500 {
      ProductExceeds(|a|, |b|);
    }
  }

  method FillTable(a: seq<string>, b: seq<string>) returns (table: array2<uint32>)
    requires |a| * |b| <= MAX_DIFF_CELLS
    ensures fresh(table) && Filled(table, a, b, -1, |b|)
  {
    table := new uint32[|a| + 1, |b| + 1]((_, _) => 0);
    var i := |a| - 1;
    while i >= 0
      invariant -1 <= i < |a|
      invariant Filled(table, a, b, i, |b|) && ZeroMargin(table)
    {
      var j := |b| - 1;
      while j >= 0
        invariant -1 <= j < |b|
        invariant Filled(table, a, b, i, j) && ZeroMargin(table)
      {
        CellFits(a, b, i, j);
        table[i, j] := if a[i] == b[j] then table[i + 1, j + 1] + 1
                       else if table[i + 1, j] >= table[i, j + 1] then table[i + 1, j] else table[i, j + 1];
        j := j - 1;
      }
      i := i - 1;
    }
  }

  /** `lcsDiff`: table fill, then backtrace. Only reached when the table fits the cell budget. */
  method LcsDiff(oldLines: seq<string>, newLines: seq<string>) returns (out: seq<DiffLine>)
    requires |oldLines| * |newLines| <= MAX_DIFF_CELLS
    ensures out == Script(oldLines, newLines)
  {
    var n, m := |oldLines|, |newLines|;
    var table := FillTable(oldLines, newLines);
    out := [];
    var i, j := 0, 0;
    while i < n && j < m
      invariant 0 <= i <= n && 0 <= j <= m
      invariant Filled(table, oldLines, newLines, -1, m)
      invariant out + Script(oldLines[i..], newLines[j..]) == Script(oldLines, newLines)
      decreases n + m - i - j
    {
      ScriptStep(oldLines, newLines, i, j);
      Cells(table, oldLines, newLines, i, j);
      var line;
      if oldLines[i] == newLines[j] {
        line := DiffLine(Ctx, oldLines[i]);
        i, j := i + 1, j + 1;
      } else if table[i + 1, j] >= table[i, j + 1] {
        line := DiffLine(Del, oldLines[i]);
        i := i + 1;
      } else {
        line := DiffLine(Add, newLines[j]);
        j := j + 1;
      }
      Regroup(out, [line], Script(oldLines[i..], newLines[j..]));
      out := out + [line];
    }
    ScriptOfOneSide(oldLines[i..], newLines[j..]);
    var deletions := TagRest(Del, oldLines, i);
    var additions := TagRest(Add, newLines, j);
    out := out + (deletions + additions);
  }

  /** The two closing loops: every line from `from` on, with the same tag. */
  method TagRest(kind: Kind, lines: seq<string>, from: nat) returns (out: seq<DiffLine>)
    requires from <= |lines|
    ensures out == Tagged(kind, lines[from..])
  {
    out := [];
    var k := from;
    while k < |lines|
      invariant from <= k <= |lines|
      invariant |out| == k - from
      invariant forall p :: 0 <= p < |out| ==> out[p] == DiffLine(kind, lines[from + p])
    {
      out := out + [DiffLine(kind, lines[k])];
      k := k + 1;
    }
  }

  lemma Cells(table: array2<uint32>, a: seq<string>, b: seq<string>, i: nat, j: nat)
    requires Filled(table, a, b, -1, |b|) && i < |a| && j < |b|
    ensures (table[i + 1, j] >= table[i, j + 1]) <==> Lcs(a[i + 1..], b[j..]) >= Lcs(a[i..], b[j + 1..])
  {}

  lemma ScriptStep(a: seq<string>, b: seq<string>, i: nat, j: nat)
    requires i < |a| && j < |b|
    ensures Script(a[i..], b[j..]) ==
            if a[i] == b[j] then [DiffLine(Ctx, a[i])] + Script(a[i + 1..], b[j + 1..])
            else if Lcs(a[i + 1..], b[j..]) >= Lcs(a[i..], b[j + 1..])
                then [DiffLine(Del, a[i])] + Script(a[i + 1..], b[j..])
            else [DiffLine(Add, b[j])] + Script(a[i..], b[j + 1..])
  {
    assert a[i..][1..] == a[i + 1..] && b[j..][1..] == b[j + 1..];
  }

  /** Once one file is used up, the rest is its deletions followed by the other's additions. */
  lemma ScriptOfOneSide(a: seq<string>, b: seq<string>)
    requires a == [] || b == []
    ensures Script(a, b) == Tagged(Del, a) + Tagged(Add, b)
  {
    if a == [] {
      assert Tagged(Del, a) + Tagged(Add, b) == Tagged(Add, b);
    } else {
      assert Tagged(Del, a) + Tagged(Add, b) == Tagged(Del, a);
    }
  }

  // ----- Whole files -----

  /** `content.split('\n')`: never empty. */
  function SplitLines(s: string): (lines: seq<string>)
    ensures lines != []
  {
    if s == [] then [""]
    else
      var rest := SplitLines(s[1..]);
      if s[0] == '\n' then [""] + rest else [[s[0]] + rest[0]] + rest[1..]
  }

  /** `lines.join('\n')`. */
  function JoinLines(lines: seq<string>): string
    requires lines != []
  {
    if |lines| == 1 then lines[0] else lines[0] + "\n" + JoinLines(lines[1..])
  }

  lemma {:induction false} JoinSplit(s: string)
    ensures JoinLines(SplitLines(s)) == s
  {
    if s != [] {
      JoinSplit(s[1..]);
      var rest := SplitLines(s[1..]);
      if s[0] == '\n' {
        assert ([""] + rest)[1..] == rest;
      } else {
        var lines := [[s[0]] + rest[0]] + rest[1..];
        assert lines[1..] == rest[1..];
        assert lines[0] == [s[0]] + rest[0];
        assert s == [s[0]] + s[1..];
      }
    }
  }

  /** The lines are the pieces between line breaks: with what joins them, that says which they are. */
  lemma {:induction false} LinesHoldNoBreak(s: string, i: nat)
    requires i < |SplitLines(s)|
    ensures '\n' !in SplitLines(s)[i]
  {
    if s != [] {
      var rest := SplitLines(s[1..]);
      if s[0] == '\n' {
        if i > 0 { LinesHoldNoBreak(s[1..], i - 1); }
      } else {
        LinesHoldNoBreak(s[1..], i);
      }
    }
  }

  /** The lines of a file that may not exist. */
  function LinesOf(content: Option<string>): seq<string> {
    if content.None? then [] else SplitLines(content.value)
  }

  predicate TooLarge(before: Option<string>, after: Option<string>) {
    before.Some? && after.Some? && |LinesOf(before)| * |LinesOf(after)| > MAX_DIFF_CELLS
  }

  function TooLargeNote(oldCount: nat, newCount: nat): string {
    Decimal(oldCount) + " lines \U{2192} " + Decimal(newCount) + " lines (too large to diff line-by-line)"
  }

  /** What `computeLineDiff` shows for a change from `before` to `after`. */
  function FileDiffLines(before: Option<string>, after: Option<string>): seq<DiffLine> {
    if before.None? then Tagged(Add, LinesOf(after))
    else if after.None? then Tagged(Del, LinesOf(before))
    else if TooLarge(before, after) then [DiffLine(Meta, TooLargeNote(|LinesOf(before)|, |LinesOf(after)|))]
    else Script(LinesOf(before), LinesOf(after))
  }

  method ComputeLineDiff(before: Option<string>, after: Option<string>) returns (out: seq<DiffLine>)
    ensures out == FileDiffLines(before, after)
  {
    var oldLines, newLines := LinesOf(before), LinesOf(after);
    if before.None? {
      out := Tagged(Add, newLines);
    } else if after.None? {
      out := Tagged(Del, oldLines);
    } else if |oldLines| * |newLines| > MAX_DIFF_CELLS {
      out := [DiffLine(Meta, TooLargeNote(|oldLines|, |newLines|))];
    } else {
      out := LcsDiff(oldLines, newLines);
    }
  }

  /**
   * A diff rebuilds both files exactly when it was not too large to make, and is then the
   * smallest there is: its sides, joined, are the two contents.
   */
  lemma DiffRebuildsBothFiles(before: Option<string>, after: Option<string>)
    ensures EditScript(FileDiffLines(before, after), LinesOf(before), LinesOf(after)) <==> !TooLarge(before, after)
    ensures !TooLarge(before, after) ==>
      var d := FileDiffLines(before, after);
      && (before.Some? ==> OldSide(d) != [] && JoinLines(OldSide(d)) == before.value)
      && (after.Some? ==> NewSide(d) != [] && JoinLines(NewSide(d)) == after.value)
      && (forall e :: EditScript(e, LinesOf(before), LinesOf(after)) ==> Changes(d) <= Changes(e))
  {
    var d := FileDiffLines(before, after);
    if TooLarge(before, after) {
      assert d[1..] == [];
      assert CountKind(d, Meta) == 1;
    } else {
      if before.None? {
        TaggedSides(Add, LinesOf(after));
      } else if after.None? {
        TaggedSides(Del, LinesOf(before));
        assert Script(LinesOf(before), []) == d;
      } else {
        ScriptIsEditScript(LinesOf(before), LinesOf(after));
      }
      ScriptIsMinimal(LinesOf(before), LinesOf(after));
      if before.Some? { JoinSplit(before.value); }
      if after.Some? { JoinSplit(after.value); }
    }
  }

  /**
   * Only an edit is ever too large, when its line counts multiply to more than 250,000; it is then
   * one note of both.
   */
  lemma OnlyLargeEditsAreNoted(before: Option<string>, after: Option<string>)
    ensures CountKind(FileDiffLines(before, after), Meta) > 0 <==>
            before.Some? && after.Some? && |SplitLines(before.value)| * |SplitLines(after.value)| > 250_000
    ensures CountKind(FileDiffLines(before, after), Meta) > 0 ==>
            FileDiffLines(before, after) == [DiffLine(Meta, Decimal(|LinesOf(before)|) + " lines \U{2192} " +
              Decimal(|LinesOf(after)|) + " lines (too large to diff line-by-line)")]
  {
    if TooLarge(before, after) {
      assert FileDiffLines(before, after)[1..] == [];
    } else {
      NetLines(before, after);
    }
  }

  /** Conservation: in every diff made line by line, adds minus dels is the change in line count. */
  lemma NetLines(before: Option<string>, after: Option<string>)
    requires !TooLarge(before, after)
    ensures var d := FileDiffLines(before, after);
      CountKind(d, Add) - CountKind(d, Del) == |LinesOf(after)| - |LinesOf(before)|
    ensures CountKind(FileDiffLines(before, after), Meta) == 0
  {
    DiffRebuildsBothFiles(before, after);
    ScriptSizes(FileDiffLines(before, after));
  }
}
