/** Finding the dominant pipe table of a Markdown document. */
module TableScan {
  import opened Wrappers
  import opened Text

  datatype TableBlock = TableBlock(
    startLine: nat, endLine: nat, headerLine: string, delimiterLine: string, dataLines: seq<string>)

  // ---------------------------------------------------------------- lines

  predicate IsPipeLine(line: string) {
    StartsWith(Strip(line), "|")
  }

  predicate IsDelimiterCell(cell: string) {
    cell != "" && forall i :: 0 <= i < |cell| ==> cell[i] in "-: "
  }

  predicate IsDelimiterLine(line: string) {
    var stripped := Strip(line);
    && StartsWith(stripped, "|")
    && var cells := Split(StripChar(stripped, '|'), '|');
       forall i :: 0 <= i < |cells| ==> IsDelimiterCell(Strip(cells[i]))
  }

  /** A table line is one whose first character that is not white space is a bar. */
  lemma PipeLineExactly(line: string)
    ensures IsPipeLine(line) <==> exists i :: 0 <= i < |line| && line[i] == '|' && Spaces(line[..i])
  {
    if IsPipeLine(line) {
      var left, right := StripMeaning(line);
      assert Strip(line)[0] == '|' by { assert Strip(line)[..1] == "|"; }
      assert line[|left|] == '|' && line[..|left|] == left;
    }
    if i :| 0 <= i < |line| && line[i] == '|' && Spaces(line[..i]) {
      assert line == line[..i] + ['|'] + line[i + 1..];
      StripStarts(line[..i], '|', line[i + 1..]);
    }
  }

  /** Cells with a bar between one and the next. */
  function Barred(cells: seq<string>): string {
    if cells == [] then "" else if |cells| == 1 then cells[0] else cells[0] + "|" + Barred(cells[1..])
  }

  lemma {:induction false} SplitBarred(cells: seq<string>)
    requires cells != [] && forall i :: 0 <= i < |cells| ==> '|' !in cells[i]
    ensures Split(Barred(cells), '|') == cells
  {
    SplitNone(cells[0], '|');
    if |cells| > 1 {
      SplitBarred(cells[1..]);
      assert "|" == ['|'];
      SplitAtSeparator(cells[0], '|', Barred(cells[1..]));
      assert cells == [cells[0]] + cells[1..];
    } else {
      assert cells == [cells[0]];
    }
  }

  lemma {:induction false} BarredEnds(cells: seq<string>)
    requires cells != [] && cells[0] != "" && cells[|cells| - 1] != ""
    ensures var t, last := Barred(cells), cells[|cells| - 1];
            t != "" && t[0] == cells[0][0] && t[|t| - 1] == last[|last| - 1]
  {
    if |cells| > 1 {
      var rest := cells[1..];
      assert rest[|rest| - 1] == cells[|cells| - 1];
      BarredLast(rest);
      assert Barred(cells) == cells[0] + "|" + Barred(rest);
    }
  }

  lemma {:induction false} BarredLast(cells: seq<string>)
    requires cells != [] && cells[|cells| - 1] != ""
    ensures var t, last := Barred(cells), cells[|cells| - 1];
            t != "" && t[|t| - 1] == last[|last| - 1]
  {
    if |cells| > 1 {
      BarredLast(cells[1..]);
      assert Barred(cells) == cells[0] + "|" + Barred(cells[1..]);
    }
  }

  /** A cell of dashes, colons and blanks that is not blank. */
  predicate RuleCell(cell: string) {
    var t := Strip(cell);
    t != "" && forall i :: 0 <= i < |t| ==> t[i] == '-' || t[i] == ':' || t[i] == ' '
  }

  /** A row of cells is a delimiter line exactly when every cell is a rule. */
  lemma DelimiterRowExactly(left: string, cells: seq<string>, right: string)
    requires Spaces(left) && Spaces(right)
    requires cells != [] && cells[0] != "" && cells[|cells| - 1] != ""
    requires forall i :: 0 <= i < |cells| ==> '|' !in cells[i]
    ensures IsDelimiterLine(left + ("|" + Barred(cells) + "|") + right)
            <==> forall i :: 0 <= i < |cells| ==> RuleCell(cells[i])
  {
    var inner := Barred(cells);
    var row := "|" + inner + "|";
    StripSurrounded(left, row, right);
    BarredEnds(cells);
    StripBars(inner);
    SplitBarred(cells);
    assert row[..1] == "|";
    assert forall c: char :: c in "-: " <==> c == '-' || c == ':' || c == ' ';
    forall i | 0 <= i < |cells| ensures IsDelimiterCell(Strip(cells[i])) == RuleCell(cells[i]) {
    }
  }

  lemma StripBars(inner: string)
    requires inner != "" && inner[0] != '|' && inner[|inner| - 1] != '|'
    ensures StripChar("|" + inner + "|", '|') == inner
  {
    var row := "|" + inner + "|";
    var open := inner + "|";
    assert row[1..] == open && row[0] == '|';
    assert open[0] == inner[0] && open[|open| - 1] == '|' && open[..|open| - 1] == inner;
    assert StripChar(open, '|') == StripChar(inner, '|');
  }

  // ---------------------------------------------------------------- tables

  /** Which lines belong to a table, and which can delimit its header. */
  datatype Syntax = Syntax(isPipe: string -> bool, isDelimiter: string -> bool)

  const PIPE_TABLES := Syntax(IsPipeLine, IsDelimiterLine)

  /** Lines s to e are a maximal run of pipe lines. */
  predicate IsRun(x: Syntax, lines: seq<string>, s: int, e: int) {
    && 0 <= s <= e < |lines|
    && (forall i :: s <= i <= e ==> x.isPipe(lines[i]))
    && (s > 0 ==> !x.isPipe(lines[s - 1]))
    && (e + 1 < |lines| ==> !x.isPipe(lines[e + 1]))
  }

  /** A maximal run of at least two lines whose second line is a delimiter. */
  predicate IsTable(x: Syntax, lines: seq<string>, s: int, e: int) {
    IsRun(x, lines, s, e) && s < e && x.isDelimiter(lines[s + 1])
  }

  function BlockAt(lines: seq<string>, s: int, e: int): TableBlock
    requires 0 <= s < e < |lines|
  {
    TableBlock(s, e, lines[s], lines[s + 1], lines[s + 2..e + 1])
  }

  /** The table with the most data rows, and the first of those. */
  predicate IsDominant(x: Syntax, lines: seq<string>, s: int, e: int) {
    && IsTable(x, lines, s, e)
    && forall t, f | 0 <= t < |lines| && 0 <= f < |lines| ::
         IsTable(x, lines, t, f) ==> f - t < e - s || (f - t == e - s && s <= t)
  }

  ghost predicate IsDominantBlock(x: Syntax, lines: seq<string>, b: TableBlock) {
    IsDominant(x, lines, b.startLine, b.endLine) && b == BlockAt(lines, b.startLine, b.endLine)
  }

  /** The dominant table of a document, if it has a table. */
  ghost function Dominant(x: Syntax, lines: seq<string>): (r: Option<TableBlock>)
    ensures r.Some? ==> IsDominantBlock(x, lines, r.value)
  {
    if exists b :: IsDominantBlock(x, lines, b) then
      var b :| IsDominantBlock(x, lines, b);
      Some(b)
    else None
  }

  /** There is only one dominant table. */
  lemma DominantUnique(x: Syntax, lines: seq<string>, b: TableBlock)
    requires IsDominantBlock(x, lines, b)
    ensures Dominant(x, lines) == Some(b)
  {
    var d := Dominant(x, lines).value;
    assert d.startLine == b.startLine && d.endLine == b.endLine;
  }

  // ---------------------------------------------------------------- the scan

  predicate IsBlock(x: Syntax, lines: seq<string>, b: TableBlock) {
    IsTable(x, lines, b.startLine, b.endLine) && b == BlockAt(lines, b.startLine, b.endLine)
  }

  predicate Has(blocks: seq<TableBlock>, s: int) {
    exists k :: 0 <= k < |blocks| && blocks[k].startLine == s
  }

  /** Tables in order, with a line between one and the next. */
  predicate Separated(blocks: seq<TableBlock>) {
    forall j, k :: 0 <= j < k < |blocks| ==> blocks[j].endLine + 1 < blocks[k].startLine
  }

  /** The tables found so far are exactly those that start before `limit`, in order. */
  ghost predicate Collected(x: Syntax, lines: seq<string>, blocks: seq<TableBlock>, limit: int) {
    && (forall k :: 0 <= k < |blocks| ==> IsBlock(x, lines, blocks[k]) && blocks[k].endLine < limit)
    && Separated(blocks)
    && (forall s, e :: IsTable(x, lines, s, e) && s < limit ==> Has(blocks, s))
  }

  /** The part of `_find_dominant_table` that collects the blocks. */
  method CollectTables(x: Syntax, lines: seq<string>) returns (blocks: seq<TableBlock>)
    ensures Collected(x, lines, blocks, |lines|)
  {
    blocks := [];
    var index := 0;
    while index < |lines|
      invariant 0 <= index <= |lines|
      invariant 0 < index < |lines| && x.isPipe(lines[index]) ==> !x.isPipe(lines[index - 1])
      invariant Collected(x, lines, blocks, index)
      decreases |lines| - index
    {
      if !x.isPipe(lines[index]) {
        NoRunHere(x, lines, blocks, index);
        index := index + 1;
        continue;
      }
      var start, end := index, index;
      while end + 1 < |lines| && x.isPipe(lines[end + 1])
        invariant start <= end < |lines|
        invariant forall i :: start <= i <= end ==> x.isPipe(lines[i])
      {
        end := end + 1;
      }
      RunHere(x, lines, blocks, start, end);
      if end - start + 1 >= 2 && x.isDelimiter(lines[start + 1]) {
        blocks := blocks + [TableBlock(start, end, lines[start], lines[start + 1], lines[start + 2..end + 1])];
      }
      index := end + 1;
    }
  }

  lemma NoRunHere(x: Syntax, lines: seq<string>, blocks: seq<TableBlock>, index: int)
    requires 0 <= index < |lines| && !x.isPipe(lines[index])
    requires Collected(x, lines, blocks, index)
    ensures Collected(x, lines, blocks, index + 1)
  {
    assert forall e :: !IsTable(x, lines, index, e);
  }

  lemma RunHere(x: Syntax, lines: seq<string>, blocks: seq<TableBlock>, s: int, e: int)
    requires IsRun(x, lines, s, e) && Collected(x, lines, blocks, s)
    ensures if IsTable(x, lines, s, e) then Collected(x, lines, blocks + [BlockAt(lines, s, e)], e + 1)
            else Collected(x, lines, blocks, e + 1)
  {
    RunsApart(x, lines, s, e);
    if IsTable(x, lines, s, e) {
      var b := BlockAt(lines, s, e);
      EarlierBlocksApart(x, lines, blocks, s);
      HasAppend(blocks, b);
      assert IsBlock(x, lines, b);
    }
  }

  /** A block that ends before a run of pipe lines does not touch it. */
  lemma EarlierBlocksApart(x: Syntax, lines: seq<string>, blocks: seq<TableBlock>, s: int)
    requires 0 <= s < |lines| && (s > 0 ==> !x.isPipe(lines[s - 1]))
    requires forall k :: 0 <= k < |blocks| ==> IsBlock(x, lines, blocks[k]) && blocks[k].endLine < s
    ensures forall k :: 0 <= k < |blocks| ==> blocks[k].endLine + 1 < s
  {
    forall k | 0 <= k < |blocks| ensures blocks[k].endLine + 1 < s {
      assert x.isPipe(lines[blocks[k].endLine]);
    }
  }

  lemma HasAppend(blocks: seq<TableBlock>, b: TableBlock)
    ensures forall s :: Has(blocks + [b], s) <==> Has(blocks, s) || s == b.startLine
  {
    var after := blocks + [b];
    forall s ensures Has(after, s) <==> Has(blocks, s) || s == b.startLine {
      if Has(blocks, s) {
        var k :| 0 <= k < |blocks| && blocks[k].startLine == s;
        assert after[k].startLine == s;
      }
      assert after[|blocks|] == b;
    }
  }

  /** A run that starts inside another is that run. */
  lemma RunsApart(x: Syntax, lines: seq<string>, s: int, e: int)
    requires IsRun(x, lines, s, e)
    ensures forall t, f :: IsRun(x, lines, t, f) && s <= t <= e ==> t == s && f == e
  {
  }

  /** `max(blocks, key=...)`: the first block with the most data lines. */
  function FirstLongest(blocks: seq<TableBlock>): (k: nat)
    requires blocks != []
    ensures k < |blocks|
    ensures forall j :: 0 <= j < |blocks| ==>
              |blocks[j].dataLines| < |blocks[k].dataLines|
              || (|blocks[j].dataLines| == |blocks[k].dataLines| && k <= j)
  {
    if |blocks| == 1 then 0
    else
      var k := FirstLongest(blocks[..|blocks| - 1]);
      if |blocks[|blocks| - 1].dataLines| > |blocks[k].dataLines| then |blocks| - 1 else k
  }

  /** `_find_dominant_table`. */
  method FindDominantTable(lines: seq<string>) returns (r: Option<TableBlock>)
    ensures r == Dominant(PIPE_TABLES, lines)
    ensures r.None? <==> forall s, e :: !IsTable(PIPE_TABLES, lines, s, e)
  {
    var blocks := CollectTables(PIPE_TABLES, lines);
    if blocks == [] {
      return None;
    }
    LongestDominates(PIPE_TABLES, lines, blocks);
    return Some(blocks[FirstLongest(blocks)]);
  }

  lemma LongestDominates(x: Syntax, lines: seq<string>, blocks: seq<TableBlock>)
    requires Collected(x, lines, blocks, |lines|) && blocks != []
    ensures Dominant(x, lines) == Some(blocks[FirstLongest(blocks)])
  {
    var b := blocks[FirstLongest(blocks)];
    forall t, f | 0 <= t < |lines| && 0 <= f < |lines| && IsTable(x, lines, t, f)
      ensures f - t < b.endLine - b.startLine || (f - t == b.endLine - b.startLine && b.startLine <= t)
    {
      var k :| 0 <= k < |blocks| && blocks[k].startLine == t;
      RunsApart(x, lines, t, f);
      assert blocks[k].endLine == f;
    }
    DominantUnique(x, lines, b);
  }

  /** A document of nothing but pipe lines whose second line is a delimiter is one table. */
  lemma WholeTable(x: Syntax, lines: seq<string>)
    requires |lines| >= 2 && x.isDelimiter(lines[1])
    requires forall i :: 0 <= i < |lines| ==> x.isPipe(lines[i])
    ensures Dominant(x, lines) == Some(TableBlock(0, |lines| - 1, lines[0], lines[1], lines[2..]))
  {
    assert IsTable(x, lines, 0, |lines| - 1);
    RunsApart(x, lines, 0, |lines| - 1);
    assert lines[2..|lines|] == lines[2..];
    DominantUnique(x, lines, BlockAt(lines, 0, |lines| - 1));
  }
}
