/** Splitting a document with a large table into row-range chunks. */
module ChunkPlanning {
  import opened Wrappers
  import opened Text
  import opened Json
  import opened SchemaNormalize
  import opened TableScan

  // ---------------------------------------------------------------- entities

  datatype ChunkingConfig = ChunkingConfig(rowThreshold: int, rowsPerChunk: nat)

  datatype RowArrayLocation = RowArrayLocation(propertyName: string, itemSchema: Json)

  datatype DocumentChunk = DocumentChunk(index: nat, startRow: nat, endRow: nat, markdown: string)

  datatype ChunkPlan = ChunkPlan(
    location: RowArrayLocation,
    chunkSchema: Json,
    summarySchema: Option<Json>,
    summaryMarkdown: string,
    chunks: seq<DocumentChunk>,
    totalRows: nat)

  // ---------------------------------------------------------------- the row array

  /** An array property whose items are objects. */
  predicate IsRowArray(sub: Json) {
    && sub.Obj?
    && Get(sub.fields, "type") == Str("array")
    && Get(sub.fields, "items").Obj?
    && var items := Get(sub.fields, "items").fields;
       Get(items, "type") == Str("object") || "properties" in items
  }

  function Properties(schema: Json): Fields {
    if schema.Obj? && Get(schema.fields, "properties").Obj? then schema.fields["properties"].fields else map[]
  }

  function RowArrays(schema: Json): set<string> {
    set k | k in Properties(schema) && IsRowArray(Properties(schema)[k])
  }

  function LocationOf(props: Fields, name: string): RowArrayLocation
    requires name in props
  {
    RowArrayLocation(name, if props[name].Obj? then Get(props[name].fields, "items") else Null)
  }

  /** The row array of a schema, when it has exactly one. */
  ghost function Located(schema: Json): (r: Option<RowArrayLocation>)
    ensures r.Some? <==> |RowArrays(schema)| == 1
    ensures r.Some? ==> RowArrays(schema) == {r.value.propertyName}
                        && r.value == LocationOf(Properties(schema), r.value.propertyName)
  {
    var names := RowArrays(schema);
    if |names| == 1 then
      var name :| name in names;
      OnlyElement(names, name);
      Some(LocationOf(Properties(schema), name))
    else None
  }

  lemma OnlyElement<T>(s: set<T>, x: T)
    requires |s| == 1 && x in s
    ensures s == {x}
  {
    if y :| y in s && y != x {
      assert {x, y} <= s;
      SubsetSize({x, y}, s);
    }
  }

  lemma SubsetSize<T>(a: set<T>, b: set<T>)
    requires a <= b
    ensures |a| <= |b|
  {
    assert b == a + (b - a);
  }

  /** `locate_row_array`. */
  method LocateRowArray(schema: Json) returns (r: Option<RowArrayLocation>)
    ensures r == Located(schema)
  {
    var props := Properties(schema);
    var matches := MatchingProperties(props, IsRowArray);
    assert RowArrays(schema) == Matching(props, IsRowArray);
    if |matches| != 1 {
      return None;
    }
    OnlyElement(RowArrays(schema), matches[0].propertyName);
    return Some(matches[0]);
  }

  function Matching(props: Fields, isMatch: Json -> bool): set<string> {
    set k | k in props && isMatch(props[k])
  }

  /** The loop of `locate_row_array` over the properties. */
  method MatchingProperties(props: Fields, isMatch: Json -> bool) returns (matches: seq<RowArrayLocation>)
    ensures |matches| == |Matching(props, isMatch)|
    ensures forall i :: 0 <= i < |matches| ==>
              && matches[i].propertyName in Matching(props, isMatch)
              && matches[i] == LocationOf(props, matches[i].propertyName)
  {
    matches := [];
    var pending := props.Keys;
    ghost var wanted := Matching(props, isMatch);
    assert wanted - pending == {};
    while pending != {}
      invariant pending <= props.Keys && |matches| == |wanted - pending|
      invariant forall i :: 0 <= i < |matches| ==>
        matches[i].propertyName in wanted && matches[i] == LocationOf(props, matches[i].propertyName)
      decreases pending
    {
      var name :| name in pending;
      OneFewer(wanted, pending, name);
      if isMatch(props[name]) {
        matches := matches + [LocationOf(props, name)];
      }
      pending := pending - {name};
    }
    assert wanted - {} == wanted;
  }

  lemma OneFewer<T>(wanted: set<T>, pending: set<T>, x: T)
    requires x in pending
    ensures |wanted - (pending - {x})| == |wanted - pending| + (if x in wanted then 1 else 0)
  {
    assert wanted - (pending - {x}) == wanted - pending + (if x in wanted then {x} else {});
  }

  // ---------------------------------------------------------------- chunks

  function ChunkEnd(n: nat, k: nat, start: nat): nat {
    if start + k < n then start + k else n
  }

  function ChunkText(block: TableBlock, start: nat, end: nat): string
    requires start <= end <= |block.dataLines|
  {
    JoinLines([block.headerLine, block.delimiterLine] + block.dataLines[start..end])
  }

  function ChunkAt(block: TableBlock, k: nat, index: nat, start: nat): DocumentChunk
    requires start <= |block.dataLines|
  {
    var end := ChunkEnd(|block.dataLines|, k, start);
    DocumentChunk(index, start, end, ChunkText(block, start, end))
  }

  /** The chunks from a start row on. */
  function Chunks(block: TableBlock, k: nat, index: nat, start: nat): seq<DocumentChunk>
    requires k > 0
    decreases |block.dataLines| - start
  {
    if start >= |block.dataLines| then []
    else [ChunkAt(block, k, index, start)] + Chunks(block, k, index + 1, start + k)
  }

  // ---------------------------------------------------------------- schemas and summary

  /** The schema of one chunk's result: an object with the rows and nothing else. */
  function ChunkSchema(location: RowArrayLocation): Json {
    Obj(map["type" := Str("object"),
            "properties" := Obj(map[location.propertyName :=
                                      Obj(map["type" := Str("array"), "items" := location.itemSchema])]),
            "required" := Arr([Str(location.propertyName)]),
            "additionalProperties" := Bool(false)])
  }

  function OtherProperties(schema: Json, name: string): Fields {
    Properties(schema) - {name}
  }

  /** The schema of the summary: an object with all the other properties and nothing else. */
  function SummarySchema(schema: Json, name: string): Option<Json> {
    var others := OtherProperties(schema, name);
    if others == map[] then None
    else Some(Obj(map["type" := Str("object"),
                      "properties" := Obj(others),
                      "required" := KeyList(others),
                      "additionalProperties" := Bool(false)]))
  }

  function NonEmpty(sections: seq<string>): seq<string> {
    if sections == [] then []
    else (if sections[0] != "" then [sections[0]] else []) + NonEmpty(sections[1..])
  }

  function SummaryMarkdown(lines: seq<string>, block: TableBlock, k: nat): string
    requires block.startLine <= |lines| && block.endLine < |lines|
  {
    var preamble := Strip(JoinLines(lines[..block.startLine]));
    var footer := Strip(JoinLines(lines[block.endLine + 1..]));
    var leading := JoinLines(block.dataLines[..ChunkEnd(|block.dataLines|, k, 0)]);
    JoinLines(NonEmpty([preamble, block.headerLine, block.delimiterLine, leading, footer]))
  }

  /** A row array is a list whose items are what the strict form treats as objects. */
  lemma RowArrayExactly(sub: Json)
    ensures IsRowArray(sub) <==>
            exists m, items :: sub == Obj(m) && Get(m, "type") == Str("array") && Get(m, "items") == Obj(items)
                               && IsObjectNode(items)
  {
  }

  // ---------------------------------------------------------------- what the summary text keeps

  /** A text put before or after others on lines of its own, if there is any. */
  function OnOwnLines(before: string, text: string, after: string): string {
    (if before == "" then "" else before + "\n") + text + (if after == "" then "" else "\n" + after)
  }

  /** The lines of a table are not empty. */
  predicate FullLines(block: TableBlock) {
    && block.headerLine != "" && block.delimiterLine != ""
    && forall i :: 0 <= i < |block.dataLines| ==> block.dataLines[i] != ""
  }

  /**
   The summary text is the text of the first chunk, with what stands before and after the table around it,
   stripped; and no character but white space of that is lost.
   */
  lemma SummaryExactly(lines: seq<string>, block: TableBlock, k: nat)
    requires block.startLine <= |lines| && block.endLine < |lines| && FullLines(block)
    ensures var before, after := JoinLines(lines[..block.startLine]), JoinLines(lines[block.endLine + 1..]);
            var first := ChunkText(block, 0, ChunkEnd(|block.dataLines|, k, 0));
            && SummaryMarkdown(lines, block, k) == OnOwnLines(Strip(before), first, Strip(after))
            && NonSpace(SummaryMarkdown(lines, block, k)) == NonSpace(before) + NonSpace(first) + NonSpace(after)
  {
    var before, after := JoinLines(lines[..block.startLine]), JoinLines(lines[block.endLine + 1..]);
    var end := ChunkEnd(|block.dataLines|, k, 0);
    var rows := block.dataLines[..end];
    assert rows == block.dataLines[0..end];
    SectionsText(Strip(before), block.headerLine, block.delimiterLine, rows, Strip(after));
    OwnLinesText(Strip(before), ChunkText(block, 0, end), Strip(after));
    NonSpaceStrip(before);
    NonSpaceStrip(after);
  }

  lemma SectionsText(before: string, header: string, delimiter: string, rows: seq<string>, after: string)
    requires header != "" && delimiter != "" && forall i :: 0 <= i < |rows| ==> rows[i] != ""
    ensures JoinLines(NonEmpty([before, header, delimiter, JoinLines(rows), after]))
            == OnOwnLines(before, JoinLines([header, delimiter] + rows), after)
  {
    var table := [header, delimiter] + Kept(JoinLines(rows));
    FiveSections(before, header, delimiter, JoinLines(rows), after);
    TableSections(header, delimiter, rows);
    SectionsJoined(before, table, after);
  }

  /** The section, unless it is empty. */
  function Kept(section: string): seq<string> {
    if section == "" then [] else [section]
  }

  lemma FiveSections(b: string, h: string, d: string, r: string, a: string)
    requires h != "" && d != ""
    ensures NonEmpty([b, h, d, r, a]) == Kept(b) + ([h, d] + Kept(r)) + Kept(a)
  {
    NonEmptyCons(b, [h, d, r, a]);
    NonEmptyCons(h, [d, r, a]);
    NonEmptyCons(d, [r, a]);
    NonEmptyCons(r, [a]);
    NonEmptyCons(a, []);
  }

  lemma NonEmptyCons(section: string, rest: seq<string>)
    ensures NonEmpty([section] + rest) == Kept(section) + NonEmpty(rest)
  {
    assert ([section] + rest)[1..] == rest;
  }

  /** The rows may be joined before they are joined to the lines above them. */
  lemma TableSections(header: string, delimiter: string, rows: seq<string>)
    requires forall i :: 0 <= i < |rows| ==> rows[i] != ""
    ensures JoinLines([header, delimiter] + rows) == JoinLines([header, delimiter] + Kept(JoinLines(rows)))
  {
    var top := [header, delimiter];
    if rows == [] {
      assert top + rows == top && top + Kept(JoinLines(rows)) == top;
    } else {
      assert JoinLines(rows) != "";
      JoinAppend(top, rows);
      JoinAppend(top, [JoinLines(rows)]);
    }
  }

  lemma SectionsJoined(before: string, table: seq<string>, after: string)
    requires table != []
    ensures JoinLines(Kept(before) + table + Kept(after)) == OnOwnLines(before, JoinLines(table), after)
  {
    var t, tail := JoinLines(table), if after == "" then "" else "\n" + after;
    BelowJoined(table, after);
    AboveJoined(before, table + Kept(after));
    assert Kept(before) + table + Kept(after) == Kept(before) + (table + Kept(after));
    if before != "" { assert before + "\n" + (t + tail) == before + "\n" + t + tail; }
  }

  lemma BelowJoined(table: seq<string>, after: string)
    requires table != []
    ensures JoinLines(table + Kept(after)) == JoinLines(table) + (if after == "" then "" else "\n" + after)
  {
    if after == "" {
      assert table + Kept(after) == table;
    } else {
      JoinAppend(table, [after]);
      assert JoinLines(table) + "\n" + after == JoinLines(table) + ("\n" + after);
    }
  }

  lemma AboveJoined(before: string, lower: seq<string>)
    requires lower != []
    ensures JoinLines(Kept(before) + lower) == (if before == "" then "" else before + "\n") + JoinLines(lower)
  {
    if before == "" {
      assert Kept(before) + lower == lower;
    } else {
      JoinAppend([before], lower);
    }
  }

  lemma OwnLinesText(before: string, text: string, after: string)
    ensures NonSpace(OnOwnLines(before, text, after)) == NonSpace(before) + NonSpace(text) + NonSpace(after)
  {
    var head := if before == "" then "" else before + "\n";
    var tail := if after == "" then "" else "\n" + after;
    HeadText(before);
    TailText(after);
    NonSpaceAppend(head + text, tail);
    NonSpaceAppend(head, text);
  }

  lemma HeadText(before: string)
    ensures NonSpace(if before == "" then "" else before + "\n") == NonSpace(before)
  {
    NonSpaceAppend(before, "\n");
    LineFeedText();
  }

  lemma TailText(after: string)
    ensures NonSpace(if after == "" then "" else "\n" + after) == NonSpace(after)
  {
    NonSpaceAppend("\n", after);
    LineFeedText();
  }

  lemma LineFeedText()
    ensures NonSpace("\n") == ""
  {
    assert "\n"[1..] == "";
  }

  // ---------------------------------------------------------------- the plan

  ghost function RowCount(lines: seq<string>): nat {
    var block := Dominant(PIPE_TABLES, lines);
    if block.None? then 0 else |block.value.dataLines|
  }

  /** The plan for a document, if it has enough rows and the schema has one row array. */
  ghost function Planned(lines: seq<string>, schema: Json, config: ChunkingConfig): Option<ChunkPlan>
    requires config.rowsPerChunk > 0
  {
    var location, block := Located(schema), Dominant(PIPE_TABLES, lines);
    if RowCount(lines) < config.rowThreshold || location.None? || block.None? then None
    else Some(ChunkPlan(
      location.value, ChunkSchema(location.value), SummarySchema(schema, location.value.propertyName),
      SummaryMarkdown(lines, block.value, config.rowsPerChunk),
      Chunks(block.value, config.rowsPerChunk, 0, 0), RowCount(lines)))
  }

  /**
   There is a plan exactly when the schema has one row array and the document has a table with as many rows
   as the threshold or more.  It has the chunks and the summary of that table, and a schema for each.
   */
  lemma PlannedExactly(markdown: string, schema: Json, config: ChunkingConfig)
    requires config.rowsPerChunk > 0
    ensures var block, plan := Rescan(PIPE_TABLES, markdown), Planned(SplitLines(markdown), schema, config);
            && (plan.Some? <==>
                  |RowArrays(schema)| == 1 && block.Some? && |block.value.dataLines| >= config.rowThreshold)
            && (plan.Some? ==>
                  var k := config.rowsPerChunk;
                  && RowArrays(schema) == {plan.value.location.propertyName}
                  && plan.value.totalRows == |block.value.dataLines|
                  && plan.value.chunks == Chunks(block.value, k, 0, 0)
                  && plan.value.chunkSchema == ChunkSchema(plan.value.location)
                  && plan.value.summarySchema == SummarySchema(schema, plan.value.location.propertyName)
                  && plan.value.summaryMarkdown == SummaryMarkdown(SplitLines(markdown), block.value, k))
  {
  }

  /** `build_chunk_plan`. */
  method BuildChunkPlan(markdown: string, schema: Json, config: ChunkingConfig) returns (plan: Option<ChunkPlan>)
    requires config.rowsPerChunk > 0
    ensures plan == Planned(SplitLines(markdown), schema, config)
    ensures plan.Some? <==>
            && |RowArrays(schema)| == 1
            && Rescan(PIPE_TABLES, markdown).Some?
            && |Rescan(PIPE_TABLES, markdown).value.dataLines| >= config.rowThreshold
  {
    PlannedExactly(markdown, schema, config);
    var lines := SplitLines(markdown);
    var found := FindDominantTable(lines);
    var totalRows := if found.None? then 0 else |found.value.dataLines|;
    if totalRows < config.rowThreshold {
      return None;
    }
    var location := LocateRowArray(schema);
    if location.None? || found.None? {
      return None;
    }
    var block := found.value;
    var chunks := PlanChunks(block, config.rowsPerChunk);
    plan := Some(ChunkPlan(
      location.value, ChunkSchema(location.value), SummarySchema(schema, location.value.propertyName),
      SummaryMarkdown(lines, block, config.rowsPerChunk), chunks, totalRows));
  }

  /** The loop of `build_chunk_plan` over the start rows 0, k, 2k, ... */
  method PlanChunks(block: TableBlock, k: nat) returns (chunks: seq<DocumentChunk>)
    requires k > 0
    ensures chunks == Chunks(block, k, 0, 0)
  {
    chunks := [];
    var start: nat := 0;
    while start < |block.dataLines|
      invariant chunks + Chunks(block, k, |chunks|, start) == Chunks(block, k, 0, 0)
      decreases |block.dataLines| - start
    {
      var chunk := ChunkAt(block, k, |chunks|, start);
      ghost var rest := Chunks(block, k, |chunks| + 1, start + k);
      assert chunks + ([chunk] + rest) == chunks + [chunk] + rest;
      chunks := chunks + [chunk];
      start := start + k;
    }
  }

  // ---------------------------------------------------------------- partition

  /** The i-th chunk holds the rows from i * k up to the next multiple of k or the end. */
  lemma {:induction false} ChunkRange(block: TableBlock, k: nat, index: nat, start: nat, i: nat)
    requires k > 0 && i < |Chunks(block, k, index, start)|
    ensures var chunk := Chunks(block, k, index, start)[i];
            && start + i * k < |block.dataLines|
            && chunk == ChunkAt(block, k, index + i, start + i * k)
    decreases i
  {
    if i > 0 {
      assert Chunks(block, k, index, start)[1..] == Chunks(block, k, index + 1, start + k);
      ChunkRange(block, k, index + 1, start + k, i - 1);
      assert k + (i - 1) * k == i * k;
    }
  }

  /** As many chunks as whole and partial groups of k rows. */
  lemma {:induction false} ChunkCount(block: TableBlock, k: nat, index: nat, start: nat)
    requires k > 0
    ensures var n := |Chunks(block, k, index, start)|;
            && start + n * k >= |block.dataLines|
            && (n > 0 ==> start + (n - 1) * k < |block.dataLines|)
    decreases |block.dataLines| - start
  {
    if start < |block.dataLines| {
      ChunkCount(block, k, index + 1, start + k);
      var n := |Chunks(block, k, index + 1, start + k)|;
      assert (n + 1) * k == n * k + k;
      if n > 0 { assert n * k == (n - 1) * k + k; }
    }
  }

  /** The chunks are numbered in order and partition the rows into consecutive, non-empty ranges. */
  lemma ChunksPartition(block: TableBlock, k: nat)
    requires k > 0
    ensures var chunks := Chunks(block, k, 0, 0);
            && Covers(chunks, 0, |block.dataLines|)
            && forall i :: 0 <= i < |chunks| ==>
                 && chunks[i].index == i
                 && chunks[i].startRow == i * k
                 && chunks[i].startRow < chunks[i].endRow <= chunks[i].startRow + k
  {
    var chunks := Chunks(block, k, 0, 0);
    forall i | 0 <= i < |chunks|
      ensures chunks[i].index == i && chunks[i].startRow == i * k
      ensures chunks[i].startRow < chunks[i].endRow <= chunks[i].startRow + k
      ensures i + 1 < |chunks| ==> chunks[i].endRow == chunks[i + 1].startRow
      ensures i + 1 == |chunks| ==> chunks[i].endRow == |block.dataLines|
    {
      ChunkSpan(block, k, i);
    }
  }

  lemma ChunkSpan(block: TableBlock, k: nat, i: nat)
    requires k > 0 && i < |Chunks(block, k, 0, 0)|
    ensures var chunks, n := Chunks(block, k, 0, 0), |block.dataLines|;
            && chunks[i].index == i && chunks[i].startRow == i * k
            && chunks[i].startRow < chunks[i].endRow <= chunks[i].startRow + k
            && (i + 1 < |chunks| ==> chunks[i].endRow == chunks[i + 1].startRow)
            && (i + 1 == |chunks| ==> chunks[i].endRow == n)
  {
    var chunks := Chunks(block, k, 0, 0);
    ChunkCount(block, k, 0, 0);
    ChunkRange(block, k, 0, 0, i);
    assert (i + 1) * k == i * k + k;
    if i + 1 < |chunks| { ChunkRange(block, k, 0, 0, i + 1); }
  }

  // ---------------------------------------------------------------- re-scanning a chunk

  /** What scanning a text finds. */
  ghost function Rescan(x: Syntax, markdown: string): Option<TableBlock> {
    Dominant(x, SplitLines(markdown))
  }

  /** No table line is empty. */
  lemma PipeLineNotEmpty()
    ensures !PIPE_TABLES.isPipe("")
  {
    assert !IsPipeLine("");
  }

  predicate TableLine(x: Syntax, line: string) {
    BreakFree(line) && x.isPipe(line)
  }

  /** Every line of the block is a whole table line, and the second is a delimiter. */
  predicate WholeLines(x: Syntax, block: TableBlock) {
    && TableLine(x, block.headerLine)
    && TableLine(x, block.delimiterLine) && x.isDelimiter(block.delimiterLine)
    && forall i :: 0 <= i < |block.dataLines| ==> TableLine(x, block.dataLines[i])
  }

  lemma DominantLines(x: Syntax, markdown: string, block: TableBlock)
    requires Rescan(x, markdown) == Some(block)
    ensures WholeLines(x, block)
  {
    var lines := SplitLines(markdown);
    SplitLinesBreakFree(markdown);
    var s, e := block.startLine, block.endLine;
    assert IsDominantBlock(x, lines, block);
    assert block == BlockAt(lines, s, e) && IsTable(x, lines, s, e);
    forall i | s <= i <= e ensures TableLine(x, lines[i]) {
    }
  }

  /**
   Scanning the text of a chunk finds one table with the original header and delimiter lines and
   exactly the data rows of the chunk.
   */
  lemma ChunkRoundTrip(x: Syntax, block: TableBlock, start: nat, end: nat)
    requires !x.isPipe("") && WholeLines(x, block) && start <= end <= |block.dataLines|
    ensures Rescan(x, ChunkText(block, start, end))
            == Some(TableBlock(0, 1 + end - start, block.headerLine, block.delimiterLine, block.dataLines[start..end]))
  {
    var group := block.dataLines[start..end];
    var lines := [block.headerLine, block.delimiterLine] + group;
    forall i | 0 <= i < |lines| ensures TableLine(x, lines[i]) {
      if i >= 2 { assert lines[i] == block.dataLines[start + i - 2]; }
    }
    assert TableLine(x, lines[|lines| - 1]);
    SplitJoinLines(lines);
    WholeTable(x, lines);
    assert lines[2..] == group;
  }

  /** The data rows that scanning a text finds. */
  ghost function RowsOf(x: Syntax, markdown: string): seq<string> {
    var block := Rescan(x, markdown);
    if block.None? then [] else block.value.dataLines
  }

  /** The rows read from the texts of the chunks, one chunk after the other. */
  function ReadAll(read: string -> seq<string>, chunks: seq<DocumentChunk>): seq<string> {
    if chunks == [] then [] else read(chunks[0].markdown) + ReadAll(read, chunks[1..])
  }

  ghost function RescannedRows(x: Syntax, chunks: seq<DocumentChunk>): seq<string> {
    ReadAll(markdown => RowsOf(x, markdown), chunks)
  }

  /** The ranges of the chunks cover the rows from `from` to `to` without gap or overlap. */
  predicate Covers(chunks: seq<DocumentChunk>, from: nat, to: nat) {
    && (if chunks == [] then from == to else chunks[0].startRow == from && chunks[|chunks| - 1].endRow == to)
    && (forall i :: 0 <= i < |chunks| ==> chunks[i].startRow <= chunks[i].endRow)
    && (forall i :: 0 <= i < |chunks| - 1 ==> chunks[i].endRow == chunks[i + 1].startRow)
  }

  lemma {:induction false} CoveringRebuilds(read: string -> seq<string>, chunks: seq<DocumentChunk>,
                                            rows: seq<string>, from: nat)
    requires from <= |rows| && Covers(chunks, from, |rows|)
    requires forall i :: 0 <= i < |chunks| ==>
               chunks[i].endRow <= |rows|
               && read(chunks[i].markdown) == rows[chunks[i].startRow..chunks[i].endRow]
    ensures ReadAll(read, chunks) == rows[from..]
  {
    if chunks != [] {
      CoveringRebuilds(read, chunks[1..], rows, chunks[0].endRow);
      assert rows[from..] == rows[from..chunks[0].endRow] + rows[chunks[0].endRow..];
    }
  }

  /** Scanning any range of rows written as a chunk finds those rows. */
  ghost predicate ReadsBack(x: Syntax, block: TableBlock) {
    forall s, e :: 0 <= s <= e <= |block.dataLines| ==> RowsOf(x, ChunkText(block, s, e)) == block.dataLines[s..e]
  }

  lemma TextReadsBack(x: Syntax, block: TableBlock)
    requires !x.isPipe("") && WholeLines(x, block)
    ensures ReadsBack(x, block)
  {
    forall s, e | 0 <= s <= e <= |block.dataLines|
      ensures RowsOf(x, ChunkText(block, s, e)) == block.dataLines[s..e]
    {
      ChunkRoundTrip(x, block, s, e);
    }
  }

  /** Scanning all the chunks finds the rows of the table again, in order. */
  lemma ChunksRebuildTable(x: Syntax, block: TableBlock, k: nat)
    requires ReadsBack(x, block) && k > 0
    ensures RescannedRows(x, Chunks(block, k, 0, 0)) == block.dataLines
  {
    var chunks, rows := Chunks(block, k, 0, 0), block.dataLines;
    ChunksPartition(block, k);
    forall i | 0 <= i < |chunks|
      ensures chunks[i].endRow <= |rows|
      ensures RowsOf(x, chunks[i].markdown) == rows[chunks[i].startRow..chunks[i].endRow]
    {
      ChunkRange(block, k, 0, 0, i);
    }
    CoveringRebuilds(markdown => RowsOf(x, markdown), chunks, rows, 0);
    assert rows[0..] == rows;
  }

  /**
   For every planned document: re-detecting the rows of a chunk counts its range, and the chunks
   together rebuild the dominant table.
   */
  lemma PlanRoundTrip(markdown: string, schema: Json, config: ChunkingConfig, plan: ChunkPlan)
    requires config.rowsPerChunk > 0
    requires Planned(SplitLines(markdown), schema, config) == Some(plan)
    ensures var block := Rescan(PIPE_TABLES, markdown);
            && block.Some? && plan.totalRows == |block.value.dataLines|
            && RescannedRows(PIPE_TABLES, plan.chunks) == block.value.dataLines
            && forall i :: 0 <= i < |plan.chunks| ==>
                 RowCount(SplitLines(plan.chunks[i].markdown)) == plan.chunks[i].endRow - plan.chunks[i].startRow
  {
    var block := Rescan(PIPE_TABLES, markdown).value;
    PipeLineNotEmpty();
    DominantLines(PIPE_TABLES, markdown, block);
    BlockRoundTrip(block, config.rowsPerChunk);
  }

  lemma BlockRoundTrip(block: TableBlock, k: nat)
    requires !PIPE_TABLES.isPipe("") && WholeLines(PIPE_TABLES, block) && k > 0
    ensures var chunks := Chunks(block, k, 0, 0);
            && RescannedRows(PIPE_TABLES, chunks) == block.dataLines
            && forall i :: 0 <= i < |chunks| ==>
                 RowCount(SplitLines(chunks[i].markdown)) == chunks[i].endRow - chunks[i].startRow
  {
    TextReadsBack(PIPE_TABLES, block);
    ChunksRebuildTable(PIPE_TABLES, block, k);
    forall i | 0 <= i < |Chunks(block, k, 0, 0)|
      ensures RowCount(SplitLines(Chunks(block, k, 0, 0)[i].markdown))
              == Chunks(block, k, 0, 0)[i].endRow - Chunks(block, k, 0, 0)[i].startRow
    {
      ChunkRange(block, k, 0, 0, i);
      Recount(block, i * k, ChunkEnd(|block.dataLines|, k, i * k));
    }
  }

  lemma Recount(block: TableBlock, s: nat, e: nat)
    requires ReadsBack(PIPE_TABLES, block) && s <= e <= |block.dataLines|
    ensures RowCount(SplitLines(ChunkText(block, s, e))) == e - s
  {
    assert RowsOf(PIPE_TABLES, ChunkText(block, s, e)) == block.dataLines[s..e];
  }
}
