/**
 Chunked extraction from end to end: which rows come back when every chunk succeeds, and why the
 assembled object fits the caller's schema when its parts fit theirs.
 */
module ChunkPipeline {
  import opened Wrappers
  import opened Json
  import opened SchemaValidity
  import opened SchemaNormalize
  import opened TableScan
  import opened ChunkPlanning
  import opened ChunkMerge

  // ---------------------------------------------------------------- row-wise extraction

  /** An extractor that reads each data row of a table on its own. */
  function MapRows(f: string -> Json, rows: seq<string>): seq<Json> {
    seq(|rows|, i requires 0 <= i < |rows| => f(rows[i]))
  }

  /** The outcomes of the chunks when each succeeds with the rows that its text holds. */
  ghost function Extracted(x: Syntax, f: string -> Json, chunks: seq<DocumentChunk>): seq<ChunkOutcome> {
    seq(|chunks|, i requires 0 <= i < |chunks| =>
      ChunkOutcome(chunks[i].index, Some(MapRows(f, RowsOf(x, chunks[i].markdown))), None))
  }

  /** Row i starts a chunk and equals the row before it. */
  predicate BoundaryRepeat(rows: seq<Json>, k: nat, i: nat)
    requires k > 0
  {
    0 < i < |rows| && i % k == 0 && PyEq(rows[i], rows[i - 1])
  }

  /** The rows from i on without the boundary repeats. */
  function WithoutRepeats(rows: seq<Json>, k: nat, i: nat): seq<Json>
    requires k > 0
    decreases |rows| - i
  {
    if i >= |rows| then []
    else (if BoundaryRepeat(rows, k, i) then [] else [rows[i]]) + WithoutRepeats(rows, k, i + 1)
  }

  function CountRepeats(rows: seq<Json>, k: nat, i: nat): nat
    requires k > 0
    decreases |rows| - i
  {
    if i >= |rows| then 0
    else (if BoundaryRepeat(rows, k, i) then 1 else 0) + CountRepeats(rows, k, i + 1)
  }

  /** The outcomes of consecutive groups of k rows. */
  function Groups(rows: seq<Json>, k: nat, index: nat, from: nat): seq<ChunkOutcome>
    requires k > 0
    decreases |rows| - from
  {
    if from >= |rows| then []
    else [ChunkOutcome(index, Some(rows[from..ChunkEnd(|rows|, k, from)]), None)] + Groups(rows, k, index + 1, from + k)
  }

  lemma ModShift(from: nat, k: nat, j: nat)
    requires k > 0 && from % k == 0 && j < k
    ensures (from + j) % k == j
    ensures (from + k) % k == 0
  {
    DivUnique(from + j, k, from / k, j);
    assert (from / k + 1) * k == from / k * k + k;
    DivUnique(from + k, k, from / k + 1, 0);
  }

  lemma DivUnique(n: nat, k: nat, q: nat, r: nat)
    requires n == q * k + r && r < k
    ensures n % k == r
  {
    var p := n / k;
    assert n == p * k + n % k;
    if q > p { LeqTimes(p + 1, q, k); }
    if q < p { LeqTimes(q + 1, p, k); }
  }

  lemma LeqTimes(a: nat, b: nat, k: nat)
    requires a <= b
    ensures a * k <= b * k
  {
  }

  /** Inside a group nothing is dropped. */
  lemma {:induction false} NoRepeatInside(rows: seq<Json>, k: nat, from: nat, i: nat, end: nat)
    requires k > 0 && from % k == 0 && from < i <= end <= |rows| && end <= from + k
    ensures WithoutRepeats(rows, k, i) == rows[i..end] + WithoutRepeats(rows, k, end)
    decreases end - i
  {
    if i < end {
      ModShift(from, k, i - from);
      NoRepeatInside(rows, k, from, i + 1, end);
      assert rows[i..end] == [rows[i]] + rows[i + 1..end];
    } else {
      assert rows[i..end] == [];
    }
  }

  function Before(rows: seq<Json>, from: nat): Option<Json>
    requires from <= |rows|
  {
    if from == 0 then None else Some(rows[from - 1])
  }

  /** Merging the groups drops exactly the boundary repeats. */
  lemma {:induction false} MergeGroups(rows: seq<Json>, k: nat, index: nat, from: nat)
    requires k > 0 && from % k == 0 && from <= |rows|
    ensures Pairwise(Groups(rows, k, index, from), Before(rows, from)) == WithoutRepeats(rows, k, from)
    decreases |rows| - from
  {
    if from < |rows| {
      var end := ChunkEnd(|rows|, k, from);
      var group := rows[from..end];
      var rest := Groups(rows, k, index + 1, from + k);
      if end < |rows| {
        ModShift(from, k, 0);
        MergeGroups(rows, k, index + 1, end);
      }
      MergeGroup(rows, k, from, end);
      PairwiseCons(index, group, rest, Before(rows, from));
    }
  }

  /** What one group adds to the rows before it. */
  lemma MergeGroup(rows: seq<Json>, k: nat, from: nat, end: nat)
    requires k > 0 && from % k == 0 && from < end <= |rows| && end <= from + k
    ensures WithoutRepeats(rows, k, from)
            == WithoutRepeat(rows[from..end], Before(rows, from)) + WithoutRepeats(rows, k, end)
    ensures LastOr(rows[from..end], Before(rows, from)) == Before(rows, end)
  {
    var group := rows[from..end];
    NoRepeatInside(rows, k, from, from + 1, end);
    assert group[1..] == rows[from + 1..end] && group == [rows[from]] + rows[from + 1..end];
  }

  lemma PairwiseCons(index: int, rows: seq<Json>, rest: seq<ChunkOutcome>, previous: Option<Json>)
    ensures Pairwise([ChunkOutcome(index, Some(rows), None)] + rest, previous)
            == WithoutRepeat(rows, previous) + Pairwise(rest, LastOr(rows, previous))
  {
    assert ([ChunkOutcome(index, Some(rows), None)] + rest)[1..] == rest;
  }

  /** The i-th group holds the rows of the i-th chunk. */
  lemma {:induction false} GroupAt(rows: seq<Json>, k: nat, index: nat, from: nat, i: nat)
    requires k > 0 && i < |Groups(rows, k, index, from)|
    ensures from + i * k < |rows|
    ensures Groups(rows, k, index, from)[i]
            == ChunkOutcome(index + i, Some(rows[from + i * k..ChunkEnd(|rows|, k, from + i * k)]), None)
    decreases i
  {
    if i > 0 {
      assert Groups(rows, k, index, from)[1..] == Groups(rows, k, index + 1, from + k);
      GroupAt(rows, k, index + 1, from + k, i - 1);
      assert k + (i - 1) * k == i * k;
    }
  }

  lemma {:induction false} GroupCount(rows: seq<Json>, block: TableBlock, k: nat, index: nat, from: nat)
    requires k > 0 && |rows| == |block.dataLines|
    ensures |Groups(rows, k, index, from)| == |Chunks(block, k, index, from)|
    decreases |rows| - from
  {
    if from < |rows| { GroupCount(rows, block, k, index + 1, from + k); }
  }

  lemma MapRowsSlice(f: string -> Json, rows: seq<string>, s: nat, e: nat)
    requires s <= e <= |rows|
    ensures MapRows(f, rows[s..e]) == MapRows(f, rows)[s..e]
  {
  }

  /** Extracting row by row from the chunk texts groups the extracted rows of the table. */
  lemma ExtractedGroups(x: Syntax, f: string -> Json, block: TableBlock, k: nat)
    requires ReadsBack(x, block) && k > 0
    ensures Extracted(x, f, Chunks(block, k, 0, 0)) == Groups(MapRows(f, block.dataLines), k, 0, 0)
  {
    var chunks, rows := Chunks(block, k, 0, 0), MapRows(f, block.dataLines);
    var left, right := Extracted(x, f, chunks), Groups(rows, k, 0, 0);
    GroupCount(rows, block, k, 0, 0);
    forall i | 0 <= i < |chunks| ensures left[i] == right[i] {
      ExtractedAt(x, f, block, k, i);
      GroupAt(rows, k, 0, 0, i);
    }
  }

  lemma ExtractedAt(x: Syntax, f: string -> Json, block: TableBlock, k: nat, i: nat)
    requires ReadsBack(x, block) && k > 0 && i < |Chunks(block, k, 0, 0)|
    ensures var chunk, n := Chunks(block, k, 0, 0)[i], |block.dataLines|;
            && chunk.index == i && i * k < n
            && MapRows(f, RowsOf(x, chunk.markdown)) == MapRows(f, block.dataLines)[i * k..ChunkEnd(n, k, i * k)]
  {
    ChunkRange(block, k, 0, 0, i);
    var end := ChunkEnd(|block.dataLines|, k, i * k);
    MapRowsSlice(f, block.dataLines, i * k, end);
    assert RowsOf(x, ChunkText(block, i * k, end)) == block.dataLines[i * k..end];
  }

  lemma {:induction false} SortedFixed(s: seq<ChunkOutcome>)
    requires Ascending(s)
    ensures Sorted(s) == s
  {
    if s != [] {
      SortedFixed(s[1..]);
      assert s == [s[0]] + s[1..];
    }
  }

  lemma GroupsAscending(rows: seq<Json>, k: nat)
    requires k > 0
    ensures Ascending(Groups(rows, k, 0, 0))
  {
    forall i | 0 <= i < |Groups(rows, k, 0, 0)| ensures Groups(rows, k, 0, 0)[i].index == i {
      GroupAt(rows, k, 0, 0, i);
    }
  }

  /**
   End to end: for every document with a table, every chunk size and every row-wise extractor, when no
   chunk fails the merge gives the extracted rows of the table in order, less exactly one row for each
   chunk start that equals the row before it.
   */
  lemma ExtractionEndToEnd(markdown: string, f: string -> Json, k: nat)
    requires k > 0 && Rescan(PIPE_TABLES, markdown).Some?
    ensures var block := Rescan(PIPE_TABLES, markdown).value;
            var rows := MapRows(f, block.dataLines);
            Pairwise(Sorted(Extracted(PIPE_TABLES, f, Chunks(block, k, 0, 0))), None) == WithoutRepeats(rows, k, 0)
  {
    var block := Rescan(PIPE_TABLES, markdown).value;
    PipeLineNotEmpty();
    DominantLines(PIPE_TABLES, markdown, block);
    TextReadsBack(PIPE_TABLES, block);
    MergeExtracted(PIPE_TABLES, f, block, k);
  }

  lemma MergeExtracted(x: Syntax, f: string -> Json, block: TableBlock, k: nat)
    requires k > 0 && ReadsBack(x, block)
    ensures Pairwise(Sorted(Extracted(x, f, Chunks(block, k, 0, 0))), None)
            == WithoutRepeats(MapRows(f, block.dataLines), k, 0)
  {
    var rows := MapRows(f, block.dataLines);
    ExtractedGroups(x, f, block, k);
    GroupsAscending(rows, k);
    SortedFixed(Groups(rows, k, 0, 0));
    MergeGroups(rows, k, 0, 0);
  }

  /** The merge is lossless exactly when no chunk boundary has equal neighbours. */
  lemma {:induction false} LosslessExactly(rows: seq<Json>, k: nat, i: nat)
    requires k > 0 && i <= |rows|
    ensures |WithoutRepeats(rows, k, i)| + CountRepeats(rows, k, i) == |rows| - i
    ensures WithoutRepeats(rows, k, i) == rows[i..] <==> forall j :: i <= j < |rows| ==> !BoundaryRepeat(rows, k, j)
    decreases |rows| - i
  {
    if i < |rows| {
      LosslessExactly(rows, k, i + 1);
      var rest := WithoutRepeats(rows, k, i + 1);
      assert rows[i..] == [rows[i]] + rows[i + 1..];
      if BoundaryRepeat(rows, k, i) {
        assert |rest| < |rows[i..]|;
      } else {
        assert ([rows[i]] + rest)[1..] == rest;
      }
    }
  }

  // ---------------------------------------------------------------- assembly

  /** `assemble_result`. */
  function Assemble(location: RowArrayLocation, merged: seq<Json>, summary: Option<Json>): Json {
    var base: Fields := if summary.Some? && summary.value.Obj? then summary.value.fields else map[];
    Obj(base[location.propertyName := Arr(merged)])
  }

  predicate AllValid(extra: Extra, schema: Json, rows: seq<Json>) {
    forall i :: 0 <= i < |rows| ==> Valid(extra, schema, rows[i])
  }

  /** A summary that was validated against the summary schema of the plan. */
  predicate SummaryFits(extra: Extra, schema: Json, name: string, summary: Option<Json>) {
    match SummarySchema(schema, name)
    case None => summary.None?
    case Some(s) => summary.Some? && Valid(extra, s, summary.value)
  }

  /** A result that fits the chunk schema is an object with the rows and nothing else. */
  lemma ChunkResultRows(extra: Extra, location: RowArrayLocation, data: Json)
    requires Valid(extra, ChunkSchema(location), data)
    ensures data.Obj? && data.fields.Keys == {location.propertyName}
    ensures data.fields[location.propertyName].Arr?
    ensures AllValid(extra, location.itemSchema, data.fields[location.propertyName].items)
  {
    var name := location.propertyName;
    var m := ChunkSchema(location).fields;
    var sub := Obj(map["type" := Str("array"), "items" := location.itemSchema]);
    assert m["properties"] == Obj(map[name := sub]) && m["required"] == Arr([Str(name)]);
    assert TypeAllows(m["type"], data);
    assert HasRequired([Str(name)], data.fields.Keys);
    assert [Str(name)][0] == Str(name);
    assert AdditionalHold(extra, PropertyNames(m), Bool(false), data);
    assert PropertiesHold(extra, m["properties"], data);
    assert Valid(extra, sub, data.fields[name]);
    assert TypeAllows(sub.fields["type"], data.fields[name]);
    assert ItemsHold(extra, sub.fields["items"], data.fields[name]);
  }

  /** Exactly the objects with valid rows and nothing else fit the chunk schema. */
  lemma ChunkSchemaExactly(extra: Extra, location: RowArrayLocation, data: Json)
    ensures Valid(extra, ChunkSchema(location), data) <==>
            && data.Obj? && data.fields.Keys == {location.propertyName}
            && data.fields[location.propertyName].Arr?
            && AllValid(extra, location.itemSchema, data.fields[location.propertyName].items)
  {
    if Valid(extra, ChunkSchema(location), data) {
      ChunkResultRows(extra, location, data);
    } else if data.Obj? && data.fields.Keys == {location.propertyName}
              && data.fields[location.propertyName].Arr?
              && AllValid(extra, location.itemSchema, data.fields[location.propertyName].items)
    {
      ChunkResultFits(extra, location, data);
      assert false;
    }
  }

  lemma ChunkResultFits(extra: Extra, location: RowArrayLocation, data: Json)
    requires data.Obj? && data.fields.Keys == {location.propertyName}
    requires data.fields[location.propertyName].Arr?
    requires AllValid(extra, location.itemSchema, data.fields[location.propertyName].items)
    ensures Valid(extra, ChunkSchema(location), data)
  {
    var name := location.propertyName;
    var m := ChunkSchema(location).fields;
    var sub := map["type" := Str("array"), "items" := location.itemSchema];
    assert m["properties"] == Obj(map[name := Obj(sub)]) && m["required"] == Arr([Str(name)]);
    RowsFit(extra, sub, location.itemSchema, data.fields[name]);
    assert PropertyNames(m) == {name};
    assert PropertiesHold(extra, m["properties"], data);
    assert HasRequired([Str(name)], data.fields.Keys);
    assert TypeAllows(m["type"], data);
    assert OthersHold(extra, m, data);
  }

  lemma RowsFit(extra: Extra, sub: Fields, item: Json, rows: Json)
    requires sub == map["type" := Str("array"), "items" := item]
    requires rows.Arr? && AllValid(extra, item, rows.items)
    ensures Valid(extra, Obj(sub), rows)
  {
    assert ItemsHold(extra, item, rows);
    assert OthersHold(extra, sub, rows);
  }

  /** Exactly the objects with all the other properties, each valid, fit the summary schema. */
  lemma SummarySchemaExactly(extra: Extra, schema: Json, name: string, v: Json)
    requires SummarySchema(schema, name).Some?
    ensures Valid(extra, SummarySchema(schema, name).value, v) <==>
            && v.Obj? && v.fields.Keys == Properties(schema).Keys - {name}
            && forall k | k in v.fields :: k in Properties(schema) && Valid(extra, Properties(schema)[k], v.fields[k])
  {
    var others := OtherProperties(schema, name);
    if Valid(extra, SummarySchema(schema, name).value, v) {
      SummaryFields(extra, schema, name, Some(v));
      assert v.Obj? by { SummaryIsObject(extra, schema, name, v); }
    } else if v.Obj? && v.fields.Keys == Properties(schema).Keys - {name}
              && forall k | k in v.fields :: k in Properties(schema) && Valid(extra, Properties(schema)[k], v.fields[k])
    {
      SummaryIsClosed(schema, name);
      ClosedAccepts(extra, map[], others, v);
      assert false;
    }
  }

  lemma SummaryIsClosed(schema: Json, name: string)
    requires SummarySchema(schema, name).Some?
    ensures SummarySchema(schema, name).value == Obj(Closed(map[], OtherProperties(schema, name), false))
  {
    var others := OtherProperties(schema, name);
    assert Closed(map[], others, false)
        == map["type" := Str("object"), "properties" := Obj(others), "required" := KeyList(others),
               "additionalProperties" := Bool(false)];
  }

  lemma SummaryIsObject(extra: Extra, schema: Json, name: string, v: Json)
    requires SummarySchema(schema, name).Some? && Valid(extra, SummarySchema(schema, name).value, v)
    ensures v.Obj?
  {
    assert TypeAllows(Str("object"), v);
  }

  /** The assembled object has the merged rows under their name and the summary everywhere else. */
  lemma AssembledFields(location: RowArrayLocation, merged: seq<Json>, summary: Json)
    requires summary.Obj?
    ensures var v, name := Assemble(location, merged, Some(summary)), location.propertyName;
            && v.Obj? && v.fields.Keys == summary.fields.Keys + {name} && v.fields[name] == Arr(merged)
            && forall k | k in summary.fields && k != name :: v.fields[k] == summary.fields[k]
    ensures Assemble(location, merged, None) == Obj(map[location.propertyName := Arr(merged)])
  {
  }

  /** A result that fits the summary schema has exactly the other properties, each valid. */
  lemma SummaryFields(extra: Extra, schema: Json, name: string, summary: Option<Json>)
    requires SummaryFits(extra, schema, name, summary)
    ensures var base := if summary.Some? && summary.value.Obj? then summary.value.fields else map[];
            && base.Keys == OtherProperties(schema, name).Keys
            && forall k | k in base :: Valid(extra, Properties(schema)[k], base[k])
  {
    var others := OtherProperties(schema, name);
    if others != map[] {
      var m: Fields := map[];
      ClosedFixed(m, others, false);
      assert Closed(m, others, false)
          == map["type" := Str("object"), "properties" := Obj(others), "required" := KeyList(others),
                 "additionalProperties" := Bool(false)];
      assert !Valid(extra, Obj(Closed(m, others, false)), Null) by {
        assert !TypeAllows(Str("object"), Null);
      }
      StrictObject(extra, m, others, false, summary.value);
    }
  }

  /** The structural keywords of the top level that the split respects. */
  const SPLIT_KEYWORDS: set<string> := {"type", "properties", "required", "additionalProperties"}

  /** The keywords outside the structural ones are annotations, which accept everything. */
  ghost predicate OnlyAnnotations(extra: Extra, m: Fields) {
    forall k, v | k in m && k !in STRUCTURAL :: extra(k, m[k], v)
  }

  ghost predicate SplitSchema(extra: Extra, schema: Json) {
    schema.Obj? && schema.fields.Keys * STRUCTURAL <= SPLIT_KEYWORDS && OnlyAnnotations(extra, schema.fields)
  }

  /**
   Splitting the schema is exact: when the summary fits the summary schema, the assembled object fits
   the caller's schema if and only if the row property accepts the merged list, the top level admits
   objects, and it requires declared names only.
   */
  lemma AssembledExactly(extra: Extra, schema: Json, location: RowArrayLocation,
                         merged: seq<Json>, summary: Option<Json>)
    requires SplitSchema(extra, schema) && Located(schema) == Some(location)
    requires SummaryFits(extra, schema, location.propertyName, summary)
    ensures Valid(extra, schema, Assemble(location, merged, summary)) <==>
            && Valid(extra, Properties(schema)[location.propertyName], Arr(merged))
            && AdmitsObjects(schema.fields) && RequiresDeclared(schema.fields)
  {
    var name, props := location.propertyName, Properties(schema);
    var v := Assemble(location, merged, summary);
    SummaryFields(extra, schema, name, summary);
    assert name in RowArrays(schema);
    assert v.fields.Keys == props.Keys;
    assert forall k | k in props && k != name :: Valid(extra, props[k], v.fields[k]);
    ExactKeysJudgement(extra, schema.fields, v);
    assert PropertiesHold(extra, Obj(props), v) <==> Valid(extra, props[name], Arr(merged));
  }

  /** How a split schema judges an object with exactly the declared keys. */
  lemma ExactKeysJudgement(extra: Extra, m: Fields, v: Json)
    requires SplitSchema(extra, Obj(m)) && "properties" in m && m["properties"].Obj?
    requires v.Obj? && v.fields.Keys == m["properties"].fields.Keys
    ensures Valid(extra, Obj(m), v) <==>
            PropertiesHold(extra, m["properties"], v) && AdmitsObjects(m) && RequiresDeclared(m)
  {
    if "type" in m { ObjectType(m["type"], v); }
    assert "additionalProperties" in m ==> AdditionalHold(extra, PropertyNames(m), m["additionalProperties"], v);
    assert OthersHold(extra, m, v);
    assert forall k :: k in {"items", "allOf", "anyOf", "oneOf"} && k in m ==> k in m.Keys * STRUCTURAL;
  }

  /** A row property whose structural keywords are a type and items, with any annotations. */
  ghost predicate PlainRows(extra: Extra, sub: Json) {
    sub.Obj? && sub.fields.Keys * STRUCTURAL == {"type", "items"} && OnlyAnnotations(extra, sub.fields)
  }

  /** A plain row property accepts every list of valid rows. */
  lemma PlainRowProperty(extra: Extra, schema: Json, location: RowArrayLocation, merged: seq<Json>)
    requires Located(schema) == Some(location)
    requires PlainRows(extra, Properties(schema)[location.propertyName])
    requires AllValid(extra, location.itemSchema, merged)
    ensures Valid(extra, Properties(schema)[location.propertyName], Arr(merged))
  {
    var name := location.propertyName;
    assert name in RowArrays(schema);
    var sub := Properties(schema)[name].fields;
    assert "type" in sub.Keys * STRUCTURAL && "items" in sub.Keys * STRUCTURAL;
    assert sub["type"] == Str("array") && sub["items"] == location.itemSchema;
    assert TypeAllows(sub["type"], Arr(merged));
    assert ItemsHold(extra, sub["items"], Arr(merged));
    assert OthersHold(extra, sub, Arr(merged));
    assert forall k :: k in STRUCTURAL - {"type", "items"} && k in sub ==> k in sub.Keys * STRUCTURAL;
  }

  /** Merging keeps rows valid. */
  lemma {:induction false} MergedRowsValid(extra: Extra, item: Json, ordered: seq<ChunkOutcome>, previous: Option<Json>)
    requires forall i :: 0 <= i < |ordered| && ordered[i].rows.Some? ==> AllValid(extra, item, ordered[i].rows.value)
    ensures AllValid(extra, item, Pairwise(ordered, previous))
  {
    if ordered != [] {
      var rows := ordered[0].rows;
      MergedRowsValid(extra, item, ordered[1..], if rows.None? then previous else LastOr(rows.value, previous));
    }
  }

  /** The outcome of a chunk whose result was validated, or of a failed chunk. */
  predicate FromValidResult(extra: Extra, location: RowArrayLocation, o: ChunkOutcome) {
    o.rows.Some? ==>
      Valid(extra, ChunkSchema(location), Obj(map[location.propertyName := Arr(o.rows.value)]))
  }

  /**
   Split validation composes: with any set of failed chunks and after the boundary rows are dropped,
   the assembled object fits the caller's schema if and only if its top level admits objects and
   requires declared names only.
   */
  lemma SplitValidationComposes(extra: Extra, schema: Json, location: RowArrayLocation,
                                outcomes: seq<ChunkOutcome>, summary: Option<Json>)
    requires SplitSchema(extra, schema) && Located(schema) == Some(location)
    requires PlainRows(extra, Properties(schema)[location.propertyName])
    requires forall i :: 0 <= i < |outcomes| ==> FromValidResult(extra, location, outcomes[i])
    requires SummaryFits(extra, schema, location.propertyName, summary)
    ensures Valid(extra, schema, Assemble(location, Pairwise(Sorted(outcomes), None), summary))
            <==> AdmitsObjects(schema.fields) && RequiresDeclared(schema.fields)
  {
    var ordered := Sorted(outcomes);
    SortedSorts(outcomes);
    forall i | 0 <= i < |ordered| && ordered[i].rows.Some?
      ensures AllValid(extra, location.itemSchema, ordered[i].rows.value)
    {
      assert ordered[i] in multiset(outcomes);
      ChunkResultRows(extra, location, Obj(map[location.propertyName := Arr(ordered[i].rows.value)]));
    }
    MergedRowsValid(extra, location.itemSchema, ordered, None);
    PlainRowProperty(extra, schema, location, Pairwise(ordered, None));
    AssembledExactly(extra, schema, location, Pairwise(ordered, None), summary);
  }
}
