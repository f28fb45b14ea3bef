/** Putting the rows of the chunks back together. */
module ChunkMerge {
  import opened Wrappers
  import opened Json

  /** The result of one chunk; no rows means that it failed. */
  datatype ChunkOutcome = ChunkOutcome(index: int, rows: Option<seq<Json>>, error: Option<string>)

  // ---------------------------------------------------------------- order

  function Insert(o: ChunkOutcome, sorted: seq<ChunkOutcome>): seq<ChunkOutcome> {
    if sorted == [] || o.index <= sorted[0].index then [o] + sorted
    else [sorted[0]] + Insert(o, sorted[1..])
  }

  /** `sorted(outcomes, key=index)`, which is stable. */
  function Sorted(outcomes: seq<ChunkOutcome>): seq<ChunkOutcome> {
    if outcomes == [] then [] else Insert(outcomes[0], Sorted(outcomes[1..]))
  }

  predicate Ascending(s: seq<ChunkOutcome>) {
    forall i, j :: 0 <= i < j < |s| ==> s[i].index <= s[j].index
  }

  lemma {:induction false} InsertAdds(o: ChunkOutcome, s: seq<ChunkOutcome>)
    ensures multiset(Insert(o, s)) == multiset(s) + multiset{o}
  {
    if s != [] && s[0].index < o.index {
      InsertAdds(o, s[1..]);
      assert s == [s[0]] + s[1..];
    }
  }

  lemma {:induction false} InsertSorts(o: ChunkOutcome, s: seq<ChunkOutcome>)
    requires Ascending(s)
    ensures Ascending(Insert(o, s))
  {
    if s != [] && s[0].index < o.index {
      var rest := Insert(o, s[1..]);
      InsertSorts(o, s[1..]);
      InsertAdds(o, s[1..]);
      forall j | 0 <= j < |rest| ensures s[0].index <= rest[j].index {
        assert rest[j] in multiset(rest);
        if rest[j] in multiset(s[1..]) { assert rest[j] in s[1..]; }
      }
    }
  }

  lemma {:induction false} SortedSorts(s: seq<ChunkOutcome>)
    ensures Ascending(Sorted(s)) && multiset(Sorted(s)) == multiset(s)
  {
    if s != [] {
      SortedSorts(s[1..]);
      InsertSorts(s[0], Sorted(s[1..]));
      InsertAdds(s[0], Sorted(s[1..]));
      assert s == [s[0]] + s[1..];
    }
  }

  predicate DistinctIndices(s: seq<ChunkOutcome>) {
    forall i, j :: 0 <= i < j < |s| ==> s[i].index != s[j].index
  }

  /** Ascending sequences of the same outcomes with distinct indices are equal. */
  lemma {:induction false} AscendingUnique(a: seq<ChunkOutcome>, b: seq<ChunkOutcome>)
    requires Ascending(a) && Ascending(b) && DistinctIndices(a) && multiset(a) == multiset(b)
    ensures a == b
  {
    assert |a| == |multiset(a)| == |multiset(b)| == |b|;
    if a != [] {
      SameLeast(a, b);
      TailMultiset(a);
      TailMultiset(b);
      AscendingUnique(a[1..], b[1..]);
      assert a == [a[0]] + a[1..] && b == [b[0]] + b[1..];
    }
  }

  lemma SameLeast(a: seq<ChunkOutcome>, b: seq<ChunkOutcome>)
    requires a != [] && b != [] && Ascending(a) && Ascending(b) && DistinctIndices(a)
    requires multiset(a) == multiset(b)
    ensures a[0] == b[0]
  {
    assert a[0] in multiset(b) && b[0] in multiset(a);
    var i :| 0 <= i < |b| && b[i] == a[0];
    var j :| 0 <= j < |a| && a[j] == b[0];
    assert a[0].index == b[0].index;
  }

  lemma TailMultiset(s: seq<ChunkOutcome>)
    requires s != []
    ensures multiset(s[1..]) == multiset(s) - multiset{s[0]}
  {
    assert s == [s[0]] + s[1..];
  }

  lemma {:induction false} DistinctPermutation(a: seq<ChunkOutcome>, b: seq<ChunkOutcome>)
    requires DistinctIndices(a) && multiset(a) == multiset(b)
    ensures DistinctIndices(b)
  {
    forall i, j | 0 <= i < j < |b| ensures b[i].index != b[j].index {
      if b[i].index == b[j].index {
        assert b[i] in multiset(a) && b[j] in multiset(a);
        assert b == b[..i] + [b[i]] + b[i + 1..j] + [b[j]] + b[j + 1..];
        if b[i] == b[j] {
          assert multiset(b)[b[i]] >= 2;
          TwiceIn(a, b[i]);
        }
      }
    }
  }

  lemma TwiceIn(s: seq<ChunkOutcome>, o: ChunkOutcome)
    requires multiset(s)[o] >= 2
    ensures !DistinctIndices(s)
  {
    assert o in multiset(s);
    var i :| 0 <= i < |s| && s[i] == o;
    var rest := s[..i] + s[i + 1..];
    assert s == s[..i] + [o] + s[i + 1..];
    assert multiset(rest)[o] >= 1;
    assert o in multiset(rest);
    var j :| 0 <= j < |rest| && rest[j] == o;
    var j' := if j < i then j else j + 1;
    assert s[j'] == o;
  }

  // ---------------------------------------------------------------- the merge

  /** The rows of an outcome without a first row equal to the row before it. */
  function WithoutRepeat(rows: seq<Json>, previous: Option<Json>): seq<Json> {
    if rows != [] && previous.Some? && PyEq(rows[0], previous.value) then rows[1..] else rows
  }

  function LastOr(rows: seq<Json>, previous: Option<Json>): Option<Json> {
    if rows == [] then previous else Some(rows[|rows| - 1])
  }

  /**
   The pairwise meaning of the merge: each successful outcome contributes its rows, less its first row
   if that equals the last row of the closest successful outcome with rows before it.
   */
  function Pairwise(ordered: seq<ChunkOutcome>, previous: Option<Json>): seq<Json> {
    if ordered == [] then []
    else if ordered[0].rows.None? then Pairwise(ordered[1..], previous)
    else
      var rows := ordered[0].rows.value;
      WithoutRepeat(rows, previous) + Pairwise(ordered[1..], LastOr(rows, previous))
  }

  function FailedIndices(ordered: seq<ChunkOutcome>): seq<int> {
    if ordered == [] then []
    else (if ordered[0].rows.None? then [ordered[0].index] else []) + FailedIndices(ordered[1..])
  }

  /** Two optional rows that no comparison can tell apart. */
  predicate SameRow(a: Option<Json>, b: Option<Json>) {
    a.Some? == b.Some? && (a.Some? ==> PyEq(a.value, b.value))
  }

  function LastOf(rows: seq<Json>): Option<Json> {
    LastOr(rows, None)
  }

  /** The pairwise meaning does not tell equal predecessors apart. */
  lemma {:induction false} PairwiseRespectsEquality(ordered: seq<ChunkOutcome>, a: Option<Json>, b: Option<Json>)
    requires SameRow(a, b)
    ensures Pairwise(ordered, a) == Pairwise(ordered, b)
  {
    if ordered != [] {
      if ordered[0].rows.None? {
        PairwiseRespectsEquality(ordered[1..], a, b);
      } else {
        var rows := ordered[0].rows.value;
        assert WithoutRepeat(rows, a) == WithoutRepeat(rows, b);
        PairwiseRespectsEquality(ordered[1..], LastOr(rows, a), LastOr(rows, b));
      }
    }
  }

  /**
   The accumulated last row equals the last raw row of the closest successful outcome with rows, even
   after a one-row outcome that was dropped whole.
   */
  lemma AccumulatedLast(merged: seq<Json>, rows: seq<Json>)
    ensures SameRow(LastOf(merged + WithoutRepeat(rows, LastOf(merged))), LastOr(rows, LastOf(merged)))
  {
    var kept := WithoutRepeat(rows, LastOf(merged));
    if kept != [] {
      assert (merged + kept)[|merged + kept| - 1] == kept[|kept| - 1];
    } else {
      assert merged + kept == merged;
    }
  }

  /** `merge_chunk_rows`. */
  method MergeChunkRows(outcomes: seq<ChunkOutcome>) returns (merged: seq<Json>, failed: seq<int>)
    ensures merged == Pairwise(Sorted(outcomes), None)
    ensures failed == FailedIndices(Sorted(outcomes))
  {
    var ordered := Sorted(outcomes);
    merged, failed := [], [];
    var i := 0;
    while i < |ordered|
      invariant 0 <= i <= |ordered|
      invariant merged + Pairwise(ordered[i..], LastOf(merged)) == Pairwise(ordered, None)
      invariant failed + FailedIndices(ordered[i..]) == FailedIndices(ordered)
    {
      var outcome := ordered[i];
      MergeStep(merged, ordered, i);
      FailedStep(failed, ordered, i);
      i := i + 1;
      if outcome.rows.None? {
        failed := failed + [outcome.index];
        continue;
      }
      var rows := outcome.rows.value;
      if merged != [] && rows != [] && PyEq(rows[0], merged[|merged| - 1]) {
        rows := rows[1..];
      }
      merged := merged + rows;
    }
    assert ordered[i..] == [];
  }

  lemma MergeStep(merged: seq<Json>, ordered: seq<ChunkOutcome>, i: nat)
    requires i < |ordered|
    ensures var after := if ordered[i].rows.None? then merged
                         else merged + WithoutRepeat(ordered[i].rows.value, LastOf(merged));
            merged + Pairwise(ordered[i..], LastOf(merged)) == after + Pairwise(ordered[i + 1..], LastOf(after))
  {
    var rest := ordered[i + 1..];
    assert ordered[i..][0] == ordered[i] && ordered[i..][1..] == rest;
    if ordered[i].rows.Some? {
      var rows := ordered[i].rows.value;
      var kept, last := WithoutRepeat(rows, LastOf(merged)), LastOr(rows, LastOf(merged));
      AccumulatedLast(merged, rows);
      PairwiseRespectsEquality(rest, LastOf(merged + kept), last);
      assert merged + (kept + Pairwise(rest, last)) == merged + kept + Pairwise(rest, last);
    }
  }

  lemma FailedStep(failed: seq<int>, ordered: seq<ChunkOutcome>, i: nat)
    requires i < |ordered|
    ensures failed + FailedIndices(ordered[i..])
            == (if ordered[i].rows.None? then failed + [ordered[i].index] else failed)
               + FailedIndices(ordered[i + 1..])
  {
    var rest := ordered[i + 1..];
    assert ordered[i..][0] == ordered[i] && ordered[i..][1..] == rest;
    assert failed + ([ordered[i].index] + FailedIndices(rest)) == failed + [ordered[i].index] + FailedIndices(rest);
  }

  // ---------------------------------------------------------------- what the merge promises

  /** The result does not depend on the order in which the outcomes arrive. */
  lemma MergeIgnoresOrder(a: seq<ChunkOutcome>, b: seq<ChunkOutcome>)
    requires DistinctIndices(a) && multiset(a) == multiset(b)
    ensures Pairwise(Sorted(a), None) == Pairwise(Sorted(b), None)
    ensures FailedIndices(Sorted(a)) == FailedIndices(Sorted(b))
  {
    SortedSorts(a);
    SortedSorts(b);
    DistinctPermutation(a, Sorted(a));
    AscendingUnique(Sorted(a), Sorted(b));
  }

  function Concatenated(ordered: seq<ChunkOutcome>): seq<Json> {
    if ordered == [] then []
    else (if ordered[0].rows.None? then [] else ordered[0].rows.value) + Concatenated(ordered[1..])
  }

  /** How many outcomes succeeded with at least one row. */
  function WithRows(ordered: seq<ChunkOutcome>): nat {
    if ordered == [] then 0
    else (if ordered[0].rows.Some? && ordered[0].rows.value != [] then 1 else 0) + WithRows(ordered[1..])
  }

  /** At most one row is dropped for each outcome with rows after the first. */
  lemma {:induction false} MergeDropsFew(ordered: seq<ChunkOutcome>, previous: Option<Json>)
    ensures |Pairwise(ordered, previous)| <= |Concatenated(ordered)|
    ensures |Concatenated(ordered)| - |Pairwise(ordered, previous)|
            <= if previous.None? && WithRows(ordered) > 0 then WithRows(ordered) - 1 else WithRows(ordered)
  {
    if ordered != [] {
      var rows := ordered[0].rows;
      MergeDropsFew(ordered[1..], if rows.None? then previous else LastOr(rows.value, previous));
    }
  }

  /** The failed indices are those of the outcomes without rows, in ascending order. */
  lemma {:induction false} FailedAscending(ordered: seq<ChunkOutcome>)
    requires Ascending(ordered)
    ensures forall i, j :: 0 <= i < j < |FailedIndices(ordered)| ==>
              FailedIndices(ordered)[i] <= FailedIndices(ordered)[j]
    ensures forall x :: x in FailedIndices(ordered) <==>
              exists i :: 0 <= i < |ordered| && ordered[i].rows.None? && ordered[i].index == x
  {
    if ordered != [] {
      var rest := ordered[1..];
      FailedAscending(rest);
      var failed := FailedIndices(ordered);
      forall x ensures x in failed <==>
                         exists i :: 0 <= i < |ordered| && ordered[i].rows.None? && ordered[i].index == x
      {
        if x in FailedIndices(rest) {
          var i :| 0 <= i < |rest| && rest[i].rows.None? && rest[i].index == x;
          assert ordered[i + 1] == rest[i];
        }
        if i :| 0 <= i < |ordered| && ordered[i].rows.None? && ordered[i].index == x {
          if i > 0 { assert rest[i - 1] == ordered[i]; }
        }
      }
      forall j | 0 <= j < |FailedIndices(rest)| ensures ordered[0].index <= FailedIndices(rest)[j] {
        assert FailedIndices(rest)[j] in FailedIndices(rest);
      }
    }
  }

  /** Sorting aside, the failed indices are those of the outcomes without rows. */
  lemma FailedExactly(outcomes: seq<ChunkOutcome>)
    ensures forall x :: x in FailedIndices(Sorted(outcomes)) <==>
              exists i :: 0 <= i < |outcomes| && outcomes[i].rows.None? && outcomes[i].index == x
  {
    var ordered := Sorted(outcomes);
    SortedSorts(outcomes);
    FailedAscending(ordered);
    assert forall o :: o in multiset(ordered) <==> o in multiset(outcomes);
    forall x ensures x in FailedIndices(ordered) <==>
                       exists i :: 0 <= i < |outcomes| && outcomes[i].rows.None? && outcomes[i].index == x
    {
      if i :| 0 <= i < |ordered| && ordered[i].rows.None? && ordered[i].index == x {
        assert ordered[i] in multiset(ordered);
      }
      if i :| 0 <= i < |outcomes| && outcomes[i].rows.None? && outcomes[i].index == x {
        assert outcomes[i] in multiset(outcomes);
      }
    }
  }
}
