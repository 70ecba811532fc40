/**
 * The statistics endpoints over stored inquiries: the total of the per-day
 * counts, the budget histogram over five fixed ranges, and the per-segment
 * counts. The rows the database query returns are parameters; each inquiry's
 * `configuration_data` is a decoded JSON value.
 */
module Statistics {
  import opened Wrappers
  import opened Json

  // ---------------------------------------------------------------------------
  // Inquiries per day

  /** One row of the per-day query: the day as text and the number of inquiries on it. */
  datatype DailyCount = DailyCount(date: string, count: nat)

  datatype InquiryStatistics = InquiryStatistics(periodDays: int, dailyCounts: seq<DailyCount>, total: int)

  function Sum(s: seq<DailyCount>): nat {
    if s == [] then 0 else Sum(s[..|s| - 1]) + s[|s| - 1].count
  }

  /** Totals over consecutive runs of days add up. */
  lemma {:induction false} SumConcat(a: seq<DailyCount>, b: seq<DailyCount>)
    ensures Sum(a + b) == Sum(a) + Sum(b)
  {
    if b != [] {
      var b' := b[..|b| - 1];
      assert (a + b)[..|a + b| - 1] == a + b';
      SumConcat(a, b');
    } else {
      assert a + b == a;
    }
  }

  /** `get_inquiry_statistics`: the rows are returned as they are, with their total. */
  method GetInquiryStatistics(days: int, rows: seq<DailyCount>) returns (r: InquiryStatistics)
    ensures r.periodDays == days && r.dailyCounts == rows
    ensures r.total == Sum(rows)
  {
    var total := 0;
    for i := 0 to |rows|
      invariant total == Sum(rows[..i])
    {
      assert rows[..i + 1][..i] == rows[..i];
      total := total + rows[i].count;
    }
    assert rows[..|rows|] == rows;
    r := InquiryStatistics(days, rows, total);
  }

  // ---------------------------------------------------------------------------
  // Budget distribution

  /** A histogram range `[min, max)`; the last range has no upper end (`float("inf")`). */
  datatype BudgetRange = BudgetRange(min: int, max: Option<int>, count: nat)

  datatype BudgetDistribution = NoBudgetData(note: string) | Ranges(ranges: seq<BudgetRange>)

  const NoBudgetNote := "No budget data available"

  /** The five ranges, each with a zero count. */
  const EmptyRanges: seq<BudgetRange> := [
    BudgetRange(0, Some(3000), 0),
    BudgetRange(3000, Some(5000), 0),
    BudgetRange(5000, Some(8000), 0),
    BudgetRange(8000, Some(12000), 0),
    BudgetRange(12000, None, 0)
  ]

  /** `range_item["min"] <= budget < range_item["max"]` for a numeric budget. */
  predicate InRange(r: BudgetRange, v: real) {
    r.min as real <= v && (r.max.None? || v < r.max.value as real)
  }

  /** The budget an inquiry contributes: its "budget" value when it is a dict that has one. */
  function BudgetOf(row: Json): seq<Json> {
    if row.Obj? && Get(row.fields, "budget").Some? then [Get(row.fields, "budget").value] else []
  }

  /** The collected budgets, in row order. */
  function Budgets(rows: seq<Json>): seq<Json> {
    if rows == [] then [] else Budgets(rows[..|rows| - 1]) + BudgetOf(rows[|rows| - 1])
  }

  /** The first range from index `j` on that holds `v`, as the inner loop with its `break` finds it. */
  function FirstRange(v: real, j: nat): Option<nat>
    decreases |EmptyRanges| - j
  {
    if j >= |EmptyRanges| then None
    else if InRange(EmptyRanges[j], v) then Some(j)
    else FirstRange(v, j + 1)
  }

  /** How many of the budgets fall into range `i`. */
  function Tally(bs: seq<Json>, i: nat): nat {
    if bs == [] then 0
    else
      var b := bs[|bs| - 1];
      Tally(bs[..|bs| - 1], i) + (if IsNumber(b) && FirstRange(NumberValue(b), 0) == Some(i) then 1 else 0)
  }

  function Counted(bs: seq<Json>): seq<BudgetRange> {
    seq(|EmptyRanges|, i requires 0 <= i < |EmptyRanges| => EmptyRanges[i].(count := Tally(bs, i)))
  }

  /**
   * What `get_budget_distribution` returns: the note when no row has a budget;
   * the TypeError the first comparison raises when some budget is not a number;
   * otherwise the five ranges with their counts.
   */
  function Distribution(rows: seq<Json>): Result<BudgetDistribution> {
    var bs := Budgets(rows);
    if bs == [] then Ok(NoBudgetData(NoBudgetNote))
    else if exists k :: 0 <= k < |bs| && !IsNumber(bs[k]) then Raised(TypeError)
    else Ok(Ranges(Counted(bs)))
  }

  /** The collecting loop: the "budget" values of the dict rows, in row order. */
  method CollectBudgets(rows: seq<Json>) returns (budgets: seq<Json>)
    ensures budgets == Budgets(rows)
  {
    budgets := [];
    for i := 0 to |rows|
      invariant budgets == Budgets(rows[..i])
    {
      assert rows[..i + 1][..i] == rows[..i];
      var row := rows[i];
      if row.Obj? && Get(row.fields, "budget").Some? {
        budgets := budgets + [Get(row.fields, "budget").value];
      }
    }
    assert rows[..|rows|] == rows;
  }

  /** Five ranges with the bounds of `EmptyRanges`, whatever their counts. */
  predicate Shaped(ranges: seq<BudgetRange>) {
    |ranges| == |EmptyRanges| &&
    forall i :: 0 <= i < |ranges| ==> ranges[i].min == EmptyRanges[i].min && ranges[i].max == EmptyRanges[i].max
  }

  /** The inner loop: the first range holding `v` is incremented, and the search stops there. */
  method PlaceBudget(ranges: seq<BudgetRange>, v: real) returns (ranges': seq<BudgetRange>)
    requires Shaped(ranges)
    ensures Shaped(ranges')
    ensures forall i :: 0 <= i < |ranges| ==>
      ranges'[i].count == ranges[i].count + (if FirstRange(v, 0) == Some(i) then 1 else 0)
  {
    ranges' := ranges;
    var j := 0;
    while j < |ranges|
      invariant 0 <= j <= |ranges|
      invariant FirstRange(v, 0) == FirstRange(v, j)
    {
      if InRange(ranges[j], v) {
        assert InRange(EmptyRanges[j], v);
        ranges' := ranges[j := ranges[j].(count := ranges[j].count + 1)];
        return;
      }
      j := j + 1;
    }
  }

  /** The counting loop: a non-numeric budget makes the first comparison raise. */
  method CountBudgets(budgets: seq<Json>) returns (r: Result<seq<BudgetRange>>)
    ensures (exists k :: 0 <= k < |budgets| && !IsNumber(budgets[k])) ==> r == Raised(TypeError)
    ensures (forall k :: 0 <= k < |budgets| ==> IsNumber(budgets[k])) ==> r == Ok(Counted(budgets))
  {
    var ranges := EmptyRanges;
    for k := 0 to |budgets|
      invariant Shaped(ranges)
      invariant forall i :: 0 <= i < |ranges| ==> ranges[i].count == Tally(budgets[..k], i)
      invariant forall m :: 0 <= m < k ==> IsNumber(budgets[m])
    {
      var budget := budgets[k];
      assert budgets[..k + 1][..k] == budgets[..k];
      if !IsNumber(budget) {
        return Raised(TypeError);
      }
      ranges := PlaceBudget(ranges, NumberValue(budget));
    }
    assert budgets[..|budgets|] == budgets;
    assert ranges == Counted(budgets);
    return Ok(ranges);
  }

  /** `get_budget_distribution`. */
  method GetBudgetDistribution(rows: seq<Json>) returns (r: Result<BudgetDistribution>)
    ensures r == Distribution(rows)
  {
    var budgets := CollectBudgets(rows);
    if budgets == [] {
      return Ok(NoBudgetData(NoBudgetNote));
    }
    var counted := CountBudgets(budgets);
    if counted.Raised? {
      return Raised(counted.error);
    }
    return Ok(Ranges(counted.value));
  }

  /** The inner loop's search finds the one range holding `v`: the ranges do not overlap. */
  lemma FirstRangeMeaning(v: real, i: nat)
    ensures FirstRange(v, 0) == Some(i) <==> i < |EmptyRanges| && InRange(EmptyRanges[i], v)
  {
  }

  /** The ranges are contiguous from 0 upwards with no upper end: exactly the budgets `>= 0` fall into one. */
  lemma FirstRangeNone(v: real)
    ensures FirstRange(v, 0).None? <==> v < 0.0
  {
  }

  /** The inquiries that contribute a budget are the dicts with a "budget" key, and they contribute its value. */
  lemma {:induction false} BudgetsMembers(rows: seq<Json>)
    ensures forall b :: b in Budgets(rows) <==>
      exists i :: 0 <= i < |rows| && rows[i].Obj? && Get(rows[i].fields, "budget") == Some(b)
  {
    if rows != [] {
      var p := rows[..|rows| - 1];
      BudgetsMembers(p);
      forall b | b in Budgets(rows)
        ensures exists i :: 0 <= i < |rows| && rows[i].Obj? && Get(rows[i].fields, "budget") == Some(b)
      {
        if b in Budgets(p) {
          var i :| 0 <= i < |p| && p[i].Obj? && Get(p[i].fields, "budget") == Some(b);
          assert rows[i] == p[i];
        } else {
          assert b in BudgetOf(rows[|rows| - 1]);
        }
      }
      forall b | exists i :: 0 <= i < |rows| && rows[i].Obj? && Get(rows[i].fields, "budget") == Some(b)
        ensures b in Budgets(rows)
      {
        var i :| 0 <= i < |rows| && rows[i].Obj? && Get(rows[i].fields, "budget") == Some(b);
        if i < |p| {
          assert p[i] == rows[i];
        } else {
          assert BudgetOf(rows[i]) == [b];
        }
      }
    }
  }

  /** The note comes back exactly when no inquiry is a dict with a "budget" key. */
  lemma NoBudgetDataIff(rows: seq<Json>)
    ensures Distribution(rows) == Ok(NoBudgetData(NoBudgetNote)) <==>
      forall i :: 0 <= i < |rows| ==> !(rows[i].Obj? && Get(rows[i].fields, "budget").Some?)
  {
    BudgetsMembers(rows);
    var bs := Budgets(rows);
    if bs != [] {
      assert bs[0] in bs;
    }
  }

  /** A budget that is not a number, such as a "min-max" label, makes the endpoint raise TypeError. */
  lemma NonNumericBudgetRaises(rows: seq<Json>, i: nat)
    requires i < |rows| && rows[i].Obj? && Get(rows[i].fields, "budget").Some?
    requires !IsNumber(Get(rows[i].fields, "budget").value)
    ensures Distribution(rows) == Raised(TypeError)
  {
    var b := Get(rows[i].fields, "budget").value;
    BudgetsMembers(rows);
    assert b in Budgets(rows);
  }

  /** How many of the budgets are numbers `>= 0`. */
  function NonNegative(bs: seq<Json>): nat {
    if bs == [] then 0
    else
      var b := bs[|bs| - 1];
      NonNegative(bs[..|bs| - 1]) + (if IsNumber(b) && NumberValue(b) >= 0.0 then 1 else 0)
  }

  function TotalCount(rs: seq<BudgetRange>): nat {
    if rs == [] then 0 else TotalCount(rs[..|rs| - 1]) + rs[|rs| - 1].count
  }

  lemma {:induction false} TallyTotal(bs: seq<Json>)
    ensures Tally(bs, 0) + Tally(bs, 1) + Tally(bs, 2) + Tally(bs, 3) + Tally(bs, 4) == NonNegative(bs)
  {
    if bs != [] {
      var b := bs[|bs| - 1];
      TallyTotal(bs[..|bs| - 1]);
      if IsNumber(b) {
        FirstRangeNone(NumberValue(b));
      }
    }
  }

  /** Each budget is counted at most once: the counts add up to the number of budgets `>= 0`, and negative ones count nowhere. */
  lemma DistributionTotal(rows: seq<Json>)
    requires Distribution(rows).Ok? && Distribution(rows).value.Ranges?
    ensures TotalCount(Distribution(rows).value.ranges) == NonNegative(Budgets(rows))
  {
    var bs := Budgets(rows);
    var rs := Counted(bs);
    TallyTotal(bs);
    assert rs[..4][..3] == rs[..3] && rs[..3][..2] == rs[..2] && rs[..2][..1] == rs[..1] && rs[..1][..0] == [];
    assert TotalCount(rs[..1]) == Tally(bs, 0);
    assert TotalCount(rs[..2]) == TotalCount(rs[..1]) + Tally(bs, 1);
    assert TotalCount(rs[..3]) == TotalCount(rs[..2]) + Tally(bs, 2);
    assert TotalCount(rs[..4]) == TotalCount(rs[..3]) + Tally(bs, 3);
    assert TotalCount(rs) == TotalCount(rs[..4]) + Tally(bs, 4);
  }

  // ---------------------------------------------------------------------------
  // Segment distribution

  /** The "segment" value of a dict row that has one. */
  function SegmentOf(row: Json): Option<Json> {
    if row.Obj? then Get(row.fields, "segment") else None
  }

  /** A segment value that cannot be a dict key: a list or a dict. */
  predicate Unhashable(row: Json) {
    SegmentOf(row).Some? && !Hashable(SegmentOf(row).value)
  }

  /** Equality of two hashable values as dict keys: numbers by value (`1 == 1.0 == True`), others structurally. */
  predicate KeyEq(a: Json, b: Json) {
    if IsNumber(a) && IsNumber(b) then NumberValue(a) == NumberValue(b) else a == b
  }

  /** On hashable values, `KeyEq` is Python's `==`. */
  lemma KeyEqIsPyEq(a: Json, b: Json)
    requires Hashable(a) && Hashable(b)
    ensures KeyEq(a, b) <==> PyEq(a, b)
  {
  }

  /** The number of rows whose segment is the key `key`. */
  function Occurrences(rows: seq<Json>, key: Json): nat {
    if rows == [] then 0
    else
      var s := SegmentOf(rows[|rows| - 1]);
      Occurrences(rows[..|rows| - 1], key) + (if s.Some? && KeyEq(s.value, key) then 1 else 0)
  }

  /** The number of rows that carry a segment. */
  function Tagged(rows: seq<Json>): nat {
    if rows == [] then 0
    else Tagged(rows[..|rows| - 1]) + (if SegmentOf(rows[|rows| - 1]).Some? then 1 else 0)
  }

  function Total(dist: seq<(Json, nat)>): nat {
    if dist == [] then 0 else Total(dist[..|dist| - 1]) + dist[|dist| - 1].1
  }

  /** The dict lookup `segments.get(segment)`: the index of the key equal to `key`. */
  function Find(dist: seq<(Json, nat)>, key: Json): (r: Option<nat>)
    ensures r.Some? ==> r.value < |dist| && KeyEq(dist[r.value].0, key)
    ensures r.None? ==> forall j :: 0 <= j < |dist| ==> !KeyEq(dist[j].0, key)
  {
    if dist == [] then None
    else if KeyEq(dist[0].0, key) then Some(0)
    else match Find(dist[1..], key)
      case Some(j) => Some(j + 1)
      case None => None
  }

  lemma {:induction false} TotalUpdate(dist: seq<(Json, nat)>, j: nat, c: nat)
    requires j < |dist|
    ensures Total(dist[j := (dist[j].0, c)]) == Total(dist) - dist[j].1 + c
  {
    var p := dist[..|dist| - 1];
    if j < |dist| - 1 {
      assert dist[j := (dist[j].0, c)][..|dist| - 1] == p[j := (p[j].0, c)];
      TotalUpdate(p, j, c);
    } else {
      assert dist[j := (dist[j].0, c)][..|dist| - 1] == p;
    }
  }

  lemma TotalSnoc(dist: seq<(Json, nat)>, e: (Json, nat))
    ensures Total(dist + [e]) == Total(dist) + e.1
  {
    assert (dist + [e])[..|dist|] == dist;
  }

  lemma KeyEqTransitive(a: Json, b: Json, c: Json)
    requires KeyEq(a, b) && KeyEq(b, c)
    ensures KeyEq(a, c)
  {
  }

  /** What the loop keeps: the distribution so far is exactly the tally of the rows so far. */
  ghost predicate Tallied(segments: seq<(Json, nat)>, rows: seq<Json>) {
    (forall j :: 0 <= j < |segments| ==> Hashable(segments[j].0)) &&
    (forall j :: 0 <= j < |segments| ==> segments[j].1 == Occurrences(rows, segments[j].0)) &&
    (forall j, m :: 0 <= j < m < |segments| ==> !KeyEq(segments[j].0, segments[m].0)) &&
    (forall m :: 0 <= m < |rows| && SegmentOf(rows[m]).Some? ==> Find(segments, SegmentOf(rows[m]).value).Some?) &&
    Total(segments) == Tagged(rows)
  }

  /** A row without a segment changes nothing. */
  lemma SkipKeeps(segments: seq<(Json, nat)>, rows: seq<Json>, row: Json, rows': seq<Json>)
    requires Tallied(segments, rows) && SegmentOf(row).None? && rows' == rows + [row]
    ensures Tallied(segments, rows')
  {
    assert rows'[..|rows|] == rows;
    forall m | 0 <= m < |rows'| && SegmentOf(rows'[m]).Some? ensures Find(segments, SegmentOf(rows'[m]).value).Some? {
      assert rows'[m] == rows[m];
    }
  }

  /** A segment already present adds one to its entry. */
  lemma BumpKeeps(segments: seq<(Json, nat)>, rows: seq<Json>, row: Json, rows': seq<Json>, j: nat)
    requires Tallied(segments, rows) && SegmentOf(row).Some? && Hashable(SegmentOf(row).value) && rows' == rows + [row]
    requires j < |segments| && KeyEq(segments[j].0, SegmentOf(row).value)
    ensures Tallied(segments[j := (segments[j].0, segments[j].1 + 1)], rows')
  {
    var segment := SegmentOf(row).value;
    var segments' := segments[j := (segments[j].0, segments[j].1 + 1)];
    assert rows'[..|rows|] == rows;
    TotalUpdate(segments, j, segments[j].1 + 1);
    forall m | 0 <= m < |segments| && m != j ensures !KeyEq(segments[m].0, segment) {
      if KeyEq(segments[m].0, segment) {
        KeyEqTransitive(segments[m].0, segment, segments[j].0);
      }
    }
    forall m | 0 <= m < |rows'| && SegmentOf(rows'[m]).Some? ensures Find(segments', SegmentOf(rows'[m]).value).Some? {
      if m < |rows| {
        assert rows'[m] == rows[m];
        var k := Find(segments, SegmentOf(rows[m]).value).value;
        assert segments'[k].0 == segments[k].0;
      } else {
        assert segments'[j].0 == segments[j].0;
      }
    }
  }

  /** A new segment gets an entry of its own with count one. */
  lemma AddKeeps(segments: seq<(Json, nat)>, rows: seq<Json>, row: Json, rows': seq<Json>)
    requires Tallied(segments, rows) && SegmentOf(row).Some? && Hashable(SegmentOf(row).value) && rows' == rows + [row]
    requires Find(segments, SegmentOf(row).value).None?
    ensures Tallied(segments + [(SegmentOf(row).value, 1)], rows')
  {
    var segment := SegmentOf(row).value;
    var segments' := segments + [(segment, 1)];
    assert rows'[..|rows|] == rows;
    forall m | 0 <= m < |rows| && SegmentOf(rows[m]).Some? ensures !KeyEq(SegmentOf(rows[m]).value, segment) {
      var k := Find(segments, SegmentOf(rows[m]).value).value;
      if KeyEq(SegmentOf(rows[m]).value, segment) {
        KeyEqTransitive(segments[k].0, SegmentOf(rows[m]).value, segment);
      }
    }
    OccurrencesAbsent(rows, segment);
    TotalSnoc(segments, (segment, 1));
    forall m | 0 <= m < |rows'| && SegmentOf(rows'[m]).Some? ensures Find(segments', SegmentOf(rows'[m]).value).Some? {
      if m < |rows| {
        assert rows'[m] == rows[m];
        var k := Find(segments, SegmentOf(rows[m]).value).value;
        assert segments'[k] == segments[k];
      } else {
        assert KeyEq(segments'[|segments|].0, segment);
      }
    }
  }

  /**
   * `get_segment_distribution`: a list or dict segment raises TypeError; otherwise each
   * distinct segment, in first-seen order, maps to the number of dict rows carrying it,
   * which is at least one; every carried segment has its entry, and the counts add up
   * to the rows that carry one.
   */
  method GetSegmentDistribution(rows: seq<Json>) returns (r: Result<seq<(Json, nat)>>)
    ensures r.Raised? <==> exists i :: 0 <= i < |rows| && Unhashable(rows[i])
    ensures r.Raised? ==> r.error == TypeError
    ensures r.Ok? ==>
      (forall j :: 0 <= j < |r.value| ==> r.value[j].1 == Occurrences(rows, r.value[j].0)) &&
      (forall j :: 0 <= j < |r.value| ==> r.value[j].1 >= 1) &&
      (forall j, m :: 0 <= j < m < |r.value| ==> !KeyEq(r.value[j].0, r.value[m].0)) &&
      (forall i :: 0 <= i < |rows| && SegmentOf(rows[i]).Some? ==>
         exists j :: 0 <= j < |r.value| && KeyEq(r.value[j].0, SegmentOf(rows[i]).value)) &&
      Total(r.value) == Tagged(rows)
  {
    var segments: seq<(Json, nat)> := [];
    for i := 0 to |rows|
      invariant forall m :: 0 <= m < i ==> !Unhashable(rows[m])
      invariant Tallied(segments, rows[..i])
      invariant Positive(segments)
    {
      var row := rows[i];
      if row.Obj? && Get(row.fields, "segment").Some? {
        var segment := Get(row.fields, "segment").value;
        if !Hashable(segment) {
          assert Unhashable(rows[i]);
          return Raised(TypeError);
        }
        TallyNext(segments, rows, i);
        PositiveNext(segments, row);
        var found := Find(segments, segment);
        if found.Some? {
          segments := segments[found.value := (segments[found.value].0, segments[found.value].1 + 1)];
        } else {
          segments := segments + [(segment, 1)];
        }
      } else {
        TallyNext(segments, rows, i);
        PositiveNext(segments, row);
      }
    }
    assert rows[..|rows|] == rows;
    forall i | 0 <= i < |rows| && SegmentOf(rows[i]).Some?
      ensures exists j :: 0 <= j < |segments| && KeyEq(segments[j].0, SegmentOf(rows[i]).value)
    {
      var j := Find(segments, SegmentOf(rows[i]).value).value;
    }
    r := Ok(segments);
  }

  /** The dictionary after one more row: its entry counted once more, a new entry, or no change. */
  function NextTally(segments: seq<(Json, nat)>, row: Json): seq<(Json, nat)> {
    match SegmentOf(row)
    case None => segments
    case Some(segment) =>
      match Find(segments, segment)
      case Some(j) => segments[j := (segments[j].0, segments[j].1 + 1)]
      case None => segments + [(segment, 1)]
  }

  /** Every entry of the dictionary counts at least one row. */
  predicate Positive(segments: seq<(Json, nat)>) {
    forall j :: 0 <= j < |segments| ==> segments[j].1 >= 1
  }

  /** Counting one more row keeps every count positive. */
  lemma PositiveNext(segments: seq<(Json, nat)>, row: Json)
    requires Positive(segments)
    ensures Positive(NextTally(segments, row))
  {
  }

  /** One pass of the loop keeps the tally. */
  lemma TallyNext(segments: seq<(Json, nat)>, rows: seq<Json>, i: nat)
    requires i < |rows| && !Unhashable(rows[i]) && Tallied(segments, rows[..i])
    ensures Tallied(NextTally(segments, rows[i]), rows[..i + 1])
  {
    assert rows[..i + 1] == rows[..i] + [rows[i]];
    var row := rows[i];
    match SegmentOf(row)
    case None =>
      SkipKeeps(segments, rows[..i], row, rows[..i + 1]);
    case Some(segment) =>
      match Find(segments, segment)
      case Some(j) =>
        BumpKeeps(segments, rows[..i], row, rows[..i + 1], j);
      case None =>
        AddKeeps(segments, rows[..i], row, rows[..i + 1]);
  }

  /** A key counted at least once is the segment of some row. */
  lemma {:induction false} OccurrencesWitness(rows: seq<Json>, key: Json)
    requires Occurrences(rows, key) >= 1
    ensures exists m :: 0 <= m < |rows| && SegmentOf(rows[m]).Some? && KeyEq(SegmentOf(rows[m]).value, key)
  {
    var n := |rows| - 1;
    var s := SegmentOf(rows[n]);
    if !(s.Some? && KeyEq(s.value, key)) {
      var p := rows[..n];
      OccurrencesWitness(p, key);
      var m :| 0 <= m < |p| && SegmentOf(p[m]).Some? && KeyEq(SegmentOf(p[m]).value, key);
      assert p[m] == rows[m];
    }
  }

  /** A key that no earlier segment equals has not occurred yet. */
  lemma {:induction false} OccurrencesAbsent(rows: seq<Json>, key: Json)
    requires forall m :: 0 <= m < |rows| && SegmentOf(rows[m]).Some? ==> !KeyEq(SegmentOf(rows[m]).value, key)
    ensures Occurrences(rows, key) == 0
  {
    if rows != [] {
      var p := rows[..|rows| - 1];
      forall m | 0 <= m < |p| && SegmentOf(p[m]).Some? ensures !KeyEq(SegmentOf(p[m]).value, key) {
        assert p[m] == rows[m];
      }
      OccurrencesAbsent(p, key);
    }
  }
}
