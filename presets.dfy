/**
 * The preset routes: the listing with optional filters and paging, the
 * recommendation route, and the lookup of one preset by id. A route's query
 * parameters are checked by the web framework before the handler runs; a value
 * outside their bounds is answered with status 422.
 */
module Presets {
  import opened Wrappers
  import opened Models
  import opened Queries

  /** A route's answer: a body, or the HTTP error sent instead. */
  datatype Response<T> = Body(value: T) | HttpError(status: int, detail: string)

  const InvalidQuery := "Invalid query parameter"
  const PresetNotFound := "Preset not found"
  const DefaultSkip := 0
  const DefaultPresetsLimit := 100
  const MaxPresetsLimit := 1000
  const DefaultRecommendationsLimit := 3
  const MaxRecommendationsLimit := 10

  /** A preset whose budget range, where given, admits `budget`. */
  predicate WithinBudget(p: Preset, budget: real) {
    (p.minBudget.None? || p.minBudget.value <= budget) &&
    (p.maxBudget.None? || p.maxBudget.value >= budget)
  }

  /** The optional query parameters of the listing. */
  datatype PresetFilters = PresetFilters(deviceType: Option<DeviceType>, segment: Option<Segment>, budget: Option<real>)

  /** `budget` is a positive float when given. */
  predicate ValidFilters(f: PresetFilters) {
    f.budget.Some? ==> f.budget.value > 0.0
  }

  /**
   * The listing's `WHERE`: active presets; the device type and segment only when
   * given (an enum member is always truthy); the budget range only when the
   * budget is truthy.
   */
  predicate ListedBy(f: PresetFilters, p: Preset) {
    p.isActive &&
    (f.deviceType.Some? ==> p.deviceType == f.deviceType.value) &&
    (f.segment.Some? ==> p.segment == f.segment.value) &&
    (TruthyScore(f.budget) ==> WithinBudget(p, f.budget.value))
  }

  function Listed(f: PresetFilters): Preset -> bool {
    p => ListedBy(f, p)
  }

  /** The listing's query: the listed presets, sorted, from position `skip`, at most `limit` of them. */
  function ListPresets(table: seq<Preset>, f: PresetFilters, skip: nat, limit: nat, nullsFirst: bool): seq<Preset> {
    Page(Sort(Filter(table, Listed(f)), PresetOrder(nullsFirst)), skip, limit)
  }

  /** `GET /presets`: 422 for a parameter out of bounds, otherwise the listing's query. */
  function GetPresets(table: seq<Preset>, f: PresetFilters, skip: int, limit: int, nullsFirst: bool): (r: Response<seq<Preset>>)
    ensures r.HttpError? <==> !(ValidFilters(f) && skip >= 0 && 1 <= limit <= MaxPresetsLimit)
    ensures r.HttpError? ==> r.status == 422
    ensures r.Body? ==> r.value == ListPresets(table, f, skip, limit, nullsFirst) && |r.value| <= limit
  {
    if !(ValidFilters(f) && skip >= 0 && 1 <= limit <= MaxPresetsLimit) then HttpError(422, InvalidQuery)
    else Body(ListPresets(table, f, skip, limit, nullsFirst))
  }

  /** The listing returns only listed presets of the table, sorted by priority and then score. */
  lemma ListPresetsRule(table: seq<Preset>, f: PresetFilters, skip: nat, limit: nat, nullsFirst: bool)
    ensures var r := ListPresets(table, f, skip, limit, nullsFirst);
      (forall p :: p in r ==> p in table && ListedBy(f, p)) &&
      Sorted(r, PresetOrder(nullsFirst))
  {
    var le := PresetOrder(nullsFirst);
    var t := Sort(Filter(table, Listed(f)), le);
    assert Sorted(t, le) by {
      PresetOrderIsPreorder(nullsFirst);
      SortSorted(Filter(table, Listed(f)), le);
    }
    PagedQueryRule(table, Listed(f), le, skip, limit);
    PageOfSorted(t, skip, limit, le);
  }

  /** The listing is exactly the page `[skip, skip + limit)` of a sorted permutation of all listed presets. */
  lemma ListPresetsPage(table: seq<Preset>, f: PresetFilters, skip: nat, limit: nat, nullsFirst: bool)
    ensures var r, t := ListPresets(table, f, skip, limit, nullsFirst), Sort(Filter(table, Listed(f)), PresetOrder(nullsFirst));
      multiset(t) == multiset(Filter(table, Listed(f))) && Sorted(t, PresetOrder(nullsFirst)) &&
      |r| == (if skip >= |t| then 0 else Min(limit, |t| - skip)) &&
      (forall i :: 0 <= i < |r| ==> r[i] == t[skip + i])
  {
    var le := PresetOrder(nullsFirst);
    assert Sorted(Sort(Filter(table, Listed(f)), le), le) by {
      PresetOrderIsPreorder(nullsFirst);
      SortSorted(Filter(table, Listed(f)), le);
    }
  }

  /** The presets the page skips rank no lower than any on it, and those after it no higher. */
  lemma ListPresetsSkipped(table: seq<Preset>, f: PresetFilters, skip: nat, limit: nat, nullsFirst: bool)
    ensures var r, t := ListPresets(table, f, skip, limit, nullsFirst), Sort(Filter(table, Listed(f)), PresetOrder(nullsFirst));
      (forall i, j :: 0 <= i < skip && i < |t| && 0 <= j < |r| ==> PresetBefore(nullsFirst, t[i], r[j])) &&
      (forall j, k :: 0 <= j < |r| && skip + |r| <= k < |t| ==> PresetBefore(nullsFirst, r[j], t[k]))
  {
    var le := PresetOrder(nullsFirst);
    var t := Sort(Filter(table, Listed(f)), le);
    assert Sorted(t, le) by {
      PresetOrderIsPreorder(nullsFirst);
      SortSorted(Filter(table, Listed(f)), le);
    }
    PageOfSorted(t, skip, limit, le);
    var r := Page(t, skip, limit);
    forall i, j | 0 <= i < skip && i < |t| && 0 <= j < |r| ensures PresetBefore(nullsFirst, t[i], r[j]) {
      assert le(t[i], r[j]);
    }
    forall j, k | 0 <= j < |r| && skip + |r| <= k < |t| ensures PresetBefore(nullsFirst, r[j], t[k]) {
      assert le(r[j], t[k]);
    }
  }

  /** The recommendation route's `WHERE`: device type and segment always, the budget range when the budget is truthy. */
  predicate RecommendedBy(deviceType: DeviceType, segment: Segment, budget: Option<real>, p: Preset) {
    p.deviceType == deviceType && p.segment == segment && p.isActive &&
    (TruthyScore(budget) ==> WithinBudget(p, budget.value))
  }

  function Recommended(deviceType: DeviceType, segment: Segment, budget: Option<real>): Preset -> bool {
    p => RecommendedBy(deviceType, segment, budget, p)
  }

  /** The recommendation route's query: the first `limit` matching presets, sorted. */
  function RecommendedPresets(table: seq<Preset>, deviceType: DeviceType, segment: Segment, budget: Option<real>, limit: nat, nullsFirst: bool): seq<Preset> {
    Top(table, Recommended(deviceType, segment, budget), PresetOrder(nullsFirst), limit)
  }

  /** `GET /presets/recommendations`: device type and segment are required, the budget optional, `limit` in 1..10. */
  function GetRecommendations(table: seq<Preset>, deviceType: DeviceType, segment: Segment, budget: Option<real>, limit: int, nullsFirst: bool): (r: Response<seq<Preset>>)
    ensures r.HttpError? <==> !((budget.Some? ==> budget.value > 0.0) && 1 <= limit <= MaxRecommendationsLimit)
    ensures r.HttpError? ==> r.status == 422
    ensures r.Body? ==> r.value == RecommendedPresets(table, deviceType, segment, budget, limit, nullsFirst) && |r.value| <= limit
  {
    if !((budget.Some? ==> budget.value > 0.0) && 1 <= limit <= MaxRecommendationsLimit) then HttpError(422, InvalidQuery)
    else Body(RecommendedPresets(table, deviceType, segment, budget, limit, nullsFirst))
  }

  /**
   * The recommendation query answers exactly what the listing answers for the same
   * device type, segment and budget on its first page, so with a valid limit the two
   * routes agree.
   */
  lemma RecommendationsAreFirstPage(table: seq<Preset>, deviceType: DeviceType, segment: Segment, budget: Option<real>, limit: int, nullsFirst: bool)
    ensures 1 <= limit <= MaxRecommendationsLimit ==>
      GetRecommendations(table, deviceType, segment, budget, limit, nullsFirst) ==
      GetPresets(table, PresetFilters(Some(deviceType), Some(segment), budget), DefaultSkip, limit, nullsFirst)
  {
    var f := PresetFilters(Some(deviceType), Some(segment), budget);
    forall p | p in table ensures Recommended(deviceType, segment, budget)(p) == Listed(f)(p) {
    }
    FilterAgree(table, Recommended(deviceType, segment, budget), Listed(f));
  }

  /** Every recommended preset is an active preset of the table that matches the route's conditions, listed in order. */
  lemma RecommendedPresetsRule(table: seq<Preset>, deviceType: DeviceType, segment: Segment, budget: Option<real>, limit: nat, nullsFirst: bool)
    ensures var r, all := RecommendedPresets(table, deviceType, segment, budget, limit, nullsFirst),
                          Filter(table, Recommended(deviceType, segment, budget));
      (forall p :: p in r ==> p in table && RecommendedBy(deviceType, segment, budget, p)) &&
      |r| == Min(limit, |all|) &&
      Sorted(r, PresetOrder(nullsFirst))
  {
    var keep, le := Recommended(deviceType, segment, budget), PresetOrder(nullsFirst);
    var r, all := Top(table, keep, le, limit), Filter(table, keep);
    assert (forall x :: x in r ==> x in table && keep(x)) && |r| == Min(limit, |all|) && Sorted(r, le) by {
      PresetOrderIsPreorder(nullsFirst);
      TopRule(table, keep, le, limit);
    }
  }

  /** The limit cuts off only matching presets that rank no higher than every recommended one. */
  lemma RecommendedPresetsCutoff(table: seq<Preset>, deviceType: DeviceType, segment: Segment, budget: Option<real>, limit: nat, nullsFirst: bool)
    ensures var r, all := RecommendedPresets(table, deviceType, segment, budget, limit, nullsFirst),
                          Filter(table, Recommended(deviceType, segment, budget));
      multiset(r) <= multiset(all) &&
      (forall p, q :: p in r && q in multiset(all) - multiset(r) ==> PresetBefore(nullsFirst, p, q))
  {
    var keep, le := Recommended(deviceType, segment, budget), PresetOrder(nullsFirst);
    var r, all := Top(table, keep, le, limit), Filter(table, keep);
    assert multiset(r) <= multiset(all) && (forall x, y :: x in r && y in multiset(all) - multiset(r) ==> le(x, y)) by {
      PresetOrderIsPreorder(nullsFirst);
      TopRule(table, keep, le, limit);
    }
    forall p, q | p in r && q in multiset(all) - multiset(r) ensures PresetBefore(nullsFirst, p, q) {
      assert le(p, q);
    }
  }

  /** `GET /presets/{id}`: the preset with that id, or 404 when there is none. */
  function GetPreset(table: seq<Preset>, id: string): (r: Response<Preset>)
    ensures r.Body? ==> r.value in table && r.value.id == id
    ensures r.HttpError? <==> forall p :: p in table ==> p.id != id
    ensures r.HttpError? ==> r.status == 404 && r.detail == PresetNotFound
  {
    if table == [] then HttpError(404, PresetNotFound)
    else if table[0].id == id then Body(table[0])
    else
      assert forall p :: p in table ==> p == table[0] || p in table[1..];
      GetPreset(table[1..], id)
  }

  /** Ids are the table's primary key. */
  predicate UniqueIds(table: seq<Preset>) {
    forall i, j :: 0 <= i < j < |table| ==> table[i].id != table[j].id
  }

  /** With unique ids the lookup returns the one preset stored under the id. */
  lemma GetPresetFindsStored(table: seq<Preset>, i: int)
    requires UniqueIds(table)
    requires 0 <= i < |table|
    ensures GetPreset(table, table[i].id) == Body(table[i])
  {
    var r := GetPreset(table, table[i].id);
    assert table[i] in table;
    var j :| 0 <= j < |table| && table[j] == r.value;
    assert i == j;
  }
}
