/**
 * The rule-based recommendation service: the top presets for a device type,
 * segment and budget; alternatives for one component of a build; and the
 * reasoning sentence shown beside a recommended preset.
 */
module Recommendation {
  import opened Wrappers
  import opened Models
  import opened Queries
  import opened PyStr
  import Presets

  const DefaultLimit := 3
  const DefaultAlternativesLimit := 5

  /** The service's `WHERE`: device type, segment, active, and the budget range always applied. */
  predicate SuitableFor(deviceType: DeviceType, segment: Segment, budget: real, p: Preset) {
    p.deviceType == deviceType && p.segment == segment && p.isActive && Presets.WithinBudget(p, budget)
  }

  function Suitable(deviceType: DeviceType, segment: Segment, budget: real): Preset -> bool {
    p => SuitableFor(deviceType, segment, budget, p)
  }

  /** `get_recommendations`: the first `limit` suitable presets by priority, then score. */
  function GetRecommendations(table: seq<Preset>, deviceType: DeviceType, segment: Segment, budget: real, limit: nat, nullsFirst: bool): seq<Preset> {
    Top(table, Suitable(deviceType, segment, budget), PresetOrder(nullsFirst), limit)
  }

  /** Every result is a suitable preset of the table, the results are in order, and there are as many as the limit allows. */
  lemma GetRecommendationsRule(table: seq<Preset>, deviceType: DeviceType, segment: Segment, budget: real, limit: nat, nullsFirst: bool)
    ensures var r, all := GetRecommendations(table, deviceType, segment, budget, limit, nullsFirst),
                          Filter(table, Suitable(deviceType, segment, budget));
      (forall p :: p in r ==> p in table && SuitableFor(deviceType, segment, budget, p)) &&
      |r| == Min(limit, |all|) &&
      Sorted(r, PresetOrder(nullsFirst))
  {
    var keep, le := Suitable(deviceType, segment, budget), PresetOrder(nullsFirst);
    var r, all := Top(table, keep, le, limit), Filter(table, keep);
    assert (forall x :: x in r ==> x in table && keep(x)) && |r| == Min(limit, |all|) && Sorted(r, le) by {
      PresetOrderIsPreorder(nullsFirst);
      TopRule(table, keep, le, limit);
    }
  }

  /** The limit leaves out only suitable presets that rank no higher than every result. */
  lemma GetRecommendationsCutoff(table: seq<Preset>, deviceType: DeviceType, segment: Segment, budget: real, limit: nat, nullsFirst: bool)
    ensures var r, all := GetRecommendations(table, deviceType, segment, budget, limit, nullsFirst),
                          Filter(table, Suitable(deviceType, segment, budget));
      multiset(r) <= multiset(all) &&
      (forall p, q :: p in r && q in multiset(all) - multiset(r) ==> PresetBefore(nullsFirst, p, q))
  {
    var keep, le := Suitable(deviceType, segment, budget), PresetOrder(nullsFirst);
    var r, all := Top(table, keep, le, limit), Filter(table, keep);
    assert multiset(r) <= multiset(all) && (forall x, y :: x in r && y in multiset(all) - multiset(r) ==> le(x, y)) by {
      PresetOrderIsPreorder(nullsFirst);
      TopRule(table, keep, le, limit);
    }
    forall p, q | p in r && q in multiset(all) - multiset(r) ensures PresetBefore(nullsFirst, p, q) {
      assert le(p, q);
    }
  }

  /**
   * For a positive budget the service and the recommendation route run the same
   * query; they differ only for a zero budget, which the route treats as absent.
   */
  lemma ServiceMatchesRoute(table: seq<Preset>, deviceType: DeviceType, segment: Segment, budget: real, limit: nat, nullsFirst: bool)
    ensures budget != 0.0 ==>
      GetRecommendations(table, deviceType, segment, budget, limit, nullsFirst) ==
      Presets.RecommendedPresets(table, deviceType, segment, Some(budget), limit, nullsFirst)
  {
    if budget != 0.0 {
      forall p | p in table
        ensures Suitable(deviceType, segment, budget)(p) == Presets.Recommended(deviceType, segment, Some(budget))(p)
      {
      }
      FilterAgree(table, Suitable(deviceType, segment, budget), Presets.Recommended(deviceType, segment, Some(budget)));
    }
  }

  /** A product that may replace the current one: same type, another id, in stock, and the segment when one is asked for. */
  predicate AlternativeTo(kind: ProductType, currentId: string, segment: Option<Segment>, p: Product) {
    p.kind == kind && p.id != currentId && p.inStock && (segment.Some? ==> p.segment == segment)
  }

  function Alternative(kind: ProductType, currentId: string, segment: Option<Segment>): Product -> bool {
    p => AlternativeTo(kind, currentId, segment, p)
  }

  /** `get_alternative_components`: nothing when the current product is unknown, else the best `limit` alternatives. */
  function GetAlternativeComponents(catalog: seq<Product>, kind: ProductType, currentId: string, segment: Option<Segment>, limit: nat): (r: seq<Product>)
    ensures (forall p :: p in catalog ==> p.id != currentId) ==> r == []
  {
    if forall p :: p in catalog ==> p.id != currentId then []
    else Top(catalog, Alternative(kind, currentId, segment), ProductOrder(), limit)
  }

  /**
   * For a known current product every alternative is an in-stock product of the
   * requested type and segment other than the current one, ordered by score
   * (unscored last) and then price, as many as the limit allows.
   */
  lemma AlternativesRule(catalog: seq<Product>, kind: ProductType, currentId: string, segment: Option<Segment>, limit: nat)
    requires exists p :: p in catalog && p.id == currentId
    ensures var r, all := GetAlternativeComponents(catalog, kind, currentId, segment, limit),
                          Filter(catalog, Alternative(kind, currentId, segment));
      (forall p :: p in r ==> p in catalog && p.kind == kind && p.id != currentId && p.inStock &&
                              (segment.Some? ==> p.segment == segment)) &&
      |r| == Min(limit, |all|) &&
      Sorted(r, ProductOrder())
  {
    var keep, le := Alternative(kind, currentId, segment), ProductOrder();
    var r, all := Top(catalog, keep, le, limit), Filter(catalog, keep);
    assert (forall x :: x in r ==> x in catalog && keep(x)) && |r| == Min(limit, |all|) && Sorted(r, le) by {
      ProductOrderIsPreorder();
      TopRule(catalog, keep, le, limit);
    }
    assert GetAlternativeComponents(catalog, kind, currentId, segment, limit) == r;
    forall p | p in r ensures p in catalog && AlternativeTo(kind, currentId, segment, p) {
      assert keep(p);
    }
  }

  /** The limit leaves out only alternatives that rank no higher than every one returned. */
  lemma AlternativesCutoff(catalog: seq<Product>, kind: ProductType, currentId: string, segment: Option<Segment>, limit: nat)
    requires exists p :: p in catalog && p.id == currentId
    ensures var r, all := GetAlternativeComponents(catalog, kind, currentId, segment, limit),
                          Filter(catalog, Alternative(kind, currentId, segment));
      multiset(r) <= multiset(all) &&
      (forall p, q :: p in r && q in multiset(all) - multiset(r) ==> ProductBefore(p, q))
  {
    var keep, le := Alternative(kind, currentId, segment), ProductOrder();
    var r, all := Top(catalog, keep, le, limit), Filter(catalog, keep);
    assert multiset(r) <= multiset(all) && (forall x, y :: x in r && y in multiset(all) - multiset(r) ==> le(x, y)) by {
      ProductOrderIsPreorder();
      TopRule(catalog, keep, le, limit);
    }
    forall p, q | p in r && q in multiset(all) - multiset(r) ensures ProductBefore(p, q) {
      assert le(p, q);
    }
  }

  const Fallback := "Rekomendowany zestaw"
  const GamingSentence := "Optymalizacja pod kątem gier"
  const ProSentence := "Zoptymalizowany do pracy profesjonalnej"
  const BusinessSentence := "Idealny do zastosowań biznesowych"
  const EverydaySentence := "Uniwersalny zestaw do codziennego użytku"
  const RoomySentence := "Mieści się w budżecie z zapasem"
  const FitsSentence := "Dopasowany do budżetu"

  /** The performance sentence around the score rendered with no decimals. */
  function PerformanceSentence(score: string): string {
    "Wysoki wynik wydajności: " + score + " punktów"
  }

  predicate IsSegmentSentence(s: string) {
    s == GamingSentence || s == ProSentence || s == BusinessSentence || s == EverydaySentence
  }

  /** A nullable text column read with Python truthiness. */
  predicate TruthyText(o: Option<string>) {
    o.Some? && o.value != ""
  }

  function SegmentSentence(segment: Segment): string {
    match segment
    case Gaming => GamingSentence
    case Pro => ProSentence
    case Business => BusinessSentence
    case Home => EverydaySentence
  }

  function PerformancePart(preset: Preset, fmt0: real -> string): seq<string> {
    if TruthyScore(preset.performanceScore) then [PerformanceSentence(fmt0(preset.performanceScore.value))] else []
  }

  function BudgetPart(preset: Preset, budget: real): seq<string> {
    if preset.totalPrice <= budget * 0.9 then [RoomySentence]
    else if preset.totalPrice <= budget then [FitsSentence]
    else []
  }

  function OwnPart(preset: Preset): seq<string> {
    if TruthyText(preset.reasoning) then [preset.reasoning.value] else []
  }

  /**
   * The sentences in the order the builder appends them: the performance sentence
   * when the score is truthy, one segment sentence, at most one budget sentence, and
   * the preset's own reasoning when it is truthy.
   */
  function Reasons(preset: Preset, segment: Segment, budget: real, fmt0: real -> string): seq<string> {
    PerformancePart(preset, fmt0) + [SegmentSentence(segment)] + BudgetPart(preset, budget) + OwnPart(preset)
  }

  /** `generate_recommendation_reasoning`; `fmt0` renders a float with no decimals. */
  method GenerateRecommendationReasoning(preset: Preset, deviceType: DeviceType, segment: Segment, budget: real, fmt0: real -> string)
    returns (text: string)
    ensures text == Join(". ", Reasons(preset, segment, budget, fmt0))
  {
    var reasons: seq<string> := [];
    if TruthyScore(preset.performanceScore) {
      reasons := reasons + [PerformanceSentence(fmt0(preset.performanceScore.value))];
    }
    assert reasons == PerformancePart(preset, fmt0);
    if segment == Gaming {
      reasons := reasons + [GamingSentence];
    } else if segment == Pro {
      reasons := reasons + [ProSentence];
    } else if segment == Business {
      reasons := reasons + [BusinessSentence];
    } else {
      reasons := reasons + [EverydaySentence];
    }
    assert reasons == PerformancePart(preset, fmt0) + [SegmentSentence(segment)];
    if preset.totalPrice <= budget * 0.9 {
      reasons := reasons + [RoomySentence];
    } else if preset.totalPrice <= budget {
      reasons := reasons + [FitsSentence];
    }
    assert reasons == PerformancePart(preset, fmt0) + [SegmentSentence(segment)] + BudgetPart(preset, budget);
    if TruthyText(preset.reasoning) {
      reasons := reasons + [preset.reasoning.value];
    }
    assert reasons == Reasons(preset, segment, budget, fmt0);
    text := if reasons != [] then Join(". ", reasons) else Fallback;
  }

  /** The performance sentence starts with a letter no segment or budget sentence starts with. */
  lemma PerformanceSentenceDistinct(score: string)
    ensures !IsSegmentSentence(PerformanceSentence(score))
    ensures PerformanceSentence(score) != RoomySentence && PerformanceSentence(score) != FitsSentence
  {
    var p := PerformanceSentence(score);
    assert p[0] == 'W';
    assert GamingSentence[0] == 'O' && ProSentence[0] == 'Z' && BusinessSentence[0] == 'I' && EverydaySentence[0] == 'U';
    assert RoomySentence[0] == 'M' && FitsSentence[0] == 'D';
  }

  /**
   * What the reasoning says: the performance sentence first iff the score is truthy;
   * exactly one segment sentence among the builder's own sentences, the everyday one
   * for HOME; the budget sentence by the 90 % rule; the preset's reasoning last iff
   * truthy. There is always a sentence, so the fallback text never appears.
   */
  lemma ReasonsRule(preset: Preset, segment: Segment, budget: real, fmt0: real -> string)
    ensures var r := Reasons(preset, segment, budget, fmt0);
      var seg := if TruthyScore(preset.performanceScore) then 1 else 0;
      var hasBudget := preset.totalPrice <= budget * 0.9 || preset.totalPrice <= budget;
      var own := if TruthyText(preset.reasoning) then 1 else 0;
      |r| == seg + 1 + (if hasBudget then 1 else 0) + own &&
      (TruthyScore(preset.performanceScore) ==> r[0] == PerformanceSentence(fmt0(preset.performanceScore.value))) &&
      (!TruthyScore(preset.performanceScore) ==> IsSegmentSentence(r[0])) &&
      IsSegmentSentence(r[seg]) &&
      (segment == Home <==> r[seg] == EverydaySentence) &&
      (forall i :: 0 <= i < |r| - own && i != seg ==> !IsSegmentSentence(r[i])) &&
      (hasBudget ==> r[seg + 1] == (if preset.totalPrice <= budget * 0.9 then RoomySentence else FitsSentence)) &&
      (TruthyText(preset.reasoning) ==> r[|r| - 1] == preset.reasoning.value) &&
      r != []
  {
    if TruthyScore(preset.performanceScore) {
      PerformanceSentenceDistinct(fmt0(preset.performanceScore.value));
    }
    assert !IsSegmentSentence(RoomySentence) && !IsSegmentSentence(FitsSentence);
    assert GamingSentence != EverydaySentence && ProSentence != EverydaySentence && BusinessSentence != EverydaySentence;
  }
}
