/**
 * The derived values of the quest screen: the progress percentage, the
 * platform colour and link tables, the voucher lookup and the sentinel
 * display rules for promotions ("0") and predicted places ("null").
 */
module JourneyDisplay {
  import opened Wrappers
  import opened JourneyTypes

  /** What `Math.round(completed / total * 100)` evaluates to. */
  datatype Percent = Rounded(value: nat) | NotANumber | Infinity

  /**
   * Integer rounding of 100 * completed / total, halves rounded up as
   * `Math.round` does for non-negative numbers.
   */
  function RoundedPercent(completed: nat, total: nat): (p: nat)
    requires total > 0
    // p is the integer nearest to 100 * completed / total, a tie going up
    ensures 200 * completed - total < 2 * total * p <= 200 * completed + total
  {
    (200 * completed + total) / (2 * total)
  }

  /** calculateProgress: 0 without a quest, else the rounded completion percentage. */
  function CalculateProgress(quest: Option<Quest>, completedTasks: seq<string>): (r: Percent)
    ensures quest.None? ==> r == Rounded(0)
    ensures quest.Some? && |quest.value.objectives| > 0 ==>
      r.Rounded? &&
      200 * |completedTasks| - |quest.value.objectives| < 2 * |quest.value.objectives| * r.value &&
      2 * |quest.value.objectives| * r.value <= 200 * |completedTasks| + |quest.value.objectives|
    ensures quest.Some? && |quest.value.objectives| == 0 ==> !r.Rounded?
  {
    match quest
    case None => Rounded(0)
    case Some(q) =>
      if |q.objectives| > 0 then Rounded(RoundedPercent(|completedTasks|, |q.objectives|))
      else if |completedTasks| == 0 then NotANumber   // 0 / 0
      else Infinity                                  // c / 0 with c > 0
  }

  /** Cancelling a positive factor on both sides of a strict inequality. */
  lemma MulPositiveBelow(n: int, x: int, y: int)
    requires n > 0 && n * x < n * y
    ensures x < y
  {
  }

  /** With no more completed tasks than objectives the percentage lies in 0..100; none done is 0, all done is 100. */
  lemma ProgressBounds(completed: nat, total: nat)
    requires 0 < total && completed <= total
    ensures RoundedPercent(completed, total) <= 100
    ensures completed == 0 ==> RoundedPercent(completed, total) == 0
    ensures completed == total ==> RoundedPercent(completed, total) == 100
  {
    var p := RoundedPercent(completed, total);
    assert 2 * total * p < 2 * total * 101 by {
      assert 200 * completed <= 200 * total;
    }
    MulPositiveBelow(2 * total, p, 101);
    if completed == 0 {
      assert 2 * total * p < 2 * total * 1;
      MulPositiveBelow(2 * total, p, 1);
    }
    if completed == total {
      assert 2 * total * 99 < 2 * total * p;
      MulPositiveBelow(2 * total, 99, p);
    }
  }

  /** Completing more tasks never lowers the percentage. */
  lemma ProgressMonotone(c1: nat, c2: nat, total: nat)
    requires 0 < total && c1 <= c2
    ensures RoundedPercent(c1, total) <= RoundedPercent(c2, total)
  {
    var p1, p2 := RoundedPercent(c1, total), RoundedPercent(c2, total);
    assert 2 * total * p1 < 2 * total * (p2 + 1);
    MulPositiveBelow(2 * total, p1, p2 + 1);
  }

  /** The four platforms the colour and link tables know. */
  const KnownPlatforms: set<string> := {"GoFood", "GoRide", "GoCar", "GoPay"}

  const PlatformColors: map<string, string> := map[
    "GoFood" := "text-red-600 bg-red-50",
    "GoRide" := "text-green-600 bg-green-50",
    "GoCar" := "text-blue-600 bg-blue-50",
    "GoPay" := "text-purple-600 bg-purple-50"]

  const DefaultColor: string := "text-gray-600 bg-gray-50"

  const PlatformUrls: map<string, string> := map[
    "GoFood" := "https://gofood.co.id",
    "GoRide" := "https://gojek.com/goride",
    "GoCar" := "https://gojek.com/gocar",
    "GoPay" := "https://gojek.com/gopay"]

  const DefaultUrl: string := "https://gojek.com"

  /** JavaScript's `value || fallback` on a looked-up string: `undefined` and "" are falsy. */
  function OrElse(value: Option<string>, fallback: string): string {
    if value.Some? && value.value != "" then value.value else fallback
  }

  function Lookup(table: map<string, string>, key: string): Option<string> {
    if key in table then Some(table[key]) else None
  }

  /** getPlatformColor: the table entry, or the gray default for any other platform. */
  function PlatformColor(platform: string): (r: string)
    ensures r == DefaultColor <==> platform !in KnownPlatforms
    ensures platform in KnownPlatforms ==> r == PlatformColors[platform]
  {
    OrElse(Lookup(PlatformColors, platform), DefaultColor)
  }

  /** getPlatformUrl: the table entry, or the generic root link for any other platform. */
  function PlatformUrl(platform: string): (r: string)
    ensures r == DefaultUrl <==> platform !in KnownPlatforms
    ensures platform in KnownPlatforms ==> r == PlatformUrls[platform]
    ensures "https://" <= r
  {
    OrElse(Lookup(PlatformUrls, platform), DefaultUrl)
  }

  /** Different known platforms get different colours and different links. */
  lemma PlatformTablesDistinguish(p1: string, p2: string)
    requires p1 in KnownPlatforms && p2 in KnownPlatforms && p1 != p2
    ensures PlatformColor(p1) != PlatformColor(p2)
    ensures PlatformUrl(p1) != PlatformUrl(p2)
  {
  }

  /** The "no promotion" sentinel of a treatment. */
  const NoTreatment: string := "0"
  /** The "no prediction" sentinel of a predicted place. */
  const NoPlace: string := "null"
  const NoPromoLabel: string := "No promo"

  /** The platforms that carry a treatment in the user context. */
  const TreatedPlatforms: set<string> := {"GoFood", "GoRide", "GoCar"}

  /** The treatment field that belongs to a platform, if any. */
  function TreatmentOf(ctx: UserContext, platform: string): (r: Option<string>)
    ensures r.Some? <==> platform in TreatedPlatforms
  {
    if platform == "GoFood" then Some(ctx.foodTreatment)
    else if platform == "GoRide" then Some(ctx.rideTreatment)
    else if platform == "GoCar" then Some(ctx.carTreatment)
    else None
  }

  /**
   * getVoucherByPlatform: null without a loaded context, for a platform without a
   * treatment, and for the "0" sentinel; otherwise the platform's treatment.
   */
  function VoucherByPlatform(userContext: Option<UserContext>, platform: string): (r: Option<string>)
    ensures r.None? <==>
      userContext.None? || platform !in TreatedPlatforms ||
      TreatmentOf(userContext.value, platform) == Some(NoTreatment)
    ensures r.Some? ==> r.value != NoTreatment && TreatmentOf(userContext.value, platform) == Some(r.value)
  {
    match userContext
    case None => None
    case Some(ctx) =>
      match platform
      case "GoFood" => if ctx.foodTreatment != NoTreatment then Some(ctx.foodTreatment) else None
      case "GoRide" => if ctx.rideTreatment != NoTreatment then Some(ctx.rideTreatment) else None
      case "GoCar" => if ctx.carTreatment != NoTreatment then Some(ctx.carTreatment) else None
      case _ => None
  }

  /** How one treatment is shown in the promotions row: "0" becomes "No promo". */
  function PromotionLabel(treatment: string): (r: string)
    ensures r != NoTreatment
    ensures treatment == NoTreatment ==> r == NoPromoLabel
    ensures treatment != NoTreatment ==> r == treatment
  {
    if treatment != NoTreatment then treatment else NoPromoLabel
  }

  /** renderPromotions: the food, ride and car labels, in that order. */
  function PromotionLabels(ctx: UserContext): (r: seq<string>)
    ensures |r| == 3
    ensures forall i :: 0 <= i < 3 ==> r[i] != NoTreatment
    ensures r[0] == PromotionLabel(ctx.foodTreatment)
    ensures r[1] == PromotionLabel(ctx.rideTreatment)
    ensures r[2] == PromotionLabel(ctx.carTreatment)
  {
    [PromotionLabel(ctx.foodTreatment), PromotionLabel(ctx.rideTreatment), PromotionLabel(ctx.carTreatment)]
  }

  /** The promotion label of a platform is its voucher when there is one, else "No promo". */
  lemma PromotionLabelAgreesWithVoucher(ctx: UserContext, platform: string)
    requires platform in TreatedPlatforms
    ensures PromotionLabel(TreatmentOf(ctx, platform).value) ==
      match VoucherByPlatform(Some(ctx), platform)
      case Some(v) => v
      case None => NoPromoLabel
  {
  }

  /** The position of a platform's row in the favourite places: ride, then car, then food. */
  function PlaceRank(platform: string): nat {
    if platform == "GoRide" then 0 else if platform == "GoCar" then 1 else 2
  }

  /** renderFavoritePlaces: one (platform, place) row per prediction that is not "null", ride, car, food. */
  function FavoritePlaces(ctx: UserContext): (rows: seq<(string, string)>)
    // one row per prediction that is not "null"
    ensures |rows| ==
      (if ctx.ridePredictionPlace != NoPlace then 1 else 0) +
      (if ctx.carPredictionPlace != NoPlace then 1 else 0) +
      (if ctx.foodPredictionPlace != NoPlace then 1 else 0)
    // every row is built from the context
    ensures forall i :: 0 <= i < |rows| ==>
      rows[i] == ("GoRide", ctx.ridePredictionPlace) ||
      rows[i] == ("GoCar", ctx.carPredictionPlace) ||
      rows[i] == ("GoFood", ctx.foodPredictionPlace)
    // in the order ride, car, food
    ensures forall i, j :: 0 <= i < j < |rows| ==> PlaceRank(rows[i].0) < PlaceRank(rows[j].0)
    ensures forall i :: 0 <= i < |rows| ==> rows[i].1 != NoPlace
    ensures ("GoRide", ctx.ridePredictionPlace) in rows <==> ctx.ridePredictionPlace != NoPlace
    ensures ("GoCar", ctx.carPredictionPlace) in rows <==> ctx.carPredictionPlace != NoPlace
    ensures ("GoFood", ctx.foodPredictionPlace) in rows <==> ctx.foodPredictionPlace != NoPlace
  {
    (if ctx.ridePredictionPlace != NoPlace then [("GoRide", ctx.ridePredictionPlace)] else []) +
    (if ctx.carPredictionPlace != NoPlace then [("GoCar", ctx.carPredictionPlace)] else []) +
    (if ctx.foodPredictionPlace != NoPlace then [("GoFood", ctx.foodPredictionPlace)] else [])
  }
}
