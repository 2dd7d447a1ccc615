/** Reading storefront items: the field fallback chains, the discount summary of one item
    and the choice of the featured item among several. */
module FsItem {
  import opened JsValue

  // ---------- fallback chains ----------

  /** No key before position `n` names a truthy field of `it`. */
  predicate FalsyBefore(it: JsVal, keys: seq<string>, n: int)
    requires 0 <= n <= |keys|
  {
    forall j :: 0 <= j < n ==> !Truthy(Get(it, keys[j]))
  }

  /** `it?.k1 || it?.k2 || … || fallback`: the first truthy field, else the fallback. */
  function FirstOf(it: JsVal, keys: seq<string>, fallback: JsVal): (r: JsVal)
    ensures FalsyBefore(it, keys, |keys|) ==> r == fallback
    ensures forall i :: 0 <= i < |keys| && FalsyBefore(it, keys, i) && Truthy(Get(it, keys[i])) ==>
              r == Get(it, keys[i])
    ensures r == fallback || exists i :: 0 <= i < |keys| && r == Get(it, keys[i]) && Truthy(r)
    decreases |keys|
  {
    if keys == [] then fallback
    else
      var rest := FirstOf(it, keys[1..], fallback);
      assert forall i :: 1 <= i < |keys| ==> keys[1..][i - 1] == keys[i];
      assert forall i :: 1 <= i < |keys| && FalsyBefore(it, keys, i) ==> FalsyBefore(it, keys[1..], i - 1);
      assert rest != fallback ==> exists i :: 1 <= i < |keys| && rest == Get(it, keys[i]) && Truthy(rest);
      Or(Get(it, keys[0]), rest)
  }

  const PathKeys: seq<string> := ["path", "product", "sku", "id", "code"]
  const NameKeys: seq<string> := ["display", "name", "product", "path"]
  const PriceKeys: seq<string> := ["unitPrice", "price", "priceTotal"]
  const ImageKeys: seq<string> := ["image", "imageUrl", "imageURL"]

  /** `pathOf(it)`: a truthy identifying field, or `""` exactly when there is none. */
  function PathOf(it: JsVal): (r: JsVal)
    ensures Truthy(r) || r == Str("")
    ensures r == Str("") <==> FalsyBefore(it, PathKeys, |PathKeys|)
  {
    FirstOf(it, PathKeys, Str(""))
  }

  /** `nameOf(it)`: never falsy, `"Product"` when the item carries no name. */
  function NameOf(it: JsVal): (r: JsVal)
    ensures Truthy(r)
    ensures FalsyBefore(it, NameKeys, |NameKeys|) ==> r == Str("Product")
  {
    FirstOf(it, NameKeys, Str("Product"))
  }

  /** `it.images[0]` when `images` is an array (`undefined` for an empty one), else `""`. */
  function FirstImage(it: JsVal): JsVal
  {
    var images := Get(it, "images");
    if images.Arr? then (if images.elems == [] then Undefined else images.elems[0]) else Str("")
  }

  /** `imgOf(it)`: a truthy image reference, or `""`. */
  function ImgOf(it: JsVal): (r: JsVal)
    ensures Truthy(r) || r == Str("")
    ensures r == Str("") <==> FalsyBefore(it, ImageKeys, |ImageKeys|) && !Truthy(FirstImage(it))
  {
    Or(FirstOf(it, ImageKeys, FirstImage(it)), Str(""))
  }

  /** `priceOf(it)`: the unit price, the price or the total price text, else `""`. */
  function PriceOf(it: JsVal): (r: JsVal)
    ensures Truthy(r) || r == Str("")
    ensures r == Str("") <==> FalsyBefore(it, PriceKeys, |PriceKeys|)
  {
    FirstOf(it, PriceKeys, Str(""))
  }

  /** `nowValue(it)`: `unitPriceValue ?? priceValue ?? priceTotalValue ?? null`. */
  function NowValue(it: JsVal): JsVal
  {
    Nullish(Get(it, "unitPriceValue"), Nullish(Get(it, "priceValue"), Nullish(Get(it, "priceTotalValue"), Null)))
  }

  // ---------- discount summary ----------

  /** A price text: the item's own text, or a currency amount formatted from a number. */
  datatype PriceText = Plain(v: JsVal) | Currency

  /** `discountInfo(it)`. `NoItem` is the bare `{ onSale: false }` of a falsy item; `priced`
      says whether the numeric current and original values were set. */
  datatype Discount =
    | NoItem
    | Discount(onSale: bool, percent: int, percentText: string,
               currentText: PriceText, originalText: PriceText, appliedNow: bool, priced: bool)

  /** `Number(v) || rest` */
  function NumberOr(v: JsVal, rest: int): int
  {
    var x := ToNumber(v);
    if x.Finite? && x.n != 0 then x.n else rest
  }

  /** The percent of an applied discount: `discountPercentValue`, then
      `discount.data.percentValue`, as numbers, else 0. */
  function PctFromApplied(it: JsVal): int
  {
    NumberOr(Get(it, "discountPercentValue"), NumberOr(Get(Get(Get(it, "discount"), "data"), "percentValue"), 0))
  }

  /** Whether an entry of `discountSet` offers a positive percent. */
  predicate OffersPercent(d: JsVal)
  {
    NumberPositive(Get(d, "percentValue"))
  }

  /** `Number((discountSet.find(d => Number(d?.percentValue) > 0) || {}).percentValue) || 0`: the
      first positive percent on offer, 0 when none is. */
  function FirstOffered(offers: seq<JsVal>): (r: int)
    ensures r >= 0
    ensures r == 0 <==> forall i :: 0 <= i < |offers| ==> !OffersPercent(offers[i])
    ensures r > 0 ==> exists i :: (0 <= i < |offers| && OffersPercent(offers[i]) &&
      ToNumber(Get(offers[i], "percentValue")) == Finite(r) &&
      forall j :: 0 <= j < i ==> !OffersPercent(offers[j]))
  {
    if offers == [] then 0
    else if OffersPercent(offers[0]) then ToNumber(Get(offers[0], "percentValue")).n
    else
      var r := FirstOffered(offers[1..]);
      assert forall i :: 1 <= i < |offers| ==> offers[1..][i - 1] == offers[i];
      r
  }

  /** The percent a ready-but-unapplied discount set offers. */
  function PctFromSet(it: JsVal): int
  {
    var offers := Get(it, "discountSet");
    if offers.Arr? then FirstOffered(offers.elems) else 0
  }

  /** Whether a discount is already applied to the current numeric price. */
  predicate AppliedNow(it: JsVal)
  {
    || NumberPositive(Get(it, "unitDiscountValue"))
    || NumberPositive(Get(it, "discountPercentValue"))
    || Truthy(Get(Get(Get(it, "discount"), "data"), "percentValue"))
  }

  /** `discountInfo(it)`. An applied discount takes its percent from the applied fields,
      otherwise from the discount set; the item is on sale exactly when that percent is
      positive, and then shows `"<pct>%"`. Without a numeric current price, the price texts
      are the item's own price and `""`. */
  function DiscountInfo(it: JsVal): (r: Discount)
    ensures r == NoItem <==> !Truthy(it)
    ensures r.Discount? ==>
      && r.appliedNow == AppliedNow(it)
      && r.percent == (if AppliedNow(it) then PctFromApplied(it) else PctFromSet(it))
      && (r.onSale <==> r.percent > 0)
      && (r.onSale ==> r.percentText == IntToDecimal(r.percent) + "%")
      && (!r.onSale ==> r.percentText == "")
      && (r.priced <==> r.onSale && NowValue(it).Num?)
      && (!r.priced ==> r.currentText == Plain(PriceOf(it)) && r.originalText == Plain(Str("")))
  {
    if !Truthy(it) then NoItem
    else
      var applied := AppliedNow(it);
      var pct := if applied then PctFromApplied(it) else PctFromSet(it);
      var onSale := pct > 0;
      var priced := onSale && NowValue(it).Num?;
      Discount(onSale, pct, if onSale then IntToDecimal(pct) + "%" else "",
               if priced then Currency else Plain(PriceOf(it)),
               if priced then Currency else Plain(Str("")),
               applied, priced)
  }

  /** Whether a summary is on sale; the bare `{ onSale: false }` is not. */
  predicate OnSale(d: Discount)
  {
    d.Discount? && d.onSale
  }

  /** The percent text of an on-sale item reads back as its percent, and is never empty. */
  lemma PercentTextReadsBack(it: JsVal)
    requires OnSale(DiscountInfo(it))
    ensures var d := DiscountInfo(it);
      var t := d.percentText;
      && t != "" && t[|t| - 1] == '%'
      && ParseNumber(t[..|t| - 1]) == Finite(d.percent)
  {
    var d := DiscountInfo(it);
    var t := d.percentText;
    assert t[..|t| - 1] == IntToDecimal(d.percent);
    NumberOfDecimal(d.percent);
  }

  /** A discount-set entry whose percent is not a positive number never puts an item on
      sale by itself: without an applied discount, the first positive entry decides. */
  lemma SetPercentDecides(it: JsVal)
    requires Truthy(it) && !AppliedNow(it) && Get(it, "discountSet").Arr?
    ensures var offers := Get(it, "discountSet").elems;
      OnSale(DiscountInfo(it)) <==> exists i :: 0 <= i < |offers| && OffersPercent(offers[i])
  {
  }

  // ---------- featured item ----------

  /** What the featured choice compares: whether an item is on sale, and its percent. */
  datatype Score = Score(onSale: bool, percent: int)

  function ScoreOf(it: JsVal): Score
  {
    var d := DiscountInfo(it);
    Score(OnSale(d), if d.Discount? then d.percent else 0)
  }

  function Scores(items: seq<JsVal>): (r: seq<Score>)
    ensures |r| == |items| && forall i :: 0 <= i < |items| ==> r[i] == ScoreOf(items[i])
  {
    seq(|items|, i requires 0 <= i < |items| => ScoreOf(items[i]))
  }

  /** Position `i` holds an on-sale entry of greatest percent, and no earlier on-sale entry
      has that percent: what a stable descending sort puts first. */
  predicate IsBest(s: seq<Score>, i: int)
  {
    && 0 <= i < |s| && s[i].onSale
    && (forall j :: 0 <= j < |s| && s[j].onSale ==> s[j].percent <= s[i].percent)
    && (forall j :: 0 <= j < i && s[j].onSale ==> s[j].percent < s[i].percent)
  }

  /** The first entry of `scored` after `scored.sort((a, b) => b.percent - a.percent)`, as a
      position in the unfiltered list. */
  function BestIndex(s: seq<Score>): (r: Option<nat>)
    ensures r.Some? ==> r.value < |s| && s[r.value].onSale
  {
    if s == [] then None
    else
      var b := BestIndex(s[..|s| - 1]);
      var last := |s| - 1;
      if !s[last].onSale then b
      else if b.None? then Some(last)
      else if b.value < |s| && s[last].percent > s[b.value].percent then Some(last)
      else b
  }

  /** The choice is the unique best position, and there is one exactly when something is
      on sale. */
  lemma {:induction false} BestIndexIsBest(s: seq<Score>)
    ensures BestIndex(s).None? <==> forall i :: 0 <= i < |s| ==> !s[i].onSale
    ensures BestIndex(s).Some? ==> IsBest(s, BestIndex(s).value)
  {
    if s != [] {
      var init := s[..|s| - 1];
      BestIndexIsBest(init);
      assert forall i :: 0 <= i < |init| ==> init[i] == s[i];
    }
  }

  /** At most one position is best. */
  lemma BestIsUnique(s: seq<Score>, i: int, j: int)
    requires IsBest(s, i) && IsBest(s, j)
    ensures i == j
  {
  }

  /** `pickFeatured`'s result: the chosen item (`null` for none) and its summary. */
  datatype Featured = Featured(item: JsVal, disc: Discount)

  /** `pickFeatured(items, preferDiscounted)`. An empty or non-array input gives no item;
      when discounts are preferred and some item is on sale, the earliest item of greatest
      percent; otherwise the first item. The summary is always the chosen item's own. */
  function PickFeatured(items: JsVal, preferDiscounted: bool): (r: Featured)
    ensures var arr := ArrayOrEmpty(items);
      && (arr == [] ==> r == Featured(Null, NoItem))
      && (arr != [] ==> r.disc == DiscountInfo(r.item))
      && (arr != [] && preferDiscounted && (exists i :: 0 <= i < |arr| && OnSale(DiscountInfo(arr[i]))) ==>
            exists i :: IsBest(Scores(arr), i) && r.item == arr[i])
      && (arr != [] && (!preferDiscounted || forall i :: 0 <= i < |arr| ==> !OnSale(DiscountInfo(arr[i]))) ==>
            r.item == arr[0])
  {
    var arr := ArrayOrEmpty(items);
    BestIndexIsBest(Scores(arr));
    if arr == [] then Featured(Null, NoItem)
    else
      var best := if preferDiscounted then BestIndex(Scores(arr)) else None;
      var i := if best.Some? then best.value else 0;
      Featured(arr[i], DiscountInfo(arr[i]))
  }
}
