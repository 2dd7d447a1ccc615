/** The audio/video storefront layout: its own field helpers and discount summary, the
    featured card it derives from the first product, its buy-now handler, and the handlers
    it hands to the featured banner. */
module LayoutEcommerceAV {
  import opened JsValue
  import FsItem
  import FeaturedBanner
  import FastSpring
  import FsActions

  // ---------- field helpers ----------

  /** The layout's identifying keys: the shared list without `code`. */
  const PathKeysAV: seq<string> := ["path", "product", "sku", "id"]
  const PriceKeysAV: seq<string> := ["price", "priceTotal", "unitPrice"]

  /** The layout's `pathOf(it)`: a truthy `path`, `product`, `sku` or `id`, else `""`. */
  function PathOfAV(it: JsVal): (r: JsVal)
    ensures Truthy(r) || r == Str("")
    ensures r == Str("") <==> FsItem.FalsyBefore(it, PathKeysAV, |PathKeysAV|)
  {
    FsItem.FirstOf(it, PathKeysAV, Str(""))
  }

  /** The layout's `priceOf(it)`: `price`, `priceTotal`, `unitPrice`, then `pricing.price`,
      else `""`. */
  function PriceOfAV(it: JsVal): (r: JsVal)
    ensures Truthy(r) || r == Str("")
    ensures r == Str("") <==>
      FsItem.FalsyBefore(it, PriceKeysAV, |PriceKeysAV|) && !Truthy(Get(Get(it, "pricing"), "price"))
  {
    FsItem.FirstOf(it, PriceKeysAV, Or(Get(Get(it, "pricing"), "price"), Str("")))
  }

  /** The two path helpers agree except that the layout's gives `""` for an item named
      only by its `code`. */
  lemma PathOfAgrees(it: JsVal)
    ensures PathOfAV(it) ==
      (if FsItem.FalsyBefore(it, FsItem.PathKeys, 4) then Str("") else FsItem.PathOf(it))
  {
    var keys := FsItem.PathKeys;
    assert keys[..4] == PathKeysAV;
    assert forall i :: 0 <= i <= 4 ==>
      (FsItem.FalsyBefore(it, keys, i) <==> FsItem.FalsyBefore(it, PathKeysAV, i));
    if !FsItem.FalsyBefore(it, keys, 4) {
      var i :| 0 <= i < 4 && Truthy(Get(it, keys[i])) && FsItem.FalsyBefore(it, keys, i) by {
        FirstTruthy(it, keys, 4);
      }
      assert PathOfAV(it) == Get(it, keys[i]);
      assert FsItem.PathOf(it) == Get(it, keys[i]);
    }
  }

  /** When some of the first `n` keys names a truthy field, there is a first such key. */
  lemma {:induction false} FirstTruthy(it: JsVal, keys: seq<string>, n: nat)
    requires n <= |keys|
    requires !FsItem.FalsyBefore(it, keys, n)
    ensures exists i :: 0 <= i < n && Truthy(Get(it, keys[i])) && FsItem.FalsyBefore(it, keys, i)
  {
    if FsItem.FalsyBefore(it, keys, n - 1) {
      assert Truthy(Get(it, keys[n - 1]));
    } else {
      FirstTruthy(it, keys, n - 1);
    }
  }

  /** An item named only by `code`: the shared helper finds it, the layout's does not. */
  lemma CodeOnlyItemHasNoLayoutPath(it: JsVal)
    requires FsItem.FalsyBefore(it, FsItem.PathKeys, 4) && Truthy(Get(it, "code"))
    ensures PathOfAV(it) == Str("")
    ensures FsItem.PathOf(it) == Get(it, "code")
  {
    PathOfAgrees(it);
    assert FsItem.PathKeys[4] == "code";
  }

  /** The two price helpers read the fields in different orders: with both `price` and
      `unitPrice` set the layout shows `price`, the shared helper `unitPrice`. */
  lemma PriceOrderDiffers(it: JsVal)
    requires Truthy(Get(it, "price")) && Truthy(Get(it, "unitPrice"))
    ensures PriceOfAV(it) == Get(it, "price")
    ensures FsItem.PriceOf(it) == Get(it, "unitPrice")
  {
    assert FsItem.FalsyBefore(it, PriceKeysAV, 0);
    assert FsItem.FalsyBefore(it, FsItem.PriceKeys, 0);
  }

  // ---------- the local discount summary ----------

  /** The layout's discount summary: not on sale, or on sale with a percent text
      (possibly `undefined`), a current and an original price text. */
  datatype SaleInfo = NoSale | Sale(percentText: JsVal, currentText: JsVal, originalText: JsVal)

  /** `typeof v === "number" && v` */
  function NumberOrFalse(v: JsVal): JsVal
  {
    if v.Num? then v else Bool(false)
  }

  /** `Array.isArray(p?.discountSet) && p.discountSet[0]?.percentValue` */
  function FirstSetPercent(p: JsVal): JsVal
  {
    var offers := Get(p, "discountSet");
    if offers.Arr? then (if offers.elems == [] then Undefined else Get(offers.elems[0], "percentValue"))
    else Bool(false)
  }

  /** `percentNum`: a truthy numeric `discountPercentValue`, else a truthy numeric
      `discount.data.percentValue`, else whatever the first `discountSet` entry holds. */
  function PercentNum(p: JsVal): (r: JsVal)
    ensures Truthy(Get(p, "discountPercentValue")) && Get(p, "discountPercentValue").Num? ==>
      r == Get(p, "discountPercentValue")
    ensures (r.Num? && Truthy(r)) || r == FirstSetPercent(p)
  {
    Or(NumberOrFalse(Get(p, "discountPercentValue")),
       Or(NumberOrFalse(Get(Get(Get(p, "discount"), "data"), "percentValue")), FirstSetPercent(p)))
  }

  /** `hasMoneyOff`: a positive numeric unit or total discount. */
  predicate HasMoneyOff(p: JsVal)
  {
    var unit := Get(p, "unitDiscountValue");
    var total := Get(p, "discountTotalValue");
    (unit.Num? && unit.n > 0) || (total.Num? && total.n > 0)
  }

  /** `onSale`: a truthy percent number that is positive, or money off. */
  predicate OnSaleAV(p: JsVal)
  {
    var pn := PercentNum(p);
    (Truthy(pn) && NumberPositive(pn)) || HasMoneyOff(p)
  }

  /** The fields the sale price is read from, and the original price, in order. */
  const CurrentKeysAV: seq<string> := ["total", "unitPrice", "price"]
  const OriginalKeysAV: seq<string> := ["price", "unitPrice"]

  /** The layout's `discountInfo(p)`: the sale price is the first truthy `total`,
      `unitPrice` or `price`, else `""`; the original price is the first truthy `price` or
      `unitPrice`, else the sale price. */
  function DiscountInfoAV(p: JsVal): (r: SaleInfo)
    ensures r.NoSale? <==> !OnSaleAV(p)
    ensures r.Sale? ==> FsItem.FalsyBefore(p, CurrentKeysAV, 3) ==> r.currentText == Str("")
    ensures r.Sale? ==> forall i :: 0 <= i < 3 && FsItem.FalsyBefore(p, CurrentKeysAV, i) && Truthy(Get(p, CurrentKeysAV[i])) ==>
      r.currentText == Get(p, CurrentKeysAV[i])
    ensures r.Sale? ==> FsItem.FalsyBefore(p, OriginalKeysAV, 2) ==> r.originalText == r.currentText
    ensures r.Sale? ==> forall i :: 0 <= i < 2 && FsItem.FalsyBefore(p, OriginalKeysAV, i) && Truthy(Get(p, OriginalKeysAV[i])) ==>
      r.originalText == Get(p, OriginalKeysAV[i])
    ensures r.Sale? ==> Truthy(r.currentText) || r.currentText == Str("")
    ensures r.Sale? ==> (r.originalText == Str("") <==> r.currentText == Str(""))
  {
    if !OnSaleAV(p) then NoSale
    else
      var pn := PercentNum(p);
      var given := Get(p, "discountPercent");
      var percentText :=
        Or(if given.Str? then given else Bool(false),
           if Truthy(pn) then Str(ToStr(pn) + "%") else Undefined);
      var currentText := FsItem.FirstOf(p, CurrentKeysAV, Str(""));
      var originalText := FsItem.FirstOf(p, OriginalKeysAV, Or(currentText, Str("")));
      Sale(percentText, currentText, originalText)
  }

  /** The percent text: a non-empty string `discountPercent` wins; otherwise a truthy
      percent number printed with `%`; otherwise `undefined`. */
  lemma PercentTextChoice(p: JsVal)
    requires OnSaleAV(p)
    ensures var r := DiscountInfoAV(p);
      var given := Get(p, "discountPercent");
      && (given.Str? && given.s != "" ==> r.percentText == given)
      && (!(given.Str? && given.s != "") && Truthy(PercentNum(p)) ==>
            r.percentText == Str(ToStr(PercentNum(p)) + "%"))
      && (!(given.Str? && given.s != "") && !Truthy(PercentNum(p)) ==> r.percentText == Undefined)
  {
  }

  /** A numeric percent printed as the badge text reads back as the same number. */
  lemma PercentTextReadsBackAV(p: JsVal)
    requires OnSaleAV(p) && PercentNum(p).Num? && PercentNum(p).n != 0
    requires !(Get(p, "discountPercent").Str? && Get(p, "discountPercent").s != "")
    ensures var t := DiscountInfoAV(p).percentText;
      && t.Str? && |t.s| >= 1 && t.s[|t.s| - 1] == '%'
      && ParseNumber(t.s[..|t.s| - 1]) == Finite(PercentNum(p).n)
  {
    var n := PercentNum(p).n;
    PercentTextChoice(p);
    var t := DiscountInfoAV(p).percentText;
    assert t.s == IntToDecimal(n) + "%";
    assert t.s[..|t.s| - 1] == IntToDecimal(n);
    NumberOfDecimal(n);
  }

  /** Money off alone puts an item on sale with no percent to show. */
  lemma MoneyOffWithoutPercent(p: JsVal)
    requires HasMoneyOff(p) && !Truthy(PercentNum(p))
    requires !(Get(p, "discountPercent").Str? && Get(p, "discountPercent").s != "")
    ensures DiscountInfoAV(p).Sale? && DiscountInfoAV(p).percentText == Undefined
  {
    PercentTextChoice(p);
  }

  /** A non-positive percent number with no money off leaves the item off sale. */
  lemma NonPositivePercentNotOnSale(p: JsVal)
    requires PercentNum(p).Num? && PercentNum(p).n <= 0 && !HasMoneyOff(p)
    ensures DiscountInfoAV(p) == NoSale
  {
  }

  /** The layout counts money off as a sale; the shared summary only looks at percents, so
      an item with only a unit discount is on sale in one and not in the other. */
  lemma MoneyOffOnlyInLayout()
    ensures var it := Obj([Prop("unitDiscountValue", Num(5))]);
      && DiscountInfoAV(it).Sale?
      && !FsItem.OnSale(FsItem.DiscountInfo(it))
  {
    var it := Obj([Prop("unitDiscountValue", Num(5))]);
    assert Get(it, "unitDiscountValue") == Num(5);
    assert HasMoneyOff(it);
    assert FsItem.AppliedNow(it);
    assert Get(it, "discountPercentValue") == Undefined && Get(it, "discount") == Undefined;
    assert FsItem.PctFromApplied(it) == 0;
  }

  // ---------- the featured card ----------

  /** The layout's featured card: the first product (or `null`), its path, summary, name,
      price text and image. */
  datatype Card = Card(item: JsVal, path: JsVal, disc: SaleInfo, name: JsVal, price: JsVal, image: JsVal)

  /** Lines computing `featured`, `fPath`, `fDisc`, `fName`, `fPrice` and `fImg`. */
  function FeaturedCard(products: JsVal): (r: Card)
    ensures var items := ArrayOrEmpty(products);
      && (items == [] || !Truthy(items[0]) ==>
            r == Card(Null, Str(""), NoSale, Str(""), Str(""), Str("")))
      && (items != [] && Truthy(items[0]) ==>
            && r.item == items[0] && r.path == PathOfAV(items[0]) && r.disc == DiscountInfoAV(items[0])
            && Truthy(r.name) && (Truthy(r.price) || r.price == Str("")))
      && (r.disc.Sale? ==> r.price == r.disc.currentText)
      && (r.disc.NoSale? && Truthy(r.item) ==> r.price == PriceOfAV(r.item))
  {
    var items := ArrayOrEmpty(products);
    var featured := if items == [] then Null else Or(items[0], Null);
    var present := Truthy(featured);
    var disc := if present then DiscountInfoAV(featured) else NoSale;
    var price := if disc.Sale? then disc.currentText else if present then PriceOfAV(featured) else Str("");
    Card(featured,
         if present then PathOfAV(featured) else Str(""),
         disc,
         if present then FsItem.NameOf(featured) else Str(""),
         price,
         if present then FsItem.ImgOf(featured) else Str(""))
  }

  // ---------- handlers ----------

  /** `buyNowHandler`: nothing without a path; the provider's single-select with checkout
      when it is available; else add then checkout. */
  function BuyNow(path: JsVal, hasSelect: bool): (r: seq<FeaturedBanner.Action>)
    ensures !Truthy(path) <==> r == []
    ensures Truthy(path) && hasSelect ==> r == [FeaturedBanner.SelectSingleAndCheckout(path, true)]
    ensures Truthy(path) && !hasSelect ==>
      r == [FeaturedBanner.AddToCart(path), FeaturedBanner.Checkout]
  {
    if !Truthy(path) then [] else BannerBuyNow(path, hasSelect)
  }

  /** The `onBuyNow` handed to the banner: the same choice without the path test. */
  function BannerBuyNow(path: JsVal, hasSelect: bool): (r: seq<FeaturedBanner.Action>)
    ensures hasSelect ==> r == [FeaturedBanner.SelectSingleAndCheckout(path, true)]
    ensures !hasSelect ==> r == [FeaturedBanner.AddToCart(path), FeaturedBanner.Checkout]
  {
    if hasSelect then [FeaturedBanner.SelectSingleAndCheckout(path, true)]
    else [FeaturedBanner.AddToCart(path), FeaturedBanner.Checkout]
  }

  /** The `onAdd` handed to the banner. */
  function BannerAdd(path: JsVal): (r: seq<FeaturedBanner.Action>)
    ensures r == [FeaturedBanner.AddToCart(path)]
  {
    [FeaturedBanner.AddToCart(path)]
  }

  /** The layout's own buy-now handler is the banner's one guarded by the path test. */
  lemma BuyNowGuardsBanner(path: JsVal, hasSelect: bool)
    ensures BuyNow(path, hasSelect) == if Truthy(path) then BannerBuyNow(path, hasSelect) else []
  {
  }

  /** The layout's `onAdd` replaces the banner's shared add with the provider's own: on a
      truthy path the two do the same, but on a falsy one the shared wrapper stays silent
      while the provider alerts that there is no path. */
  lemma AddOverrideDiffers(v: FeaturedBanner.View, items: seq<JsVal>, w: FastSpring.Widget)
    ensures FeaturedBanner.AddClick(false, None, v) == Some(FeaturedBanner.SharedAdd(v.path))
    ensures BannerAdd(v.path) == [FeaturedBanner.AddToCart(v.path)]
    ensures Truthy(v.path) ==>
      FsActions.SharedAdd(v.path, true, items, w).effects == FastSpring.AddPlan(FastSpring.ProductPathOf(v.path), items, 1, w)
    ensures !Truthy(v.path) ==>
      && FsActions.SharedAdd(v.path, true, items, w) == FsActions.Click([], false)
      && FastSpring.AddPlan(FastSpring.ProductPathOf(v.path), items, 1, w) == [FastSpring.Alert(FastSpring.NoPathMessage)]
  {
    if !Truthy(v.path) {
      FalsyHasNoPath(v.path);
    }
  }

  /** A falsy value names no product. */
  lemma FalsyHasNoPath(p: JsVal)
    requires !Truthy(p)
    ensures FastSpring.ProductPathOf(p) == ""
  {
    assert FsItem.FalsyBefore(p, FsItem.PathKeys, |FsItem.PathKeys|);
  }

  /** The layout's `onBuyNow` replaces the banner's shared single-select with the
      provider's: the shared one resets, pushes and opens the checkout within the click,
      or alerts when there is no builder, while the provider's resets and leaves the
      command in its pending slot for the cart callbacks, and without a builder does so
      silently. */
  lemma BuyOverrideDiffers(v: FeaturedBanner.View, pending: Option<FastSpring.Pending>, w: FastSpring.Widget)
    requires Truthy(v.path) && FastSpring.ProductPathOf(v.path) != ""
    requires FastSpring.ResetKind !in w.failing
    ensures FeaturedBanner.BuyClick(None, v) == FeaturedBanner.SharedSelectAndCheckout(v.path)
    ensures BannerBuyNow(v.path, true) == [FeaturedBanner.SelectSingleAndCheckout(v.path, true)]
    ensures var p := FastSpring.ProductPathOf(v.path);
      FastSpring.SelectPlan(pending, p, true, w) ==
        FastSpring.Selection(Some(FastSpring.Pending(p, false, true)), FastSpring.Send(w, FastSpring.Reset), false)
    ensures w.present && w.failing == {} ==>
      FsActions.SharedSelect(v.path, w).effects == [FastSpring.Sent(FastSpring.Reset), FastSpring.Sent(FastSpring.Push(ToStr(v.path), 1)),
         FastSpring.Sent(FastSpring.Checkout)]
    ensures !w.present ==>
      FsActions.SharedSelect(v.path, w).effects == [FastSpring.Alert(FsActions.FlowNotReadyMessage)]
  {
    FsActions.SharedSelectFlow(v.path, w);
    ProviderSelectSchedules(pending, FastSpring.ProductPathOf(v.path), w);
  }

  lemma ProviderSelectSchedules(pending: Option<FastSpring.Pending>, p: string, w: FastSpring.Widget)
    requires p != "" && FastSpring.ResetKind !in w.failing
    ensures FastSpring.SelectPlan(pending, p, true, w) ==
      FastSpring.Selection(Some(FastSpring.Pending(p, false, true)), FastSpring.Send(w, FastSpring.Reset), false)
  {
  }

  /** The banner is mounted when it is switched on and there are products. */
  predicate BannerMounted(showBanner: bool, products: JsVal)
  {
    showBanner && |ArrayOrEmpty(products)| > 0
  }

  /** A mounted banner over truthy products always shows an item. */
  lemma MountedBannerRenders(showBanner: bool, products: JsVal)
    requires BannerMounted(showBanner, products)
    requires forall i :: 0 <= i < |ArrayOrEmpty(products)| ==> Truthy(ArrayOrEmpty(products)[i])
    ensures FeaturedBanner.Renders(true, FeaturedBanner.BannerView(Undefined, products, true, Undefined))
  {
    var arr := ArrayOrEmpty(products);
    var chosen := FeaturedBanner.Chosen(Undefined, products, true);
    assert chosen == FsItem.PickFeatured(products, true);
    if exists i :: 0 <= i < |arr| && FsItem.OnSale(FsItem.DiscountInfo(arr[i])) {
      var i :| FsItem.IsBest(FsItem.Scores(arr), i) && chosen.item == arr[i];
      assert Truthy(arr[i]);
    } else {
      assert Truthy(arr[0]);
    }
    FeaturedBanner.RendersIffChosen(true, Undefined, products, true, Undefined);
  }
}
