/** The featured-product banner: which item it shows and how, which text colour sits on
    its accent, and what its buttons do. */
module FeaturedBanner {
  import opened JsValue
  import FsItem

  // ---------- readable text on a colour ----------

  predicate IsHexDigit(c: char)
  {
    '0' <= c <= '9' || 'a' <= c <= 'f' || 'A' <= c <= 'F'
  }

  function HexDigitValue(c: char): (r: nat)
    requires IsHexDigit(c)
    ensures r < 16
  {
    if '0' <= c <= '9' then c as int - '0' as int
    else if 'a' <= c <= 'f' then c as int - 'a' as int + 10
    else c as int - 'A' as int + 10
  }

  /** `/^[0-9a-fA-F]{6}$/` */
  predicate IsHexText(v: string)
  {
    |v| == 6 && forall i :: 0 <= i < 6 ==> IsHexDigit(v[i])
  }

  /** The text `readableText` tests: the argument (`"#000000"` when it is missing), as a
      string, without its first `#`, with a three-digit form doubled digit by digit. */
  function ReadableInput(hex: JsVal): string
  {
    var arg := if hex == Undefined then Str("#000000") else hex;
    var h := RemoveFirst(ToStr(Or(arg, Str(""))), '#');
    if |h| == 3 then [h[0], h[0], h[1], h[1], h[2], h[2]] else h
  }

  /** `parseInt(v, 16)` for a text of hex digits. */
  function HexValue(v: string): nat
    requires forall i :: 0 <= i < |v| ==> IsHexDigit(v[i])
  {
    if v == [] then 0 else HexValue(v[..|v| - 1]) * 16 + HexDigitValue(v[|v| - 1])
  }

  /** `(r * 299 + g * 587 + b * 114)`, with the channels taken as `readableText` does:
      `(n >> 16) & 255`, `(n >> 8) & 255` and `n & 255` of a non-negative `n` below 2^24. */
  function Weighted(n: nat): nat
  {
    299 * ((n / 65536) % 256) + 587 * ((n / 256) % 256) + 114 * (n % 256)
  }

  /** `readableText(hex)`: black text on a light colour, white on a dark one, and black
      when the colour cannot be read. `yiq >= 128` is `Weighted(n) >= 128000`. */
  function ReadableText(hex: JsVal): (r: string)
    ensures r == "#000" || r == "#fff"
  {
    var v := ReadableInput(hex);
    if !IsHexText(v) then "#000"
    else if Weighted(HexValue(v)) >= 128000 then "#000"
    else "#fff"
  }

  /** The value of the two hex digits at `i` and `i + 1`. */
  function Pair(v: string, i: nat): nat
    requires i + 1 < |v| && IsHexDigit(v[i]) && IsHexDigit(v[i + 1])
  {
    16 * HexDigitValue(v[i]) + HexDigitValue(v[i + 1])
  }

  lemma SixDigits(v: string)
    requires IsHexText(v)
    ensures HexValue(v) == Pair(v, 0) * 65536 + Pair(v, 2) * 256 + Pair(v, 4)
  {
    var d0, d1, d2 := HexDigitValue(v[0]), HexDigitValue(v[1]), HexDigitValue(v[2]);
    var d3, d4, d5 := HexDigitValue(v[3]), HexDigitValue(v[4]), HexDigitValue(v[5]);
    assert v[..1][..0] == [] && v[..1][0] == v[0];
    assert HexValue(v[..1]) == d0;
    assert v[..2][..1] == v[..1] && v[..2][1] == v[1];
    assert HexValue(v[..2]) == d0 * 16 + d1;
    assert v[..3][..2] == v[..2] && v[..3][2] == v[2];
    assert HexValue(v[..3]) == (d0 * 16 + d1) * 16 + d2;
    assert v[..4][..3] == v[..3] && v[..4][3] == v[3];
    assert HexValue(v[..4]) == ((d0 * 16 + d1) * 16 + d2) * 16 + d3;
    assert v[..5][..4] == v[..4] && v[..5][4] == v[4];
    assert HexValue(v[..5]) == (((d0 * 16 + d1) * 16 + d2) * 16 + d3) * 16 + d4;
    assert v[..5] == v[..|v| - 1];
  }

  lemma Channels(a: nat, b: nat, c: nat)
    requires a < 256 && b < 256 && c < 256
    ensures var n := a * 65536 + b * 256 + c;
      (n / 65536) % 256 == a && (n / 256) % 256 == b && n % 256 == c
  {
    var n := a * 65536 + b * 256 + c;
    assert n / 256 == a * 256 + b;
    assert n / 65536 == a;
  }

  /** The shifts and masks of a six-digit colour's value read its three digit pairs. */
  lemma WeightedPairs(v: string)
    requires IsHexText(v)
    ensures Weighted(HexValue(v)) == 299 * Pair(v, 0) + 587 * Pair(v, 2) + 114 * Pair(v, 4)
  {
    SixDigits(v);
    Channels(Pair(v, 0), Pair(v, 2), Pair(v, 4));
  }

  /** The shifts and masks read the red, green and blue digit pairs, so the text colour is
      decided by the usual YIQ brightness of the colour: white exactly when the colour is
      readable and its brightness is below 128. */
  lemma ReadableTextMeaning(hex: JsVal)
    ensures var v := ReadableInput(hex);
      ReadableText(hex) == "#fff" <==>
        IsHexText(v) && 299 * Pair(v, 0) + 587 * Pair(v, 2) + 114 * Pair(v, 4) < 128000
  {
    var v := ReadableInput(hex);
    if IsHexText(v) {
      WeightedPairs(v);
    }
  }

  /** A three-digit colour gets the same text colour as its six-digit spelling. */
  lemma ShortColourSameText(x: string)
    requires |x| == 3 && '#' !in x
    ensures ReadableText(Str("#" + x)) == ReadableText(Str("#" + [x[0], x[0], x[1], x[1], x[2], x[2]]))
  {
    var long := [x[0], x[0], x[1], x[1], x[2], x[2]];
    assert ("#" + x)[0] == '#' && ("#" + x)[1..] == x;
    assert ("#" + long)[0] == '#' && ("#" + long)[1..] == long;
  }

  /** A `#` followed by six hex digits is read as those digits. */
  lemma HashedColourText(v: string)
    requires IsHexText(v)
    ensures ReadableText(Str(['#'] + v)) ==
      if 299 * Pair(v, 0) + 587 * Pair(v, 2) + 114 * Pair(v, 4) < 128000 then "#fff" else "#000"
  {
    assert (['#'] + v)[0] == '#' && (['#'] + v)[1..] == v;
    assert ReadableInput(Str(['#'] + v)) == v;
    WeightedPairs(v);
  }

  /** Without an argument the colour is black, which takes white text. */
  lemma MissingColourTakesWhite()
    ensures ReadableText(Undefined) == "#fff"
  {
    var black := "000000";
    assert IsHexText(black);
    HashedColourText(black);
    assert Pair(black, 0) == 0 && Pair(black, 2) == 0 && Pair(black, 4) == 0;
    assert Str(['#'] + black) == Str("#000000");
  }

  /** The banner's default accent `#06b6d4` takes black text. */
  lemma DefaultAccentTakesBlack()
    ensures ReadableText(Str("#06b6d4")) == "#000"
  {
    var accent := "06b6d4";
    assert IsHexText(accent);
    HashedColourText(accent);
    assert Pair(accent, 0) == 6 && Pair(accent, 2) == 182 && Pair(accent, 4) == 212;
    assert ['#'] + accent == "#06b6d4";
  }

  // ---------- the banner's content ----------

  /** What the banner shows: the item, its discount summary, its path, name, image and
      price, and the badge. */
  datatype View = View(item: JsVal, disc: FsItem.Discount, path: JsVal, name: JsVal, image: JsVal,
                       price: FsItem.PriceText, badge: JsVal)

  /** An explicit `item` wins over the list; otherwise `pickFeatured(items, preferDiscounted)`. */
  function Chosen(item: JsVal, items: JsVal, preferDiscounted: bool): (r: FsItem.Featured)
    ensures Truthy(item) ==> r.item == item && r.disc == FsItem.DiscountInfo(item)
    ensures !Truthy(item) ==> r == FsItem.PickFeatured(items, preferDiscounted)
  {
    if Truthy(item) then FsItem.Featured(item, FsItem.DiscountInfo(item)) else FsItem.PickFeatured(items, preferDiscounted)
  }

  /** The banner's `useMemo`: blanks when nothing is chosen; otherwise the chosen item's
      fields, its sale price when on sale, and a `SALE` badge when on sale. */
  function BannerView(item: JsVal, items: JsVal, preferDiscounted: bool, badgeLabel: JsVal): (r: View)
    ensures var c := Chosen(item, items, preferDiscounted);
      !Truthy(c.item) ==> r.item == Null && r.disc == FsItem.NoItem && r.path == Str("")
    ensures var c := Chosen(item, items, preferDiscounted);
      Truthy(c.item) ==> r.item == c.item && r.disc == c.disc && r.path == FsItem.PathOf(c.item)
                         && r.name == FsItem.NameOf(c.item) && r.image == FsItem.ImgOf(c.item)
  {
    ViewOf(Chosen(item, items, preferDiscounted), badgeLabel)
  }

  function ViewOf(chosen: FsItem.Featured, badgeLabel: JsVal): View
  {
    var it := chosen.item;
    if !Truthy(it) then
      View(Null, FsItem.NoItem,
           Str(""), Str(""), Str(""), FsItem.Plain(Str("")), Str(""))
    else
      var onSale := FsItem.OnSale(chosen.disc);
      var price := if onSale then chosen.disc.currentText else FsItem.Plain(FsItem.PriceOf(it));
      var badge :=
        if onSale then (if chosen.disc.percentText != "" then Str("SALE " + chosen.disc.percentText) else Str("SALE"))
        else Or(badgeLabel, Str(""));
      View(it, chosen.disc, FsItem.PathOf(it), FsItem.NameOf(it), FsItem.ImgOf(it), price, badge)
  }

  /** Whatever is chosen carries its own discount summary. */
  lemma ChosenSummary(item: JsVal, items: JsVal, preferDiscounted: bool)
    requires Truthy(Chosen(item, items, preferDiscounted).item)
    ensures var c := Chosen(item, items, preferDiscounted); c.disc == FsItem.DiscountInfo(c.item)
  {
    if !Truthy(item) {
      assert ArrayOrEmpty(items) != [];
    }
  }

  /** The badge of a chosen item on sale always names its percent, which reads back as
      the discount; the bare `SALE` never shows. Off sale, the caller's label (or nothing)
      shows. The price is the sale price exactly when on sale. */
  lemma BadgeNamesPercent(item: JsVal, items: JsVal, preferDiscounted: bool, badgeLabel: JsVal)
    requires Truthy(Chosen(item, items, preferDiscounted).item)
    ensures var v := BannerView(item, items, preferDiscounted, badgeLabel);
      && v.disc == FsItem.DiscountInfo(v.item)
      && (FsItem.OnSale(v.disc) ==>
            && v.badge == Str("SALE " + v.disc.percentText)
            && v.badge != Str("SALE")
            && v.price == v.disc.currentText
            && ParseNumber(v.disc.percentText[..|v.disc.percentText| - 1]) == Finite(v.disc.percent))
      && (!FsItem.OnSale(v.disc) ==> v.badge == Or(badgeLabel, Str("")) && v.price == FsItem.Plain(FsItem.PriceOf(v.item)))
  {
    var chosen := Chosen(item, items, preferDiscounted);
    ChosenSummary(item, items, preferDiscounted);
    ChosenBadge(chosen, badgeLabel);
  }

  lemma ChosenBadge(chosen: FsItem.Featured, badgeLabel: JsVal)
    requires Truthy(chosen.item) && chosen.disc == FsItem.DiscountInfo(chosen.item)
    ensures var v := ViewOf(chosen, badgeLabel);
      && v.item == chosen.item && v.disc == chosen.disc
      && (FsItem.OnSale(v.disc) ==>
            && v.badge == Str("SALE " + v.disc.percentText)
            && v.badge != Str("SALE")
            && v.price == v.disc.currentText
            && ParseNumber(v.disc.percentText[..|v.disc.percentText| - 1]) == Finite(v.disc.percent))
      && (!FsItem.OnSale(v.disc) ==> v.badge == Or(badgeLabel, Str("")) && v.price == FsItem.Plain(FsItem.PriceOf(v.item)))
  {
    if FsItem.OnSale(chosen.disc) {
      FsItem.PercentTextReadsBack(chosen.item);
      var t := chosen.disc.percentText;
      assert |"SALE " + t| > |"SALE"|;
    }
  }

  /** `!visible` or (`!pickedItem && !pickedName`) renders nothing. */
  predicate Renders(visible: bool, v: View)
  {
    visible && (Truthy(v.item) || Truthy(v.name))
  }

  /** The name test is redundant: every chosen item has a name, so the banner shows
      exactly when it is visible and an item was chosen. */
  lemma RendersIffChosen(visible: bool, item: JsVal, items: JsVal, preferDiscounted: bool, badgeLabel: JsVal)
    ensures Renders(visible, BannerView(item, items, preferDiscounted, badgeLabel)) <==>
      visible && Truthy(Chosen(item, items, preferDiscounted).item)
  {
  }

  /** `disc.onSale && disc.originalText`: the struck-through original price. */
  predicate ShowsOriginal(v: View)
  {
    FsItem.OnSale(v.disc) && (v.disc.originalText.Currency? || Truthy(v.disc.originalText.v))
  }

  /** The original price is struck through exactly when the sale has a numeric current
      price to format. */
  lemma OriginalShownWhenPriced(item: JsVal, items: JsVal, preferDiscounted: bool, badgeLabel: JsVal)
    requires Truthy(Chosen(item, items, preferDiscounted).item)
    ensures var v := BannerView(item, items, preferDiscounted, badgeLabel);
      ShowsOriginal(v) <==> v.disc.Discount? && v.disc.priced
  {
    ChosenSummary(item, items, preferDiscounted);
  }

  // ---------- the buttons ----------

  /** A click: one of the provider's actions, one of the shared fallback actions, or a
      handler the caller passed. */
  datatype Action = AddToCart(path: JsVal) | SelectSingleAndCheckout(path: JsVal, doCheckout: bool)
                  | Checkout | SharedAdd(path: JsVal) | SharedSelectAndCheckout(path: JsVal)
                  | Handler(name: string, path: JsVal)

  /** The add button, hidden when only the primary button is wanted; a missing `onAdd`
      falls back to the shared `addToCart` wrapper. */
  function AddClick(onlyPrimary: bool, onAdd: Option<string>, v: View): (r: Option<Action>)
    ensures onlyPrimary <==> r.None?
    ensures !onlyPrimary && onAdd.None? ==> r == Some(SharedAdd(v.path))
    ensures !onlyPrimary && onAdd.Some? ==> r == Some(Handler(onAdd.value, v.path))
  {
    if onlyPrimary then None
    else Some(if onAdd.Some? then Handler(onAdd.value, v.path) else SharedAdd(v.path))
  }

  /** The buy button; a missing `onBuyNow` falls back to the shared single-select wrapper,
      which always opens the checkout. */
  function BuyClick(onBuyNow: Option<string>, v: View): (r: Action)
    ensures onBuyNow.None? ==> r == SharedSelectAndCheckout(v.path)
    ensures onBuyNow.Some? ==> r == Handler(onBuyNow.value, v.path)
  {
    if onBuyNow.Some? then Handler(onBuyNow.value, v.path) else SharedSelectAndCheckout(v.path)
  }
}
