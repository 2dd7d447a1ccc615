/** The storefront provider: cart payload normalisation, the widget calls it makes for the
    add, forced-add, single-select and checkout actions, the one-slot pending command that
    the data callback drives, the script status, and the theme. */
module FastSpring {
  import opened JsValue
  import FsItem
  import ConfigUrl

  // ---------- industry themes ----------

  function ThemeObject(primary: string, accent: string, nav: string, background: string, text: string): JsVal
  {
    Obj([Prop("primary", Str(primary)), Prop("accent", Str(accent)), Prop("nav", Str(nav)),
         Prop("background", Str(background)), Prop("text", Str(text))])
  }

  lemma ThemeObjectUnique(primary: string, accent: string, nav: string, background: string, text: string)
    ensures UniqueKeys(ThemeObject(primary, accent, nav, background, text).props)
  {
  }

  /** `INDUSTRY_THEMES[key]`, for its own keys. */
  function IndustryTheme(key: string): Option<JsVal>
  {
    if key == "gaming" then Some(ThemeObject("#0b1020", "#22d3ee", "#0b1020", "#ffffff", "#0f172a"))
    else if key == "saas" then Some(ThemeObject("#0f172a", "#6366f1", "#0f172a", "#ffffff", "#0f172a"))
    else if key == "fintech" then Some(ThemeObject("#0b132b", "#2ec4b6", "#0b132b", "#ffffff", "#0f172a"))
    else if key == "retail" then Some(ThemeObject("#1f2937", "#f59e0b", "#1f2937", "#ffffff", "#0f172a"))
    else if key == "default" then Some(DefaultTheme())
    else None
  }

  function DefaultTheme(): JsVal
  {
    ThemeObject("#0f172a", "#22c55e", "#0f172a", "#ffffff", "#0f172a")
  }

  /** `INDUSTRY_THEMES[industry] || INDUSTRY_THEMES.default`; the key is `String(industry)`. */
  function ThemeFor(industry: JsVal): (r: JsVal)
    ensures IndustryTheme(ToStr(industry)).Some? ==> r == IndustryTheme(ToStr(industry)).value
    ensures IndustryTheme(ToStr(industry)).None? ==> r == DefaultTheme()
    ensures r.Obj? && UniqueKeys(r.props)
  {
    var t := IndustryTheme(ToStr(industry));
    ThemeObjectUnique("#0b1020", "#22d3ee", "#0b1020", "#ffffff", "#0f172a");
    ThemeObjectUnique("#0f172a", "#6366f1", "#0f172a", "#ffffff", "#0f172a");
    ThemeObjectUnique("#0b132b", "#2ec4b6", "#0b132b", "#ffffff", "#0f172a");
    ThemeObjectUnique("#1f2937", "#f59e0b", "#1f2937", "#ffffff", "#0f172a");
    ThemeObjectUnique("#0f172a", "#22c55e", "#0f172a", "#ffffff", "#0f172a");
    if t.Some? then t.value else DefaultTheme()
  }

  /** `theme`: the industry's theme overlaid with the palette, `{ ...base, ...palette }`. */
  function Theme(industry: JsVal, palette: JsVal): (r: JsVal)
    ensures r.Obj? && UniqueKeys(r.props)
  {
    SpreadUnique(ThemeFor(industry), palette);
    Spread(ThemeFor(industry), palette)
  }

  /** A palette member, even one holding `undefined`, replaces the theme's; a member the
      palette lacks comes from the industry's theme. */
  lemma ThemeMember(industry: JsVal, palette: JsVal, k: string)
    requires palette.Obj? && UniqueKeys(palette.props)
    ensures Get(Theme(industry, palette), k) ==
      if HasKey(palette.props, k) then Get(palette, k) else Get(ThemeFor(industry), k)
  {
    GetSpread(ThemeFor(industry), palette, k);
  }

  /** Two of the industries the codec knows have no theme of their own and fall back to
      the default theme. */
  lemma MobileAndEcommerceUseDefault()
    ensures ThemeFor(Str("mobile")) == DefaultTheme()
    ensures ThemeFor(Str("ecommerce")) == DefaultTheme()
  {
  }

  // ---------- cart payloads ----------

  /** `Number(it?.quantity) || 1` */
  function QtyOf(it: JsVal): (r: int)
    ensures r != 0
    ensures ToNumber(Get(it, "quantity")).Finite? && ToNumber(Get(it, "quantity")).n != 0 ==>
      r == ToNumber(Get(it, "quantity")).n
  {
    var q := ToNumber(Get(it, "quantity"));
    if q.Finite? && q.n != 0 then q.n else 1
  }

  /** A missing or zero quantity counts as one. */
  lemma MissingQuantityIsOne(it: JsVal)
    requires Get(it, "quantity") == Undefined || Get(it, "quantity") == Num(0)
    ensures QtyOf(it) == 1
  {
  }

  function SumQty(items: seq<JsVal>): int
  {
    if items == [] then 0 else SumQty(items[..|items| - 1]) + QtyOf(items[|items| - 1])
  }

  lemma {:induction false} SumQtyAppend(a: seq<JsVal>, b: seq<JsVal>)
    ensures SumQty(a + b) == SumQty(a) + SumQty(b)
    decreases |b|
  {
    if b != [] {
      assert (a + b)[..|a + b| - 1] == a + b[..|b| - 1];
      assert (a + b)[|a + b| - 1] == b[|b| - 1];
      SumQtyAppend(a, b[..|b| - 1]);
    } else {
      assert a + b == a;
    }
  }

  /** `Array.isArray(g?.items) ? g.items : []` */
  function GroupItems(g: JsVal): seq<JsVal>
  {
    ArrayOrEmpty(Get(g, "items"))
  }

  predicate IsSelected(it: JsVal)
  {
    Truthy(Get(it, "selected"))
  }

  /** The selected items of one list, in order. */
  function SelectedOf(items: seq<JsVal>): (r: seq<JsVal>)
    ensures forall x :: x in r <==> x in items && IsSelected(x)
  {
    if items == [] then []
    else
      var last := items[|items| - 1];
      var init := SelectedOf(items[..|items| - 1]);
      assert items == items[..|items| - 1] + [last];
      init + (if IsSelected(last) then [last] else [])
  }

  /** The selected items of every group, group by group. */
  function Selected(groups: seq<JsVal>): seq<JsVal>
  {
    if groups == [] then [] else Selected(groups[..|groups| - 1]) + SelectedOf(GroupItems(groups[|groups| - 1]))
  }

  /** An item is in the legacy cart exactly when some group lists it as selected. */
  lemma {:induction false} SelectedMembers(groups: seq<JsVal>, x: JsVal)
    ensures x in Selected(groups) <==> IsSelected(x) && exists g :: g in groups && x in GroupItems(g)
  {
    if groups != [] {
      var init := groups[..|groups| - 1];
      var last := groups[|groups| - 1];
      SelectedMembers(init, x);
      assert groups == init + [last];
      if IsSelected(x) && exists g :: g in groups && x in GroupItems(g) {
        var g :| g in groups && x in GroupItems(g);
        if g != last {
          assert g in init;
        }
      }
    }
  }

  /** `cartItemsArray(payload)`: the v1 `items` verbatim when it is an array, otherwise
      the selected items of the legacy groups. */
  function CartItemsOf(payload: JsVal): seq<JsVal>
  {
    var items := Get(payload, "items");
    if items.Arr? then items.elems else Selected(ArrayOrEmpty(Get(payload, "groups")))
  }

  /** `cartItemsArray`, with its loop over the legacy groups. */
  method CartItemsArray(payload: JsVal) returns (out: seq<JsVal>)
    ensures out == CartItemsOf(payload)
  {
    var items := Get(payload, "items");
    if items.Arr? {
      return items.elems;
    }
    out := [];
    var groups := ArrayOrEmpty(Get(payload, "groups"));
    var i := 0;
    while i < |groups|
      invariant 0 <= i <= |groups|
      invariant out == Selected(groups[..i])
    {
      var gItems := GroupItems(groups[i]);
      var j := 0;
      while j < |gItems|
        invariant 0 <= j <= |gItems|
        invariant out == Selected(groups[..i]) + SelectedOf(gItems[..j])
      {
        if IsSelected(gItems[j]) {
          out := out + [gItems[j]];
        }
        assert gItems[..j + 1][..j] == gItems[..j];
        j := j + 1;
      }
      assert gItems[..j] == gItems;
      assert groups[..i + 1][..i] == groups[..i];
      i := i + 1;
    }
    assert groups[..i] == groups;
  }

  /** The `reduce` over the v1 items: their quantities summed. */
  method SumItemQty(items: seq<JsVal>) returns (total: int)
    ensures total == SumQty(items)
  {
    total := 0;
    var k := 0;
    while k < |items|
      invariant 0 <= k <= |items|
      invariant total == SumQty(items[..k])
    {
      assert items[..k + 1][..k] == items[..k];
      total := total + QtyOf(items[k]);
      k := k + 1;
    }
    assert items[..k] == items;
  }

  /** `computeCartQty`: the v1 items are summed by `reduce`, the legacy groups by nested
      loops; either way the quantity of every cart item, a missing or zero quantity
      counting as one. */
  method ComputeCartQty(payload: JsVal) returns (total: int)
    ensures total == SumQty(CartItemsOf(payload))
  {
    var items := Get(payload, "items");
    if items.Arr? {
      total := SumItemQty(items.elems);
      return;
    }
    total := SumSelectedQty(ArrayOrEmpty(Get(payload, "groups")));
  }

  /** The legacy loop of `computeCartQty`: the quantities of the selected items. */
  method SumSelectedQty(groups: seq<JsVal>) returns (total: int)
    ensures total == SumQty(Selected(groups))
  {
    total := 0;
    var i := 0;
    while i < |groups|
      invariant 0 <= i <= |groups|
      invariant total == SumQty(Selected(groups[..i]))
    {
      var gItems := GroupItems(groups[i]);
      var groupTotal := SumGroupSelectedQty(gItems);
      assert groups[..i + 1][..i] == groups[..i];
      SumQtyAppend(Selected(groups[..i]), SelectedOf(gItems));
      total := total + groupTotal;
      i := i + 1;
    }
    assert groups[..i] == groups;
  }

  /** The inner loop of `computeCartQty` over one group's items. */
  method SumGroupSelectedQty(items: seq<JsVal>) returns (total: int)
    ensures total == SumQty(SelectedOf(items))
  {
    total := 0;
    var j := 0;
    while j < |items|
      invariant 0 <= j <= |items|
      invariant total == SumQty(SelectedOf(items[..j]))
    {
      SelectedQtyStep(items, j);
      if IsSelected(items[j]) {
        total := total + QtyOf(items[j]);
      }
      j := j + 1;
    }
    assert items[..j] == items;
  }

  /** One more item adds its quantity to the selected sum exactly when it is selected. */
  lemma SelectedQtyStep(items: seq<JsVal>, j: int)
    requires 0 <= j < |items|
    ensures SumQty(SelectedOf(items[..j + 1])) ==
      SumQty(SelectedOf(items[..j])) + (if IsSelected(items[j]) then QtyOf(items[j]) else 0)
  {
    assert items[..j + 1][..j] == items[..j];
    var sel := SelectedOf(items[..j]);
    if IsSelected(items[j]) {
      assert SelectedOf(items[..j + 1]) == sel + [items[j]];
      assert (sel + [items[j]])[..|sel|] == sel;
    } else {
      assert SelectedOf(items[..j + 1]) == sel;
    }
  }

  const MatchKeys: seq<string> := ["path", "product", "sku", "id"]

  /** `itemMatchesPath(it, path)`: the item's trimmed identifier equals the trimmed path. */
  predicate ItemMatchesPath(it: JsVal, path: string)
  {
    Trim(ToStr(FsItem.FirstOf(it, MatchKeys, Str("")))) == Trim(path)
  }

  /** Surrounding white space on the target makes no difference. */
  lemma MatchIgnoresSpaces(it: JsVal, path: string)
    ensures ItemMatchesPath(it, path) <==> ItemMatchesPath(it, Trim(path))
  {
    TrimIdempotent(path);
  }

  /** An item matches the path it carries. */
  lemma ItemMatchesOwnPath(it: JsVal, p: string)
    requires Get(it, "path") == Str(p) && p != ""
    ensures ItemMatchesPath(it, p)
  {
    assert Truthy(Get(it, MatchKeys[0]));
  }

  /** `productPathOf(it)`: a non-empty string argument is the path itself; otherwise the
      first truthy identifying field, kept only when it is a string; trimmed either way. */
  function ProductPathOf(it: JsVal): (r: string)
    ensures Trimmed(r)
    ensures it.Str? && it.s != "" ==> r == Trim(it.s)
  {
    var p := Or(if it.Str? then it else Null, FsItem.FirstOf(it, FsItem.PathKeys, Str("")));
    TrimBounds(if p.Str? then p.s else "");
    Trim(if p.Str? then p.s else "")
  }

  /** No white space at either end. */
  predicate Trimmed(s: string)
  {
    s != "" ==> !IsSpace(s[0]) && !IsSpace(s[|s| - 1])
  }

  /** The path is already trimmed. */
  lemma ProductPathTrimmed(it: JsVal)
    ensures Trim(ProductPathOf(it)) == ProductPathOf(it)
  {
    var p := Or(if it.Str? then it else Null, FsItem.FirstOf(it, FsItem.PathKeys, Str("")));
    TrimIdempotent(if p.Str? then p.s else "");
  }

  /** For an item object, the product path is `pathOf` trimmed when that is a string, and
      empty otherwise (a numeric identifier yields no path). */
  lemma ProductPathOfItem(it: JsVal)
    requires !it.Str?
    ensures ProductPathOf(it) == if FsItem.PathOf(it).Str? then Trim(FsItem.PathOf(it).s) else ""
  {
  }

  // ---------- the widget ----------

  /** The builder calls the provider makes. */
  datatype Call = Push(path: string, quantity: int) | Update(path: string, quantity: int) | Reset | Checkout

  datatype CallKind = PushKind | UpdateKind | ResetKind | CheckoutKind

  function KindOf(c: Call): CallKind
  {
    match c
    case Push(_, _) => PushKind
    case Update(_, _) => UpdateKind
    case Reset => ResetKind
    case Checkout => CheckoutKind
  }

  /** What the user sees happen: a call reaching the widget, or an alert. */
  datatype Effect = Sent(call: Call) | Alert(message: string)

  /** The external builder: whether `window.fastspring.builder` exists (optional chaining
      makes every call a no-op when it does not), and which kinds of call throw. */
  datatype Widget = Widget(present: bool, failing: set<CallKind>)

  /** The effects of `builder?.call?.(…)`. */
  function Send(w: Widget, c: Call): seq<Effect>
  {
    if w.present then [Sent(c)] else []
  }

  /** Whether that call throws. */
  predicate Fails(w: Widget, c: Call)
  {
    w.present && KindOf(c) in w.failing
  }

  function Pushes(effects: seq<Effect>): nat
  {
    if effects == [] then 0
    else Pushes(effects[..|effects| - 1]) + (if effects[|effects| - 1].Sent? && effects[|effects| - 1].call.Push? then 1 else 0)
  }

  function Checkouts(effects: seq<Effect>): nat
  {
    if effects == [] then 0
    else Checkouts(effects[..|effects| - 1]) + (if effects[|effects| - 1] == Sent(Checkout) then 1 else 0)
  }

  lemma {:induction false} CountsAppend(a: seq<Effect>, b: seq<Effect>)
    ensures Pushes(a + b) == Pushes(a) + Pushes(b)
    ensures Checkouts(a + b) == Checkouts(a) + Checkouts(b)
    decreases |b|
  {
    if b != [] {
      assert (a + b)[..|a + b| - 1] == a + b[..|b| - 1];
      assert (a + b)[|a + b| - 1] == b[|b| - 1];
      CountsAppend(a, b[..|b| - 1]);
    } else {
      assert a + b == a;
    }
  }

  lemma CountsOne(e: Effect)
    ensures Pushes([e]) == (if e.Sent? && e.call.Push? then 1 else 0)
    ensures Checkouts([e]) == (if e == Sent(Checkout) then 1 else 0)
  {
    assert [e][..0] == [];
  }

  // ---------- the pending single-select command ----------

  /** `pendingRef.current`: the path to put alone in the cart, whether it was pushed, and
      whether to open the checkout once it shows up. */
  datatype Pending = Pending(path: string, added: bool, checkout: bool)

  /** The slot after one callback, and the effects of that callback. */
  datatype Step = Step(next: Option<Pending>, effects: seq<Effect>)

  /** `items.some(it => itemMatchesPath(it, path))` */
  predicate HasMatch(items: seq<JsVal>, path: string)
  {
    items != [] && (ItemMatchesPath(items[0], path) || HasMatch(items[1..], path))
  }

  lemma {:induction false} HasMatchMeans(items: seq<JsVal>, path: string)
    ensures HasMatch(items, path) <==> exists i :: 0 <= i < |items| && ItemMatchesPath(items[i], path)
  {
    if items != [] {
      HasMatchMeans(items[1..], path);
      if exists i :: 0 <= i < |items| && ItemMatchesPath(items[i], path) {
        var i :| 0 <= i < |items| && ItemMatchesPath(items[i], path);
        if i > 0 {
          assert items[1..][i - 1] == items[i];
        }
      }
    }
  }

  /** One data callback's handling of the pending command, given the cart it reports. */
  function PendingStep(pending: Option<Pending>, items: seq<JsVal>, w: Widget): (r: Step)
    ensures |r.effects| <= 1
    ensures r.next == pending || r.next == None || (pending.Some? && r.next == Some(pending.value.(added := true)))
  {
    if pending.None? || pending.value.path == "" then Step(pending, [])
    else
      var p := pending.value;
      if !p.added then
        if |items| == 0 then
          var push := Push(p.path, 1);
          Step(if Fails(w, push) then None else Some(p.(added := true)), Send(w, push))
        else Step(pending, [])
      else if HasMatch(items, p.path) then
        Step(None, if p.checkout then Send(w, Checkout) else [])
      else Step(pending, [])
  }

  /** What a slot still allows: one push before it is marked added, one checkout if asked. */
  function PushBudget(pending: Option<Pending>): nat
  {
    if pending.Some? && pending.value.path != "" && !pending.value.added then 1 else 0
  }

  function CheckoutBudget(pending: Option<Pending>): nat
  {
    if pending.Some? && pending.value.path != "" && pending.value.checkout then 1 else 0
  }

  /** One callback makes at most one widget call, and spends the slot's budget: a push
      only before the command is marked added, a checkout only when asked and only as the
      command is cleared. The path and checkout flag never change. */
  lemma StepSpendsBudget(pending: Option<Pending>, items: seq<JsVal>, w: Widget)
    ensures var s := PendingStep(pending, items, w);
      && |s.effects| <= 1
      && Pushes(s.effects) + PushBudget(s.next) <= PushBudget(pending)
      && Checkouts(s.effects) + CheckoutBudget(s.next) <= CheckoutBudget(pending)
      && (s.next.Some? ==> pending.Some? && s.next.value.path == pending.value.path
                           && s.next.value.checkout == pending.value.checkout)
  {
    var s := PendingStep(pending, items, w);
    if |s.effects| == 1 {
      assert s.effects[..0] == [];
    }
  }

  /** The slot and the effects after a series of callbacks reporting these carts. */
  function Run(pending: Option<Pending>, carts: seq<seq<JsVal>>, w: Widget): Step
    decreases |carts|
  {
    if carts == [] then Step(pending, [])
    else
      var first := PendingStep(pending, carts[0], w);
      var rest := Run(first.next, carts[1..], w);
      Step(rest.next, first.effects + rest.effects)
  }

  /** However many callbacks arrive, one pending command pushes its product at most once
      and opens the checkout at most once, and only when it asked to. */
  lemma {:induction false} AtMostOnePush(pending: Option<Pending>, carts: seq<seq<JsVal>>, w: Widget)
    ensures Pushes(Run(pending, carts, w).effects) <= PushBudget(pending)
    ensures Checkouts(Run(pending, carts, w).effects) <= CheckoutBudget(pending)
    decreases |carts|
  {
    if carts != [] {
      var first := PendingStep(pending, carts[0], w);
      StepSpendsBudget(pending, carts[0], w);
      AtMostOnePush(first.next, carts[1..], w);
      CountsAppend(first.effects, Run(first.next, carts[1..], w).effects);
    }
  }

  /** The same series of callbacks after a successful reset: an empty cart, then one
      holding the product. The product is pushed once, with quantity one, and the checkout
      opens; the slot ends empty. */
  lemma SingleSelectFlow(path: string, carts: seq<seq<JsVal>>, w: Widget)
    requires path != "" && w.present && PushKind !in w.failing
    requires |carts| == 2 && carts[0] == [] && HasMatch(carts[1], path)
    ensures Run(Some(Pending(path, false, true)), carts, w) == Step(None, [Sent(Push(path, 1)), Sent(Checkout)])
  {
    var added := Some(Pending(path, true, true));
    StepFoundAfterPush(path, carts[1], w);
    assert PendingStep(Some(Pending(path, false, true)), carts[0], w) == Step(added, [Sent(Push(path, 1))]);
    assert carts[1..][0] == carts[1] && carts[1..][1..] == [];
    assert Run(None, carts[1..][1..], w) == Step(None, []);
    assert Run(added, carts[1..], w) == Step(None, [Sent(Checkout)]);
  }

  lemma StepFoundAfterPush(path: string, items: seq<JsVal>, w: Widget)
    requires path != "" && w.present && HasMatch(items, path)
    ensures PendingStep(Some(Pending(path, true, true)), items, w) == Step(None, [Sent(Checkout)])
  {
  }

  // ---------- the catalog ----------

  /** `payload.groups.flatMap(g => Array.isArray(g.items) ? g.items : [])` */
  function Catalog(groups: seq<JsVal>): seq<JsVal>
  {
    if groups == [] then [] else Catalog(groups[..|groups| - 1]) + GroupItems(groups[|groups| - 1])
  }

  /** `v?.length`, for the values that carry one. */
  function LengthOf(v: JsVal): JsVal
  {
    match v
    case Arr(es) => Num(|es|)
    case Str(s) => Num(|s|)
    case Obj(_) => Get(v, "length")
    case _ => Undefined
  }

  /** The products the callback extracts, or `Throws` when the extraction throws: a
      truthy `length` on something that is not an array (it has no `flatMap`), or a
      nullish group (reading `g.items`). */
  function CatalogProducts(payload: JsVal): (r: Outcome<seq<JsVal>>)
    ensures var g := Get(payload, "groups");
      r == Throws <==>
        Truthy(LengthOf(g))
        && (!g.Arr? || exists i :: 0 <= i < |g.elems| && (g.elems[i] == Undefined || g.elems[i] == Null))
    ensures var g := Get(payload, "groups");
      r.Returns? ==> r.value == if g.Arr? then Catalog(g.elems) else []
  {
    var groups := Get(payload, "groups");
    if !Truthy(LengthOf(groups)) then Returns([])
    else if !groups.Arr? then Throws
    else if exists i :: 0 <= i < |groups.elems| && (groups.elems[i] == Undefined || groups.elems[i] == Null) then Throws
    else Returns(Catalog(groups.elems))
  }

  /** A product is listed exactly when some group lists it. */
  lemma {:induction false} CatalogMembers(groups: seq<JsVal>, x: JsVal)
    ensures x in Catalog(groups) <==> exists g :: g in groups && x in GroupItems(g)
  {
    if groups != [] {
      var init := groups[..|groups| - 1];
      var last := groups[|groups| - 1];
      CatalogMembers(init, x);
      assert groups == init + [last];
      if exists g :: g in groups && x in GroupItems(g) {
        var g :| g in groups && x in GroupItems(g);
        if g != last {
          assert g in init;
        }
      }
    }
  }

  /** Every item of a legacy cart is one of the catalog's products. */
  lemma LegacyCartInCatalog(groups: seq<JsVal>, x: JsVal)
    requires x in Selected(groups)
    ensures x in Catalog(groups)
  {
    SelectedMembers(groups, x);
    CatalogMembers(groups, x);
  }

  // ---------- the actions ----------

  const NoPathMessage := "No product path."
  const ActionFailedMessage := "FastSpring action failed. See console."
  const NotReadyMessage := "SBL not ready yet. Confirm the popup storefront and script."
  const LoadFailedMessage := "Failed to load SBL. Check the storefront/URL."

  function Max(a: int, b: int): int
  {
    if a >= b then a else b
  }

  /** A call whose failure is caught and reported with this alert. */
  function Guarded(w: Widget, c: Call, message: string): (r: seq<Effect>)
    ensures w.present ==> |r| >= 1 && r[0] == Sent(c)
    ensures !w.present ==> r == []
  {
    Send(w, c) + (if Fails(w, c) then [Alert(message)] else [])
  }

  /** The effects of `addToCart(path, qty)` against the cart last reported. */
  function AddPlan(path: string, items: seq<JsVal>, qty: int, w: Widget): (r: seq<Effect>)
    ensures path == "" <==> r == [Alert(NoPathMessage)]
    ensures path != "" ==> (r == [] <==> !w.present)
  {
    if path == "" then [Alert(NoPathMessage)]
    else Guarded(w, AddCall(path, HasMatch(items, path), qty), ActionFailedMessage)
  }

  /** The call `addToCart` makes: keep a product the cart holds at one, push a new one. */
  function AddCall(path: string, inCart: bool, qty: int): Call
  {
    if inCart then Update(path, 1) else Push(path, Max(1, qty))
  }

  /** The effects of `addToCartForce(path, qty)`. */
  function ForcePlan(path: string, qty: int, w: Widget): (r: seq<Effect>)
    ensures path == "" <==> r == [Alert(NoPathMessage)]
    ensures path != "" ==> (r == [] <==> !w.present)
  {
    if path == "" then [Alert(NoPathMessage)] else Guarded(w, Push(path, Max(1, qty)), ActionFailedMessage)
  }

  /** The single widget call an action makes, if any. */
  predicate CallsOnly(effects: seq<Effect>, c: Call)
  {
    forall e :: e in effects && e.Sent? ==> e.call == c
  }

  /** A guarded call reaches the widget at most once, and nothing else does. */
  lemma GuardedCalls(w: Widget, c: Call, message: string)
    ensures Pushes(Guarded(w, c, message)) == if w.present && c.Push? then 1 else 0
    ensures CallsOnly(Guarded(w, c, message), c)
  {
    CountsOne(Sent(c));
    CountsOne(Alert(message));
    CountsAppend(Send(w, c), if Fails(w, c) then [Alert(message)] else []);
  }

  /** Adding is idempotent: a product the cart already holds is set to quantity one and
      never pushed again; an empty path reaches no widget; otherwise one push of at least
      one unit, and at least the quantity asked for. */
  lemma AddIsIdempotent(path: string, items: seq<JsVal>, qty: int, w: Widget)
    ensures path == "" ==> AddPlan(path, items, qty, w) == [Alert(NoPathMessage)]
    ensures path != "" && HasMatch(items, path) ==>
      Pushes(AddPlan(path, items, qty, w)) == 0 && CallsOnly(AddPlan(path, items, qty, w), Update(path, 1))
    ensures path != "" && !HasMatch(items, path) ==>
      && Pushes(AddPlan(path, items, qty, w)) == (if w.present then 1 else 0)
      && CallsOnly(AddPlan(path, items, qty, w), Push(path, Max(1, qty)))
      && Max(1, qty) >= 1 && Max(1, qty) >= qty
  {
    GuardedCalls(w, AddCall(path, HasMatch(items, path), qty), ActionFailedMessage);
  }

  /** A forced add always pushes, even when the cart holds the product. */
  lemma ForceAlwaysPushes(path: string, qty: int, w: Widget)
    requires path != "" && w.present
    ensures ForcePlan(path, qty, w)[0] == Sent(Push(path, Max(1, qty)))
    ensures Max(1, qty) >= 1
  {
  }

  /** What `selectSingleAndCheckout` leaves behind. */
  datatype Selection = Selection(pending: Option<Pending>, effects: seq<Effect>, threw: bool)

  function SelectPlan(pending: Option<Pending>, path: string, doCheckout: bool, w: Widget): (r: Selection)
    ensures path == "" ==> r == Selection(pending, [Alert(NoPathMessage)], false)
    ensures path != "" ==> r.pending == None || r.pending == Some(Pending(path, false, doCheckout))
    ensures r.threw ==> path != "" && Fails(w, Reset)
  {
    if path == "" then Selection(pending, [Alert(NoPathMessage)], false)
    else if !Fails(w, Reset) then Selection(Some(Pending(path, false, doCheckout)), Send(w, Reset), false)
    else
      var push := Push(path, 1);
      if Fails(w, push) then Selection(Some(Pending(path, false, doCheckout)), [Sent(Reset), Sent(push)], true)
      else if doCheckout then
        if Fails(w, Checkout) then
          Selection(Some(Pending(path, false, doCheckout)), [Sent(Reset), Sent(push), Sent(Checkout)], true)
        else Selection(None, [Sent(Reset), Sent(push), Sent(Checkout)], false)
      else Selection(None, [Sent(Reset), Sent(push)], false)
  }

  /** When the reset works the command waits in the slot for the callbacks; when it fails
      and the fallback push and checkout work, the product is pushed once, the checkout
      opens only if asked, and the slot is empty. */
  lemma SelectSchedulesOrFallsBack(pending: Option<Pending>, path: string, doCheckout: bool, w: Widget)
    requires path != ""
    ensures var s := SelectPlan(pending, path, doCheckout, w);
      && (!Fails(w, Reset) ==>
            s.pending == Some(Pending(path, false, doCheckout)) && Pushes(s.effects) == 0 && PushBudget(s.pending) == 1)
      && (Fails(w, Reset) && !Fails(w, Push(path, 1)) && !Fails(w, Checkout) ==>
            s.pending == None && !s.threw && Pushes(s.effects) == 1
            && Checkouts(s.effects) == (if doCheckout then 1 else 0))
  {
    CountsOne(Sent(Reset));
    CountsOne(Sent(Push(path, 1)));
    CountsOne(Sent(Checkout));
    CountsAppend([Sent(Reset)], [Sent(Push(path, 1))]);
    assert [Sent(Reset)] + [Sent(Push(path, 1))] == [Sent(Reset), Sent(Push(path, 1))];
    CountsAppend([Sent(Reset), Sent(Push(path, 1))], [Sent(Checkout)]);
    assert [Sent(Reset), Sent(Push(path, 1))] + [Sent(Checkout)] == [Sent(Reset), Sent(Push(path, 1)), Sent(Checkout)];
  }

  /** The fallback push is not guarded: when it throws the exception escapes and the
      command stays in the slot, so the next callback reporting an empty cart pushes the
      product once more. */
  lemma FallbackFailureKeepsPending(pending: Option<Pending>, path: string, w: Widget)
    requires path != "" && Fails(w, Reset) && Fails(w, Push(path, 1))
    ensures SelectPlan(pending, path, true, w).threw
    ensures var s := SelectPlan(pending, path, true, w);
      PendingStep(s.pending, [], w).effects == [Sent(Push(path, 1))]
  {
  }

  /** The effects of `checkout()`. */
  function CheckoutPlan(w: Widget): seq<Effect>
  {
    Guarded(w, Checkout, NotReadyMessage)
  }

  // ---------- the provider ----------

  /** The script status shown to the user; `Failed` is the source's "error". */
  datatype Status = Idle | Loading | Ready | Failed

  /** `lockedByUrl`: a decoded configuration on the demo route. */
  predicate Locked(cfgFromHash: JsVal, isDemoRoute: bool)
  {
    Truthy(cfgFromHash) && isDemoRoute
  }

  /** `initialPalette`: locked, the industry theme overlaid with the decoded palette;
      otherwise (nothing stored) the saas theme. */
  function InitialPalette(cfgFromHash: JsVal, isDemoRoute: bool): (r: JsVal)
    ensures r.Obj? && UniqueKeys(r.props)
    ensures Locked(cfgFromHash, isDemoRoute) ==>
      r == Theme(Get(cfgFromHash, "industry"), Or(Get(Get(cfgFromHash, "brand"), "palette"), Obj([])))
    ensures !Locked(cfgFromHash, isDemoRoute) ==> IndustryTheme("saas") == Some(r)
  {
    SpreadUnique(ThemeFor(Get(cfgFromHash, "industry")), Or(Get(Get(cfgFromHash, "brand"), "palette"), Obj([])));
    if Locked(cfgFromHash, isDemoRoute) then
      Spread(ThemeFor(Get(cfgFromHash, "industry")), Or(Get(Get(cfgFromHash, "brand"), "palette"), Obj([])))
    else
      ThemeObjectUnique("#0f172a", "#6366f1", "#0f172a", "#ffffff", "#0f172a");
      IndustryTheme("saas").value
  }

  /** A colour the link omitted is decoded as a palette member holding `undefined`; the
      spread copies that member over the industry theme's, so the locked theme has no
      colour there instead of the theme's default. */
  lemma OmittedColourNotRefilled(cfg: JsVal, k: string)
    requires Get(Get(cfg, "brand"), "palette").Obj?
    requires var pal := Get(Get(cfg, "brand"), "palette"); UniqueKeys(pal.props) && HasKey(pal.props, k) && Get(pal, k) == Undefined
    ensures Get(InitialPalette(cfg, true), k) == Undefined
    ensures Get(Theme(Get(cfg, "industry"), InitialPalette(cfg, true)), k) == Undefined
  {
    var pal := Get(Get(cfg, "brand"), "palette");
    assert Truthy(cfg) by {
      assert cfg.Obj?;
    }
    GetSpread(ThemeFor(Get(cfg, "industry")), pal, k);
    SpreadUnique(ThemeFor(Get(cfg, "industry")), pal);
    var p := InitialPalette(cfg, true);
    LookupHasKey(pal.props, k);
    LookupAssignAll(AssignAll([], SpreadSource(ThemeFor(Get(cfg, "industry")))), pal.props, k);
    LookupHasKey(p.props, k);
    GetSpread(ThemeFor(Get(cfg, "industry")), p, k);
  }

  /** Mounting the provider: the hash is decoded during the render, so a `v3_` token the
      decoder rejects throws out of the render and no provider mounts; otherwise the
      provider starts from whatever the hash decodes to. */
  method Mount(hash: string, x: ConfigUrl.Externals, isDemoRoute: bool) returns (p: Provider?)
    ensures p == null <==> ConfigUrl.Decode(hash, x) == Throws
    ensures p != null ==>
      fresh(p) && p.Valid() && p.FirstRender(ConfigUrl.Decode(hash, x).value, isDemoRoute)
  {
    var cfg := ConfigUrl.Decode(hash, x);
    if cfg == Throws {
      return null;
    }
    p := new Provider(cfg.value, isDemoRoute);
  }

  /** The state `FastSpringProvider` keeps. `effects` is what the user sees happen, in
      order: widget calls and alerts. */
  class Provider {
    var industry: JsVal
    var storefrontId: JsVal
    var companyName: JsVal
    var logoUrl: JsVal
    var palette: JsVal
    var showBanner: bool
    var status: Status
    var error: Option<string>
    var data: JsVal
    var products: seq<JsVal>
    var cartQty: int
    var lastCallback: JsVal
    var pending: Option<Pending>
    var effects: seq<Effect>

    /** The cart count always agrees with the cart last reported, a waiting command always
        has a trimmed non-empty path, and a load in progress carries no error. */
    predicate Valid()
      reads this`cartQty, this`data, this`pending, this`status, this`error
    {
      && cartQty == SumQty(CartItemsOf(data))
      && (pending.Some? ==> pending.value.path != "" && Trimmed(pending.value.path))
      && (status == Idle || status == Loading ==> error == None)
      && (status == Failed ==> error == Some(LoadFailedMessage))
    }

    /** The state of the first render, with nothing in local storage: each locked field
        comes from the decoded configuration when truthy, else its default. */
    predicate FirstRender(cfgFromHash: JsVal, isDemoRoute: bool)
      reads this
    {
      var locked := Locked(cfgFromHash, isDemoRoute);
      && industry == Or(if locked then Get(cfgFromHash, "industry") else Bool(false), Str("saas"))
      && storefrontId == Or(if locked then Get(cfgFromHash, "storefrontId") else Bool(false), Str(""))
      && companyName == Or(if locked then Get(Get(cfgFromHash, "brand"), "companyName") else Bool(false), Str(""))
      && logoUrl == Or(if locked then Get(Get(cfgFromHash, "brand"), "logoUrl") else Bool(false), Str(""))
      && palette == InitialPalette(cfgFromHash, isDemoRoute)
      && showBanner == (locked ==> Get(cfgFromHash, "banner") != Bool(false))
      && status == Idle && error == None && data == Obj([]) && products == [] && cartQty == 0
      && lastCallback == Null && pending == None && effects == []
    }

    /** The first render, given the configuration decoded from the hash. */
    constructor (cfgFromHash: JsVal, isDemoRoute: bool)
      ensures Valid() && FirstRender(cfgFromHash, isDemoRoute)
    {
      var locked := Locked(cfgFromHash, isDemoRoute);
      industry := Or(if locked then Get(cfgFromHash, "industry") else Bool(false), Str("saas"));
      storefrontId := Or(if locked then Get(cfgFromHash, "storefrontId") else Bool(false), Str(""));
      companyName := Or(if locked then Get(Get(cfgFromHash, "brand"), "companyName") else Bool(false), Str(""));
      logoUrl := Or(if locked then Get(Get(cfgFromHash, "brand"), "logoUrl") else Bool(false), Str(""));
      palette := InitialPalette(cfgFromHash, isDemoRoute);
      showBanner := if locked then Get(cfgFromHash, "banner") != Bool(false) else true;
      status := Idle;
      error := None;
      data := Obj([]);
      products := [];
      cartQty := 0;
      lastCallback := Null;
      pending := None;
      effects := [];
    }

    /** `theme` */
    function CurrentTheme(): JsVal
      reads this
    {
      Theme(industry, palette)
    }

    /** `fastSpringCallBack(payload)`: records the payload and its cart count, extracts the
        catalog, and advances the pending command. When the extraction throws, the rest of
        the callback does not run. */
    method OnDataCallback(payload: JsVal, w: Widget) returns (threw: bool)
      requires Valid()
      modifies this`lastCallback, this`data, this`cartQty, this`products, this`pending, this`effects
      ensures Valid()
      ensures lastCallback == payload && data == payload && cartQty == SumQty(CartItemsOf(payload))
      ensures threw <==> CatalogProducts(payload) == Throws
      ensures threw ==> products == old(products) && pending == old(pending) && effects == old(effects)
      ensures !threw ==>
        var s := PendingStep(old(pending), CartItemsOf(payload), w);
        products == CatalogProducts(payload).value && pending == s.next && effects == old(effects) + s.effects
    {
      lastCallback := payload;
      data := payload;
      cartQty := ComputeCartQty(payload);
      var extracted := CatalogProducts(payload);
      if extracted == Throws {
        return true;
      }
      threw := false;
      products := extracted.value;
      var items := CartItemsArray(payload);
      AdvancePending(items, w);
    }

    /** The pending-command part of the callback, given the cart it reports. */
    method AdvancePending(items: seq<JsVal>, w: Widget)
      requires Valid()
      modifies this`pending, this`effects
      ensures Valid()
      ensures var s := PendingStep(old(pending), items, w);
        pending == s.next && effects == old(effects) + s.effects
    {
      if pending.Some? && pending.value.path != "" {
        var p := pending.value;
        if !p.added {
          if |items| == 0 {
            var push := Push(p.path, 1);
            effects := effects + Send(w, push);
            if Fails(w, push) {
              pending := None;
            } else {
              pending := Some(p.(added := true));
            }
          }
        } else if HasMatch(items, p.path) {
          if p.checkout {
            effects := effects + Send(w, Call.Checkout);
          }
          pending := None;
        }
      }
    }

    /** `addToCart(itemOrPath, qty)` */
    method AddToCart(itemOrPath: JsVal, qty: int, w: Widget)
      modifies this`effects
      ensures effects == old(effects) + AddPlan(ProductPathOf(itemOrPath), CartItemsOf(data), qty, w)
    {
      var path := ProductPathOf(itemOrPath);
      AddPath(path, qty, w);
    }

    /** `addToCart` once the path is resolved. */
    method AddPath(path: string, qty: int, w: Widget)
      modifies this`effects
      ensures effects == old(effects) + AddPlan(path, CartItemsOf(data), qty, w)
    {
      if path == "" {
        effects := effects + [Alert(NoPathMessage)];
        return;
      }
      var items := CartItemsArray(data);
      var existing := HasMatch(items, path);
      var c := if existing then Update(path, 1) else Push(path, Max(1, qty));
      assert c == AddCall(path, existing, qty);
      effects := effects + Send(w, c);
      if Fails(w, c) {
        effects := effects + [Alert(ActionFailedMessage)];
      }
    }

    /** `addToCartForce(itemOrPath, qty)` */
    method AddToCartForce(itemOrPath: JsVal, qty: int, w: Widget)
      modifies this`effects
      ensures effects == old(effects) + ForcePlan(ProductPathOf(itemOrPath), qty, w)
    {
      var path := ProductPathOf(itemOrPath);
      ForcePath(path, qty, w);
    }

    /** `addToCartForce` once the path is resolved. */
    method ForcePath(path: string, qty: int, w: Widget)
      modifies this`effects
      ensures effects == old(effects) + ForcePlan(path, qty, w)
    {
      if path == "" {
        effects := effects + [Alert(NoPathMessage)];
        return;
      }
      var c := Push(path, Max(1, qty));
      effects := effects + Send(w, c);
      if Fails(w, c) {
        effects := effects + [Alert(ActionFailedMessage)];
      }
    }

    /** `selectSingleAndCheckout(itemOrPath, doCheckout)`; `threw` is an exception escaping
        the fallback. */
    method SelectSingleAndCheckout(itemOrPath: JsVal, doCheckout: bool, w: Widget) returns (threw: bool)
      requires Valid()
      modifies this`pending, this`effects
      ensures Valid()
      ensures var s := SelectPlan(old(pending), ProductPathOf(itemOrPath), doCheckout, w);
        pending == s.pending && effects == old(effects) + s.effects && threw == s.threw
    {
      var path := ProductPathOf(itemOrPath);
      threw := SelectPath(path, doCheckout, w);
    }

    /** `selectSingleAndCheckout` once the path is resolved. */
    method SelectPath(path: string, doCheckout: bool, w: Widget) returns (threw: bool)
      requires Valid() && Trimmed(path)
      modifies this`pending, this`effects
      ensures Valid()
      ensures var s := SelectPlan(old(pending), path, doCheckout, w);
        pending == s.pending && effects == old(effects) + s.effects && threw == s.threw
    {
      if path == "" {
        effects := effects + [Alert(NoPathMessage)];
        return false;
      }
      pending := Some(Pending(path, false, doCheckout));
      effects := effects + Send(w, Reset);
      if Fails(w, Reset) {
        var push := Push(path, 1);
        effects := effects + [Sent(push)];
        if Fails(w, push) {
          return true;
        }
        if doCheckout {
          effects := effects + [Sent(Call.Checkout)];
          if Fails(w, Call.Checkout) {
            return true;
          }
        }
        pending := None;
      }
      threw := false;
    }

    /** `checkout()` */
    method Checkout(w: Widget)
      modifies this`effects
      ensures effects == old(effects) + CheckoutPlan(w)
    {
      effects := effects + Send(w, Call.Checkout);
      if Fails(w, Call.Checkout) {
        effects := effects + [Alert(NotReadyMessage)];
      }
    }

    /** `refreshProducts()`: a reset whose failure is swallowed. */
    method RefreshProducts(w: Widget)
      modifies this`effects
      ensures effects == old(effects) + Send(w, Reset)
    {
      effects := effects + Send(w, Reset);
    }

    /** `markReady`: ready, and a deferred reset of the builder. */
    method MarkReady(w: Widget)
      requires Valid()
      modifies this`status, this`effects
      ensures Valid()
      ensures status == Ready && effects == old(effects) + Send(w, Reset)
    {
      status := Ready;
      effects := effects + Send(w, Reset);
    }

    /** The script effect for the current storefront: nothing without one; otherwise
        loading with the error cleared, and ready at once when the script is already there. */
    method LoadScript(alreadyLoaded: bool, w: Widget)
      requires Valid()
      modifies this`status, this`error, this`effects
      ensures Valid()
      ensures !Truthy(storefrontId) ==> status == old(status) && error == old(error) && effects == old(effects)
      ensures Truthy(storefrontId) ==>
        && status == (if alreadyLoaded then Ready else Loading)
        && error == None
        && effects == old(effects) + (if alreadyLoaded then Send(w, Reset) else [])
    {
      if !Truthy(storefrontId) {
        return;
      }
      status := Loading;
      error := None;
      if alreadyLoaded {
        MarkReady(w);
      }
    }

    /** The script's load event. */
    method OnScriptLoad(w: Widget)
      requires Valid()
      modifies this`status, this`effects
      ensures Valid()
      ensures status == Ready && effects == old(effects) + Send(w, Reset)
    {
      MarkReady(w);
    }

    /** The script's error event. */
    method OnScriptError()
      requires Valid()
      modifies this`status, this`error
      ensures Valid()
      ensures status == Failed && error == Some(LoadFailedMessage)
    {
      status := Failed;
      error := Some(LoadFailedMessage);
    }
  }
}
