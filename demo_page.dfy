/** The demo page: it applies a shared configuration link to the provider's settings and
    picks the storefront layout from the industry. */
module DemoPage {
  import opened JsValue
  import ConfigUrl
  import FastSpring

  // ---------- layout choice ----------

  datatype Layout = Gaming | Mobile | EcommerceAV | SaaS

  /** `String(industry || "").toLowerCase()` */
  function IndustryText(industry: JsVal): string
  {
    LowerAscii(ToStr(Or(industry, Str(""))))
  }

  /** The layout for an industry: the page's chain of tests on the lowercased text. The
      explicit SaaS test and the fallback give the same layout. */
  function LayoutFor(industry: JsVal): (r: Layout)
    ensures var v := IndustryText(industry);
      && (r == Gaming <==> v == "gaming" || v == "gaming store")
      && (r == Mobile <==> v == "mobile" || v == "mobile apps")
      && (r == EcommerceAV <==> v == "ecommerce" || v == "audio" || v == "video")
  {
    var v := IndustryText(industry);
    if v == "gaming" || v == "gaming store" then Gaming
    else if v == "mobile" || v == "mobile apps" then Mobile
    else if v == "ecommerce" || v == "audio" || v == "video" then EcommerceAV
    else if v == "saas" || v == "saas subscription" then SaaS
    else SaaS
  }

  lemma {:induction false} LowerTwice(s: string)
    ensures LowerAscii(LowerAscii(s)) == LowerAscii(s)
  {
    var l := LowerAscii(s);
    var ll := LowerAscii(l);
    assert forall i :: 0 <= i < |s| ==> ll[i] == l[i];
  }

  /** Text without capitals is its own lowercase. */
  lemma {:induction false} LowerKeeps(s: string)
    requires forall i :: 0 <= i < |s| ==> !('A' <= s[i] <= 'Z')
    ensures LowerAscii(s) == s
  {
    var l := LowerAscii(s);
    assert forall i :: 0 <= i < |s| ==> l[i] == s[i];
  }

  /** Only the letters' case is ignored: an industry and its lowercase spelling get the
      same layout. */
  lemma LayoutIgnoresCase(s: string)
    ensures LayoutFor(Str(s)) == LayoutFor(Str(LowerAscii(s)))
  {
    LowerTwice(s);
    assert IndustryText(Str(s)) == LowerAscii(s);
    if s != "" {
      assert LowerAscii(s)[0] == LowerChar(s[0]);
      assert IndustryText(Str(LowerAscii(s))) == LowerAscii(LowerAscii(s));
    } else {
      assert IndustryText(Str(LowerAscii(s))) == "";
    }
  }

  /** A missing or empty industry falls back to the SaaS layout. */
  lemma NoIndustryIsSaaS(industry: JsVal)
    requires !Truthy(industry)
    ensures LayoutFor(industry) == SaaS
  {
    assert IndustryText(industry) == "";
  }

  /** The layout test lowercases the industry, but the theme table is read with the text
      as given and knows neither the mobile nor the audio/video industries: those layouts,
      and a gaming layout reached through capitals, always get the default theme. */
  lemma LayoutThemeMismatch(s: string)
    ensures LayoutFor(Str(s)) == Mobile || LayoutFor(Str(s)) == EcommerceAV ==>
      FastSpring.ThemeFor(Str(s)) == FastSpring.DefaultTheme()
    ensures LayoutFor(Str(s)) == Gaming && s != "gaming" ==>
      FastSpring.ThemeFor(Str(s)) == FastSpring.DefaultTheme()
  {
    var v := IndustryText(Str(s));
    if s != "" {
      assert v == LowerAscii(s);
      assert |v| == |s| && v[0] == LowerChar(s[0]);
    }
    if LayoutFor(Str(s)) != SaaS && !(LayoutFor(Str(s)) == Gaming && s == "gaming") {
      assert s != "gaming" && s != "saas" && s != "fintech" && s != "retail" && s != "default";
      assert FastSpring.IndustryTheme(s) == None;
    }
  }

  // ---------- applying a link ----------

  /** The provider settings a link can change. */
  datatype Settings = Settings(industry: JsVal, storefrontId: JsVal, companyName: JsVal,
                               logoUrl: JsVal, palette: JsVal, showBanner: bool)

  /** `cfg?.brand?.palette` */
  function PaletteIn(cfg: JsVal): JsVal
  {
    Get(Get(cfg, "brand"), "palette")
  }

  /** The effect of a decoded, truthy configuration: each text field is taken when truthy,
      the palette is `{...prev, ...palette}` when one is given, and the banner is on unless
      the configuration says `false`. */
  function Apply(s: Settings, cfg: JsVal): (r: Settings)
    ensures r.industry == s.industry || (Truthy(r.industry) && r.industry == Get(cfg, "industry"))
    ensures r.storefrontId == s.storefrontId || (Truthy(r.storefrontId) && r.storefrontId == Get(cfg, "storefrontId"))
    ensures r.companyName == s.companyName || Truthy(r.companyName)
    ensures r.logoUrl == s.logoUrl || Truthy(r.logoUrl)
    ensures !Truthy(PaletteIn(cfg)) ==> r.palette == s.palette
    ensures r.showBanner <==> Get(cfg, "banner") != Bool(false)
  {
    var brand := Get(cfg, "brand");
    Settings(
      if Truthy(Get(cfg, "industry")) then Get(cfg, "industry") else s.industry,
      if Truthy(Get(cfg, "storefrontId")) then Get(cfg, "storefrontId") else s.storefrontId,
      if Truthy(Get(brand, "companyName")) then Get(brand, "companyName") else s.companyName,
      if Truthy(Get(brand, "logoUrl")) then Get(brand, "logoUrl") else s.logoUrl,
      if Truthy(PaletteIn(cfg)) then Spread(s.palette, PaletteIn(cfg)) else s.palette,
      Get(cfg, "banner") != Bool(false))
  }

  /** Every member of the decoded palette replaces the previous one, even one holding
      `undefined`; members it lacks keep their previous value. */
  lemma ApplyMergesPalette(s: Settings, cfg: JsVal, k: string)
    requires s.palette.Obj? && UniqueKeys(s.palette.props)
    requires PaletteIn(cfg).Obj? && UniqueKeys(PaletteIn(cfg).props)
    ensures var p := Apply(s, cfg).palette;
      && p.Obj? && UniqueKeys(p.props)
      && Get(p, k) == if HasKey(PaletteIn(cfg).props, k) then Get(PaletteIn(cfg), k) else Get(s.palette, k)
  {
    SpreadUnique(s.palette, PaletteIn(cfg));
    GetSpread(s.palette, PaletteIn(cfg), k);
  }

  /** Applying the same link twice leaves what applying it once does. */
  lemma ApplyTwice(s: Settings, cfg: JsVal, k: string)
    requires s.palette.Obj? && UniqueKeys(s.palette.props)
    requires PaletteIn(cfg).Obj? && UniqueKeys(PaletteIn(cfg).props)
    ensures var once := Apply(s, cfg);
      var twice := Apply(once, cfg);
      && twice.industry == once.industry && twice.storefrontId == once.storefrontId
      && twice.companyName == once.companyName && twice.logoUrl == once.logoUrl
      && twice.showBanner == once.showBanner
      && Get(twice.palette, k) == Get(once.palette, k)
  {
    var once := Apply(s, cfg);
    ApplyMergesPalette(s, cfg, k);
    ApplyMergesPalette(once, cfg, k);
  }

  /** The settings the provider holds. */
  function SettingsOf(ctx: FastSpring.Provider): Settings
    reads ctx
  {
    Settings(ctx.industry, ctx.storefrontId, ctx.companyName, ctx.logoUrl, ctx.palette, ctx.showBanner)
  }

  /** The page's effect on a new hash: decode it; nothing happens for a falsy result; else
      the setters run in the page's order. A throwing decode is reported and changes
      nothing. */
  method ApplyHash(ctx: FastSpring.Provider, hash: string, x: ConfigUrl.Externals) returns (threw: bool)
    requires ctx.Valid()
    modifies ctx`industry, ctx`storefrontId, ctx`companyName, ctx`logoUrl, ctx`palette, ctx`showBanner
    ensures ctx.Valid()
    ensures threw <==> ConfigUrl.Decode(hash, x) == Throws
    ensures var d := ConfigUrl.Decode(hash, x);
      SettingsOf(ctx) == if d.Returns? && Truthy(d.value) then Apply(old(SettingsOf(ctx)), d.value)
                         else old(SettingsOf(ctx))
  {
    var decoded := ConfigUrl.Decode(hash, x);
    if decoded.Throws? {
      return true;
    }
    threw := false;
    if Truthy(decoded.value) {
      ApplyConfig(ctx, decoded.value);
    }
  }

  /** The setters for a truthy configuration, in the page's order: storefront basics, then
      brand, then colours, then the banner. */
  method ApplyConfig(ctx: FastSpring.Provider, cfg: JsVal)
    modifies ctx`industry, ctx`storefrontId, ctx`companyName, ctx`logoUrl, ctx`palette, ctx`showBanner
    ensures SettingsOf(ctx) == Apply(old(SettingsOf(ctx)), cfg)
  {
    if Truthy(Get(cfg, "industry")) {
      ctx.industry := Get(cfg, "industry");
    }
    if Truthy(Get(cfg, "storefrontId")) {
      ctx.storefrontId := Get(cfg, "storefrontId");
    }
    var brand := Get(cfg, "brand");
    if Truthy(Get(brand, "companyName")) {
      ctx.companyName := Get(brand, "companyName");
    }
    if Truthy(Get(brand, "logoUrl")) {
      ctx.logoUrl := Get(brand, "logoUrl");
    }
    if Truthy(PaletteIn(cfg)) {
      ctx.palette := Spread(ctx.palette, PaletteIn(cfg));
    }
    ctx.showBanner := Get(cfg, "banner") != Bool(false);
  }

  // ---------- a shared link end to end ----------

  /** The object `fromShort` builds carries a palette object with all four colours. */
  lemma ConfigPalette(industry: JsVal, storefrontId: JsVal, presetKey: JsVal,
                      companyName: JsVal, logoUrl: JsVal,
                      accent: JsVal, nav: JsVal, background: JsVal, text: JsVal,
                      banner: JsVal, debug: JsVal)
    ensures var u := ConfigUrl.ConfigObject(industry, storefrontId, presetKey, companyName, logoUrl,
                                            accent, nav, background, text, banner, debug);
      && Truthy(u)
      && PaletteIn(u) == Obj([Prop("accent", accent), Prop("nav", nav),
                              Prop("background", background), Prop("text", text)])
  {
    var pal := ConfigUrl.PaletteObject(accent, nav, background, text);
    var brand := ConfigUrl.ConfigBrand(companyName, logoUrl, pal);
    assert Get(brand, "palette") == pal;
  }

  /** The four colour members, once each. */
  lemma FourColours(accent: JsVal, nav: JsVal, background: JsVal, text: JsVal)
    ensures var ps := [Prop("accent", accent), Prop("nav", nav),
                       Prop("background", background), Prop("text", text)];
      && UniqueKeys(ps)
      && HasKey(ps, "accent") && HasKey(ps, "nav") && HasKey(ps, "background") && HasKey(ps, "text")
  {
    var ps := [Prop("accent", accent), Prop("nav", nav),
               Prop("background", background), Prop("text", text)];
    assert ps[0].key == "accent" && ps[1].key == "nav" && ps[2].key == "background" && ps[3].key == "text";
  }

  /** What `fromShort` builds always carries a palette object with all four colours, some
      of them possibly `undefined`. */
  lemma FromShortPalette(s: JsVal)
    requires s != Null
    ensures var u := ConfigUrl.FromShort(s);
      && u.Returns? && Truthy(u.value)
      && PaletteIn(u.value).Obj? && UniqueKeys(PaletteIn(u.value).props)
      && HasKey(PaletteIn(u.value).props, "accent") && HasKey(PaletteIn(u.value).props, "nav")
      && HasKey(PaletteIn(u.value).props, "background") && HasKey(PaletteIn(u.value).props, "text")
  {
    var ps := Get(s, "ps");
    var b := Get(s, "b");
    var p := Get(b, "p");
    ConfigPalette(Get(s, "i"), Or(Or(Get(s, "s"), ConfigUrl.PresetText(ps)), Str("")), Or(ps, Undefined),
                  Or(Get(b, "c"), Str("")), Or(Get(b, "l"), Str("")),
                  Get(p, "a"), Get(p, "n"), Get(p, "bg"), Get(p, "t"),
                  Bool(Get(s, "bn") != Num(0)), Bool(Truthy(Get(s, "d"))));
    FourColours(Get(p, "a"), Get(p, "n"), Get(p, "bg"), Get(p, "t"));
  }

  /** Applying a decoded configuration whose fields are known. */
  lemma ApplyDecoded(s: Settings, u: JsVal, industry: JsVal, company: JsVal, logo: JsVal,
                     banner: JsVal, k: string)
    requires Truthy(u) && PaletteIn(u).Obj? && UniqueKeys(PaletteIn(u).props) && HasKey(PaletteIn(u).props, k)
    requires s.palette.Obj? && UniqueKeys(s.palette.props)
    requires Get(u, "industry") == (if industry == Str("") then Undefined else industry)
    requires Get(Get(u, "brand"), "companyName") == company
    requires Get(Get(u, "brand"), "logoUrl") == logo
    requires Get(u, "banner") == banner
    ensures var r := Apply(s, u);
      && (Truthy(industry) ==> r.industry == industry)
      && (Truthy(company) ==> r.companyName == company)
      && (Truthy(logo) ==> r.logoUrl == logo)
      && r.showBanner == (banner != Bool(false))
      && Get(r.palette, k) == Get(PaletteIn(u), k)
  {
    ApplyMergesPalette(s, u, k);
  }

  /** The storefront a decoded link leaves: the link's own when non-empty, else the
      preset's, else the page's previous one. */
  lemma ApplyStorefront(s: Settings, u: JsVal, sid: JsVal, preset: Option<string>)
    requires preset.Some? ==> preset.value != ""
    requires Get(u, "storefrontId") == (if preset.Some? && sid == Str("") then Str(preset.value) else sid)
    ensures Apply(s, u).storefrontId ==
      (if preset.Some? && sid == Str("") then Str(preset.value) else if Truthy(sid) then sid else s.storefrontId)
  {
  }

  /** Opening a link the builder made from any configuration of the app's own shape, with
      lawful libraries: the page takes the link's non-empty industry, storefront (the
      preset's storefront when the link names a preset and no storefront), company name and
      logo, its banner flag, and every palette colour as decoded, so a colour the link
      omitted clears the one the page had. */
  lemma SharedLinkApplied(s: Settings, cfg: JsVal, x: ConfigUrl.Externals, k: string)
    requires ConfigUrl.Lawful(x) && ConfigUrl.UiConfig(cfg)
    requires s.palette.Obj? && UniqueKeys(s.palette.props)
    requires k in {"accent", "nav", "background", "text"}
    ensures ConfigUrl.Encode(cfg, x).Returns?
    ensures ConfigUrl.Decode(ConfigUrl.Encode(cfg, x).value, x).Returns?
    ensures var u := ConfigUrl.Decode(ConfigUrl.Encode(cfg, x).value, x).value;
      var r := Apply(s, u);
      var brand := Get(cfg, "brand");
      var sid := Get(cfg, "storefrontId");
      var preset := ConfigUrl.PresetOf(cfg);
      && (Truthy(Get(cfg, "industry")) ==> r.industry == Get(cfg, "industry"))
      && r.storefrontId == (if preset.Some? && sid == Str("") then Str(preset.value)
                            else if Truthy(sid) then sid else s.storefrontId)
      && (Truthy(Get(brand, "companyName")) ==> r.companyName == Get(brand, "companyName"))
      && (Truthy(Get(brand, "logoUrl")) ==> r.logoUrl == Get(brand, "logoUrl"))
      && r.showBanner == (Get(cfg, "banner") != Bool(false))
      && Get(r.palette, k) == Get(PaletteIn(u), k)
  {
    ConfigUrl.UiShortIsJson(cfg);
    ConfigUrl.RoundTrip(cfg, x);
    ConfigUrl.DecodedConfig(cfg);
    DecodedApplied(s, cfg, k);
  }

  /** `SharedLinkApplied` once the link has been decoded. */
  lemma DecodedApplied(s: Settings, cfg: JsVal, k: string)
    requires ConfigUrl.UiConfig(cfg)
    requires s.palette.Obj? && UniqueKeys(s.palette.props)
    requires k in {"accent", "nav", "background", "text"}
    requires ConfigUrl.ShortForm(cfg).Returns? && ConfigUrl.FromShort(ConfigUrl.ShortForm(cfg).value).Returns?
    ensures var u := ConfigUrl.FromShort(ConfigUrl.ShortForm(cfg).value).value;
      var r := Apply(s, u);
      var brand := Get(cfg, "brand");
      var sid := Get(cfg, "storefrontId");
      var preset := ConfigUrl.PresetOf(cfg);
      && (Truthy(Get(cfg, "industry")) ==> r.industry == Get(cfg, "industry"))
      && r.storefrontId == (if preset.Some? && sid == Str("") then Str(preset.value)
                            else if Truthy(sid) then sid else s.storefrontId)
      && (Truthy(Get(brand, "companyName")) ==> r.companyName == Get(brand, "companyName"))
      && (Truthy(Get(brand, "logoUrl")) ==> r.logoUrl == Get(brand, "logoUrl"))
      && r.showBanner == (Get(cfg, "banner") != Bool(false))
      && Get(r.palette, k) == Get(PaletteIn(u), k)
  {
    ConfigUrl.DecodedConfig(cfg);
    ConfigUrl.DecodedBrandConfig(cfg);
    var short := ConfigUrl.ShortForm(cfg).value;
    FromShortPalette(short);
    var u := ConfigUrl.FromShort(short).value;
    var brand := Get(cfg, "brand");
    var preset := ConfigUrl.PresetOf(cfg);
    ApplyDecoded(s, u, Get(cfg, "industry"), Get(brand, "companyName"), Get(brand, "logoUrl"),
                 Get(cfg, "banner"), k);
    ApplyStorefront(s, u, Get(cfg, "storefrontId"), preset);
  }
}
