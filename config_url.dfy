/** The shared-configuration codec: a configuration object is mapped to a short-key
    object (`toShort`), pruned, serialised, compressed and prefixed with `#v3_`; decoding
    tries the current tag first and then two legacy token forms. */
module ConfigUrl {
  import opened JsValue

  // ---------- registries ----------

  /** `PRESET_MAP`: short code to preset storefront. */
  function PresetUrl(key: string): (r: Option<string>)
    ensures r.Some? <==> key in {"m", "g", "e", "s"}
    ensures r.Some? ==> r.value != ""
  {
    if key == "m" then Some("maguero.test.onfastspring.com/popup-mobile-demo")
    else if key == "g" then Some("maguero.test.onfastspring.com/popup-gaming-demo")
    else if key == "e" then Some("maguero.test.onfastspring.com/popup-ecommerce-demo")
    else if key == "s" then Some("maguero.test.onfastspring.com/popup-saas-demo")
    else None
  }

  /** One row of `DEFAULT_PALETTES`, under its short keys `a`, `n`, `bg`, `t`. */
  datatype Defaults = Defaults(a: string, n: string, bg: string, t: string)

  /** `DEFAULT_PALETTES[industry]` */
  function DefaultPalette(industry: string): Option<Defaults>
  {
    if industry == "gaming" then Some(Defaults("#22d3ee", "#0b1020", "#ffffff", "#0f172a"))
    else if industry == "mobile" then Some(Defaults("#22c55e", "#0f172a", "#ffffff", "#0f172a"))
    else if industry == "ecommerce" then Some(Defaults("#f59e0b", "#1f2937", "#ffffff", "#0f172a"))
    else if industry == "saas" then Some(Defaults("#6366f1", "#0f172a", "#ffffff", "#0f172a"))
    else None
  }

  /** `defaults[k]` */
  function DefaultOf(d: Defaults, k: string): JsVal
  {
    if k == "a" then Str(d.a)
    else if k == "n" then Str(d.n)
    else if k == "bg" then Str(d.bg)
    else if k == "t" then Str(d.t)
    else Undefined
  }

  /** `norm(v)`: `String(v).toLowerCase().trim()`, with `undefined` read as `""`. */
  function Norm(v: JsVal): string
  {
    Trim(LowerAscii(ToStr(if v == Undefined then Str("") else v)))
  }

  // ---------- shortHex ----------

  predicate IsLowerHex(c: char)
  {
    '0' <= c <= '9' || 'a' <= c <= 'f'
  }

  predicate IsHex6(h: string)
  {
    |h| == 6 && forall i :: 0 <= i < 6 ==> IsLowerHex(h[i])
  }

  /** The text `shortHex` tests: lower-cased, with its first `#` removed. */
  function HexBody(hex: JsVal): string
  {
    RemoveFirst(LowerAscii(ToStr(Or(hex, Str("")))), '#')
  }

  /** `shortHex(hex)` */
  function ShortHex(hex: JsVal): (r: JsVal)
    ensures r == hex || (r.Str? && |r.s| in {4, 7} && r.s[0] == '#')
    ensures hex.Str? ==> r.Str?
  {
    var h := HexBody(hex);
    if !IsHex6(h) then hex
    else if h[0] == h[1] && h[2] == h[3] && h[4] == h[5] then Str(['#', h[0], h[2], h[4]])
    else Str("#" + h)
  }

  /** The six digits a `#rgb` or `#rrggbb` text stands for. */
  function Expand(digits: string): string
  {
    if |digits| == 3 then [digits[0], digits[0], digits[1], digits[1], digits[2], digits[2]]
    else digits
  }

  /** A six-digit colour comes back as `#` and the shortest digits naming the same colour:
      three when every channel repeats its digit, six otherwise, always lower case.
      Any other input is returned untouched. */
  lemma ShortHexMeaning(hex: JsVal)
    ensures var h := HexBody(hex);
      IsHex6(h) ==>
        var r := ShortHex(hex);
        && r.Str? && |r.s| in {4, 7} && r.s[0] == '#'
        && Expand(r.s[1..]) == h
        && (|r.s| == 4 <==> h[0] == h[1] && h[2] == h[3] && h[4] == h[5])
    ensures !IsHex6(HexBody(hex)) ==> ShortHex(hex) == hex
  {
    var h := HexBody(hex);
    if IsHex6(h) {
      var r := ShortHex(hex);
      if h[0] == h[1] && h[2] == h[3] && h[4] == h[5] {
        assert r == Str(['#', h[0], h[2], h[4]]);
        HashTail(r.s, [h[0], h[2], h[4]]);
        ExpandPairs(h);
      } else {
        assert r == Str("#" + h);
        HashTail(r.s, h);
      }
    }
  }

  lemma HashTail(s: string, d: string)
    requires s == "#" + d
    ensures s[1..] == d && |s| == |d| + 1 && s[0] == '#'
  {
  }

  lemma ExpandPairs(h: string)
    requires |h| == 6 && h[0] == h[1] && h[2] == h[3] && h[4] == h[5]
    ensures Expand([h[0], h[2], h[4]]) == h
  {
  }

  lemma {:induction false} RemoveFirstNoOther(s: string, c: char)
    requires c in s
    requires forall i :: 0 <= i < |s| && s[i] == c ==> i == 0
    ensures RemoveFirst(s, c) == s[1..]
  {
  }

  lemma {:induction false} LowerIdem(s: string)
    requires forall i :: 0 <= i < |s| ==> s[i] == '#' || IsLowerHex(s[i])
    ensures LowerAscii(s) == s
  {
    var l := LowerAscii(s);
    assert forall i :: 0 <= i < |s| ==> l[i] == s[i];
  }

  /** The body of a `#` and lowercase hex digits is those digits. */
  lemma BodyOfHexText(s: string)
    requires |s| >= 1 && s[0] == '#' && forall i :: 1 <= i < |s| ==> IsLowerHex(s[i])
    ensures HexBody(Str(s)) == s[1..]
  {
    LowerIdem(s);
    RemoveFirstNoOther(s, '#');
  }

  /** Shortening a colour twice is shortening it once. */
  lemma ShortHexIdempotent(hex: JsVal)
    ensures ShortHex(ShortHex(hex)) == ShortHex(hex)
  {
    var h := HexBody(hex);
    if IsHex6(h) {
      if h[0] == h[1] && h[2] == h[3] && h[4] == h[5] {
        var s := ['#', h[0], h[2], h[4]];
        BodyOfHexText(s);
        assert |HexBody(Str(s))| == 3;
      } else {
        var s := "#" + h;
        BodyOfHexText(s);
        assert s[1..] == h;
      }
    }
  }

  // ---------- prune ----------

  /** The values `prune` skips outright. */
  predicate Dropped(v: JsVal)
  {
    v == Undefined || v == Str("") || v == Null
  }

  /** `pv === undefined || (typeof pv === "object" && !Object.keys(pv).length)`, for a pruned
      value, whose arrays hold `undefined` exactly at their holes. */
  predicate EmptyAfterPrune(pv: JsVal)
  {
    || pv == Undefined
    || (pv.Obj? && pv.props == [])
    || (pv.Arr? && forall i :: 0 <= i < |pv.elems| ==> pv.elems[i] == Undefined)
  }

  /** The holes `out[k] = pv` leaves in front of index `k` of a shorter array. */
  function Holes(n: nat): (r: seq<JsVal>)
    ensures |r| == n && forall i :: 0 <= i < n ==> r[i] == Undefined
  {
    seq(n, _ => Undefined)
  }

  /** `prune(v)`: recursively drops `undefined`, `""` and `null` members and members that
      prune to an empty object; skipped array slots stay holes. */
  function Pruned(v: JsVal): (r: JsVal)
    ensures v.Obj? <==> r.Obj?
    ensures v.Arr? <==> r.Arr?
    ensures !v.Obj? && !v.Arr? ==> r == v
    decreases v, 1
  {
    match v
    case Obj(ps) => Obj(PrunedProps(ps))
    case Arr(es) => Arr(PrunedElems(es))
    case _ => v
  }

  /** Whether `prune` keeps a member with this value. */
  predicate Keep(v: JsVal)
    decreases v, 2
  {
    !Dropped(v) && !EmptyAfterPrune(Pruned(v))
  }

  function PrunedProps(ps: seq<Prop>): seq<Prop>
    decreases ps, 0
  {
    if ps == [] then []
    else
      var last := ps[|ps| - 1];
      PrunedProps(ps[..|ps| - 1])
      + (if Keep(last.val) then [Prop(last.key, Pruned(last.val))] else [])
  }

  function PrunedElems(es: seq<JsVal>): (r: seq<JsVal>)
    ensures |r| <= |es|
    decreases es, 0
  {
    if es == [] then []
    else
      var init := PrunedElems(es[..|es| - 1]);
      var last := es[|es| - 1];
      if Keep(last) then init + Holes(|es| - 1 - |init|) + [Pruned(last)] else init
  }

  /** The shape `prune` promises: no member is `undefined`, `""`, `null` or an empty
      object, at any depth; an array slot is either a hole or such a value, and the last
      slot is not a hole. */
  predicate Clean(v: JsVal)
    decreases v, 0
  {
    match v
    case Obj(ps) => forall i :: 0 <= i < |ps| ==> CleanMember(ps[i].val)
    case Arr(es) => CleanSlots(es)
    case _ => true
  }

  predicate CleanSlots(es: seq<JsVal>)
    decreases es, 2
  {
    && (es != [] ==> es[|es| - 1] != Undefined)
    && forall i :: 0 <= i < |es| ==> es[i] == Undefined || CleanMember(es[i])
  }

  /** A member value `prune` would keep as it is. */
  predicate CleanMember(v: JsVal)
    decreases v, 1
  {
    !Dropped(v) && !EmptyAfterPrune(v) && Clean(v)
  }

  /** Nothing `prune` is meant to remove survives it. */
  lemma {:induction false} PrunedIsClean(v: JsVal)
    ensures Clean(Pruned(v))
    decreases v, 1
  {
    match v
    case Obj(ps) =>
      PrunedPropsClean(ps);
      assert Pruned(v) == Obj(PrunedProps(ps));
    case Arr(es) =>
      PrunedElemsClean(es);
      assert Pruned(v) == Arr(PrunedElems(es));
    case _ =>
  }

  lemma {:induction false} PrunedPropsClean(ps: seq<Prop>)
    ensures forall i :: 0 <= i < |PrunedProps(ps)| ==> CleanMember(PrunedProps(ps)[i].val)
    decreases ps, 0
  {
    if ps != [] {
      var last := ps[|ps| - 1];
      var init := PrunedProps(ps[..|ps| - 1]);
      PrunedPropsClean(ps[..|ps| - 1]);
      if Keep(last.val) {
        PrunedIsClean(last.val);
        PrunedKeepsKind(last.val);
        var r := init + [Prop(last.key, Pruned(last.val))];
        assert PrunedProps(ps) == r;
        forall i | 0 <= i < |r| ensures CleanMember(r[i].val) {
          if i < |init| {
            assert r[i] == init[i];
          } else {
            assert r[i].val == Pruned(last.val);
          }
        }
      }
    }
  }

  lemma {:induction false} PrunedElemsClean(es: seq<JsVal>)
    ensures CleanSlots(PrunedElems(es))
    decreases es, 0
  {
    if es != [] {
      var last := es[|es| - 1];
      var init := PrunedElems(es[..|es| - 1]);
      PrunedElemsClean(es[..|es| - 1]);
      if Keep(last) {
        PrunedIsClean(last);
        PrunedKeepsKind(last);
        var holes := Holes(|es| - 1 - |init|);
        var r := init + holes + [Pruned(last)];
        assert PrunedElems(es) == r;
        forall i | 0 <= i < |r| ensures r[i] == Undefined || CleanMember(r[i]) {
          if i < |init| {
            assert r[i] == init[i];
          } else if i < |init| + |holes| {
            assert r[i] == holes[i - |init|];
          }
        }
      }
    }
  }

  /** Objects with distinct keys, none written like an array index, and scalars, with no
      array anywhere. */
  predicate PlainTree(v: JsVal)
    decreases v
  {
    match v
    case Arr(_) => false
    case Obj(ps) => UniqueKeys(ps) && NamedKeys(ps) && PlainMembers(ps)
    case _ => true
  }

  predicate PlainMembers(ps: seq<Prop>)
    decreases ps
  {
    forall i :: 0 <= i < |ps| ==> PlainTree(ps[i].val)
  }

  /** Pruning a tree of objects leaves JSON: `undefined` is gone and no key repeats. */
  lemma {:induction false} PrunedIsJson(v: JsVal)
    requires PlainTree(v) && v != Undefined
    ensures IsJson(Pruned(v))
    decreases v, 1
  {
    match v
    case Obj(ps) =>
      PrunedPropsJson(ps);
      assert Pruned(v) == Obj(PrunedProps(ps));
    case _ =>
  }

  lemma {:induction false} PrunedPropsJson(ps: seq<Prop>)
    requires UniqueKeys(ps) && NamedKeys(ps) && PlainMembers(ps)
    ensures UniqueKeys(PrunedProps(ps)) && NamedKeys(PrunedProps(ps))
    ensures forall i :: 0 <= i < |PrunedProps(ps)| ==> IsJson(PrunedProps(ps)[i].val)
    decreases ps, 0
  {
    if ps != [] {
      var last := ps[|ps| - 1];
      var init := ps[..|ps| - 1];
      var pi := PrunedProps(init);
      InitUnique(ps);
      assert PlainMembers(init) && NamedKeys(init) by {
        forall i | 0 <= i < |init| ensures PlainTree(init[i].val) && !IndexKey(init[i].key) {
          assert init[i] == ps[i];
        }
      }
      PrunedPropsJson(init);
      if Keep(last.val) {
        PrunedIsJson(last.val);
        PrunedKeepsKind(last.val);
        LastKeyAbsent(ps);
        LookupPruned(init, last.key);
        var r := pi + [Prop(last.key, Pruned(last.val))];
        assert PrunedProps(ps) == r;
        forall a, b | 0 <= a < b < |r| ensures r[a].key != r[b].key {
          if b == |pi| {
            assert r[a] == pi[a];
            LookupAt(pi, a);
          } else {
            assert r[a] == pi[a] && r[b] == pi[b];
          }
        }
        forall i | 0 <= i < |r| ensures IsJson(r[i].val) && !IndexKey(r[i].key) {
          if i < |pi| {
            assert r[i] == pi[i];
          }
        }
      }
    }
  }

  /** `prune` leaves scalars alone and keeps objects objects and arrays arrays. */
  lemma PrunedKeepsKind(v: JsVal)
    ensures !v.Obj? && !v.Arr? ==> Pruned(v) == v
    ensures v.Obj? <==> Pruned(v).Obj?
    ensures v.Arr? <==> Pruned(v).Arr?
    ensures Dropped(v) <==> Dropped(Pruned(v))
  {
  }

  /** Reading one member of a pruned object: it is the pruned member when `prune` keeps
      it, and absent otherwise. */
  lemma {:induction false} LookupPruned(ps: seq<Prop>, k: string)
    requires UniqueKeys(ps)
    ensures Lookup(PrunedProps(ps), k) ==
      match Lookup(ps, k)
      case None => None
      case Some(v) => if Keep(v) then Some(Pruned(v)) else None
    decreases ps
  {
    if ps != [] {
      var init := ps[..|ps| - 1];
      var last := ps[|ps| - 1];
      assert ps == init + [last];
      LookupPruned(init, k);
      var tail := if Keep(last.val) then [Prop(last.key, Pruned(last.val))] else [];
      LookupAppend(PrunedProps(init), tail, k);
      LookupAppend(init, [last], k);
      if last.key == k {
        assert Lookup(init, k) == None by {
          forall i | 0 <= i < |init| ensures init[i].key != k {
            assert init[i] == ps[i];
          }
          LookupHasKey(init, k);
        }
      }
    }
  }

  lemma {:induction false} LookupAppend(a: seq<Prop>, b: seq<Prop>, k: string)
    ensures Lookup(a + b, k) == if Lookup(a, k).Some? then Lookup(a, k) else Lookup(b, k)
    decreases a
  {
    if a != [] {
      assert (a + b)[0] == a[0];
      assert (a + b)[1..] == a[1..] + b;
      LookupAppend(a[1..], b, k);
    } else {
      assert a + b == b;
    }
  }

  /** What reading one member of a pruned object gives. */
  function KeptMember(v: JsVal): JsVal
  {
    if Keep(v) then Pruned(v) else Undefined
  }

  /** A member of a pruned object reads as the kept form of the original member. */
  lemma GetPrunedObj(o: JsVal, k: string)
    requires o.Obj? && UniqueKeys(o.props)
    ensures Get(Pruned(o), k) == KeptMember(Get(o, k))
  {
    LookupPruned(o.props, k);
    assert Pruned(o) == Obj(PrunedProps(o.props));
  }

  /** Reading through a nested object: whether `prune` keeps the object or drops it as
      empty, each of its members reads as its own kept form. */
  lemma GetKeptObj(o: JsVal, k: string)
    requires o.Obj? && UniqueKeys(o.props)
    ensures Get(KeptMember(o), k) == KeptMember(Get(o, k))
  {
    GetPrunedObj(o, k);
    if !Keep(o) {
      assert PrunedProps(o.props) == [];
      LookupPruned(o.props, k);
    }
  }

  // ---------- toShort ----------

  /** The four palette inputs `toShort` reads, under their short keys. */
  function PaletteInputs(cfg: JsVal): seq<Prop>
  {
    var p := PaletteSource(cfg);
    [Prop("a", Get(p, "accent")), Prop("n", Get(p, "nav")),
     Prop("bg", Get(p, "background")), Prop("t", Get(p, "text"))]
  }

  /** The value written for one palette input, or nothing. */
  function PaletteEntry(defaults: Option<Defaults>, e: Prop): seq<Prop>
  {
    var v := if Truthy(e.val) then ShortHex(e.val) else Undefined;
    if defaults.None? || (Truthy(v) && v != DefaultOf(defaults.value, e.key)) then [Prop(e.key, v)]
    else []
  }

  /** The palette object after the loop has seen `entries`. */
  function PaletteOf(defaults: Option<Defaults>, entries: seq<Prop>): seq<Prop>
  {
    if entries == [] then []
    else PaletteOf(defaults, entries[..|entries| - 1]) + PaletteEntry(defaults, entries[|entries| - 1])
  }

  /** The `short` object `toShort` builds for a non-null configuration, before `prune`. */
  function ShortObject(cfg: JsVal): JsVal
  {
    ShortObjectWith(cfg, ShortPalette(cfg))
  }

  /** The `short` object around a given palette object. */
  function ShortObjectWith(cfg: JsVal, palette: seq<Prop>): JsVal
  {
    Obj(BaseProps(cfg, palette) + StorefrontProps(cfg) + BannerProps(cfg))
  }

  /** The palette object of the short form. */
  function ShortPalette(cfg: JsVal): seq<Prop>
  {
    PaletteOf(DefaultPalette(Norm(Get(cfg, "industry"))), PaletteInputs(cfg))
  }

  /** The members `toShort` always writes: `i`, `b` and `d`. */
  function BaseProps(cfg: JsVal, palette: seq<Prop>): seq<Prop>
  {
    [Prop("i", Get(cfg, "industry")),
     Prop("b", BrandObject(cfg, palette)),
     Prop("d", Bool(Truthy(Get(cfg, "debug"))))]
  }

  /** The short form's brand object: `c`, `l` and the palette `p`. */
  function BrandObject(cfg: JsVal, palette: seq<Prop>): JsVal
  {
    var brand := Get(cfg, "brand");
    Obj([Prop("c", Or(Get(brand, "companyName"), Str(""))),
         Prop("l", Or(Get(brand, "logoUrl"), Str(""))),
         Prop("p", Obj(palette))])
  }

  /** `ps` and `s`: the preset code when it names a preset, then the storefront only when
      it is set and differs from that preset; otherwise the storefront as given. */
  function StorefrontProps(cfg: JsVal): seq<Prop>
  {
    var pk := Get(cfg, "presetKey");
    var sid := Get(cfg, "storefrontId");
    var url := PresetUrl(ToStr(pk));
    if Truthy(pk) && url.Some? then
      [Prop("ps", pk)] + (if Truthy(sid) && sid != Str(url.value) then [Prop("s", sid)] else [])
    else [Prop("s", sid)]
  }

  /** `bn: 0` only when the banner is switched off with `false` itself. */
  function BannerProps(cfg: JsVal): seq<Prop>
  {
    if Get(cfg, "banner") == Bool(false) then [Prop("bn", Num(0))] else []
  }

  /** `toShort(cfg)` as a value: a null configuration throws when its fields are read. */
  function ShortForm(cfg: JsVal): (r: Outcome<JsVal>)
    ensures r == Throws <==> cfg == Null
    ensures r.Returns? ==> r.value.Obj? && Clean(r.value)
  {
    PrunedIsClean(ShortObject(cfg));
    if cfg == Null then Throws else Returns(Pruned(ShortObject(cfg)))
  }

  /** `prune`, member by member, as the source's loop does it. */
  method Prune(v: JsVal) returns (r: JsVal)
    ensures r == Pruned(v)
    decreases v
  {
    match v {
      case Obj(ps) =>
        var out: seq<Prop> := [];
        var i := 0;
        while i < |ps|
          invariant 0 <= i <= |ps|
          invariant out == PrunedProps(ps[..i])
        {
          assert ps[..i + 1][..i] == ps[..i];
          var k, x := ps[i].key, ps[i].val;
          if !Dropped(x) {
            var pv := Prune(x);
            if !EmptyAfterPrune(pv) {
              out := out + [Prop(k, pv)];
            }
          }
          i := i + 1;
        }
        assert ps[..|ps|] == ps;
        r := Obj(out);
      case Arr(es) =>
        var out: seq<JsVal> := [];
        var i := 0;
        while i < |es|
          invariant 0 <= i <= |es|
          invariant out == PrunedElems(es[..i])
          invariant |out| <= i
        {
          assert es[..i + 1][..i] == es[..i];
          var x := es[i];
          if !Dropped(x) {
            var pv := Prune(x);
            if !EmptyAfterPrune(pv) {
              out := out + Holes(i - |out|) + [pv];
            }
          }
          i := i + 1;
        }
        assert es[..|es|] == es;
        r := Arr(out);
      case _ =>
        r := v;
    }
  }

  /** The palette loop of `toShort`: each present colour is shortened, and kept unless
      the industry has defaults and the colour is missing or equals its default. */
  method BuildPalette(defaults: Option<Defaults>, entries: seq<Prop>) returns (palette: seq<Prop>)
    ensures palette == PaletteOf(defaults, entries)
  {
    palette := [];
    var i := 0;
    while i < |entries|
      invariant 0 <= i <= |entries|
      invariant palette == PaletteOf(defaults, entries[..i])
    {
      assert entries[..i + 1][..i] == entries[..i];
      var k, val := entries[i].key, entries[i].val;
      var v := if Truthy(val) then ShortHex(val) else Undefined;
      if defaults.None? || (Truthy(v) && v != DefaultOf(defaults.value, k)) {
        palette := palette + [Prop(k, v)];
      }
      i := i + 1;
    }
    assert entries[..|entries|] == entries;
  }

  /** The fields `toShort` adds after `i`, `b` and `d`: `ps` for a known preset code,
      with `s` only when the storefront is set and is not that preset's own, otherwise `s`
      alone; then `bn` when the banner is switched off. */
  method ConditionalFields(cfg: JsVal) returns (extra: seq<Prop>)
    ensures extra == StorefrontProps(cfg) + BannerProps(cfg)
  {
    var pk := Get(cfg, "presetKey");
    var sid := Get(cfg, "storefrontId");
    var url := PresetUrl(ToStr(pk));
    extra := [];
    if Truthy(pk) && url.Some? {
      extra := extra + [Prop("ps", pk)];
      if Truthy(sid) && sid != Str(url.value) {
        extra := extra + [Prop("s", sid)];
      }
    } else {
      extra := extra + [Prop("s", sid)];
    }
    assert extra == StorefrontProps(cfg);
    if Get(cfg, "banner") == Bool(false) {
      extra := extra + [Prop("bn", Num(0))];
    }
  }

  /** The `short` object `toShort` assembles before pruning: the palette loop, then the
      conditional fields. */
  method AssembleShort(cfg: JsVal) returns (short: JsVal)
    ensures short == ShortObject(cfg)
  {
    var defaults := DefaultPalette(Norm(Get(cfg, "industry")));
    var entries := PaletteInputs(cfg);
    var palette := BuildPalette(defaults, entries);
    var extra := ConditionalFields(cfg);
    short := Obj(BaseProps(cfg, palette) + extra);
  }

  /** `toShort(cfg)`: a null configuration throws; otherwise the assembled object,
      pruned. */
  method ToShort(cfg: JsVal) returns (r: Outcome<JsVal>)
    ensures r == ShortForm(cfg)
  {
    if cfg == Null {
      r := Throws;
    } else {
      var short := AssembleShort(cfg);
      var pruned := Prune(short);
      r := Returns(pruned);
    }
  }

  // ---------- fromShort ----------

  /** `PRESET_MAP[code]` as a value: the preset's storefront, or `undefined`. */
  function PresetText(code: JsVal): JsVal
  {
    if Truthy(code) && PresetUrl(ToStr(code)).Some? then Str(PresetUrl(ToStr(code)).value) else Undefined
  }

  /** `fromShort(s)`: the configuration a short object stands for. A null short object
      throws when `s.ps` is read; `undefined` takes the default `{}`. */
  function FromShort(s: JsVal): (r: Outcome<JsVal>)
    ensures r == Throws <==> s == Null
    ensures r.Returns? ==>
      && Get(r.value, "industry") == Get(s, "i")
      && Get(r.value, "banner") == Bool(Get(s, "bn") != Num(0))
      && Get(r.value, "debug") == Bool(Truthy(Get(s, "d")))
  {
    if s == Null then Throws
    else
      var ps := Get(s, "ps");
      var b := Get(s, "b");
      var p := Get(b, "p");
      Returns(ConfigObject(
        Get(s, "i"), Or(Or(Get(s, "s"), PresetText(ps)), Str("")), Or(ps, Undefined),
        Or(Get(b, "c"), Str("")), Or(Get(b, "l"), Str("")),
        Get(p, "a"), Get(p, "n"), Get(p, "bg"), Get(p, "t"),
        Bool(Get(s, "bn") != Num(0)), Bool(Truthy(Get(s, "d")))))
  }

  /** The configuration object `fromShort` builds, from its field values. */
  function ConfigObject(industry: JsVal, storefrontId: JsVal, presetKey: JsVal,
                        companyName: JsVal, logoUrl: JsVal,
                        accent: JsVal, nav: JsVal, background: JsVal, text: JsVal,
                        banner: JsVal, debug: JsVal): (r: JsVal)
    ensures r.Obj?
    ensures Get(r, "industry") == industry
    ensures Get(r, "storefrontId") == storefrontId
    ensures Get(r, "presetKey") == presetKey
    ensures Get(r, "brand") == ConfigBrand(companyName, logoUrl, PaletteObject(accent, nav, background, text))
    ensures Get(r, "banner") == banner
    ensures Get(r, "debug") == debug
  {
    var pal := PaletteObject(accent, nav, background, text);
    var brand := ConfigBrand(companyName, logoUrl, pal);
    var head := ConfigHead(industry, storefrontId, presetKey);
    var tail := ConfigTail(brand, banner, debug);
    LookupAppend(head, tail, "industry");
    LookupAppend(head, tail, "storefrontId");
    LookupAppend(head, tail, "presetKey");
    LookupAppend(head, tail, "brand");
    LookupAppend(head, tail, "banner");
    LookupAppend(head, tail, "debug");
    Obj(head + tail)
  }

  /** The first three members of a decoded configuration. */
  function ConfigHead(industry: JsVal, storefrontId: JsVal, presetKey: JsVal): (r: seq<Prop>)
    ensures Lookup(r, "industry") == Some(industry)
    ensures Lookup(r, "storefrontId") == Some(storefrontId)
    ensures Lookup(r, "presetKey") == Some(presetKey)
    ensures Lookup(r, "brand") == None && Lookup(r, "banner") == None && Lookup(r, "debug") == None
  {
    var ps := [Prop("industry", industry), Prop("storefrontId", storefrontId), Prop("presetKey", presetKey)];
    LookupFirst(ps, 1);
    LookupFirst(ps, 2);
    LookupHasKey(ps, "brand");
    LookupHasKey(ps, "banner");
    LookupHasKey(ps, "debug");
    ps
  }

  /** The last three members of a decoded configuration. */
  function ConfigTail(brand: JsVal, banner: JsVal, debug: JsVal): (r: seq<Prop>)
    ensures Lookup(r, "brand") == Some(brand)
    ensures Lookup(r, "banner") == Some(banner)
    ensures Lookup(r, "debug") == Some(debug)
  {
    var ps := [Prop("brand", brand), Prop("banner", banner), Prop("debug", debug)];
    LookupFirst(ps, 1);
    LookupFirst(ps, 2);
    ps
  }

  /** The `palette` member of a decoded configuration. */
  function PaletteObject(accent: JsVal, nav: JsVal, background: JsVal, text: JsVal): (r: JsVal)
    ensures r == Obj([Prop("accent", accent), Prop("nav", nav), Prop("background", background), Prop("text", text)])
    ensures Get(r, "accent") == accent && Get(r, "nav") == nav
    ensures Get(r, "background") == background && Get(r, "text") == text
  {
    var pal := [Prop("accent", accent), Prop("nav", nav), Prop("background", background), Prop("text", text)];
    LookupFirst(pal, 1);
    LookupFirst(pal, 2);
    LookupFirst(pal, 3);
    Obj(pal)
  }

  /** The `brand` member of a decoded configuration. */
  function ConfigBrand(companyName: JsVal, logoUrl: JsVal, palette: JsVal): (r: JsVal)
    ensures Get(r, "companyName") == companyName && Get(r, "logoUrl") == logoUrl
    ensures Get(r, "palette") == palette
  {
    var brand := [Prop("companyName", companyName), Prop("logoUrl", logoUrl), Prop("palette", palette)];
    LookupFirst(brand, 1);
    LookupFirst(brand, 2);
    Obj(brand)
  }

  // ---------- the token ----------

  /** The library calls the codec makes, supplied from outside: lz-string's URI-safe
      compression pair, `JSON.stringify`/`JSON.parse`, and the legacy base64 chain
      `decodeURIComponent(escape(atob(raw)))`. `None` is lz-string's `null`. */
  datatype Externals = Externals(
    compress: string -> string,
    decompress: string -> Option<string>,
    stringify: JsVal -> string,
    parse: string -> Outcome<JsVal>,
    base64Text: string -> Outcome<string>)

  /** A value `JSON.stringify` writes and `JSON.parse` reads back as itself: no
      `undefined` anywhere, no repeated key, and no key that parsing would move ahead of
      the others. */
  predicate IsJson(v: JsVal)
    decreases v
  {
    match v
    case Undefined => false
    case Arr(es) => forall i :: 0 <= i < |es| ==> IsJson(es[i])
    case Obj(ps) => UniqueKeys(ps) && NamedKeys(ps) && forall i :: 0 <= i < |ps| ==> IsJson(ps[i].val)
    case _ => true
  }

  /** A key written like an array index: decimal digits with no leading zero. An object
      read by `JSON.parse` lists such keys first, in numeric order, so an object holding
      one does not come back in the order it was written. (Only indices below 2^32 - 1 are
      moved; the predicate takes in all of them, which only narrows the values above.) */
  predicate IndexKey(k: string)
  {
    && k != []
    && (forall i :: 0 <= i < |k| ==> '0' <= k[i] <= '9')
    && (k[0] == '0' ==> |k| == 1)
  }

  /** No key of `ps` is written like an array index. */
  predicate NamedKeys(ps: seq<Prop>)
  {
    forall i :: 0 <= i < |ps| ==> !IndexKey(ps[i].key)
  }

  /** The laws the libraries keep: decompression inverts compression, parsing inverts
      serialisation of the values `IsJson` admits, and serialised text is never empty. */
  ghost predicate Lawful(x: Externals)
  {
    && (forall s :: x.decompress(x.compress(s)) == Some(s))
    && (forall v :: IsJson(v) ==> x.parse(x.stringify(v)) == Returns(v))
    && (forall v :: x.stringify(v) != "")
  }

  /** `encodeConfigToHash(cfg)` */
  function Encode(cfg: JsVal, x: Externals): (r: Outcome<string>)
    ensures r.Returns? <==> cfg != Null
    ensures r.Returns? ==> |r.value| >= 4 && r.value[..4] == "#v3_"
  {
    match ShortForm(cfg)
    case Throws => Throws
    case Returns(short) => Returns(Token(short, x))
  }

  /** The token with one leading `#` removed. */
  function RawToken(hash: string): string
  {
    if hash != [] && hash[0] == '#' then hash[1..] else hash
  }

  predicate IsV3(raw: string)
  {
    |raw| >= 3 && raw[..3] == "v3_"
  }

  /** The first legacy attempt: lz-string text that is non-empty and parses. */
  function LzJson(raw: string, x: Externals): (r: Option<JsVal>)
    ensures r.Some? <==>
      x.decompress(raw).Some? && x.decompress(raw).value != "" && x.parse(x.decompress(raw).value).Returns?
    ensures r.Some? ==> x.parse(x.decompress(raw).value) == Returns(r.value)
  {
    var lz := x.decompress(raw);
    if lz.Some? && lz.value != "" && x.parse(lz.value).Returns? then Some(x.parse(lz.value).value) else None
  }

  /** The second legacy attempt: base64 text that decodes and parses. */
  function Base64Json(raw: string, x: Externals): (r: Option<JsVal>)
    ensures r.Some? <==> x.base64Text(raw).Returns? && x.parse(x.base64Text(raw).value).Returns?
    ensures r.Some? ==> x.parse(x.base64Text(raw).value) == Returns(r.value)
  {
    var b := x.base64Text(raw);
    if b.Returns? && x.parse(b.value).Returns? then Some(x.parse(b.value).value) else None
  }

  /** The two legacy forms, each attempt's exception swallowed: raw lz-string JSON, then
      base64 JSON, then `null`. */
  function DecodeLegacy(raw: string, x: Externals): (r: JsVal)
    ensures LzJson(raw, x).Some? ==> r == LzJson(raw, x).value
    ensures LzJson(raw, x).None? && Base64Json(raw, x).Some? ==> r == Base64Json(raw, x).value
    ensures LzJson(raw, x).None? && Base64Json(raw, x).None? ==> r == Null
  {
    var lz := x.decompress(raw);
    if lz.Some? && lz.value != "" && x.parse(lz.value).Returns? then x.parse(lz.value).value
    else if x.base64Text(raw).Returns? && x.parse(x.base64Text(raw).value).Returns? then
      x.parse(x.base64Text(raw).value).value
    else Null
  }

  /** `decodeConfigFromHash(hash)`. `Returns(Null)` is the source's `null`. */
  function Decode(hash: string, x: Externals): (r: Outcome<JsVal>)
    ensures hash == "" || hash == "#" ==> r == Returns(Null)
    ensures !IsV3(RawToken(hash)) && RawToken(hash) != "" ==> r == Returns(DecodeLegacy(RawToken(hash), x))
    ensures IsV3(RawToken(hash)) && x.decompress(RawToken(hash)[3..]).Some?
            && x.decompress(RawToken(hash)[3..]).value != ""
            && x.parse(x.decompress(RawToken(hash)[3..]).value).Returns? ==>
      r == FromShort(x.parse(x.decompress(RawToken(hash)[3..]).value).value)
    ensures IsV3(RawToken(hash)) && x.decompress(RawToken(hash)[3..]) in {None, Some("")} ==> r == Returns(Null)
    ensures r == Throws ==>
      && IsV3(RawToken(hash))
      && var json := x.decompress(RawToken(hash)[3..]);
         json.Some? && json.value != ""
         && (x.parse(json.value) == Throws || x.parse(json.value) == Returns(Null))
  {
    var raw := RawToken(hash);
    if raw == "" then Returns(Null)
    else if IsV3(raw) then
      match x.decompress(raw[3..])
      case None => Returns(Null)
      case Some(json) =>
        if json == "" then Returns(Null)
        else
          match x.parse(json)
          case Throws => Throws
          case Returns(v) => FromShort(v)
    else Returns(DecodeLegacy(raw, x))
  }

  /** The `#v3_` token of a short object. */
  function Token(short: JsVal, x: Externals): string
  {
    "#v3_" + x.compress(x.stringify(short))
  }

  /** With lawful libraries, the token of a JSON short object decodes to `fromShort` of
      that object. */
  lemma TokenRoundTrip(short: JsVal, x: Externals)
    requires Lawful(x) && IsJson(short)
    ensures Decode(Token(short, x), x) == FromShort(short)
  {
    var json := x.stringify(short);
    var c := x.compress(json);
    assert x.decompress(c) == Some(json);
    assert x.parse(json) == Returns(short);
    assert RawToken(Token(short, x)) == "v3_" + c;
    assert ("v3_" + c)[3..] == c;
  }

  /** With lawful libraries, decoding an encoded configuration yields `fromShort` of its
      short form, provided that short form is JSON. */
  lemma RoundTrip(cfg: JsVal, x: Externals)
    requires Lawful(x) && ShortForm(cfg).Returns? && IsJson(ShortForm(cfg).value)
    ensures Encode(cfg, x).Returns?
    ensures Decode(Encode(cfg, x).value, x) == FromShort(ShortForm(cfg).value)
  {
    TokenRoundTrip(ShortForm(cfg).value, x);
  }

  /** A `v3_` token whose text is not JSON, or is the JSON `null`, makes decoding throw:
      that branch has no `try`. */
  lemma V3DecodeThrows(t: string, json: string, x: Externals)
    requires x.decompress(t) == Some(json) && json != ""
    requires x.parse(json) == Throws || x.parse(json) == Returns(Null)
    ensures Decode("#v3_" + t, x) == Throws
  {
    assert RawToken("#v3_" + t) == "v3_" + t;
    assert ("v3_" + t)[3..] == t;
  }

  // ---------- what the round trip keeps ----------

  /** The palette object `toShort` reads: `cfg.brand?.palette || {}`. */
  function PaletteSource(cfg: JsVal): JsVal
  {
    Or(Get(Get(cfg, "brand"), "palette"), Obj([]))
  }

  /** A colour field that is a string or absent. */
  predicate ColourField(v: JsVal)
  {
    v.Str? || v == Undefined
  }

  /** A configuration of the shape the app itself builds: string fields, boolean flags,
      and palette colours that are strings or absent. */
  predicate UiConfig(cfg: JsVal)
  {
    && cfg.Obj?
    && Get(cfg, "industry").Str?
    && Get(cfg, "storefrontId").Str?
    && (Get(cfg, "presetKey").Str? || Get(cfg, "presetKey") == Undefined)
    && Get(Get(cfg, "brand"), "companyName").Str?
    && Get(Get(cfg, "brand"), "logoUrl").Str?
    && ColourField(Get(PaletteSource(cfg), "accent"))
    && ColourField(Get(PaletteSource(cfg), "nav"))
    && ColourField(Get(PaletteSource(cfg), "background"))
    && ColourField(Get(PaletteSource(cfg), "text"))
    && Get(cfg, "banner").Bool?
    && Get(cfg, "debug").Bool?
  }

  /** The preset the configuration names, when its code is a known one. */
  function PresetOf(cfg: JsVal): Option<string>
  {
    var pk := Get(cfg, "presetKey");
    if Truthy(pk) then PresetUrl(ToStr(pk)) else None
  }

  /** What a palette colour decodes to: its short form when it is set and, for an
      industry with defaults, differs from that default; otherwise absent. */
  function DecodedColour(cfg: JsVal, k: string, name: string): JsVal
  {
    Colour(DefaultPalette(Norm(Get(cfg, "industry"))), k, Get(PaletteSource(cfg), name))
  }

  /** A colour `val` under short key `k`, against an industry's defaults. */
  function Colour(defaults: Option<Defaults>, k: string, val: JsVal): JsVal
  {
    var v := ShortHex(val);
    if Truthy(val) && (defaults.None? || v != DefaultOf(defaults.value, k)) then v else Undefined
  }

  /** The palette member a lookup in the entries leads to. */
  function EntryValue(d: Option<Defaults>, k: string, val: Option<JsVal>): Option<JsVal>
  {
    match val
    case None => None
    case Some(v) =>
      var e := PaletteEntry(d, Prop(k, v));
      if e == [] then None else Some(e[0].val)
  }

  /** The palette object has one member per kept entry, under the entry's key. */
  lemma {:induction false} LookupPaletteOf(d: Option<Defaults>, entries: seq<Prop>, k: string)
    requires UniqueKeys(entries)
    ensures Lookup(PaletteOf(d, entries), k) == EntryValue(d, k, Lookup(entries, k))
    decreases entries
  {
    if entries != [] {
      var init := entries[..|entries| - 1];
      var last := entries[|entries| - 1];
      InitUnique(entries);
      LookupPaletteOf(d, init, k);
      LookupAppend(PaletteOf(d, init), PaletteEntry(d, last), k);
      assert entries == init + [last];
      LookupAppend(init, [last], k);
      if last.key == k {
        LastKeyAbsent(entries);
        assert last == Prop(k, last.val);
      }
    }
  }

  /** The palette loop never writes a key twice. */
  lemma {:induction false} PaletteOfUnique(d: Option<Defaults>, entries: seq<Prop>)
    requires UniqueKeys(entries)
    ensures UniqueKeys(PaletteOf(d, entries))
    decreases entries
  {
    if entries != [] {
      var init := entries[..|entries| - 1];
      var last := entries[|entries| - 1];
      InitUnique(entries);
      PaletteOfUnique(d, init);
      var pi := PaletteOf(d, init);
      var e := PaletteEntry(d, last);
      if e != [] {
        LastKeyAbsent(entries);
        LookupPaletteOf(d, init, last.key);
        var r := pi + e;
        forall a, b | 0 <= a < b < |r| ensures r[a].key != r[b].key {
          if b >= |pi| {
            assert r[a] == pi[a] && r[b] == e[0];
            LookupAt(pi, a);
          } else {
            assert r[a] == pi[a] && r[b] == pi[b];
          }
        }
      }
    }
  }

  /** Dropping the last member keeps the keys unique. */
  lemma InitUnique(entries: seq<Prop>)
    requires UniqueKeys(entries) && entries != []
    ensures UniqueKeys(entries[..|entries| - 1])
  {
    var init := entries[..|entries| - 1];
    forall a, b | 0 <= a < b < |init| ensures init[a].key != init[b].key {
      assert init[a] == entries[a] && init[b] == entries[b];
    }
  }

  /** The last member's key appears nowhere before it. */
  lemma LastKeyAbsent(entries: seq<Prop>)
    requires UniqueKeys(entries) && entries != []
    ensures Lookup(entries[..|entries| - 1], entries[|entries| - 1].key) == None
  {
    var init := entries[..|entries| - 1];
    var last := entries[|entries| - 1];
    forall j | 0 <= j < |init| ensures init[j].key != last.key {
      assert init[j] == entries[j];
    }
    LookupHasKey(init, last.key);
  }

  /** The first member with a key is what a lookup of that key finds. */
  lemma {:induction false} LookupFirst(ps: seq<Prop>, i: int)
    requires 0 <= i < |ps|
    requires forall j :: 0 <= j < i ==> ps[j].key != ps[i].key
    ensures Lookup(ps, ps[i].key) == Some(ps[i].val)
    decreases i
  {
    if i > 0 {
      LookupFirst(ps[1..], i - 1);
    }
  }

  /** A member present in a list of unique keys is what a lookup of its key finds. */
  lemma {:induction false} LookupAt(ps: seq<Prop>, i: int)
    requires 0 <= i < |ps|
    ensures Lookup(ps, ps[i].key).Some?
    decreases i
  {
    if i > 0 && ps[0].key != ps[i].key {
      LookupAt(ps[1..], i - 1);
    }
  }

  /** Where each configuration field comes from in `fromShort`. */
  lemma FromShortFields(s: JsVal)
    requires s != Null
    ensures FromShort(s).Returns?
    ensures var d := FromShort(s).value;
      var brand := Get(d, "brand");
      var palette := Get(brand, "palette");
      var p := Get(Get(s, "b"), "p");
      && Get(d, "industry") == Get(s, "i")
      && Get(d, "storefrontId") == Or(Or(Get(s, "s"), PresetText(Get(s, "ps"))), Str(""))
      && Get(d, "presetKey") == Or(Get(s, "ps"), Undefined)
      && Get(brand, "companyName") == Or(Get(Get(s, "b"), "c"), Str(""))
      && Get(brand, "logoUrl") == Or(Get(Get(s, "b"), "l"), Str(""))
      && Get(palette, "accent") == Get(p, "a")
      && Get(palette, "nav") == Get(p, "n")
      && Get(palette, "background") == Get(p, "bg")
      && Get(palette, "text") == Get(p, "t")
      && Get(d, "banner") == Bool(Get(s, "bn") != Num(0))
      && Get(d, "debug") == Bool(Truthy(Get(s, "d")))
  {
  }

  /** How `fromShort` reads a pruned short object, member by member. */
  lemma DecodeShort(s: JsVal)
    requires s.Obj? && UniqueKeys(s.props)
    requires Get(s, "b").Obj? && UniqueKeys(Get(s, "b").props)
    requires Get(Get(s, "b"), "p").Obj? && UniqueKeys(Get(Get(s, "b"), "p").props)
    ensures FromShort(Pruned(s)).Returns?
    ensures var d := FromShort(Pruned(s)).value;
      var b := Get(s, "b");
      var p := Get(b, "p");
      var brand := Get(d, "brand");
      var palette := Get(brand, "palette");
      && Get(d, "industry") == KeptMember(Get(s, "i"))
      && Get(d, "storefrontId") == Or(Or(KeptMember(Get(s, "s")), PresetText(KeptMember(Get(s, "ps")))), Str(""))
      && Get(d, "presetKey") == Or(KeptMember(Get(s, "ps")), Undefined)
      && Get(brand, "companyName") == Or(KeptMember(Get(b, "c")), Str(""))
      && Get(brand, "logoUrl") == Or(KeptMember(Get(b, "l")), Str(""))
      && Get(palette, "accent") == KeptMember(Get(p, "a"))
      && Get(palette, "nav") == KeptMember(Get(p, "n"))
      && Get(palette, "background") == KeptMember(Get(p, "bg"))
      && Get(palette, "text") == KeptMember(Get(p, "t"))
      && Get(d, "banner") == Bool(KeptMember(Get(s, "bn")) != Num(0))
      && Get(d, "debug") == Bool(Truthy(KeptMember(Get(s, "d"))))
  {
    var b := Get(s, "b");
    var p := Get(b, "p");
    PrunedKeepsKind(s);
    FromShortFields(Pruned(s));
    GetPrunedObj(s, "i");
    GetPrunedObj(s, "s");
    GetPrunedObj(s, "ps");
    GetPrunedObj(s, "b");
    GetPrunedObj(s, "bn");
    GetPrunedObj(s, "d");
    GetKeptObj(b, "c");
    GetKeptObj(b, "l");
    GetKeptObj(b, "p");
    GetKeptObj(p, "a");
    GetKeptObj(p, "n");
    GetKeptObj(p, "bg");
    GetKeptObj(p, "t");
  }

  /** All keys of `ps` are in `ks`. */
  predicate KeysIn(ps: seq<Prop>, ks: set<string>)
  {
    forall j :: 0 <= j < |ps| ==> ps[j].key in ks
  }

  /** A key outside a list's key set is not found in it. */
  lemma KeyAbsent(ps: seq<Prop>, ks: set<string>, k: string)
    requires KeysIn(ps, ks) && k !in ks
    ensures Lookup(ps, k) == None
  {
    LookupHasKey(ps, k);
  }

  lemma {:induction false} UniqueAppend(a: seq<Prop>, b: seq<Prop>, ka: set<string>, kb: set<string>)
    requires UniqueKeys(a) && UniqueKeys(b) && KeysIn(a, ka) && KeysIn(b, kb) && ka !! kb
    ensures UniqueKeys(a + b) && KeysIn(a + b, ka + kb)
  {
    var c := a + b;
    forall i, j | 0 <= i < j < |c| ensures c[i].key != c[j].key {
      if j < |a| {
        assert c[i] == a[i] && c[j] == a[j];
      } else if i >= |a| {
        assert c[i] == b[i - |a|] && c[j] == b[j - |a|];
      } else {
        assert c[i] == a[i] && c[j] == b[j - |a|];
      }
    }
    forall i | 0 <= i < |c| ensures c[i].key in ka + kb {
      if i < |a| {
        assert c[i] == a[i];
      } else {
        assert c[i] == b[i - |a|];
      }
    }
  }

  /** An object made of three lists with disjoint key sets: each read goes to its list. */
  lemma ThreeParts(a: seq<Prop>, b: seq<Prop>, c: seq<Prop>,
                   ka: set<string>, kb: set<string>, kc: set<string>, k: string)
    requires UniqueKeys(a) && UniqueKeys(b) && UniqueKeys(c)
    requires KeysIn(a, ka) && KeysIn(b, kb) && KeysIn(c, kc)
    requires ka !! kb && ka !! kc && kb !! kc
    ensures UniqueKeys(a + b + c)
    ensures Get(Obj(a + b + c), k) ==
      if k in ka then Get(Obj(a), k) else if k in kb then Get(Obj(b), k) else Get(Obj(c), k)
  {
    UniqueAppend(a, b, ka, kb);
    UniqueAppend(a + b, c, ka + kb, kc);
    LookupAppend(a + b, c, k);
    LookupAppend(a, b, k);
    if k in ka {
      KeyAbsent(b, kb, k);
      KeyAbsent(c, kc, k);
    } else if k in kb {
      KeyAbsent(a, ka, k);
      KeyAbsent(c, kc, k);
    } else {
      KeyAbsent(a, ka, k);
      KeyAbsent(b, kb, k);
    }
  }

  lemma BaseFacts(cfg: JsVal, pal: seq<Prop>)
    ensures var base := BaseProps(cfg, pal);
      && UniqueKeys(base) && KeysIn(base, {"i", "b", "d"})
      && Get(Obj(base), "i") == Get(cfg, "industry")
      && Get(Obj(base), "b") == BrandObject(cfg, pal)
      && Get(Obj(base), "d") == Bool(Truthy(Get(cfg, "debug")))
  {
    var base := BaseProps(cfg, pal);
    LookupFirst(base, 1);
    LookupFirst(base, 2);
  }

  lemma BrandFacts(cfg: JsVal, pal: seq<Prop>)
    ensures var b := BrandObject(cfg, pal);
      var brand := Get(cfg, "brand");
      && b.Obj? && UniqueKeys(b.props)
      && Get(b, "c") == Or(Get(brand, "companyName"), Str(""))
      && Get(b, "l") == Or(Get(brand, "logoUrl"), Str(""))
      && Get(b, "p") == Obj(pal)
  {
    var b := BrandObject(cfg, pal);
    LookupFirst(b.props, 1);
    LookupFirst(b.props, 2);
  }

  lemma StorefrontFacts(cfg: JsVal)
    ensures var sp := StorefrontProps(cfg);
      var sid := Get(cfg, "storefrontId");
      && UniqueKeys(sp) && KeysIn(sp, {"ps", "s"})
      && Get(Obj(sp), "ps") == (if PresetOf(cfg).Some? then Get(cfg, "presetKey") else Undefined)
      && Get(Obj(sp), "s") ==
           (if PresetOf(cfg).None? || (Truthy(sid) && sid != Str(PresetOf(cfg).value)) then sid else Undefined)
  {
    var pk := Get(cfg, "presetKey");
    var sid := Get(cfg, "storefrontId");
    var sp := StorefrontProps(cfg);
    if PresetOf(cfg).Some? {
      var url := PresetOf(cfg).value;
      if Truthy(sid) && sid != Str(url) {
        assert sp == [Prop("ps", pk), Prop("s", sid)];
        LookupFirst(sp, 1);
      } else {
        assert sp == [Prop("ps", pk)];
        LookupOne(sp[0], "ps");
        LookupOne(sp[0], "s");
      }
    } else {
      assert sp == [Prop("s", sid)];
      LookupOne(sp[0], "ps");
      LookupOne(sp[0], "s");
    }
  }

  /** A lookup in a one-member list. */
  lemma LookupOne(p: Prop, k: string)
    ensures Lookup([p], k) == if p.key == k then Some(p.val) else None
  {
    assert [p][1..] == [];
  }

  /** The top-level members of the short object before pruning, read one by one. */
  lemma ShortObjectFacts(cfg: JsVal)
    ensures var s := ShortObject(cfg);
      var sid := Get(cfg, "storefrontId");
      && s.Obj? && UniqueKeys(s.props)
      && Get(s, "i") == Get(cfg, "industry")
      && Get(s, "d") == Bool(Truthy(Get(cfg, "debug")))
      && Get(s, "ps") == (if PresetOf(cfg).Some? then Get(cfg, "presetKey") else Undefined)
      && Get(s, "s") == (if PresetOf(cfg).None? || (Truthy(sid) && sid != Str(PresetOf(cfg).value)) then sid else Undefined)
      && Get(s, "bn") == (if Get(cfg, "banner") == Bool(false) then Num(0) else Undefined)
  {
    ShortWithFacts(cfg, ShortPalette(cfg));
  }

  /** The brand object of the short object before pruning. */
  lemma ShortBrandFacts(cfg: JsVal)
    ensures var b := Get(ShortObject(cfg), "b");
      var brand := Get(cfg, "brand");
      && b.Obj? && UniqueKeys(b.props)
      && Get(b, "p") == Obj(ShortPalette(cfg)) && UniqueKeys(ShortPalette(cfg))
      && Get(b, "c") == Or(Get(brand, "companyName"), Str(""))
      && Get(b, "l") == Or(Get(brand, "logoUrl"), Str(""))
  {
    ShortWithFacts(cfg, ShortPalette(cfg));
    BrandFacts(cfg, ShortPalette(cfg));
    PaletteUnique(cfg, DefaultPalette(Norm(Get(cfg, "industry"))));
  }

  /** The palette object never repeats a key, whatever the defaults. */
  lemma PaletteUnique(cfg: JsVal, d: Option<Defaults>)
    ensures UniqueKeys(PaletteOf(d, PaletteInputs(cfg)))
  {
    var entries := PaletteInputs(cfg);
    assert UniqueKeys(entries);
    PaletteOfUnique(d, entries);
  }

  lemma ShortWithFacts(cfg: JsVal, pal: seq<Prop>)
    ensures var s := ShortObjectWith(cfg, pal);
      var b := Get(s, "b");
      var sid := Get(cfg, "storefrontId");
      var brand := Get(cfg, "brand");
      && s.Obj? && UniqueKeys(s.props)
      && b == BrandObject(cfg, pal)
      && Get(s, "i") == Get(cfg, "industry")
      && Get(s, "d") == Bool(Truthy(Get(cfg, "debug")))
      && Get(s, "ps") == (if PresetOf(cfg).Some? then Get(cfg, "presetKey") else Undefined)
      && Get(s, "s") == (if PresetOf(cfg).None? || (Truthy(sid) && sid != Str(PresetOf(cfg).value)) then sid else Undefined)
      && Get(s, "bn") == (if Get(cfg, "banner") == Bool(false) then Num(0) else Undefined)
  {
    var base := BaseProps(cfg, pal);
    var sp := StorefrontProps(cfg);
    var bp := BannerProps(cfg);
    BaseFacts(cfg, pal);
    StorefrontFacts(cfg);
    BannerFacts(cfg);
    var ka, kb, kc := {"i", "b", "d"}, {"ps", "s"}, {"bn"};
    ThreeParts(base, sp, bp, ka, kb, kc, "i");
    ThreeParts(base, sp, bp, ka, kb, kc, "b");
    ThreeParts(base, sp, bp, ka, kb, kc, "d");
    ThreeParts(base, sp, bp, ka, kb, kc, "ps");
    ThreeParts(base, sp, bp, ka, kb, kc, "s");
    ThreeParts(base, sp, bp, ka, kb, kc, "bn");
  }

  lemma BannerFacts(cfg: JsVal)
    ensures var bp := BannerProps(cfg);
      && UniqueKeys(bp) && KeysIn(bp, {"bn"})
      && Get(Obj(bp), "bn") == (if Get(cfg, "banner") == Bool(false) then Num(0) else Undefined)
  {
    if Get(cfg, "banner") == Bool(false) {
      LookupOne(Prop("bn", Num(0)), "bn");
    }
  }

  /** Numbers and booleans are kept as they are. */
  lemma KeptScalar(v: JsVal)
    requires v.Num? || v.Bool?
    ensures KeptMember(v) == v
  {
    assert !Dropped(v) && Pruned(v) == v;
  }

  /** A non-empty text survives `prune` as it is; an empty one is dropped. */
  lemma KeptText(v: JsVal)
    requires v.Str?
    ensures KeptMember(v) == (if v.s == "" then Undefined else v)
  {
    if v.s != "" {
      assert v != Str("") && Pruned(v) == v;
    }
  }

  /** A set colour shortens to a non-empty text. */
  lemma ShortHexOfText(v: JsVal)
    requires v.Str? && v.s != ""
    ensures ShortHex(v).Str? && ShortHex(v).s != ""
  {
    ShortHexMeaning(v);
  }

  /** One palette entry, as the palette object holds it, through `prune`. */
  lemma EntryKept(d: Option<Defaults>, k: string, val: JsVal)
    requires ColourField(val)
    ensures KeptMember(EntryGet(EntryValue(d, k, Some(val)))) == Colour(d, k, val)
  {
    assert KeptMember(Undefined) == Undefined;
    if Truthy(val) {
      ShortHexOfText(val);
      KeptText(ShortHex(val));
    }
  }

  /** A looked-up member as `Get` reads it. */
  function EntryGet(o: Option<JsVal>): JsVal
  {
    match o
    case Some(v) => v
    case None => Undefined
  }

  /** One palette input, through the palette loop and `prune`. */
  lemma PaletteKept(d: Option<Defaults>, entries: seq<Prop>, i: int)
    requires UniqueKeys(entries) && 0 <= i < |entries| && ColourField(entries[i].val)
    ensures KeptMember(Get(Obj(PaletteOf(d, entries)), entries[i].key)) == Colour(d, entries[i].key, entries[i].val)
  {
    var k := entries[i].key;
    LookupFirst(entries, i);
    LookupPaletteOf(d, entries, k);
    assert Get(Obj(PaletteOf(d, entries)), k) == EntryGet(EntryValue(d, k, Some(entries[i].val)));
    EntryKept(d, k, entries[i].val);
  }

  /** The four palette inputs through the palette loop and `prune`, for any defaults. */
  lemma PaletteInputsKept(cfg: JsVal, d: Option<Defaults>)
    requires var src := PaletteSource(cfg);
      && ColourField(Get(src, "accent")) && ColourField(Get(src, "nav"))
      && ColourField(Get(src, "background")) && ColourField(Get(src, "text"))
    ensures var p := Obj(PaletteOf(d, PaletteInputs(cfg)));
      var src := PaletteSource(cfg);
      && KeptMember(Get(p, "a")) == Colour(d, "a", Get(src, "accent"))
      && KeptMember(Get(p, "n")) == Colour(d, "n", Get(src, "nav"))
      && KeptMember(Get(p, "bg")) == Colour(d, "bg", Get(src, "background"))
      && KeptMember(Get(p, "t")) == Colour(d, "t", Get(src, "text"))
  {
    var entries := PaletteInputs(cfg);
    assert UniqueKeys(entries);
    PaletteKept(d, entries, 0);
    PaletteKept(d, entries, 1);
    PaletteKept(d, entries, 2);
    PaletteKept(d, entries, 3);
  }

  /** The palette of the decoded configuration, colour by colour. */
  lemma DecodedPalette(cfg: JsVal)
    requires UiConfig(cfg)
    ensures var p := Obj(ShortPalette(cfg));
      && KeptMember(Get(p, "a")) == DecodedColour(cfg, "a", "accent")
      && KeptMember(Get(p, "n")) == DecodedColour(cfg, "n", "nav")
      && KeptMember(Get(p, "bg")) == DecodedColour(cfg, "bg", "background")
      && KeptMember(Get(p, "t")) == DecodedColour(cfg, "t", "text")
  {
    PaletteInputsKept(cfg, DefaultPalette(Norm(Get(cfg, "industry"))));
  }

  /** Short-object shape `DecodeShort` reads through. */
  predicate ShortShape(s: JsVal)
  {
    && s.Obj? && UniqueKeys(s.props)
    && Get(s, "b").Obj? && UniqueKeys(Get(s, "b").props)
    && Get(Get(s, "b"), "p").Obj? && UniqueKeys(Get(Get(s, "b"), "p").props)
  }

  /** The top-level fields of a decoded short object, given the members `toShort` wrote:
      `industry`, `sid`, `pk`, the flags, and the preset `pk` names, if any. */
  lemma DecodedTop(s: JsVal, industry: JsVal, sid: JsVal, pk: JsVal, preset: Option<string>,
                   banner: bool, debug: bool)
    requires ShortShape(s) && industry.Str? && sid.Str? && (pk.Str? || pk == Undefined)
    requires preset.Some? ==> pk.Str? && pk.s != "" && PresetText(pk) == Str(preset.value)
    requires && Get(s, "i") == industry
      && Get(s, "d") == Bool(debug)
      && Get(s, "ps") == (if preset.Some? then pk else Undefined)
      && Get(s, "s") == (if preset.None? || (Truthy(sid) && sid != Str(preset.value)) then sid else Undefined)
      && Get(s, "bn") == (if !banner then Num(0) else Undefined)
    ensures FromShort(Pruned(s)).Returns?
    ensures var u := FromShort(Pruned(s)).value;
      && Get(u, "industry") == (if industry == Str("") then Undefined else industry)
      && Get(u, "storefrontId") == (if preset.Some? && sid == Str("") then Str(preset.value) else sid)
      && Get(u, "presetKey") == (if preset.Some? then pk else Undefined)
      && Get(u, "banner") == Bool(banner)
      && Get(u, "debug") == Bool(debug)
  {
    DecodeShort(s);
    KeptText(industry);
    StorefrontBack(Get(s, "s"), Get(s, "ps"), sid, pk, preset);
    if preset.Some? {
      KeptText(pk);
    }
    KeptScalar(Bool(debug));
    KeptScalar(Num(0));
    assert KeptMember(Undefined) == Undefined;
  }

  /** The storefront `fromShort` reads back from the `s` and `ps` members `toShort` wrote. */
  lemma StorefrontBack(sv: JsVal, psv: JsVal, sid: JsVal, pk: JsVal, preset: Option<string>)
    requires sid.Str? && (pk.Str? || pk == Undefined)
    requires preset.Some? ==> pk.Str? && pk.s != "" && PresetText(pk) == Str(preset.value)
    requires psv == (if preset.Some? then pk else Undefined)
    requires sv == (if preset.None? || (Truthy(sid) && sid != Str(preset.value)) then sid else Undefined)
    ensures Or(Or(KeptMember(sv), PresetText(KeptMember(psv))), Str(""))
      == (if preset.Some? && sid == Str("") then Str(preset.value) else sid)
  {
    KeptText(sid);
    assert KeptMember(Undefined) == Undefined;
    if preset.Some? {
      KeptText(pk);
      assert KeptMember(psv) == pk;
    } else {
      assert PresetText(Undefined) == Undefined;
    }
  }

  /** The brand fields of a decoded short object, given what its members keep. */
  lemma DecodedBrand(s: JsVal, company: JsVal, logo: JsVal, a: JsVal, n: JsVal, bg: JsVal, t: JsVal)
    requires ShortShape(s) && company.Str? && logo.Str?
    requires var b := Get(s, "b");
      var p := Get(b, "p");
      && Get(b, "c") == company && Get(b, "l") == logo
      && KeptMember(Get(p, "a")) == a && KeptMember(Get(p, "n")) == n
      && KeptMember(Get(p, "bg")) == bg && KeptMember(Get(p, "t")) == t
    ensures FromShort(Pruned(s)).Returns?
    ensures var brand := Get(FromShort(Pruned(s)).value, "brand");
      var palette := Get(brand, "palette");
      && Get(brand, "companyName") == company && Get(brand, "logoUrl") == logo
      && Get(palette, "accent") == a && Get(palette, "nav") == n
      && Get(palette, "background") == bg && Get(palette, "text") == t
  {
    DecodeShort(s);
    KeptText(company);
    KeptText(logo);
  }

  /** What the top-level fields of a configuration of the app's own shape come back as
      after `toShort` and `fromShort`: an empty industry is lost; an empty storefront is
      filled in from a known preset; an unknown or empty preset code is dropped; the banner
      and debug flags come back unchanged. */
  lemma DecodedConfig(cfg: JsVal)
    requires UiConfig(cfg)
    ensures ShortForm(cfg).Returns? && FromShort(ShortForm(cfg).value).Returns?
    ensures var u := FromShort(ShortForm(cfg).value).value;
      var sid := Get(cfg, "storefrontId");
      && Get(u, "industry") == (if Get(cfg, "industry") == Str("") then Undefined else Get(cfg, "industry"))
      && Get(u, "storefrontId") ==
           (if PresetOf(cfg).Some? && sid == Str("") then Str(PresetOf(cfg).value) else sid)
      && Get(u, "presetKey") == (if PresetOf(cfg).Some? then Get(cfg, "presetKey") else Undefined)
      && Get(u, "banner") == Get(cfg, "banner")
      && Get(u, "debug") == Get(cfg, "debug")
  {
    var s := ShortObject(cfg);
    assert ShortForm(cfg) == Returns(Pruned(s));
    ShortObjectFacts(cfg);
    ShortBrandFacts(cfg);
    var pk := Get(cfg, "presetKey");
    assert PresetOf(cfg).Some? ==> Truthy(pk) && PresetText(pk) == Str(PresetOf(cfg).value);
    DecodedTop(s, Get(cfg, "industry"), Get(cfg, "storefrontId"), pk, PresetOf(cfg),
               Get(cfg, "banner").b, Get(cfg, "debug").b);
  }

  /** What the brand of a configuration of the app's own shape comes back as after
      `toShort` and `fromShort`: name and logo unchanged; a colour equal to the industry's
      default, or unset, absent; any other colour in its shortest form. */
  lemma DecodedBrandConfig(cfg: JsVal)
    requires UiConfig(cfg)
    ensures ShortForm(cfg).Returns? && FromShort(ShortForm(cfg).value).Returns?
    ensures var brand := Get(FromShort(ShortForm(cfg).value).value, "brand");
      var palette := Get(brand, "palette");
      && Get(brand, "companyName") == Get(Get(cfg, "brand"), "companyName")
      && Get(brand, "logoUrl") == Get(Get(cfg, "brand"), "logoUrl")
      && Get(palette, "accent") == DecodedColour(cfg, "a", "accent")
      && Get(palette, "nav") == DecodedColour(cfg, "n", "nav")
      && Get(palette, "background") == DecodedColour(cfg, "bg", "background")
      && Get(palette, "text") == DecodedColour(cfg, "t", "text")
  {
    var s := ShortObject(cfg);
    assert ShortForm(cfg) == Returns(Pruned(s));
    ShortObjectFacts(cfg);
    ShortBrandFacts(cfg);
    DecodedPalette(cfg);
    var brand := Get(cfg, "brand");
    DecodedBrand(s, Get(brand, "companyName"), Get(brand, "logoUrl"),
                 DecodedColour(cfg, "a", "accent"), DecodedColour(cfg, "n", "nav"),
                 DecodedColour(cfg, "bg", "background"), DecodedColour(cfg, "t", "text"));
  }

  /** The short form of a configuration of the app's own shape is JSON, so the round trip
      applies to it. */
  lemma UiShortIsJson(cfg: JsVal)
    requires UiConfig(cfg)
    ensures ShortForm(cfg).Returns? && IsJson(ShortForm(cfg).value)
  {
    ShortIsPlain(cfg);
    PrunedIsJson(ShortObject(cfg));
  }

  /** Before pruning, the short object is a tree of objects over texts, flags and `0`. */
  lemma ShortIsPlain(cfg: JsVal)
    requires UiConfig(cfg)
    ensures PlainTree(ShortObject(cfg))
  {
    PaletteUnique(cfg, DefaultPalette(Norm(Get(cfg, "industry"))));
    PalettePlain(DefaultPalette(Norm(Get(cfg, "industry"))), PaletteInputs(cfg));
    ShortWithPlain(cfg, ShortPalette(cfg));
  }

  lemma ShortWithPlain(cfg: JsVal, pal: seq<Prop>)
    requires UiConfig(cfg) && UniqueKeys(pal) && NamedKeys(pal) && PlainMembers(pal)
    ensures PlainTree(ShortObjectWith(cfg, pal))
  {
    ShortWithFacts(cfg, pal);
    var base := BaseProps(cfg, pal);
    BrandPlain(cfg, pal);
    assert PlainMembers(base) && NamedKeys(base) by {
      forall i | 0 <= i < 3 ensures PlainTree(base[i].val) && !IndexKey(base[i].key) {
        if i == 1 {
          assert base[i].val == BrandObject(cfg, pal);
        }
      }
    }
    StorefrontPlain(cfg);
    BannerPlain(cfg);
    PlainAppend(base, StorefrontProps(cfg));
    PlainAppend(base + StorefrontProps(cfg), BannerProps(cfg));
  }

  lemma BrandPlain(cfg: JsVal, pal: seq<Prop>)
    requires UiConfig(cfg) && UniqueKeys(pal) && NamedKeys(pal) && PlainMembers(pal)
    ensures PlainTree(BrandObject(cfg, pal))
  {
    var b := BrandObject(cfg, pal);
    BrandFacts(cfg, pal);
    forall i | 0 <= i < 3 ensures PlainTree(b.props[i].val) {
      if i == 2 {
        assert b.props[i].val == Obj(pal);
      }
    }
  }

  lemma StorefrontPlain(cfg: JsVal)
    requires UiConfig(cfg)
    ensures PlainMembers(StorefrontProps(cfg)) && NamedKeys(StorefrontProps(cfg))
  {
  }

  lemma BannerPlain(cfg: JsVal)
    ensures PlainMembers(BannerProps(cfg)) && NamedKeys(BannerProps(cfg))
  {
  }

  lemma PlainAppend(a: seq<Prop>, b: seq<Prop>)
    requires PlainMembers(a) && NamedKeys(a) && PlainMembers(b) && NamedKeys(b)
    ensures PlainMembers(a + b) && NamedKeys(a + b)
  {
    forall i | 0 <= i < |a + b| ensures PlainTree((a + b)[i].val) && !IndexKey((a + b)[i].key) {
      if i < |a| {
        assert (a + b)[i] == a[i];
      } else {
        assert (a + b)[i] == b[i - |a|];
      }
    }
  }

  /** The palette loop writes only texts and `undefined` when its inputs are colour fields,
      under keys its inputs have. */
  lemma {:induction false} PalettePlain(d: Option<Defaults>, entries: seq<Prop>)
    requires forall i :: 0 <= i < |entries| ==> ColourField(entries[i].val)
    requires NamedKeys(entries)
    ensures forall i :: 0 <= i < |PaletteOf(d, entries)| ==> ColourField(PaletteOf(d, entries)[i].val)
    ensures PlainMembers(PaletteOf(d, entries)) && NamedKeys(PaletteOf(d, entries))
    decreases entries
  {
    if entries != [] {
      var init := entries[..|entries| - 1];
      var last := entries[|entries| - 1];
      assert NamedKeys(init) by {
        forall i | 0 <= i < |init| ensures !IndexKey(init[i].key) {
          assert init[i] == entries[i];
        }
      }
      PalettePlain(d, init);
      var pi := PaletteOf(d, init);
      var e := PaletteEntry(d, last);
      var r := pi + e;
      forall i | 0 <= i < |r| ensures ColourField(r[i].val) && !IndexKey(r[i].key) {
        if i < |pi| {
          assert r[i] == pi[i];
        } else {
          assert r[i] == e[i - |pi|];
        }
      }
    }
  }

  /** The defaults are compared with the already shortened colour, so a default that has a
      three-digit form is never recognised: white, the background of every industry, is
      written out as `#fff` instead of being omitted. */
  lemma WhiteBackgroundKept(d: Defaults)
    requires d.bg == "#ffffff"
    ensures Colour(Some(d), "bg", Str("#ffffff")) == Str("#fff")
  {
    ShortHexRepeated(Str("#ffffff"), 'f');
    assert ['#', 'f', 'f', 'f'] == "#fff";
    assert Str("#fff") != Str("#ffffff");
  }

  /** A colour whose digits are one repeated digit shortens to three of them. */
  lemma ShortHexRepeated(hex: JsVal, c: char)
    requires hex.Str? && IsLowerHex(c) && hex.s == ['#', c, c, c, c, c, c]
    ensures ShortHex(hex) == Str(['#', c, c, c])
  {
    BodyOfHexText(hex.s);
    assert hex.s[1..] == [c, c, c, c, c, c];
  }
}
