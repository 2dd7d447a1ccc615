# demo-builder in Dafny

A verified model of the decision logic in demo-builder, a React storefront demo that
drives a FastSpring Store Builder Library (SBL) widget. The model covers six parts:

- **The shared-configuration codec** (`src/utils/configUrl.js`). A demo configuration
  becomes a short-key object: palette colours are shortened (`#aabbcc` to `#abc`),
  colours equal to the industry default are dropped, and a preset storefront becomes a
  one-letter key. The short object is pruned, serialised, compressed and written as a
  `#v3_` token. Decoding reverses this and falls back to two legacy token forms.
- **The FastSpring provider** (`src/context/FastSpringContext.jsx`). It is modelled as a
  class `FastSpring.Provider` whose fields are the provider's state: industry, storefront,
  brand, palette, banner flag, load status, the last payload, the catalogue, the cart
  count and the one-slot pending command. The SBL widget is a `Widget` record saying
  whether the widget exists and which calls throw. Every widget call the provider makes
  is appended to an `effects` trace. The cart helpers, the idempotent and forced add,
  the reset → add → checkout flow driven by the data callback, the script status
  lifecycle and the theme merge are all here.
- **Item field resolution** (`src/utils/fsItem.js`): fallback chains for path, name,
  image and price, the discount percent and on-sale decision, and the choice of the
  featured item (largest percent, earliest on ties).
- **The featured banner** (`src/components/FeaturedBanner.jsx`): the contrast colour
  for text on the accent, the item choice, the badge and price text, the visibility
  guards and the default click handlers. The defaults are the shared wrappers of
  `src/hooks/useFsActions.js`, modelled in the module `FsActions`.
- **The e-commerce/AV layout** (`src/layouts/LayoutEcommerceAV.jsx`): its own path and
  price chains, its own discount summary, the featured card and the buy-now handlers.
- **The demo page** (`src/pages/DemoPage.jsx`): applying a decoded link to the provider
  and choosing the layout from the industry.

JavaScript values are the datatype `JsValue.JsVal`. Objects are ordered property lists;
`Get` reads the first property with a key and yields `Undefined` when none has it.
`Truthy`, `Or` (the `||` operator), `ToNumber`, `Trim`, `LowerAscii` and object spread
(`Spread`) follow the language's rules for the values the source handles. A call that
may throw returns an `Outcome` (`Returns(v)` or `Throws`).

Code that loops or updates in place is imperative here:

- `prune`, the palette loop of `toShort` and its conditional fields are methods.
- The cart sums and the legacy cart builder are methods with loop invariants.
- The provider's operations are methods on the class.
- The demo page's effect is a method that assigns the provider's fields.

Each method is proved against a function that specifies it. The properties are proved
about those functions.

Behaviour worth knowing, each proved below:

- A palette colour equal to the white default background is never omitted from a link.
  The defaults are six-digit strings, but they are compared with the shortened form
  (`ConfigUrl.WhiteBackgroundKept`).
- A `v3_` token whose text is not JSON, or is the JSON `null`, makes decoding throw.
  That branch has no `try` (`ConfigUrl.V3DecodeThrows`).
- A colour left out of a link decodes as `undefined`. Spreading it over the industry
  theme, or over the previous palette, sets that key to `undefined`; it is not refilled
  from `INDUSTRY_THEMES` (`FastSpring.OmittedColourNotRefilled`,
  `DemoPage.SharedLinkApplied`).
- `INDUSTRY_THEMES` has no `mobile` or `ecommerce` entry. The layout test lowercases the
  industry but the theme lookup does not. So the Mobile and EcommerceAV layouts always
  use the default theme, and so does the Gaming layout for any spelling but `gaming`
  (`DemoPage.LayoutThemeMismatch`).
- The e-commerce layout's discount rule differs from `fsItem.js`:
  - money off with no percent counts as a sale (`LayoutEcommerceAV.MoneyOffOnlyInLayout`);
  - its path chain has no `code` (`LayoutEcommerceAV.CodeOnlyItemHasNoLayoutPath`);
  - its price chain tries `price` before `unitPrice` (`LayoutEcommerceAV.PriceOrderDiffers`).
- The banner's default handlers are not the provider's actions. The shared add ignores an
  empty path where the provider alerts. The shared buy resets, pushes and opens the
  checkout within the click, where the provider leaves a pending command for its data
  callback (`LayoutEcommerceAV.AddOverrideDiffers`, `LayoutEcommerceAV.BuyOverrideDiffers`).
- The layout computes a featured card and a `buyNowHandler` that it never renders. The
  banner it mounts picks its own item. Both are modelled, and
  `LayoutEcommerceAV.BuyNowGuardsBanner` relates the unused handler to the one it passes.

## Model

| member | source | states |
|---|---|---|
| JsValue.GetSpread | src/context/FastSpringContext.jsx:456 | in `{...a, ...b}` a key of `b` takes `b`'s value, any other key keeps `a`'s |
| JsValue.SpreadUnique | src/pages/DemoPage.jsx:39 | a spread object never holds a key twice |
| JsValue.TrimIdempotent | src/context/FastSpringContext.jsx:365 | trimming a trimmed string changes nothing |
| JsValue.TrimBounds | src/context/FastSpringContext.jsx:99 | a trimmed string neither starts nor ends with white space, and a string without white space is its own trim |
| JsValue.LowerAscii | src/pages/DemoPage.jsx:50 | lowercasing keeps the length and lowers each character in place |
| JsValue.NumberOfDecimal | src/utils/fsItem.js:105 | the decimal text of an integer reads back as that integer |
| ConfigUrl.PresetUrl | src/utils/configUrl.js:7-12 | exactly the codes `m`, `g`, `e` and `s` name a preset, and each names a non-empty storefront |
| ConfigUrl.ShortHex | src/utils/configUrl.js:43-51 | the result is the input itself or a `#` colour of three or six digits, and a string stays a string |
| ConfigUrl.ShortHexMeaning | src/utils/configUrl.js:43-51 | six hex digits (any case, optional `#`) become `#` plus three digits exactly when the three pairs repeat, else `#` plus six; either way expanding the digits gives back the lowercased body; anything else is returned unchanged |
| ConfigUrl.ShortHexIdempotent | src/utils/configUrl.js:43-51 | shortening a shortened colour changes nothing |
| ConfigUrl.ShortHexRepeated | src/utils/configUrl.js:48-49 | `#cccccc` shortens to `#ccc` for every lowercase hex digit `c` |
| ConfigUrl.Pruned | src/utils/configUrl.js:24-40 | pruning keeps objects objects and arrays arrays, and returns every other value unchanged |
| ConfigUrl.PrunedIsClean | src/utils/configUrl.js:24-40 | after pruning, no `undefined`, `""`, `null` or empty object/array remains at any depth |
| ConfigUrl.PrunedIsJson | src/utils/configUrl.js:24-40 | pruning a tree of objects over plain values, with distinct keys none of which is written like an array index, gives JSON: no `undefined` is left and the keys keep both properties |
| ConfigUrl.PrunedKeepsKind | src/utils/configUrl.js:24-40 | pruning returns scalars unchanged, keeps objects objects and arrays arrays, and keeps whether a value is dropped |
| ConfigUrl.GetPrunedObj | src/utils/configUrl.js:27-35 | a key of a pruned object holds the pruned member, or nothing when the member is dropped |
| ConfigUrl.Prune | src/utils/configUrl.js:24-40 | the loop over entries computes the recursive pruned value |
| ConfigUrl.BuildPalette | src/utils/configUrl.js:65-68 | the palette loop computes the palette of the four entries against the defaults |
| ConfigUrl.LookupPaletteOf | src/utils/configUrl.js:65-68 | each short key holds its entry's shortened colour when there are no defaults or the colour is set and differs from the default, else nothing |
| ConfigUrl.PaletteOfUnique | src/utils/configUrl.js:65-68 | the palette loop never writes a key twice when its entries have distinct keys |
| ConfigUrl.PaletteKept | src/utils/configUrl.js:66-67 | what survives pruning under a palette key is the shortened colour, or nothing when it is unset or equals the default |
| ConfigUrl.WhiteBackgroundKept | src/utils/configUrl.js:16-19 | a white background shortens to `#fff` and is kept, although every default background is white |
| ConfigUrl.ConditionalFields | src/utils/configUrl.js:81-91 | the preset and banner fields are the storefront part followed by the banner part |
| ConfigUrl.StorefrontFacts | src/utils/configUrl.js:81-88 | `ps` is written only for a known preset key; `s` is then written only when the storefront is set and differs from the preset URL, and always when there is no known preset |
| ConfigUrl.BannerFacts | src/utils/configUrl.js:91 | `bn` is `0` exactly when `banner` is `false`, and absent otherwise |
| ConfigUrl.AssembleShort | src/utils/configUrl.js:70-91 | the short object is built as specified: industry, brand, debug, then the conditional fields |
| ConfigUrl.ShortObjectFacts | src/utils/configUrl.js:70-91 | the short object has unique keys; `i` is the industry, `d` the debug flag as a boolean, and `ps`, `s`, `bn` are as above |
| ConfigUrl.ShortBrandFacts | src/utils/configUrl.js:72-76 | `b.c` and `b.l` are the company name and logo URL or `""`, and `b.p` is the palette |
| ConfigUrl.ShortForm | src/utils/configUrl.js:53-94 | `toShort` throws exactly for a `null` configuration, and otherwise gives an object with nothing left to prune |
| ConfigUrl.UiShortIsJson | src/utils/configUrl.js:53-94 | the short form of every configuration of the builder's own shape is JSON (no `undefined`, distinct keys, no key written like an array index), so the round trip applies to it |
| ConfigUrl.ToShort | src/utils/configUrl.js:53-94 | `toShort` is the pruned short object, and throws only for a `null` configuration |
| ConfigUrl.FromShort | src/utils/configUrl.js:96-117 | `fromShort` throws exactly for `null`; otherwise `industry` is `i`, `banner` is `false` exactly when `bn` is `0`, and `debug` is `!!d` |
| ConfigUrl.FromShortFields | src/utils/configUrl.js:96-117 | `storefrontId` is `s`, else the preset URL of `ps`, else `""`; `banner` is `false` exactly when `bn` is `0`; `debug` is `!!d`; the brand and palette fields read `b.c`, `b.l` and `b.p` |
| ConfigUrl.DecodeShort | src/utils/configUrl.js:93-117 | `fromShort` of a pruned short object reads each field as what pruning kept of it |
| ConfigUrl.ConfigObject | src/utils/configUrl.js:100-116 | the configuration object a link carries holds each given field under its own key |
| ConfigUrl.StorefrontBack | src/utils/configUrl.js:80-88 | a storefront `toShort` wrote back reads as itself through `fromShort`, except that an empty one next to a known preset comes back as that preset's storefront |
| ConfigUrl.PaletteObject | src/utils/configUrl.js:105-110 | the decoded palette holds each given colour under its own key |
| ConfigUrl.Encode | src/utils/configUrl.js:119-122 | encoding succeeds for every configuration but `null`, and the token starts with `#v3_` |
| ConfigUrl.Decode | src/utils/configUrl.js:124-144 | `""` and `#` decode to `null`; a `v3_` token whose text parses decodes to `fromShort` of it, and one that decompresses to nothing decodes to `null`; only a `v3_` token whose text fails to parse or parses to `null` throws; any other token decodes by the legacy rule |
| ConfigUrl.DecodeLegacy | src/utils/configUrl.js:134-143 | a legacy token that lz-decompresses to non-empty text that parses reads as that JSON; failing that, one whose base64 text parses reads as that JSON; otherwise `null` |
| ConfigUrl.LzJson | src/utils/configUrl.js:134-137 | the lz attempt succeeds exactly when decompression gives non-empty text that parses, and yields the parsed value |
| ConfigUrl.Base64Json | src/utils/configUrl.js:138-141 | the base64 attempt succeeds exactly when the base64 text parses, and yields the parsed value |
| ConfigUrl.TokenRoundTrip | src/utils/configUrl.js:119-131 | with lz-string and JSON round-tripping, the token of a JSON short object decodes to `fromShort` of it |
| ConfigUrl.RoundTrip | src/utils/configUrl.js:119-131 | with lz-string and JSON round-tripping, `decode(encode(cfg))` is `fromShort(toShort(cfg))` |
| ConfigUrl.V3DecodeThrows | src/utils/configUrl.js:131 | a `v3_` token whose text is not JSON, or is `null`, makes decoding throw |
| ConfigUrl.DecodedConfig | src/utils/configUrl.js:53-117 | after a round trip through the short form: a non-empty industry is kept (empty becomes `undefined`); the storefront is kept, or becomes the preset URL when empty with a known preset; the preset key is kept for a known preset; banner and debug are kept |
| ConfigUrl.DecodedBrandConfig | src/utils/configUrl.js:53-117 | after a round trip the company name and logo URL are kept, and each colour is its shortened form, or `undefined` when unset or equal to the industry default |
| ConfigUrl.DecodedPalette | src/utils/configUrl.js:65-111 | what each short palette key carries through pruning is the decoded colour of its entry |
| FsItem.FirstOf | src/utils/fsItem.js:4-5 | a fallback chain yields the first truthy field, or the fallback when every field is falsy |
| FsItem.PathOf | src/utils/fsItem.js:4-5 | the path is truthy, or `""` exactly when `path`, `product`, `sku`, `id` and `code` are all falsy |
| FsItem.NameOf | src/utils/fsItem.js:7-8 | the name is always truthy, and `"Product"` when every name field is falsy |
| FsItem.ImgOf | src/utils/fsItem.js:10-15 | the image is truthy, or `""` exactly when every image field and the first of `images` are falsy |
| FsItem.PriceOf | src/utils/fsItem.js:17-18 | the price is truthy, or `""` exactly when `unitPrice`, `price` and `priceTotal` are all falsy |
| FsItem.FirstOffered | src/utils/fsItem.js:67-73 | the set percent is that of the first offer with a positive percent, and 0 exactly when no offer has one |
| FsItem.DiscountInfo | src/utils/fsItem.js:58-117 | a falsy item gives the bare not-on-sale result; otherwise the percent comes from the applied fields when a discount is applied, else from the offer set; on sale exactly when the percent is positive; the percent text is `"<pct>%"` on sale and `""` otherwise; without a numeric price the current text is `priceOf` and the original text `""` |
| FsItem.PercentTextReadsBack | src/utils/fsItem.js:105 | an on-sale percent text ends in `%` and the rest reads back as the percent |
| FsItem.SetPercentDecides | src/utils/fsItem.js:67-82 | with no applied discount, an item is on sale exactly when some offer has a positive percent |
| FsItem.Scores | src/utils/fsItem.js:128-130 | each item is scored by its own discount |
| FsItem.BestIndex | src/utils/fsItem.js:127-134 | a chosen index is in range and on sale |
| FsItem.BestIndexIsBest | src/utils/fsItem.js:127-134 | the chosen index is on sale, has the largest percent and comes first among equals; there is none exactly when nothing is on sale |
| FsItem.BestIsUnique | src/utils/fsItem.js:133-134 | the best index is unique |
| FsItem.PickFeatured | src/utils/fsItem.js:123-140 | no items gives no item; with the preference and an on-sale item the result is a best item; otherwise the first item; the summary is always that item's discount |
| FastSpring.ThemeFor | src/context/FastSpringContext.jsx:31-67 | an industry with a theme of its own selects that theme, any other selects the default theme; either is an object with unique keys |
| FastSpring.Theme | src/context/FastSpringContext.jsx:454-457 | the theme is an object with unique keys |
| FastSpring.ThemeMember | src/context/FastSpringContext.jsx:454-457 | a theme key comes from the palette when the palette has it, else from the industry theme |
| FastSpring.MobileAndEcommerceUseDefault | src/context/FastSpringContext.jsx:31-67 | `mobile` and `ecommerce` have no theme of their own and take the default |
| FastSpring.QtyOf | src/context/FastSpringContext.jsx:73 | an item's quantity is never 0: its number when non-zero, else 1 |
| FastSpring.MissingQuantityIsOne | src/context/FastSpringContext.jsx:73 | a missing or zero quantity counts as one |
| FastSpring.SumQtyAppend | src/context/FastSpringContext.jsx:73 | the quantity sum is additive over concatenation |
| FastSpring.SelectedOf | src/context/FastSpringContext.jsx:92 | a group's selected items are exactly its items marked selected |
| FastSpring.SelectedMembers | src/context/FastSpringContext.jsx:85-95 | the legacy cart holds exactly the selected items of the groups |
| FastSpring.CartItemsArray | src/context/FastSpringContext.jsx:85-95 | the loop computes the cart items: `items` verbatim when it is an array, else the selected items of every group in order |
| FastSpring.SumItemQty | src/context/FastSpringContext.jsx:72-74 | the `reduce` computes the quantity sum of the v1 items |
| FastSpring.SumSelectedQty | src/context/FastSpringContext.jsx:75-82 | the nested loops compute the quantity sum of the selected items |
| FastSpring.SumGroupSelectedQty | src/context/FastSpringContext.jsx:79-81 | the inner loop adds the quantity of each selected item of one group, a quantity that is not a non-zero number counting as 1 |
| FastSpring.ComputeCartQty | src/context/FastSpringContext.jsx:71-83 | the cart count is the quantity sum of the cart items in both payload shapes |
| FastSpring.MatchIgnoresSpaces | src/context/FastSpringContext.jsx:97-100 | matching a path ignores surrounding white space in the target |
| FastSpring.ItemMatchesOwnPath | src/context/FastSpringContext.jsx:97-100 | an item matches its own non-empty `path` |
| FastSpring.ProductPathOf | src/context/FastSpringContext.jsx:356-366 | the product path is trimmed, and a non-empty string argument gives its own trim |
| FastSpring.ProductPathTrimmed | src/context/FastSpringContext.jsx:365 | the product path is its own trim |
| FastSpring.ProductPathOfItem | src/context/FastSpringContext.jsx:356-366 | for an item, the product path is the trimmed `pathOf` when that is a string, else `""` |
| FastSpring.CountsAppend | src/context/FastSpringContext.jsx:250-280 | pushes and checkouts in a trace add up over concatenation |
| FastSpring.CountsOne | src/context/FastSpringContext.jsx:250-280 | a single effect counts one push or one checkout exactly when it is one |
| FastSpring.HasMatchMeans | src/context/FastSpringContext.jsx:253 | `hasItem` holds exactly when some cart item matches the pending path |
| FastSpring.PendingStep | src/context/FastSpringContext.jsx:250-280 | one callback makes at most one widget call, and the slot either stays, empties, or becomes the same command marked added |
| FastSpring.StepSpendsBudget | src/context/FastSpringContext.jsx:250-280 | one callback makes at most one widget call, never more pushes or checkouts than the pending command still allows, and never changes the command's path or checkout flag |
| FastSpring.AtMostOnePush | src/context/FastSpringContext.jsx:250-280 | over any sequence of callbacks, a pending command pushes at most once and checks out at most once (and never when not asked) |
| FastSpring.SingleSelectFlow | src/context/FastSpringContext.jsx:254-279 | an empty cart then a cart holding the item gives exactly one push of quantity 1, one checkout, and an empty slot |
| FastSpring.StepFoundAfterPush | src/context/FastSpringContext.jsx:267-279 | once added, a matching item triggers the requested checkout and clears the slot |
| FastSpring.CatalogProducts | src/context/FastSpringContext.jsx:238-245 | the catalogue step throws exactly when `groups` has a truthy length and is not an array or holds a nullish group; otherwise it gives the items of the groups in order, or nothing when `groups` is not an array |
| FastSpring.CatalogMembers | src/context/FastSpringContext.jsx:239-241 | the catalogue holds exactly the items of the groups |
| FastSpring.LegacyCartInCatalog | src/context/FastSpringContext.jsx:85-95 | every legacy cart item is in the catalogue |
| FastSpring.Guarded | src/context/FastSpringContext.jsx:378-382 | a guarded call to a present widget starts with that call, and a call to an absent one does nothing |
| FastSpring.AddPlan | src/context/FastSpringContext.jsx:369-390 | the add only alerts exactly when the path is empty; otherwise it does nothing exactly when there is no widget |
| FastSpring.ForcePlan | src/context/FastSpringContext.jsx:393-407 | the forced add only alerts exactly when the path is empty; otherwise it does nothing exactly when there is no widget |
| FastSpring.SelectPlan | src/context/FastSpringContext.jsx:410-428 | an empty path only alerts and keeps the slot; otherwise the slot ends empty or holding the new command; it throws only when the reset throws |
| FastSpring.GuardedCalls | src/context/FastSpringContext.jsx:378-382 | a guarded widget call issues only that call, and pushes once exactly when it is a push to a present widget |
| FastSpring.AddIsIdempotent | src/context/FastSpringContext.jsx:369-390 | an empty path only alerts; a path already in the cart issues only `update(path, 1)` and never pushes; otherwise one push of quantity `max(1, qty)` |
| FastSpring.ForceAlwaysPushes | src/context/FastSpringContext.jsx:393-407 | a forced add always pushes quantity `max(1, qty)` first |
| FastSpring.SelectSchedulesOrFallsBack | src/context/FastSpringContext.jsx:410-428 | when reset succeeds the slot holds the new command and nothing is pushed yet; when reset throws the path is pushed once, checked out only if asked, and the slot is cleared |
| FastSpring.FallbackFailureKeepsPending | src/context/FastSpringContext.jsx:416-424 | when both reset and the fallback push throw, the command stays in the slot and the next empty-cart callback pushes it |
| FastSpring.InitialPalette | src/context/FastSpringContext.jsx:149-160 | the first palette is an object with unique keys: locked, the theme of the link's industry over the link's palette; otherwise the `saas` theme |
| FastSpring.OmittedColourNotRefilled | src/context/FastSpringContext.jsx:149-153 | a colour the link leaves out stays `undefined` in the locked palette and in the theme |
| FastSpring.Provider.constructor | src/context/FastSpringContext.jsx:114-187 | given the decoded configuration, the first render takes each field from a locking link when it is truthy, else its default; the palette is the initial palette; the banner shows unless the link turns it off; nothing is loaded or pending |
| FastSpring.Mount | src/context/FastSpringContext.jsx:104-114 | the provider decodes the hash while rendering: no provider mounts exactly when decoding throws, and otherwise it starts from the decoded configuration |
| FastSpring.Provider.OnDataCallback | src/context/FastSpringContext.jsx:232-280 | a payload sets the data and the cart count, replaces the catalogue, and advances the pending command by one step; if the catalogue step throws, the command is left as it was |
| FastSpring.Provider.AdvancePending | src/context/FastSpringContext.jsx:250-280 | the slot and the trace move by one step of the pending flow |
| FastSpring.Provider.AddToCart | src/context/FastSpringContext.jsx:369-390 | the trace grows by the idempotent add plan for the product path and the current cart |
| FastSpring.Provider.AddToCartForce | src/context/FastSpringContext.jsx:393-407 | the trace grows by the forced add plan |
| FastSpring.Provider.SelectSingleAndCheckout | src/context/FastSpringContext.jsx:410-428 | the slot and the trace follow the select plan, and the method reports whether the fallback threw |
| FastSpring.Provider.Checkout | src/context/FastSpringContext.jsx:430-437 | the trace grows by one guarded checkout |
| FastSpring.Provider.RefreshProducts | src/context/FastSpringContext.jsx:439-445 | the trace grows by one guarded reset |
| FastSpring.Provider.LoadScript | src/context/FastSpringContext.jsx:307-353 | with no storefront nothing changes; otherwise the error clears and the status is ready (with a reset) when the script is already loaded, else loading |
| FastSpring.Provider.MarkReady | src/context/FastSpringContext.jsx:334-340 | the status becomes ready and a reset is issued |
| FastSpring.Provider.OnScriptLoad | src/context/FastSpringContext.jsx:345 | a loaded script marks the provider ready |
| FastSpring.Provider.OnScriptError | src/context/FastSpringContext.jsx:346-349 | a failed script sets the error status and its message |
| FsActions.SharedAdd | src/hooks/useFsActions.js:11-20 | a falsy path does nothing; inside the provider the provider's add with quantity 1; otherwise an alert without a widget, else one unguarded push of quantity 1 that throws when the widget rejects it |
| FsActions.SharedAddBounded | src/hooks/useFsActions.js:11-20 | the shared add pushes at most once, never opens the checkout, and throws only on the direct push |
| FsActions.SharedSelectFlow | src/hooks/useFsActions.js:46-53 | the shared buy pushes at most once and checks out at most once; without a widget it only alerts; with a working one it resets, pushes one unit and checks out, in that order; it throws exactly when one of those calls does |
| FeaturedBanner.ReadableText | src/components/FeaturedBanner.jsx:13-23 | the text colour is always `#000` or `#fff` |
| FeaturedBanner.ReadableTextMeaning | src/components/FeaturedBanner.jsx:13-23 | the text is `#fff` exactly when the colour (three digits expanded) is six hex digits with `299r + 587g + 114b < 128000` |
| FeaturedBanner.HashedColourText | src/components/FeaturedBanner.jsx:13-23 | for `#` followed by six hex digits, the text is `#fff` exactly when the weighted channel sum is below 128000 |
| FeaturedBanner.SixDigits | src/components/FeaturedBanner.jsx:17 | six hex digits read as the three channel bytes |
| FeaturedBanner.Channels | src/components/FeaturedBanner.jsx:18-20 | the shifts and masks recover the three channels |
| FeaturedBanner.ShortColourSameText | src/components/FeaturedBanner.jsx:15 | a three-digit colour gets the same text as its six-digit expansion |
| FeaturedBanner.MissingColourTakesWhite | src/components/FeaturedBanner.jsx:13 | with no colour, the black default gives white text |
| FeaturedBanner.DefaultAccentTakesBlack | src/components/FeaturedBanner.jsx:106-107 | the default accent `#06b6d4` gets black text |
| FeaturedBanner.Chosen | src/components/FeaturedBanner.jsx:62-64 | an explicit item wins with its own discount; otherwise the featured pick |
| FeaturedBanner.BannerView | src/components/FeaturedBanner.jsx:61-98 | with nothing chosen the view is blank; otherwise it shows the chosen item with its discount, path, name and image |
| FeaturedBanner.ChosenSummary | src/components/FeaturedBanner.jsx:62-64 | the chosen item's summary is its own discount |
| FeaturedBanner.BadgeNamesPercent | src/components/FeaturedBanner.jsx:79-88 | on sale, the badge is `SALE <pct>` (never bare `SALE`, as the percent text is never empty), the price is the current text and the percent reads back; otherwise the badge is the label or `""` and the price is `priceOf` |
| FeaturedBanner.ChosenBadge | src/components/FeaturedBanner.jsx:79-98 | the view of a chosen item carries that item and its discount, with the badge and price above |
| FeaturedBanner.RendersIffChosen | src/components/FeaturedBanner.jsx:101-102 | the banner renders exactly when visible and an item is chosen |
| FeaturedBanner.OriginalShownWhenPriced | src/components/FeaturedBanner.jsx:157 | the original price shows exactly when the item is on sale with a numeric price |
| FeaturedBanner.AddClick | src/components/FeaturedBanner.jsx:110 | no add button with only the primary action; otherwise the given handler, else the shared add wrapper |
| FeaturedBanner.BuyClick | src/components/FeaturedBanner.jsx:111-112 | buy runs the given handler, else the shared select-and-checkout wrapper |
| LayoutEcommerceAV.PathOfAV | src/layouts/LayoutEcommerceAV.jsx:7 | the layout path is truthy, or `""` exactly when `path`, `product`, `sku` and `id` are all falsy |
| LayoutEcommerceAV.PriceOfAV | src/layouts/LayoutEcommerceAV.jsx:10-11 | the layout price is truthy, or `""` exactly when `price`, `priceTotal`, `unitPrice` and `pricing.price` are all falsy |
| LayoutEcommerceAV.PathOfAgrees | src/layouts/LayoutEcommerceAV.jsx:7 | the layout path is the shared `pathOf` except where only `code` is set |
| LayoutEcommerceAV.CodeOnlyItemHasNoLayoutPath | src/layouts/LayoutEcommerceAV.jsx:7 | an item with only a `code` has no layout path, though the shared `pathOf` finds one |
| LayoutEcommerceAV.PriceOrderDiffers | src/layouts/LayoutEcommerceAV.jsx:10-11 | with both `price` and `unitPrice`, the layout shows `price` where `fsItem.js` shows `unitPrice` |
| LayoutEcommerceAV.PercentNum | src/layouts/LayoutEcommerceAV.jsx:34-38 | a truthy numeric `discountPercentValue` wins; the result is a truthy number or the first offer's percent |
| LayoutEcommerceAV.DiscountInfoAV | src/layouts/LayoutEcommerceAV.jsx:32-62 | not on sale exactly when neither a positive percent nor money off exists; on sale, the current text is the first truthy `total`, `unitPrice` or `price`, else `""`, and the original text the first truthy `price` or `unitPrice`, else the current text |
| LayoutEcommerceAV.PercentTextChoice | src/layouts/LayoutEcommerceAV.jsx:49-51 | a non-empty string `discountPercent` wins, else `"<percentNum>%"`, else no percent text |
| LayoutEcommerceAV.PercentTextReadsBackAV | src/layouts/LayoutEcommerceAV.jsx:51 | a computed percent text ends in `%` and reads back as the percent |
| LayoutEcommerceAV.MoneyOffWithoutPercent | src/layouts/LayoutEcommerceAV.jsx:40-51 | money off with no percent is a sale without percent text |
| LayoutEcommerceAV.NonPositivePercentNotOnSale | src/layouts/LayoutEcommerceAV.jsx:44-46 | a non-positive percent without money off is not a sale |
| LayoutEcommerceAV.MoneyOffOnlyInLayout | src/layouts/LayoutEcommerceAV.jsx:40-44 | an item with only `unitDiscountValue: 5` is on sale here but not in `fsItem.js` |
| LayoutEcommerceAV.FeaturedCard | src/layouts/LayoutEcommerceAV.jsx:133-148 | no first item gives the empty card; otherwise the card is the first item's path, discount and truthy name, and its price is the current text on sale, else the layout price |
| LayoutEcommerceAV.BuyNow | src/layouts/LayoutEcommerceAV.jsx:150-158 | no path does nothing; otherwise select-and-checkout when available, else add then checkout |
| LayoutEcommerceAV.BannerBuyNow | src/layouts/LayoutEcommerceAV.jsx:229-236 | the banner's buy handler is the provider's select-and-checkout when available, else its add followed by its checkout |
| LayoutEcommerceAV.BannerAdd | src/layouts/LayoutEcommerceAV.jsx:228 | the banner's add handler is the idempotent add |
| LayoutEcommerceAV.BuyNowGuardsBanner | src/layouts/LayoutEcommerceAV.jsx:150-158 | the unused handler is the banner's handler guarded by a path |
| LayoutEcommerceAV.AddOverrideDiffers | src/layouts/LayoutEcommerceAV.jsx:228 | the layout replaces the shared add with the provider's: on a truthy path both give the same effects; on a falsy one the shared add is silent while the provider's alerts |
| LayoutEcommerceAV.BuyOverrideDiffers | src/layouts/LayoutEcommerceAV.jsx:229-236 | the layout replaces the shared buy with the provider's: when the reset works the provider only resets and leaves the command pending, while the shared buy resets, pushes and checks out at once, or alerts without a widget |
| LayoutEcommerceAV.MountedBannerRenders | src/layouts/LayoutEcommerceAV.jsx:223-236 | a mounted banner over truthy products always renders |
| DemoPage.LayoutFor | src/pages/DemoPage.jsx:49-58 | after lowercasing, Gaming exactly for `gaming` and `gaming store`, Mobile exactly for `mobile` and `mobile apps`, EcommerceAV exactly for `ecommerce`, `audio` and `video`; SaaS otherwise |
| DemoPage.LayoutIgnoresCase | src/pages/DemoPage.jsx:50 | the layout of an industry is that of its lowercase form |
| DemoPage.NoIndustryIsSaaS | src/pages/DemoPage.jsx:50-58 | a missing industry gives the SaaS layout |
| DemoPage.LayoutThemeMismatch | src/pages/DemoPage.jsx:50-54 | the Mobile and EcommerceAV layouts always get the default theme, and the Gaming layout does for any spelling but `gaming` |
| DemoPage.Apply | src/pages/DemoPage.jsx:30-43 | each text setting keeps its value or takes a truthy value from the link; without a palette the palette is kept; the banner shows unless the link says `false` |
| DemoPage.ApplyMergesPalette | src/pages/DemoPage.jsx:38-40 | after applying a link, a palette key the link holds takes its value, including `undefined`, and any other key keeps the previous value |
| DemoPage.ApplyTwice | src/pages/DemoPage.jsx:25-47 | applying the same link twice leaves every setting and every palette key as applying it once |
| DemoPage.ApplyHash | src/pages/DemoPage.jsx:25-47 | the effect throws exactly when decoding does; a `null` decode changes nothing; otherwise the settings become the link applied to the previous ones |
| DemoPage.ApplyConfig | src/pages/DemoPage.jsx:30-43 | each truthy field is set, the palette is spread, and the banner is shown unless the link says `false` |
| DemoPage.ConfigPalette | src/pages/DemoPage.jsx:38 | a configuration object is truthy and its palette holds exactly the four colours |
| DemoPage.FromShortPalette | src/pages/DemoPage.jsx:38-39 | every decoded link has a palette object with the four colour keys |
| DemoPage.ApplyDecoded | src/pages/DemoPage.jsx:30-43 | applying a decoded link sets the truthy fields, the banner flag and every palette colour from the link |
| DemoPage.ApplyStorefront | src/pages/DemoPage.jsx:31 | the storefront after a link is the link's own when set, else the preset's, else the previous one |
| DemoPage.SharedLinkApplied | src/pages/DemoPage.jsx:25-43 | opening a link the builder made from any configuration of its own shape sets the truthy industry, storefront (the preset's storefront when the link has a preset and no storefront), company and logo, the banner flag, and each colour to the link's decoded colour, which is `undefined` when the colour was omitted |

## Left out

- lz-string, `JSON.stringify`/`JSON.parse` and the base64 chain are the record
  `ConfigUrl.Externals`. The laws assumed of them are the predicate `ConfigUrl.Lawful`, a
  requirement of the round-trip lemmas.
- ConfigUrl.Lawful: parsing is assumed to invert serialisation only for values of
  `ConfigUrl.IsJson`. That excludes `undefined`, repeated keys and every key written like
  an array index (such as `"1"`), because `JSON.parse` moves those keys to the front of
  their object. The model says nothing about the order `JSON.parse` gives such objects.
- ConfigUrl.RoundTrip: holds only for short forms that are JSON in that sense. Every short
  form of a configuration of the builder's own shape is (`ConfigUrl.UiShortIsJson`); one
  whose `industry` is an object with a key like `"1"` is not covered.
- `PRESET_MAP`, `DEFAULT_PALETTES` and `INDUSTRY_THEMES` are looked up by own keys only.
  A key such as `constructor` would find an inherited property of `Object.prototype` in
  the source.
- DOM work in the provider is not modelled: creating and tagging the script element,
  the `setTimeout` around the ready reset, installing the global callbacks,
  `onFSPopupClosed` and `location.replace`. `LoadScript`, `OnScriptLoad` and
  `OnScriptError` keep only the status transitions and the reset.
- localStorage persistence and seeding are not modelled, nor `FileReader` for uploaded
  logos, the console helper, or debug logging. The constructor models the first render
  with empty storage.
- The widget itself is not modelled. Its calls are recorded in a trace. A call to an
  absent widget leaves no trace, as optional chaining makes it a no-op. A call that
  throws is recorded, followed by the alert that reports it.
- Alerts are recorded as effects; `alert` itself is not modelled.
- FsItem.DiscountInfo: prices are not computed. The floating-point price arithmetic and
  `Intl.NumberFormat` currency formatting are the opaque text `FsItem.Currency`, so only
  whether a numeric price exists is modelled.
- Numbers are integers. `Number(...)` of fractional or exotic text, and `NaN`
  comparisons, are reduced to finite integers or "not a number".
- React timing is not modelled. Renders, `useMemo`, `useCallback` and the stale `data`
  closure in `addToCart` are replaced by explicit state passed to each operation.
- Of `src/hooks/useFsActions.js`, only the two wrappers the banner falls back on are
  modelled (`addToCart` and `selectSingleAndCheckout`). `buyNow`, `checkout` and
  `resetCart` are not used by the core and are left out. Whether a provider surrounds the
  banner is a parameter.
- FsActions.SharedAdd, FsActions.SharedSelect: the path pushed straight to the widget is
  recorded as its string form; the source passes the value itself.
- The layouts' rendering is not modelled: markup, styles, the search bar, and the
  colour of the navigation text (it uses the same `readableText` as the banner).
