# Private-event menu builder and pricing engine

This project models the catering side of the restaurant site. It covers four things:

- **The pricing engine** (`js/private-menu-pricing.js`). It derives sell prices from raw food cost (COGS): cost plus 10 % waste, times 2.4 for labour and overhead, rounded to the dollar for per-person dishes and to 5 dollars for boards and stations. Per-person dishes have category floors, and fixed items have a 140-dollar minimum. `applyPricing` fills in the prices a menu item does not state. `computeEstimate` turns a list of selected lines and beverage add-ons into a quote: fixed and per-guest sell totals, subtotal, tax, gratuity, total and food cost.
- **The private-event menu builder** (`renderPrivateEventMenu` in `js/main.js`). It keeps one quantity map per menu, a shared add-on map and the guest-count input. It has quantity controls, toggle buttons, menu switching and the guest input's `input` and `blur` handlers. Every handler ends in `updateEstimate`, which computes the ordered and grouped selections and the totals, and writes the plain-text summary into the inquiry form.
- **The small helpers at the top of `js/main.js`**: the base path on GitHub Pages, `withBase`, the placeholder and payment-link checks, `fillTemplate`, `ticketsRemaining` and `isEmailValid`.
- **`js/base.js`**: its own `getBasePath` and `withBase`.

Modules, one per concern:

| module | file | models |
|---|---|---|
| `Wrappers` | wrappers.dfy | `Option` |
| `Text` | text.dfy | string primitives the scripts use: `startsWith`, `includes`, `toLowerCase`, `trim`, `split`/`join`, `String(n)`, `parseInt(s, 10)` |
| `BasePath` | base_path.dfy | `js/base.js` |
| `SiteHelpers` | site_helpers.dfy | `js/main.js` helpers: base path, links, tickets, e-mail |
| `Templates` | templates.dfy | `fillTemplate` |
| `Pricing` | pricing.dfy | constants, rounding, `sellFromCogs`, `applyPricing` |
| `Estimate` | estimate.dfy | `computeEstimate` (a method with two loops, proved against a function) |
| `Selections` | selections.dfy | `normalizeMenuItem`, the selection queries, the guest count |
| `EstimateTotals` | totals.dfy | the module branch and the fallback branch of `updateEstimate` |
| `Summary` | summary.dfy | `updateSummary` (line-pushing methods, proved against `SummaryLines`) |
| `MenuBuilder` | builder.dfy | the builder's state as a class: `Builder`, with one method per event handler |

Representation choices:

- Money is `real`, and `Math.round(x)` is `floor(x + 1/2)`.
- An optional numeric data field is `Option<real>`. `Some` means a finite number; `None` means the field is missing or not finite.
- Quantities and `max_qty` are integers.
- The currency formatter is a parameter (`currency: real -> string`).
- `window.location` is passed in as `hostname` and `pathname`.
- JavaScript `Map`s are Dafny `map`s, and an absent key reads as quantity 0.
- The menu field `label` is called `displayName` (on a menu) or `displayLabel` (on an add-on).

## Model

| member | source | states |
|---|---|---|
| `Pricing.Round` | js/private-menu-pricing.js:279 | `Math.round(x)` lies within half a unit of `x` (halves go up) |
| `Pricing.RoundUnique` | js/private-menu-pricing.js:49 | the only integer in the half-open window around `x` is `Math.round(x)` |
| `Pricing.RoundTo` | js/private-menu-pricing.js:47-50 | increment 0 returns the value; otherwise the result is a multiple of the increment, and for a positive increment it lies within half an increment of the value |
| `Pricing.RoundToNearest` | js/private-menu-pricing.js:47-50 | conversely, any multiple of a positive increment within half an increment of the value is what `roundTo` returns |
| `Pricing.SellFromCogs` | js/private-menu-pricing.js:52-59 | the sell price is a multiple of 5 for `'fixed'`, a whole number otherwise, and within half an increment of cost × 1.1 × 2.4 |
| `Pricing.CostFromPortion` | js/private-menu-pricing.js:61 | a non-negative portion costs at least the adder; a zero weight or price costs exactly the adder |
| `Pricing.CostPerPersonFromBatch` | js/private-menu-pricing.js:63-66 | 0 without servings or batch cost; otherwise the per-person share times the servings is the batch cost |
| `Pricing.PerPersonFloor` | js/private-menu-pricing.js:183-189 | `side` and `breakfast` have a floor of 3, `salad` and `app` 4, `entree` 8, and a missing or any other category 0 |
| `Pricing.ResolvedType` | js/private-menu-pricing.js:200 | an explicit `pricing_type`, else `pricingType`, else `'fixed'` exactly when `fixed_price` is finite and `'per_person'` otherwise; never empty |
| `Pricing.DerivedBatchCost` | js/private-menu-pricing.js:217-221 | `cogs_per_batch` when present; otherwise the ingredient cost times `servings_per_batch` when both are present; none exactly when there is no batch cost and no cost-and-servings pair |
| `Pricing.DerivedPerPersonPrice` | js/private-menu-pricing.js:207-211 | a whole price at least the category floor and at least the COGS-derived price, and equal to one of them |
| `Pricing.DerivedFixedPrice` | js/private-menu-pricing.js:222-224 | a multiple of 5, at least 140 and at least the COGS-derived price, and equal to one of them |
| `Pricing.PriceItem` | js/private-menu-pricing.js:198-234 | the item is stamped with its resolved type; only the four price and cost fields can change; a stated price or cost is never overwritten; a per-person item without `cogs_per_person` gets the ingredient cost there, whether or not its price was stated; a per-person item's fixed price is untouched, and so are a fixed item's per-person price and cost |
| `Pricing.PerPersonPriceDerived` | js/private-menu-pricing.js:206-214 | a per-person item with a cost but no price gets max(sell from COGS, floor), a whole price at or above its floor, and its cost is copied to `cogs_per_person` |
| `Pricing.PerPersonPriceNotDerived` | js/private-menu-pricing.js:206-214 | a per-person item without a cost keeps its price and cost as they were |
| `Pricing.FixedPriceDerived` | js/private-menu-pricing.js:215-225 | a non-per-person item with a batch cost but no price gets max(sell from COGS, 140), a multiple of 5 of at least 140 |
| `Pricing.FixedPriceNotDerived` | js/private-menu-pricing.js:215-233 | a non-per-person item with nothing to derive a price from changes only by its type stamp |
| `Pricing.PriceItemIdempotent` | js/private-menu-pricing.js:199-234 | pricing a priced item changes nothing |
| `Pricing.ApplyPricing` | js/private-menu-pricing.js:193-238 | the same menus, ids, labels, section titles and item counts, in the same order, with every item priced |
| `Pricing.ApplyPricingIdempotent` | js/private-menu-pricing.js:193-238 | `applyPricing(applyPricing(m)) == applyPricing(m)`, so re-pricing the already-priced `MENUS` in the builder is harmless |
| `Pricing.LunchFruitBoardPrice` | js/private-menu-pricing.js:118 | the lunch "Fruit & Veggie Board" (batch cost 70, no price) is priced at 185 |
| `Pricing.BakedPotatoBarPrice` | js/private-menu-pricing.js:124 | "Baked Potato Bar" (cost 2.4) sells from COGS at 6 and is raised to the entree floor, 8 |
| `Pricing.ChickenPrice` | js/private-menu-pricing.js:126 | "Chicken" (0.45 lb at 3.12 plus 0.45) sells from COGS at 5 and is raised to 8 |
| `Pricing.PicnicFruitBoardPrice` | js/private-menu-pricing.js:171 | the picnic "Fruit & Veggie Board" keeps its stated 100, below the 140 minimum |
| `Estimate.Qty` | js/private-menu-pricing.js:252 | the quantity used is never 0: a missing or zero quantity counts as 1, any other is kept |
| `Estimate.SumByConcat` | js/private-menu-pricing.js:251-266 | a running total over two lists is the sum of the two running totals |
| `Estimate.AnyByExists` | js/private-menu-pricing.js:253 | the `hasSelections` flag is set exactly when some element has a positive quantity |
| `Estimate.QuoteOf` | js/private-menu-pricing.js:277-295 | subtotal = fixed + per-guest × guests; tax and gratuity are 0 with nothing selected, else whole numbers within 0.5 of 7 % and 18 % of the subtotal; sellTotal = total = subtotal + tax + gratuity |
| `Estimate.EstimateOf` | js/private-menu-pricing.js:243-296 | the quote's fixed and per-guest totals are the sums over lines and add-ons, its food cost is batch costs plus per-person costs for every guest, a non-numeric guest count leaves the subtotal at the fixed total, and no selection means no tax or gratuity |
| `Estimate.ComputeEstimate` | js/private-menu-pricing.js:243-296 | the two-pass loop returns exactly `EstimateOf` |
| `Estimate.SelectionPass` | js/private-menu-pricing.js:251-266 | the `selections.forEach` running totals are the four sums over the lines, and the flag says whether any line has a positive quantity |
| `Estimate.AddonPass` | js/private-menu-pricing.js:268-275 | the `addons.forEach` running totals are the add-on fixed and per-guest sums, and the flag says whether any add-on has a positive quantity |
| `Estimate.EmptyEstimate` | js/private-menu-pricing.js:243-296 | with no lines and no add-ons every field of the quote is 0 |
| `Estimate.LineCountedOnce` | js/private-menu-pricing.js:255-265 | a fixed line adds nothing per guest, and a per-person line adds nothing fixed |
| `Estimate.EstimateOfConcat` | js/private-menu-pricing.js:251-266 | splitting the selections in two splits the fixed, per-guest and food-cost totals accordingly |
| `Estimate.PerPersonOnlySubtotal` | js/private-menu-pricing.js:277 | with only per-person lines the fixed total is 0 and the subtotal is the per-guest total times the guests |
| `Estimate.TwentyGuestQuote` | js/private-menu-pricing.js:277-284 | 20 guests, an 8-per-guest dish and a 150 board: subtotal 310, tax 22, gratuity 56, total 388 |
| `Selections.NormalizeMenuItem` | js/main.js:1980-2008 | a nameless item is dropped; otherwise the name, `fixed_price`, `per_person_price`, `cogs_per_batch`, `servings_per_batch`, `allow_quantity` and `max_qty` are carried over, the per-person cost is `cogs_per_person` else `ingredient_cost_per_serving`, the type is the resolved pricing type (never empty), and the section title defaults to `''` |
| `Selections.NormalizePricedItem` | js/main.js:1985-1994 | normalising a priced item keeps its stamped type and exposes the derived prices (at least the floor, at least 140) |
| `Selections.NormalizeItems` | js/main.js:2014-2016 | every named item survives normalisation, and every entry of the result is the normalisation of a named item of the section, carrying its section title |
| `Selections.NormalizeItemsConcat` | js/main.js:2014-2016 | normalising two runs of items one after the other gives the two results in that order, so `.filter(Boolean)` keeps the item order |
| `Selections.NormalizeItemsSingle` | js/main.js:2015-2016 | a single item is dropped when nameless and normalised otherwise |
| `Selections.NormalizeMenus` | js/main.js:2010-2018 | the same menus in the same order, with the same ids, labels and section titles, and each section's items normalised with that section's title |
| `Selections.LookupMenu` | js/main.js:2020 | a menu is found exactly when its id is among the menus; the one found has that id and no later menu has it, so the last menu with the id wins |
| `Selections.PicksOf` | js/main.js:2043-2047 | every pick is an item of the section with a positive quantity, carrying that quantity |
| `Selections.PicksOfExactly` | js/main.js:2043-2047 | a pick of a section is exactly an item of it with a positive quantity, in both directions |
| `Selections.OrderedSelectionsShortcut` | js/main.js:2041 | the early return for no sections or an empty map gives what the loops would give |
| `Selections.OrderedSelectionsExactly` | js/main.js:2040-2050 | the ordered selections are exactly the menu's items with a positive quantity, each with that quantity |
| `Selections.OrderedSelections` | js/main.js:2040-2050 | the nested push loops build the section-by-section, item-by-item list `OrderedSelectionsOf` |
| `Selections.GroupTitle` | js/main.js:2061 | a group title is never empty: the section title when it is a non-empty string, and `'Selections'` otherwise |
| `Selections.GroupsOf` | js/main.js:2055-2062 | no empty group is pushed, every group has a title, and every group is some section's picks under that section's title |
| `Selections.GroupsOfConcat` | js/main.js:2055-2062 | grouping two runs of sections gives their groups one after the other, so groups follow section order |
| `Selections.GroupsOfSingle` | js/main.js:2057-2061 | one section gives one group, titled `GroupTitle` of its title, exactly when it has picks |
| `Selections.SectionSelectionsFlatten` | js/main.js:2052-2064 | the grouped selections, flattened, are exactly the ordered selections |
| `Selections.SectionSelections` | js/main.js:2052-2064 | the loop with its per-section filter builds `SectionSelectionsOf` |
| `Selections.AddonSelectionsOf` | js/main.js:2066-2071 | every listed add-on is one of the add-ons, with the positive quantity stored under its `id` |
| `Selections.AddonSelectionsComplete` | js/main.js:2066-2071 | every add-on whose `id` has a positive quantity is listed with it |
| `Selections.AddonSelectionsOfEmpty` | js/main.js:2066-2071 | with an empty map no add-on is listed |
| `Selections.AddonWithoutIdNeverListed` | js/main.js:2068 | an add-on without an `id` is never listed, although its button stores it under its label |
| `Selections.NormalizeGuestCount` | js/main.js:2073-2078 | the count is never below the minimum (input `min`, or 10); the minimum when nothing parses; otherwise the parsed count when that is larger |
| `Selections.GuestCountWriteBack` | js/main.js:2370-2374 | writing the normalised count back into the input on blur leaves the count unchanged |
| `Selections.PerPersonPrice` | js/main.js:2025-2029 | the per-person price, or 0 when the item has none |
| `EstimateTotals.Mapped` | js/main.js:2140-2144 | the list handed to `computeEstimate` has one converted entry per selection, in order |
| `EstimateTotals.SumByMapped` | js/main.js:2150-2169 | summing before or after the conversion gives the same total when the terms agree |
| `EstimateTotals.FallbackFrom` | js/main.js:2170-2172 | the fallback shows its two sums as the fixed and per-guest totals, and no food cost |
| `EstimateTotals.TotalsOf` | js/main.js:2139-2172 | without the pricing module the estimate is fixed + guests × per-guest, with no food cost |
| `EstimateTotals.ItemAmountsAgree` | js/main.js:2150-2163 | for an item whose fixed type comes with a price, the fallback's amounts equal the module's |
| `EstimateTotals.FallbackMatchesSubtotal` | js/main.js:2139-2172 | when fixed types carry prices, the fallback shows the module's fixed and per-guest totals and its subtotal, and the module's estimate is that plus tax and gratuity |
| `EstimateTotals.FixedTypeWithoutPrice` | js/main.js:2150-2163 | an item typed `'fixed'` without a fixed price costs 200 for 20 guests in the fallback, and 0 in the module |
| `EstimateTotals.ModuleEstimateIsTotal` | js/main.js:2139-2148 | with the module, the builder shows the quote's fixed and per-guest totals and food cost, and as its estimate the subtotal plus tax and gratuity |
| `EstimateTotals.NothingSelected` | js/main.js:2135-2172 | with nothing selected both branches show zero everywhere |
| `EstimateTotals.UpdateTotals` | js/main.js:2139-2172 | the branch taken computes exactly `TotalsOf` |
| `EstimateTotals.Reduce` | js/main.js:2150-2152 | `reduce` with a running sum computes the left-to-right sum |
| `EstimateTotals.ComputeFallback` | js/main.js:2150-2172 | the four `reduce` passes compute exactly `FallbackTotals` |
| `Summary.QtyTag` | js/main.js:2101 | the ` xN` tag appears exactly when the quantity is above 1 |
| `Summary.ItemLine` | js/main.js:2102 | an item line starts with `- ` and the item's name |
| `Summary.LinesOf` | js/main.js:2092-2103 | one line per element, in order |
| `Summary.GroupsLinesShape` | js/main.js:2089-2104 | the groups give one heading each plus one line per item, and begin with the first group's heading |
| `Summary.BreakdownShape` | js/main.js:2119-2123 | the breakdown has at least three lines and ends with the estimate; a `Boards/Stations` line is present exactly when the fixed total is positive, and a per-guest line exactly when the per-guest total is |
| `Summary.SummaryEndsWithBreakdown` | js/main.js:2080-2124 | the summary's last lines are the breakdown |
| `Summary.SummaryShape` | js/main.js:2080-2125 | every summary starts with the five header lines, then `- None selected` or the first group's heading, and ends with the estimate line |
| `Summary.SummaryLineCount` | js/main.js:2080-2125 | the line count: 5 header lines; one per group and item, or one for none; 2 plus one per add-on when there are add-ons; 3 breakdown lines, plus one each for a positive fixed total and a positive per-guest total |
| `Summary.PushGroup` | js/main.js:2090-2103 | the heading and one line per item are appended to what was there |
| `Summary.PushGroups` | js/main.js:2089-2104 | the groups' lines are appended, one group after the other |
| `Summary.PushAddons` | js/main.js:2108-2118 | the add-on block is appended, or nothing without add-ons |
| `Summary.BuildSummary` | js/main.js:2080-2124 | the lines pushed one by one are exactly `SummaryLines` |
| `MenuBuilder.Bounded` | js/main.js:2271 | `max(0, min(next, cap))`: never negative and never above a non-zero cap; the requested quantity when in range; exactly the cap when a positive cap is exceeded; a non-positive request gives 0 |
| `MenuBuilder.BoundedIdempotent` | js/main.js:2271 | clamping a clamped quantity changes nothing |
| `MenuBuilder.PlusThenMinus` | js/main.js:2285-2290 | below the cap, `+` then `–` comes back to the same quantity |
| `MenuBuilder.PlusAtCap` | js/main.js:2288-2290 | at the cap, `+` leaves the quantity at the cap |
| `MenuBuilder.SetQtyIn` | js/main.js:2272-2273 | the key gets the quantity, is present exactly when that is positive, no other key changes, and no zero is ever stored |
| `MenuBuilder.Toggled` | js/main.js:2313-2315 | a selected key goes to 0 and an unselected one to 1; no other key changes; no zero is stored |
| `MenuBuilder.ToggleTwice` | js/main.js:2312-2321 | two toggle clicks restore a map whose key held at most 1 |
| `MenuBuilder.SameNameSelectedTogether` | js/main.js:2045 | quantities are kept by name, so every item with a selected item's name is selected with the same quantity |
| `MenuBuilder.NothingSelectedView` | js/main.js:2127-2203 | with nothing selected the totals are zero and the summary is the header, `- None selected` and a zero breakdown |
| `MenuBuilder.Builder.constructor` | js/main.js:2020-2023 | the first menu is shown, its map is empty, and so is the add-on map |
| `MenuBuilder.Builder.UpdateEstimate` | js/main.js:2127-2203 | the view computed step by step is `CurrentView()` |
| `MenuBuilder.Builder.SetQty` | js/main.js:2270-2279 | only the shown menu's map changes, and only at the item's name, to the clamped quantity; the state stays valid |
| `MenuBuilder.Builder.Increment` | js/main.js:2288-2290 | the item's quantity becomes clamp(current + 1), and nothing else changes |
| `MenuBuilder.Builder.Decrement` | js/main.js:2285-2287 | the item's quantity becomes clamp(current − 1), and nothing else changes |
| `MenuBuilder.Builder.ClickQtyLabel` | js/main.js:2281-2284 | the item's quantity goes to 0 when positive and to clamp(1) otherwise |
| `MenuBuilder.Builder.ToggleItem` | js/main.js:2312-2321 | the shown menu's map is toggled at the item's name, and nothing else changes |
| `MenuBuilder.Builder.ToggleAddon` | js/main.js:2356-2363 | the shared add-on map is toggled at the add-on's `id`, else its label, and the menus' maps are untouched |
| `MenuBuilder.Builder.SelectMenu` | js/main.js:2216-2221 | clicking the shown menu changes nothing; another menu becomes current, and no quantity of any menu or add-on changes |
| `MenuBuilder.Builder.ShowMenu` | js/main.js:2031-2034 | the menu becomes current with its own map, empty when first shown, and every menu's quantities stay the same |
| `MenuBuilder.Builder.InputGuests` | js/main.js:2369 | only the guest text changes, and the view is recomputed |
| `MenuBuilder.Builder.BlurGuests` | js/main.js:2370-2374 | the input now holds the normalised count as text, and the count read from it is unchanged |
| `MenuBuilder.Builder.WriteBackGuests` | js/main.js:2370-2371 | only the guest text changes; it becomes the normalised count as text, and the count read from it is unchanged |
| `MenuBuilder.Render` | js/main.js:1971-2023 | no builder without menus; otherwise the menus are priced (with the module) and normalised, the first menu is shown, and nothing is selected |
| `MenuBuilder.SwitchAwayAndBack` | js/main.js:2216-2221 | switching to another menu and back shows the same quantities as before |
| `Text.ParseIntOfIntToString` | js/main.js:2075 | `parseInt(String(n), 10) == n` for every integer |
| `Text.Split` | js/base.js:22 | no part contains the separator, and joining the parts gives back the string |
| `Text.TrimStart` | js/main.js:54 | what is left is a suffix that starts with a non-space, after nothing but whitespace |
| `Text.MarkerSurvivesTrim` | js/main.js:54-58 | a marker that neither starts nor ends with a space and appears in the lower-cased text still appears after trimming |
| `Text.NonEmpty` | js/base.js:22 | the result holds only non-empty strings of the input, and is no longer than it |
| `Text.NonEmptyKeepsAll` | js/base.js:22 | every non-empty string of the input is kept |
| `Text.NonEmptyConcat` | js/base.js:22 | filtering two runs of strings gives the two results in that order |
| `Text.NonEmptySingle` | js/base.js:22 | one string is kept exactly when it is non-empty |
| `BasePath.Segments` | js/base.js:22 | the segments are non-empty and contain no slash |
| `BasePath.SegmentsKeepAll` | js/base.js:22 | every non-empty part between slashes is a segment |
| `BasePath.SegmentsOfSlashFree` | js/base.js:22 | a path without a slash is one segment, or none when empty |
| `BasePath.SegmentsAtSlash` | js/base.js:22 | the segments of `first/rest` are those of `first` followed by those of `rest`, which with the previous row fixes the segments of every path |
| `BasePath.GetBasePath` | js/base.js:19-26 | `''` off `github.io` or at the root; otherwise `/` plus the first segment |
| `BasePath.ProjectSiteBase` | js/base.js:21-23 | on a project site `/<repo>/...` the base is `/<repo>` |
| `BasePath.WithBaseUsing` | js/base.js:27-33 | empty gives empty; an http(s) URL is returned as it is; anything else is the base, then exactly one `/`, then the path |
| `BasePath.WithBase` | js/base.js:27-33 | a relative path is prefixed with the base and ends with the path; off `github.io` it only gains a leading `/` |
| `SiteHelpers.GetBasePath` | js/main.js:7-35 | `''` off `github.io`, at the root, or for a single known route; otherwise `/` plus the first segment |
| `SiteHelpers.BasePathVariantsDiffer` | js/main.js:19-31 | the two base-path functions differ exactly on a single known-route segment on `github.io` |
| `SiteHelpers.MenuPageBases` | js/main.js:27-31 | on `/menu/`, `js/base.js` gives `/menu` and `js/main.js` gives `''` |
| `SiteHelpers.WithBase` | js/main.js:37-43 | an http(s) URL is kept; a relative path is prefixed with this file's base and ends with the path |
| `SiteHelpers.IsValidPaymentLink` | js/main.js:52-60 | a link is valid exactly when it is present, not blank once trimmed, not flagged, and its trimmed lower-cased text contains none of `replace_me`, `placeholder`, `example.com` and `test_` |
| `SiteHelpers.ValidPaymentLinkIsNotPlaceholder` | js/main.js:45-60 | a link `isValidPaymentLink` accepts is never a placeholder by `isPlaceholderUrl` |
| `SiteHelpers.TicketsRemaining` | js/main.js:78-83 | never negative; capacity − sold when that is positive, else 0; 0 without ticketing |
| `SiteHelpers.IndexOf` | js/main.js:209 | −1 exactly when the character is absent; otherwise its first position |
| `SiteHelpers.LastIndexOf` | js/main.js:210 | −1 exactly when the character is absent; otherwise its last position |
| `SiteHelpers.ValidEmailParts` | js/main.js:207-212 | every accepted address is local `@` domain `.` tld: local part non-empty without `@`, domain non-empty, tld non-empty without `.` |
| `SiteHelpers.EmailOfParts` | js/main.js:207-212 | conversely, every address of that shape is accepted |
| `Templates.KeyPrefix` | js/main.js:64 | the longest prefix made of `[\w.-]` characters |
| `Templates.PlaceholderAtStart` | js/main.js:64 | a match starts with `{{`, has a non-empty key and spans at least 5 characters |
| `Templates.PlaceholderAtStartForm` | js/main.js:64 | a match is exactly `{{`, whitespace, a key of `[\w.-]` characters, whitespace, `}}`, over the reported length |
| `Templates.NoPlaceholderWithoutClosingBrace` | js/main.js:64 | no placeholder starts a text that has no `}` |
| `Templates.FillTemplate` | js/main.js:62-68 | a template without `}` comes back unchanged; it is pinned further by `FillTemplateWithoutPlaceholders`, `FillTemplateLiteralPrefix`, `FillTemplateLoneBrace` and `FillTemplatePlaceholder` |
| `Templates.FillTemplateLoneBrace` | js/main.js:64 | a `{` not followed by another `{` is copied, and the rest is filled after it |
| `Templates.FillTemplateWithoutPlaceholders` | js/main.js:62-68 | a template without `{` comes back unchanged |
| `Templates.FillTemplateLiteralPrefix` | js/main.js:64 | text without `{` passes through, and the rest is filled after it |
| `Templates.FillTemplatePlaceholder` | js/main.js:64-66 | `{{ key }}`, with any spacing inside the braces, becomes the token's text (empty when the token is missing or null), and the rest is filled after it |

## Left out

- DOM construction and event wiring are not modelled: the menu-type, section and add-on buttons, the `estimateEl`, `estimateFixed` and `estimatePerGuest` texts, the per-guest badge, `is-selected` and `aria-pressed`, and the `summaryField` early return. Each handler is a method of `Builder`, and the render functions are reduced to the state they read.
- Debug output is not modelled: `dbg`, the `quantities` object built only for it, and the `isDebug` cache of `js/base.js`.
- `js/private-availability.js` is not part of this model. Its calendar work is done by the JavaScript `Date` library, and the rest is DOM.
- Fetching, form submission and `buildSubmissionLink` are left out. `buildSubmissionLink` depends on `encodeURIComponent`. The data tables (`COMMODITY_COSTS`, `RAW_MENUS`) are data, used only in the example lemmas.
- IEEE-754 floating point is not modelled. Money is exact `real`, so results can differ from JavaScript at exact `.5` rounding boundaries (e.g. `1.1 × 2.4`).
- formatCurrency is a function parameter.
- `Number()` coercion is not modelled. A numeric field is either a finite number or absent. JavaScript turns `null` and `''` into 0 and accepts numeric strings; neither is modelled.
- `Number.isFinite(item.fixedPrice)` (no coercion) and `Number.isFinite(Number(...))` are not told apart.
- `x || 0` on the results of `computeEstimate` is the identity here, because the quote's fields are never `NaN`.
- Selections.NormalizeMenuItem: the source also accepts a bare string as an item and takes the name from `name || label || title`. The model takes the item's name only.
- Selections.NormalizeMenuItem: `String(name)` is not modelled. `allow_quantity === true` and a finite `max_qty` are taken as already read.
- Pricing.PriceItem: the write-backs of `cogs_per_batch` and `servings_per_batch` (js/private-menu-pricing.js:226-231) are not modelled, because they can never fire: they need the field to be non-finite and the value read from that same field to be finite.
- Estimate.EstimateOf takes the guest count as `Option<real>`, with `None` standing for a non-numeric count.
- Text.ParseInt reads only ASCII whitespace and decimal digits.
- Text.ToLower lower-cases only ASCII.
- Text.Trim treats only ASCII whitespace as space; `String.prototype.trim` also strips Unicode spaces such as U+00A0, U+FEFF and U+2028.
- SiteHelpers.IsValidPaymentLink inherits that: a link padded only with non-ASCII spaces counts as non-blank here.
- Templates.PlaceholderAtStart matches only ASCII whitespace inside the braces, where the regex `\s` also matches Unicode spaces.
- SiteHelpers.IsValidPaymentLink: `typeof url !== 'string'` is folded into `None`.
- SiteHelpers.TicketsRemaining: capacity and sold are already-read numbers (`None` when the source's `Number(x) || 0` would give 0).
- SiteHelpers.IsPlaceholderUrl and `SiteHelpers.IsEmailValid` have no contract of their own; they are stated through `SiteHelpers.ValidPaymentLinkIsNotPlaceholder`, `SiteHelpers.ValidEmailParts` and `SiteHelpers.EmailOfParts`.
- Templates: the `tokens` object is a map from key to an optional string. Tokens that are not strings are taken as already converted by `String(val)`.
- MenuBuilder.Builder.SelectMenu: the re-render of the menu buttons and sections is not modelled; only the state change and `updateEstimate` are.
- The original code has two quirks that the model keeps as they are. Both are stated as lemmas rather than corrected:
  - Item quantities are keyed by name (`MenuBuilder.SameNameSelectedTogether`).
  - Add-on buttons store under `id || label` while `getAddonSelections` reads `id` only (`Selections.AddonWithoutIdNeverListed`).
- The pricing module's branch and the fallback branch of `updateEstimate` price an item typed `'fixed'` without a fixed price differently (`EstimateTotals.FixedTypeWithoutPrice`).
