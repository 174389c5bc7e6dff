/**
 * The pricing engine of `js/private-menu-pricing.js`: sell prices derived from
 * raw food cost (COGS), and `applyPricing`, which fills in the prices a menu
 * item does not state and leaves every stated one alone.
 *
 * Money is `real`. A numeric JSON field is `Option<real>`: `Some` when it is a
 * finite number, `None` when it is missing or not a finite number.
 */
module Pricing {
  import opened Wrappers

  // ----- PRICING_CONSTANTS -----

  const FoodWastePct: real := 0.1
  const LaborOverheadMultiplier: real := 2.4
  const SalesTaxPct: real := 0.07
  const GratuityPct: real := 0.18
  const RoundingPerPerson: real := 1.0
  const RoundingFixed: real := 5.0
  const MinFixedPrice: real := 140.0

  /** A real number with no fractional part. */
  predicate IsWhole(x: real) {
    x.Floor as real == x
  }

  /** `x` is a whole multiple of a non-zero `increment`. */
  predicate IsMultipleOf(x: real, increment: real) {
    increment != 0.0 && IsWhole(x / increment)
  }

  function Max(a: real, b: real): (r: real)
    ensures r >= a && r >= b && (r == a || r == b)
  {
    if a >= b then a else b
  }

  /** `Math.round(x)`: the nearest integer, halves going up. */
  function Round(x: real): (r: int)
    ensures x - 0.5 < r as real <= x + 0.5
  {
    (x + 0.5).Floor
  }

  /** The only integer within the half-open window around `x` is `Math.round(x)`. */
  lemma RoundUnique(x: real, k: int)
    requires x - 0.5 < k as real <= x + 0.5
    ensures k == Round(x)
  {
  }

  lemma MulMonotone(a: real, b: real, c: real)
    requires a <= b && c > 0.0
    ensures a * c <= b * c
  {
    assert (b - a) * c >= 0.0;
    assert (b - a) * c == b * c - a * c;
  }

  lemma MulStrict(a: real, b: real, c: real)
    requires a < b && c > 0.0
    ensures a * c < b * c
  {
    assert (b - a) * c > 0.0;
    assert (b - a) * c == b * c - a * c;
  }

  /** Multiplying the edges of the window around `value / inc` by `inc` gives the window around `value`. */
  lemma WindowEdges(value: real, inc: real)
    requires inc != 0.0
    ensures (value / inc + 0.5) * inc == value + inc / 2.0
    ensures (value / inc - 0.5) * inc == value - inc / 2.0
  {
    var q := value / inc;
    assert q * inc == value;
    assert (q + 0.5) * inc == q * inc + 0.5 * inc;
    assert (q - 0.5) * inc == q * inc - 0.5 * inc;
  }

  /** Scaling the rounding window of `value / inc` back by a positive `inc`. */
  lemma ScaleWindow(value: real, k: real, inc: real)
    requires inc != 0.0
    requires value / inc - 0.5 < k <= value / inc + 0.5
    ensures inc > 0.0 ==> value - inc / 2.0 < k * inc <= value + inc / 2.0
  {
    WindowEdges(value, inc);
    if inc > 0.0 {
      MulMonotone(k, value / inc + 0.5, inc);
      MulStrict(value / inc - 0.5, k, inc);
    }
  }

  lemma WholeQuotient(k: int, inc: real)
    requires inc != 0.0
    ensures IsWhole((k as real * inc) / inc)
  {
    assert (k as real * inc) / inc == k as real;
  }

  /** `roundTo(value, increment)`: no rounding for a zero increment, else to the nearest multiple. */
  function RoundTo(value: real, increment: real): (r: real)
    ensures increment == 0.0 ==> r == value
    ensures increment != 0.0 ==> IsMultipleOf(r, increment)
    ensures increment > 0.0 ==> value - increment / 2.0 < r <= value + increment / 2.0
  {
    if increment == 0.0 then value
    else
      var k := Round(value / increment);
      WholeQuotient(k, increment);
      ScaleWindow(value, k as real, increment);
      k as real * increment
  }

  /** Conversely, the multiple of a positive increment nearest to `value` is what `roundTo` gives. */
  lemma RoundToNearest(value: real, increment: real, w: real)
    requires increment > 0.0 && IsMultipleOf(w, increment)
    requires value - increment / 2.0 < w <= value + increment / 2.0
    ensures w == RoundTo(value, increment)
  {
    var k := (w / increment).Floor;
    var q := value / increment;
    assert w == k as real * increment by {
      assert (w / increment) * increment == w;
    }
    WindowEdges(value, increment);
    assert q - 0.5 < k as real by {
      if k as real <= q - 0.5 {
        MulMonotone(k as real, q - 0.5, increment);
      }
    }
    assert k as real <= q + 0.5 by {
      if k as real > q + 0.5 {
        MulStrict(q + 0.5, k as real, increment);
      }
    }
    RoundUnique(q, k);
  }

  /** The rounding increment of a pricing type: 5 for `'fixed'`, 1 for anything else. */
  function RoundingFor(pricingType: string): real {
    if pricingType == "fixed" then RoundingFixed else RoundingPerPerson
  }

  /** `sellFromCogs(cogs, type)`: cost plus waste, times labour and overhead, rounded for the type. */
  function SellFromCogs(cogs: real, pricingType: string): (r: real)
    ensures IsMultipleOf(r, RoundingFor(pricingType))
    ensures pricingType == "fixed" ==> IsMultipleOf(r, 5.0)
    ensures pricingType != "fixed" ==> IsWhole(r)
    ensures cogs * (1.0 + FoodWastePct) * LaborOverheadMultiplier - RoundingFor(pricingType) / 2.0 < r
    ensures r <= cogs * (1.0 + FoodWastePct) * LaborOverheadMultiplier + RoundingFor(pricingType) / 2.0
  {
    var withWaste := cogs * (1.0 + FoodWastePct);
    var sell := withWaste * LaborOverheadMultiplier;
    var r := RoundTo(sell, RoundingFor(pricingType));
    assert r / 1.0 == r;
    r
  }

  /** `costFromPortion(lbs, costPerLb, extra)`: raw cost of a portion plus a fixed adder. */
  function CostFromPortion(lbs: real, costPerLb: real, extra: real): (r: real)
    ensures lbs >= 0.0 && costPerLb >= 0.0 ==> r >= extra
    ensures lbs == 0.0 || costPerLb == 0.0 ==> r == extra
  {
    (lbs * costPerLb) + extra
  }

  /**
   * `costPerPersonFromBatch(batchCost, servings)`: a batch cost shared out per
   * serving, 0 when unknown. The pricing script defines it but calls it nowhere;
   * it is kept for completeness and nothing else in the model uses it.
   */
  function CostPerPersonFromBatch(batchCost: Option<real>, servings: real): (r: real)
    ensures servings == 0.0 || batchCost.None? ==> r == 0.0
    ensures servings != 0.0 && batchCost.Some? ==> r * servings == batchCost.value
  {
    if servings == 0.0 || batchCost.None? then 0.0 else batchCost.value / servings
  }

  /** `PER_PERSON_FLOORS[category] || 0`. */
  function PerPersonFloor(category: Option<string>): (r: real)
    ensures r in {0.0, 3.0, 4.0, 8.0}
    ensures category == Some("side") || category == Some("breakfast") ==> r == 3.0
    ensures category == Some("salad") || category == Some("app") ==> r == 4.0
    ensures category == Some("entree") ==> r == 8.0
    ensures category.None? || category.value !in {"side", "breakfast", "salad", "app", "entree"} ==> r == 0.0
  {
    match category
    case None => 0.0
    case Some(c) =>
      if c == "side" || c == "breakfast" then 3.0
      else if c == "salad" || c == "app" then 4.0
      else if c == "entree" then 8.0
      else 0.0
  }

  // ----- menus -----

  /**
   * A menu item as stored in the data. `pricingType` is the `pricing_type` field
   * and `pricingTypeCamel` the alternative `pricingType` spelling; the other
   * numeric fields are `fixed_price`, `per_person_price`, `cogs_per_person`,
   * `ingredient_cost_per_serving`, `cogs_per_batch` and `servings_per_batch`.
   */
  datatype Item = Item(
    name: string,
    pricingType: Option<string>,
    pricingTypeCamel: Option<string>,
    category: Option<string>,
    fixedPrice: Option<real>,
    perPersonPrice: Option<real>,
    cogsPerPerson: Option<real>,
    ingredientCostPerServing: Option<real>,
    cogsPerBatch: Option<real>,
    servingsPerBatch: Option<real>,
    allowQuantity: bool,
    maxQty: Option<int>)

  /** A titled group of items within a menu. */
  datatype Section<T> = Section(title: Option<string>, items: seq<T>)

  /** A menu of sections of items; `displayName` is the menu's `label` field. */
  datatype Menu<T> = Menu(id: string, displayName: string, sections: seq<Section<T>>)

  /** A JavaScript string that counts as true: present and not empty. */
  predicate Truthy(s: Option<string>) {
    s.Some? && s.value != ""
  }

  /** `pricing_type || pricingType || (fixed_price finite ? 'fixed' : 'per_person')`. */
  function ResolvedType(item: Item): (t: string)
    ensures t != ""
    ensures Truthy(item.pricingType) ==> t == item.pricingType.value
    ensures !Truthy(item.pricingType) && Truthy(item.pricingTypeCamel) ==> t == item.pricingTypeCamel.value
    ensures !Truthy(item.pricingType) && !Truthy(item.pricingTypeCamel) ==>
      (t == "fixed" <==> item.fixedPrice.Some?) && (t == "per_person" <==> item.fixedPrice.None?)
  {
    if Truthy(item.pricingType) then item.pricingType.value
    else if Truthy(item.pricingTypeCamel) then item.pricingTypeCamel.value
    else if item.fixedPrice.Some? then "fixed"
    else "per_person"
  }

  /** The ingredient cost per serving: `cogs_per_person`, else `ingredient_cost_per_serving`. */
  function IngredientCost(item: Item): Option<real> {
    if item.cogsPerPerson.Some? then item.cogsPerPerson else item.ingredientCostPerServing
  }

  /** The batch cost a fixed price is derived from: `cogs_per_batch`, else cost times servings. */
  function DerivedBatchCost(item: Item): (d: Option<real>)
    ensures item.cogsPerBatch.Some? ==> d == item.cogsPerBatch
    ensures item.cogsPerBatch.None? && IngredientCost(item).Some? && item.servingsPerBatch.Some? ==>
      d == Some(IngredientCost(item).value * item.servingsPerBatch.value)
    ensures d.None? <==> item.cogsPerBatch.None? && (IngredientCost(item).None? || item.servingsPerBatch.None?)
  {
    if item.cogsPerBatch.Some? then item.cogsPerBatch
    else if IngredientCost(item).Some? && item.servingsPerBatch.Some? then
      Some(IngredientCost(item).value * item.servingsPerBatch.value)
    else None
  }

  /** The price derived for a per-person item that has none, from its cost and category. */
  function DerivedPerPersonPrice(cost: real, category: Option<string>): (p: real)
    ensures p >= PerPersonFloor(category) && IsWhole(p)
    ensures p >= SellFromCogs(cost, "per_person")
    ensures p == PerPersonFloor(category) || p == SellFromCogs(cost, "per_person")
  {
    var p := Max(SellFromCogs(cost, "per_person"), PerPersonFloor(category));
    assert IsWhole(PerPersonFloor(category));
    p
  }

  /** The price derived for a fixed item that has none, from its batch cost. */
  function DerivedFixedPrice(batchCost: real): (p: real)
    ensures p >= MinFixedPrice && IsMultipleOf(p, 5.0)
    ensures p >= SellFromCogs(batchCost, "fixed")
    ensures p == MinFixedPrice || p == SellFromCogs(batchCost, "fixed")
  {
    var p := Max(SellFromCogs(batchCost, "fixed"), MinFixedPrice);
    assert IsMultipleOf(MinFixedPrice, 5.0) by {
      assert MinFixedPrice / 5.0 == 28.0;
    }
    p
  }

  /**
   * The body of `applyPricing` for one item: a copy of the item with the
   * missing prices (and the per-person cost) filled in, stamped with its type.
   */
  function PriceItem(item: Item): (next: Item)
    ensures next.pricingType == Some(ResolvedType(item))
    ensures next.(pricingType := item.pricingType, fixedPrice := item.fixedPrice,
                  perPersonPrice := item.perPersonPrice, cogsPerPerson := item.cogsPerPerson) == item
    ensures item.fixedPrice.Some? ==> next.fixedPrice == item.fixedPrice
    ensures item.perPersonPrice.Some? ==> next.perPersonPrice == item.perPersonPrice
    ensures item.cogsPerPerson.Some? ==> next.cogsPerPerson == item.cogsPerPerson
    ensures ResolvedType(item) == "per_person" && item.cogsPerPerson.None? ==> next.cogsPerPerson == IngredientCost(item)
    ensures ResolvedType(item) == "per_person" ==> next.fixedPrice == item.fixedPrice
    ensures ResolvedType(item) != "per_person" ==>
      next.perPersonPrice == item.perPersonPrice && next.cogsPerPerson == item.cogsPerPerson
  {
    var t := ResolvedType(item);
    var cost := IngredientCost(item);
    if t == "per_person" then
      var withPrice :=
        if item.perPersonPrice.None? && cost.Some?
        then item.(perPersonPrice := Some(DerivedPerPersonPrice(cost.value, item.category)))
        else item;
      var withCogs := if item.cogsPerPerson.None? && cost.Some? then withPrice.(cogsPerPerson := cost) else withPrice;
      withCogs.(pricingType := Some(t))
    else
      var derived := DerivedBatchCost(item);
      var withPrice :=
        if item.fixedPrice.None? && derived.Some?
        then item.(fixedPrice := Some(DerivedFixedPrice(derived.value)))
        else item;
      withPrice.(pricingType := Some(t))
  }

  /** A per-person item without a price but with a cost gets a whole price at or above its category floor. */
  lemma PerPersonPriceDerived(item: Item)
    requires ResolvedType(item) == "per_person" && item.perPersonPrice.None? && IngredientCost(item).Some?
    ensures var p := PriceItem(item).perPersonPrice;
      && p.Some?
      && p.value == Max(SellFromCogs(IngredientCost(item).value, "per_person"), PerPersonFloor(item.category))
      && p.value >= PerPersonFloor(item.category)
      && IsWhole(p.value)
    ensures PriceItem(item).cogsPerPerson == IngredientCost(item)
  {
  }

  /** A per-person item with neither a price nor a cost stays without a price. */
  lemma PerPersonPriceNotDerived(item: Item)
    requires ResolvedType(item) == "per_person" && IngredientCost(item).None?
    ensures PriceItem(item).perPersonPrice == item.perPersonPrice
    ensures PriceItem(item).cogsPerPerson == item.cogsPerPerson
  {
  }

  /** A fixed item without a price but with a batch cost gets a multiple of 5 of at least 140. */
  lemma FixedPriceDerived(item: Item)
    requires ResolvedType(item) != "per_person" && item.fixedPrice.None? && DerivedBatchCost(item).Some?
    ensures var p := PriceItem(item).fixedPrice;
      && p.Some?
      && p.value == Max(SellFromCogs(DerivedBatchCost(item).value, "fixed"), MinFixedPrice)
      && p.value >= MinFixedPrice
      && IsMultipleOf(p.value, 5.0)
  {
  }

  /** A fixed item with no price and nothing to derive one from stays without a price. */
  lemma FixedPriceNotDerived(item: Item)
    requires ResolvedType(item) != "per_person" && DerivedBatchCost(item).None?
    ensures PriceItem(item) == item.(pricingType := Some(ResolvedType(item)))
  {
  }

  lemma SameBatchCost(a: Item, b: Item)
    requires a.cogsPerBatch == b.cogsPerBatch && a.servingsPerBatch == b.servingsPerBatch
    requires IngredientCost(a) == IngredientCost(b)
    ensures DerivedBatchCost(a) == DerivedBatchCost(b)
  {
    if a.cogsPerBatch.None? && IngredientCost(a).Some? && a.servingsPerBatch.Some? {
      assert DerivedBatchCost(a).value == IngredientCost(a).value * a.servingsPerBatch.value;
      assert DerivedBatchCost(b).value == IngredientCost(b).value * b.servingsPerBatch.value;
      assert DerivedBatchCost(a).value == DerivedBatchCost(b).value;
      assert DerivedBatchCost(a).Some? && DerivedBatchCost(b).Some?;
    }
  }

  /** Pricing an item twice is pricing it once. */
  lemma PriceItemIdempotent(item: Item)
    ensures PriceItem(PriceItem(item)) == PriceItem(item)
  {
    var next := PriceItem(item);
    assert ResolvedType(next) == ResolvedType(item);
    assert IngredientCost(next) == IngredientCost(item);
    if ResolvedType(item) != "per_person" {
      assert next.cogsPerPerson == item.cogsPerPerson;
      assert next.cogsPerBatch == item.cogsPerBatch && next.servingsPerBatch == item.servingsPerBatch;
      SameBatchCost(next, item);
    }
  }

  function PriceSection(section: Section<Item>): Section<Item> {
    section.(items := seq(|section.items|, k requires 0 <= k < |section.items| => PriceItem(section.items[k])))
  }

  function PriceMenu(menu: Menu<Item>): Menu<Item> {
    menu.(sections := seq(|menu.sections|, j requires 0 <= j < |menu.sections| => PriceSection(menu.sections[j])))
  }

  /**
   * `applyPricing(menus)`: the same menus, sections and items in the same
   * order, each item priced.
   */
  function ApplyPricing(menus: seq<Menu<Item>>): (r: seq<Menu<Item>>)
    ensures |r| == |menus|
    ensures forall i :: 0 <= i < |menus| ==>
      && r[i].id == menus[i].id && r[i].displayName == menus[i].displayName
      && |r[i].sections| == |menus[i].sections|
    ensures forall i, j :: 0 <= i < |menus| && 0 <= j < |menus[i].sections| ==>
      && r[i].sections[j].title == menus[i].sections[j].title
      && |r[i].sections[j].items| == |menus[i].sections[j].items|
    ensures forall i, j, k :: 0 <= i < |menus| && 0 <= j < |menus[i].sections| && 0 <= k < |menus[i].sections[j].items| ==>
      r[i].sections[j].items[k] == PriceItem(menus[i].sections[j].items[k])
  {
    seq(|menus|, i requires 0 <= i < |menus| => PriceMenu(menus[i]))
  }

  /** Applying pricing to menus that are already priced changes nothing. */
  lemma ApplyPricingIdempotent(menus: seq<Menu<Item>>)
    ensures ApplyPricing(ApplyPricing(menus)) == ApplyPricing(menus)
  {
    var once := ApplyPricing(menus);
    var twice := ApplyPricing(once);
    forall i | 0 <= i < |menus|
      ensures twice[i] == once[i]
    {
      forall j | 0 <= j < |menus[i].sections|
        ensures twice[i].sections[j] == once[i].sections[j]
      {
        forall k | 0 <= k < |menus[i].sections[j].items|
          ensures twice[i].sections[j].items[k] == once[i].sections[j].items[k]
        {
          PriceItemIdempotent(menus[i].sections[j].items[k]);
        }
      }
    }
  }

  // ----- examples from the shipped menus -----

  /** An item with only a name and a pricing type; the rest is filled in by the examples. */
  function Bare(name: string, pricingType: string): Item {
    Item(name, Some(pricingType), None, None, None, None, None, None, None, None, false, None)
  }

  /** Lunch "Fruit & Veggie Board": batch cost 70 and no price derive 185. */
  lemma LunchFruitBoardPrice()
    ensures PriceItem(Bare("Fruit & Veggie Board", "fixed").(cogsPerBatch := Some(70.0), servingsPerBatch := Some(16.0))).fixedPrice
      == Some(185.0)
  {
    assert SellFromCogs(70.0, "fixed") == 185.0 by {
      assert 70.0 * (1.0 + FoodWastePct) * LaborOverheadMultiplier / 5.0 == 36.96;
      assert Round(36.96) == 37;
    }
  }

  /** "Baked Potato Bar": cost 2.4 sells at 6, which the entree floor raises to 8. */
  lemma BakedPotatoBarPrice()
    ensures PriceItem(Bare("Baked Potato Bar", "per_person").(category := Some("entree"), cogsPerPerson := Some(2.4))).perPersonPrice
      == Some(8.0)
  {
    assert SellFromCogs(2.4, "per_person") == 6.0 by {
      assert 2.4 * (1.0 + FoodWastePct) * LaborOverheadMultiplier / 1.0 == 6.336;
      assert Round(6.336) == 6;
    }
  }

  /** Picnic "Fruit & Veggie Board" keeps its stated 100, although that is below the fixed minimum. */
  lemma PicnicFruitBoardPrice()
    ensures PriceItem(Bare("Fruit & Veggie Board", "fixed").(fixedPrice := Some(100.0), allowQuantity := true, maxQty := Some(4))).fixedPrice
      == Some(100.0)
    ensures 100.0 < MinFixedPrice
  {
  }

  /** Lunch "Chicken": 0.45 lb of thighs at 3.12 plus 0.45 sells at 5, raised to the entree floor 8. */
  lemma ChickenPrice()
    ensures PriceItem(Bare("Chicken", "per_person").(category := Some("entree"), cogsPerPerson := Some(CostFromPortion(0.45, 3.12, 0.45)))).perPersonPrice
      == Some(8.0)
  {
    assert CostFromPortion(0.45, 3.12, 0.45) == 1.854;
    assert SellFromCogs(1.854, "per_person") == 5.0 by {
      assert 1.854 * (1.0 + FoodWastePct) * LaborOverheadMultiplier / 1.0 == 4.89456;
      assert Round(4.89456) == 5;
    }
  }
}
