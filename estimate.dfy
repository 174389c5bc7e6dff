/**
 * `computeEstimate` of `js/private-menu-pricing.js`: the quote for a set of
 * selected menu lines and beverage add-ons. Each line is either a fixed-price
 * board or station, counted once per quantity, or a per-person dish, counted
 * per quantity and per guest; tax and gratuity are added only when something
 * is selected.
 */
module Estimate {
  import opened Wrappers
  import Pricing

  /**
   * A selected line as `computeEstimate` reads it. A line may carry the
   * builder's camel-case fields (`pricingType`, `fixedPrice`, `perPerson`,
   * `cogsPerPerson`, `cogsPerBatch`), the data's snake-case fields
   * (`pricing_type`, `fixed_price`, `per_person_price`, `cogs_per_person`,
   * `cogs_per_batch`), or both.
   */
  datatype Line = Line(
    qty: Option<real>,
    pricingType: Option<string>,
    pricingTypeSnake: Option<string>,
    fixedPrice: Option<real>,
    fixedPriceSnake: Option<real>,
    perPerson: Option<real>,
    perPersonSnake: Option<real>,
    cogsPerPerson: Option<real>,
    cogsPerPersonSnake: Option<real>,
    cogsPerBatch: Option<real>,
    cogsPerBatchSnake: Option<real>)

  /** A selected beverage add-on: its quantity and its `fixed_price` and `per_person_price`. */
  datatype AddonLine = AddonLine(qty: Option<real>, fixedPrice: Option<real>, perPersonPrice: Option<real>)

  /** The object `computeEstimate` returns. */
  datatype Quote = Quote(
    sellTotal: real,
    subtotal: real,
    taxAmount: real,
    gratuityAmount: real,
    total: real,
    foodCostTotal: real,
    fixedSellTotal: real,
    perPersonSellTotal: real)

  /** `qty || 1`: a missing or zero quantity counts as one. */
  function Qty(qty: Option<real>): (q: real)
    ensures q != 0.0
    ensures qty.Some? && qty.value != 0.0 ==> q == qty.value
    ensures qty.None? || qty.value == 0.0 ==> q == 1.0
  {
    if qty.None? || qty.value == 0.0 then 1.0 else qty.value
  }

  /** `item.pricingType || item.pricing_type || (fixedPrice finite ? 'fixed' : 'per_person')`. */
  function LineType(line: Line): string {
    if Pricing.Truthy(line.pricingType) then line.pricingType.value
    else if Pricing.Truthy(line.pricingTypeSnake) then line.pricingTypeSnake.value
    else if line.fixedPrice.Some? then "fixed"
    else "per_person"
  }

  /** A line is priced as fixed when its type says so or it carries any finite fixed price. */
  predicate IsFixedLine(line: Line) {
    LineType(line) == "fixed" || line.fixedPrice.Some? || line.fixedPriceSnake.Some?
  }

  /** The fixed sell amount of a line: its price times its quantity, 0 for a per-person line. */
  function LineFixedSell(line: Line): real {
    if IsFixedLine(line) then
      (if line.fixedPrice.Some? then line.fixedPrice.value else line.fixedPriceSnake.GetOr(0.0)) * Qty(line.qty)
    else 0.0
  }

  /** The per-guest sell amount of a line: its price times its quantity, 0 for a fixed line. */
  function LinePerPersonSell(line: Line): real {
    if IsFixedLine(line) then 0.0
    else (if line.perPerson.Some? then line.perPerson.value else line.perPersonSnake.GetOr(0.0)) * Qty(line.qty)
  }

  /** The food cost of a fixed line: batch cost times quantity. */
  function LineFixedCost(line: Line): real {
    if IsFixedLine(line) then
      (if line.cogsPerBatch.Some? then line.cogsPerBatch.value else line.cogsPerBatchSnake.GetOr(0.0)) * Qty(line.qty)
    else 0.0
  }

  /** The food cost of a per-person line: cost per person times quantity times guests, 0 for a fixed line. */
  function LinePerPersonCost(line: Line, guests: real): real {
    if IsFixedLine(line) then 0.0
    else (if line.cogsPerPerson.Some? then line.cogsPerPerson.value else line.cogsPerPersonSnake.GetOr(0.0)) * Qty(line.qty) * guests
  }

  /** `LinePerPersonCost` for a fixed number of guests, as a function of the line. */
  function PerPersonCostFor(guests: real): Line -> real {
    line => LinePerPersonCost(line, guests)
  }

  function AddonFixedSell(addon: AddonLine): real {
    if addon.fixedPrice.Some? then addon.fixedPrice.value * Qty(addon.qty) else 0.0
  }

  function AddonPerPersonSell(addon: AddonLine): real {
    if addon.perPersonPrice.Some? then addon.perPersonPrice.value * Qty(addon.qty) else 0.0
  }

  /** The sum of `f` over `xs`, taken left to right. */
  function SumBy<T>(xs: seq<T>, f: T -> real): real
    decreases |xs|
  {
    if xs == [] then 0.0 else SumBy(xs[..|xs| - 1], f) + f(xs[|xs| - 1])
  }

  /** A sum over a concatenation is the sum of the two sums. */
  lemma {:induction false} SumByConcat<T>(xs: seq<T>, ys: seq<T>, f: T -> real)
    ensures SumBy(xs + ys, f) == SumBy(xs, f) + SumBy(ys, f)
    decreases |ys|
  {
    if ys == [] {
      assert xs + ys == xs;
    } else {
      var init := ys[..|ys| - 1];
      assert (xs + ys)[..|xs + ys| - 1] == xs + init;
      assert (xs + ys)[|xs + ys| - 1] == ys[|ys| - 1];
      SumByConcat(xs, init, f);
    }
  }

  /** A sum of terms that are all zero is zero. */
  lemma {:induction false} SumByZero<T>(xs: seq<T>, f: T -> real)
    requires forall i :: 0 <= i < |xs| ==> f(xs[i]) == 0.0
    ensures SumBy(xs, f) == 0.0
    decreases |xs|
  {
    if xs != [] {
      SumByZero(xs[..|xs| - 1], f);
    }
  }

  /** Some element of `xs` satisfies `p`, looked for left to right. */
  predicate AnyBy<T>(xs: seq<T>, p: T -> bool)
    decreases |xs|
  {
    xs != [] && (AnyBy(xs[..|xs| - 1], p) || p(xs[|xs| - 1]))
  }

  /** `AnyBy` is the existential it reads as. */
  lemma {:induction false} AnyByExists<T>(xs: seq<T>, p: T -> bool)
    ensures AnyBy(xs, p) <==> exists i :: 0 <= i < |xs| && p(xs[i])
    decreases |xs|
  {
    if xs != [] {
      var init := xs[..|xs| - 1];
      AnyByExists(init, p);
      if AnyBy(init, p) {
        var i :| 0 <= i < |init| && p(init[i]);
        assert xs[i] == init[i];
      }
      if exists i :: 0 <= i < |xs| && p(xs[i]) {
        var i :| 0 <= i < |xs| && p(xs[i]);
        if i < |init| {
          assert init[i] == xs[i];
        }
      }
    }
  }

  predicate LineSelected(line: Line) {
    Qty(line.qty) > 0.0
  }

  predicate AddonSelected(addon: AddonLine) {
    Qty(addon.qty) > 0.0
  }

  /** `hasSelections`: some line or add-on has a positive quantity. */
  predicate HasSelections(lines: seq<Line>, addons: seq<AddonLine>) {
    AnyBy(lines, LineSelected) || AnyBy(addons, AddonSelected)
  }

  /** `Number.isFinite(Number(guestCount)) ? Number(guestCount) : 0`. */
  function Guests(guestCount: Option<real>): real {
    guestCount.GetOr(0.0)
  }

  /** The fixed sell total: fixed lines and add-on fixed prices, each times its quantity. */
  function FixedSellTotal(lines: seq<Line>, addons: seq<AddonLine>): real {
    SumBy(lines, LineFixedSell) + SumBy(addons, AddonFixedSell)
  }

  /** The per-guest sell total: per-person lines and add-on per-person prices, each times its quantity. */
  function PerPersonSellTotal(lines: seq<Line>, addons: seq<AddonLine>): real {
    SumBy(lines, LinePerPersonSell) + SumBy(addons, AddonPerPersonSell)
  }

  /** The food cost: batch costs of fixed lines plus per-person costs of the other lines for every guest. */
  function FoodCostTotal(lines: seq<Line>, guests: real): real {
    SumBy(lines, LineFixedCost) + SumBy(lines, PerPersonCostFor(guests))
  }

  /** The quote built from the running totals: subtotal, rounded tax and gratuity when selected, total. */
  function QuoteOf(guests: real, selected: bool, fixedSell: real, perPersonSell: real, foodCost: real): (q: Quote)
    ensures q.total == q.sellTotal == q.subtotal + q.taxAmount + q.gratuityAmount
    ensures q.subtotal == fixedSell + perPersonSell * guests
    ensures q.fixedSellTotal == fixedSell && q.perPersonSellTotal == perPersonSell && q.foodCostTotal == foodCost
    ensures !selected ==> q.taxAmount == 0.0 && q.gratuityAmount == 0.0
    ensures selected ==>
      && q.subtotal * Pricing.SalesTaxPct - 0.5 < q.taxAmount <= q.subtotal * Pricing.SalesTaxPct + 0.5
      && q.subtotal * Pricing.GratuityPct - 0.5 < q.gratuityAmount <= q.subtotal * Pricing.GratuityPct + 0.5
      && Pricing.IsWhole(q.taxAmount) && Pricing.IsWhole(q.gratuityAmount)
  {
    var subtotal := fixedSell + perPersonSell * guests;
    var tax := if selected then Pricing.Round(subtotal * Pricing.SalesTaxPct) as real else 0.0;
    var gratuity := if selected then Pricing.Round(subtotal * Pricing.GratuityPct) as real else 0.0;
    var sellTotal := subtotal + tax + gratuity;
    Quote(sellTotal, subtotal, tax, gratuity, sellTotal, foodCost, fixedSell, perPersonSell)
  }

  /** The quote `computeEstimate` returns, as a function of its inputs. */
  function EstimateOf(guestCount: Option<real>, lines: seq<Line>, addons: seq<AddonLine>): (q: Quote)
    ensures q.fixedSellTotal == FixedSellTotal(lines, addons)
    ensures q.perPersonSellTotal == PerPersonSellTotal(lines, addons)
    ensures q.foodCostTotal == FoodCostTotal(lines, Guests(guestCount))
    ensures q.subtotal == q.fixedSellTotal + q.perPersonSellTotal * Guests(guestCount)
    ensures guestCount.None? ==> q.subtotal == q.fixedSellTotal
    ensures !HasSelections(lines, addons) ==> q.taxAmount == 0.0 && q.gratuityAmount == 0.0
  {
    var guests := Guests(guestCount);
    QuoteOf(guests, HasSelections(lines, addons), FixedSellTotal(lines, addons), PerPersonSellTotal(lines, addons),
            FoodCostTotal(lines, guests))
  }

  /** `computeEstimate({ guestCount, selections, addons })`: two passes accumulating the running totals. */
  method ComputeEstimate(guestCount: Option<real>, selections: seq<Line>, addons: seq<AddonLine>) returns (q: Quote)
    ensures q == EstimateOf(guestCount, selections, addons)
  {
    var guests := Guests(guestCount);
    var fixedSellTotal, perPersonSellTotal, fixedFoodCost, perPersonFoodCost, hasSelections :=
      SelectionPass(selections, guests);
    var fixedAddons, perPersonAddons, addonSelected := AddonPass(addons);
    q := QuoteOf(guests, hasSelections || addonSelected, fixedSellTotal + fixedAddons,
                 perPersonSellTotal + perPersonAddons, fixedFoodCost + perPersonFoodCost);
  }

  /** The `selections.forEach` pass of `computeEstimate`. */
  method SelectionPass(selections: seq<Line>, guests: real)
    returns (fixedSellTotal: real, perPersonSellTotal: real, fixedFoodCost: real, perPersonFoodCost: real, hasSelections: bool)
    ensures fixedSellTotal == SumBy(selections, LineFixedSell)
    ensures perPersonSellTotal == SumBy(selections, LinePerPersonSell)
    ensures fixedFoodCost == SumBy(selections, LineFixedCost)
    ensures perPersonFoodCost == SumBy(selections, PerPersonCostFor(guests))
    ensures hasSelections == AnyBy(selections, LineSelected)
  {
    fixedSellTotal, perPersonSellTotal, fixedFoodCost, perPersonFoodCost, hasSelections := 0.0, 0.0, 0.0, 0.0, false;
    for i := 0 to |selections|
      invariant fixedSellTotal == SumBy(selections[..i], LineFixedSell)
      invariant perPersonSellTotal == SumBy(selections[..i], LinePerPersonSell)
      invariant fixedFoodCost == SumBy(selections[..i], LineFixedCost)
      invariant perPersonFoodCost == SumBy(selections[..i], PerPersonCostFor(guests))
      invariant hasSelections == AnyBy(selections[..i], LineSelected)
    {
      var item := selections[i];
      var qty := Qty(item.qty);
      if qty > 0.0 {
        hasSelections := true;
      }
      assert selections[..i + 1][..i] == selections[..i];
      if IsFixedLine(item) {
        var sell := if item.fixedPrice.Some? then item.fixedPrice.value else item.fixedPriceSnake.GetOr(0.0);
        var cogs := if item.cogsPerBatch.Some? then item.cogsPerBatch.value else item.cogsPerBatchSnake.GetOr(0.0);
        fixedSellTotal := fixedSellTotal + sell * qty;
        fixedFoodCost := fixedFoodCost + cogs * qty;
      } else {
        var sell := if item.perPerson.Some? then item.perPerson.value else item.perPersonSnake.GetOr(0.0);
        var cogs := if item.cogsPerPerson.Some? then item.cogsPerPerson.value else item.cogsPerPersonSnake.GetOr(0.0);
        perPersonSellTotal := perPersonSellTotal + sell * qty;
        perPersonFoodCost := perPersonFoodCost + cogs * qty * guests;
      }
    }
    assert selections[..|selections|] == selections;
  }

  /** The `addons.forEach` pass of `computeEstimate`. */
  method AddonPass(addons: seq<AddonLine>) returns (fixedSellTotal: real, perPersonSellTotal: real, hasSelections: bool)
    ensures fixedSellTotal == SumBy(addons, AddonFixedSell)
    ensures perPersonSellTotal == SumBy(addons, AddonPerPersonSell)
    ensures hasSelections == AnyBy(addons, AddonSelected)
  {
    fixedSellTotal, perPersonSellTotal, hasSelections := 0.0, 0.0, false;
    for j := 0 to |addons|
      invariant fixedSellTotal == SumBy(addons[..j], AddonFixedSell)
      invariant perPersonSellTotal == SumBy(addons[..j], AddonPerPersonSell)
      invariant hasSelections == AnyBy(addons[..j], AddonSelected)
    {
      var addon := addons[j];
      var qty := Qty(addon.qty);
      if qty > 0.0 {
        hasSelections := true;
      }
      assert addons[..j + 1][..j] == addons[..j];
      if addon.fixedPrice.Some? {
        fixedSellTotal := fixedSellTotal + addon.fixedPrice.value * qty;
      }
      if addon.perPersonPrice.Some? {
        perPersonSellTotal := perPersonSellTotal + addon.perPersonPrice.value * qty;
      }
    }
    assert addons[..|addons|] == addons;
  }

  /** With nothing selected every figure of the quote is zero. */
  lemma EmptyEstimate(guestCount: Option<real>)
    ensures EstimateOf(guestCount, [], []) == Quote(0.0, 0.0, 0.0, 0.0, 0.0, 0.0, 0.0, 0.0)
  {
  }

  /** A line is counted on exactly one side: fixed or per person, never both. */
  lemma LineCountedOnce(line: Line)
    ensures IsFixedLine(line) ==> LinePerPersonSell(line) == 0.0 && forall g :: LinePerPersonCost(line, g) == 0.0
    ensures !IsFixedLine(line) ==> LineFixedSell(line) == 0.0 && LineFixedCost(line) == 0.0
  {
  }

  /** Splitting the selections in two splits the sell and food-cost totals the same way. */
  lemma EstimateOfConcat(guestCount: Option<real>, a: seq<Line>, b: seq<Line>)
    ensures EstimateOf(guestCount, a + b, []).fixedSellTotal
      == EstimateOf(guestCount, a, []).fixedSellTotal + EstimateOf(guestCount, b, []).fixedSellTotal
    ensures EstimateOf(guestCount, a + b, []).perPersonSellTotal
      == EstimateOf(guestCount, a, []).perPersonSellTotal + EstimateOf(guestCount, b, []).perPersonSellTotal
    ensures EstimateOf(guestCount, a + b, []).foodCostTotal
      == EstimateOf(guestCount, a, []).foodCostTotal + EstimateOf(guestCount, b, []).foodCostTotal
  {
    SumByConcat(a, b, LineFixedSell);
    SumByConcat(a, b, LinePerPersonSell);
    SumByConcat(a, b, LineFixedCost);
    SumByConcat(a, b, PerPersonCostFor(Guests(guestCount)));
  }

  /** Only per-person lines and no add-ons: nothing is fixed, and the subtotal is the per-guest total times the guests. */
  lemma PerPersonOnlySubtotal(guestCount: Option<real>, lines: seq<Line>)
    requires forall i :: 0 <= i < |lines| ==> !IsFixedLine(lines[i])
    ensures var q := EstimateOf(guestCount, lines, []);
      && q.fixedSellTotal == 0.0
      && q.perPersonSellTotal == SumBy(lines, LinePerPersonSell)
      && q.subtotal == q.perPersonSellTotal * Guests(guestCount)
  {
    SumByZero(lines, LineFixedSell);
    var none: seq<AddonLine> := [];
    assert SumBy(none, AddonFixedSell) == 0.0;
    assert SumBy(none, AddonPerPersonSell) == 0.0;
  }

  /** A line as the builder hands it over: camel-case fields only and a positive quantity. */
  function BuilderLine(qty: real, pricingType: string, fixedPrice: Option<real>, perPerson: Option<real>): Line {
    Line(Some(qty), Some(pricingType), None, fixedPrice, None, perPerson, None, None, None, None, None)
  }

  /** Twenty guests, one dish at 8 per guest and one board at 150: 310 plus 22 tax and 56 gratuity is 388. */
  lemma TwentyGuestQuote()
    ensures var q := EstimateOf(Some(20.0),
                                [BuilderLine(1.0, "per_person", None, Some(8.0)), BuilderLine(1.0, "fixed", Some(150.0), None)],
                                []);
      && q.subtotal == 310.0 && q.taxAmount == 22.0 && q.gratuityAmount == 56.0 && q.total == 388.0
  {
    var lines := [BuilderLine(1.0, "per_person", None, Some(8.0)), BuilderLine(1.0, "fixed", Some(150.0), None)];
    assert lines[..1] == [lines[0]] && lines[..1][..0] == [];
    assert SumBy(lines, LineFixedSell) == 150.0;
    assert SumBy(lines, LinePerPersonSell) == 8.0;
    assert HasSelections(lines, []) by {
      assert LineSelected(lines[0]);
    }
    assert Pricing.Round(310.0 * Pricing.SalesTaxPct) == 22;
    assert Pricing.Round(310.0 * Pricing.GratuityPct) == 56;
  }
}
