/**
 * The totals `updateEstimate` in `js/main.js` shows: taken from
 * `computeEstimate` when the pricing module is loaded, otherwise from the
 * builder's own fallback sums (four `reduce` passes, no tax or gratuity).
 */
module EstimateTotals {
  import opened Wrappers
  import opened Selections
  import Estimate

  /** A selected item as handed to `computeEstimate`: the builder's camel-case fields and its quantity. */
  function LineOf(s: Selected): Estimate.Line {
    Estimate.Line(Some(s.qty as real), Some(s.item.pricingType), None, s.item.fixedPrice, None,
                  s.item.perPerson, None, s.item.cogsPerPerson, None, s.item.cogsPerBatch, None)
  }

  /** A selected add-on as handed to `computeEstimate`. */
  function AddonLineOf(a: SelectedAddon): Estimate.AddonLine {
    Estimate.AddonLine(Some(a.qty as real), a.addon.fixedPrice, a.addon.perPersonPrice)
  }

  /** `xs.map(conv)`. */
  function Mapped<A, B>(xs: seq<A>, conv: A -> B): (r: seq<B>)
    ensures |r| == |xs|
    ensures forall i :: 0 <= i < |xs| ==> r[i] == conv(xs[i])
  {
    seq(|xs|, i requires 0 <= i < |xs| => conv(xs[i]))
  }

  /** Summing `f` over a list is summing `h` over its image when `f` is `h` after the conversion. */
  lemma {:induction false} SumByMapped<A, B>(xs: seq<A>, conv: A -> B, f: A -> real, h: B -> real)
    requires forall i :: 0 <= i < |xs| ==> f(xs[i]) == h(conv(xs[i]))
    ensures Estimate.SumBy(xs, f) == Estimate.SumBy(Mapped(xs, conv), h)
    decreases |xs|
  {
    if xs != [] {
      var init := xs[..|xs| - 1];
      SumByMapped(init, conv, f, h);
      assert Mapped(xs, conv)[..|xs| - 1] == Mapped(init, conv);
    }
  }

  /** The fallback's fixed amount of an item: a finite `fixedPrice` times `qty || 1`. */
  function ItemFixed(s: Selected): real {
    if s.item.fixedPrice.Some? then s.item.fixedPrice.value * Estimate.Qty(Some(s.qty as real)) else 0.0
  }

  /** The fallback's per-guest amount of an item without a fixed price: its per-person price times `qty || 1`. */
  function ItemPerPerson(s: Selected): real {
    if s.item.fixedPrice.Some? then 0.0 else PerPersonPrice(s.item) * Estimate.Qty(Some(s.qty as real))
  }

  /** What `updateEstimate` displays: the fixed total, the per-guest total, the estimate and the food cost. */
  datatype Totals = Totals(fixedTotal: real, perPersonTotal: real, estimateTotal: real, foodCostTotal: real)

  /** The fallback branch of `updateEstimate`: fixed plus per-guest times guests, no tax, no food cost. */
  function FallbackTotals(guestCount: int, items: seq<Selected>, addons: seq<SelectedAddon>): Totals {
    var addonLines := Mapped(addons, AddonLineOf);
    var fixed := Estimate.SumBy(items, ItemFixed) + Estimate.SumBy(addonLines, Estimate.AddonFixedSell);
    var perPerson := Estimate.SumBy(items, ItemPerPerson) + Estimate.SumBy(addonLines, Estimate.AddonPerPersonSell);
    FallbackFrom(guestCount, fixed, perPerson)
  }

  /** The fallback's figures from its two sums: the estimate is fixed plus guests times per-guest, food cost 0. */
  function FallbackFrom(guestCount: int, fixed: real, perPerson: real): (t: Totals)
    ensures t.fixedTotal == fixed && t.perPersonTotal == perPerson && t.foodCostTotal == 0.0
  {
    Totals(fixed, perPerson, fixed + guestCount as real * perPerson, 0.0)
  }

  /** The quote `computeEstimate` gives for the builder's selections. */
  function ModuleQuote(guestCount: int, items: seq<Selected>, addons: seq<SelectedAddon>): Estimate.Quote {
    Estimate.EstimateOf(Some(guestCount as real), Mapped(items, LineOf), Mapped(addons, AddonLineOf))
  }

  /** The totals `updateEstimate` displays, from the pricing module when there is one. */
  function TotalsOf(pricingModule: bool, guestCount: int, items: seq<Selected>, addons: seq<SelectedAddon>): (t: Totals)
    ensures !pricingModule ==> t.estimateTotal == t.fixedTotal + guestCount as real * t.perPersonTotal && t.foodCostTotal == 0.0
  {
    if pricingModule then
      var q := ModuleQuote(guestCount, items, addons);
      Totals(q.fixedSellTotal, q.perPersonSellTotal, q.sellTotal, q.foodCostTotal)
    else FallbackTotals(guestCount, items, addons)
  }

  /** An item whose type says `fixed` carries a finite fixed price: the fallback then prices it like the module. */
  predicate TypedConsistently(items: seq<Selected>) {
    forall i :: 0 <= i < |items| ==> items[i].item.pricingType == "fixed" ==> items[i].item.fixedPrice.Some?
  }

  lemma ItemAmountsAgree(s: Selected)
    requires s.item.pricingType == "fixed" ==> s.item.fixedPrice.Some?
    ensures ItemFixed(s) == Estimate.LineFixedSell(LineOf(s))
    ensures ItemPerPerson(s) == Estimate.LinePerPersonSell(LineOf(s))
  {
    assert Estimate.IsFixedLine(LineOf(s)) <==> s.item.fixedPrice.Some?;
  }

  /**
   * Without the pricing module the builder shows the same fixed and per-guest
   * totals as `computeEstimate`, and as its estimate the quote's subtotal,
   * before tax and gratuity.
   */
  lemma FallbackMatchesSubtotal(guestCount: int, items: seq<Selected>, addons: seq<SelectedAddon>)
    requires TypedConsistently(items)
    ensures var f := TotalsOf(false, guestCount, items, addons);
            var q := ModuleQuote(guestCount, items, addons);
      && f.fixedTotal == q.fixedSellTotal
      && f.perPersonTotal == q.perPersonSellTotal
      && f.estimateTotal == q.subtotal
      && TotalsOf(true, guestCount, items, addons).estimateTotal == f.estimateTotal + q.taxAmount + q.gratuityAmount
  {
    var lines := Mapped(items, LineOf);
    var addonLines := Mapped(addons, AddonLineOf);
    SumsAgree(items);
    var q := ModuleQuote(guestCount, items, addons);
    assert q.fixedSellTotal == Estimate.FixedSellTotal(lines, addonLines);
    assert q.perPersonSellTotal == Estimate.PerPersonSellTotal(lines, addonLines);
  }

  lemma SumsAgree(items: seq<Selected>)
    requires TypedConsistently(items)
    ensures Estimate.SumBy(items, ItemFixed) == Estimate.SumBy(Mapped(items, LineOf), Estimate.LineFixedSell)
    ensures Estimate.SumBy(items, ItemPerPerson) == Estimate.SumBy(Mapped(items, LineOf), Estimate.LinePerPersonSell)
  {
    forall i | 0 <= i < |items|
      ensures ItemFixed(items[i]) == Estimate.LineFixedSell(LineOf(items[i]))
      ensures ItemPerPerson(items[i]) == Estimate.LinePerPersonSell(LineOf(items[i]))
    {
      ItemAmountsAgree(items[i]);
    }
    SumByMapped(items, LineOf, ItemFixed, Estimate.LineFixedSell);
    SumByMapped(items, LineOf, ItemPerPerson, Estimate.LinePerPersonSell);
  }

  /**
   * The two branches part ways on an item typed `fixed` without a fixed price:
   * the fallback bills its per-person price for every guest, the module bills
   * nothing for it.
   */
  lemma FixedTypeWithoutPrice()
    ensures var item := MenuItem("Board", None, Some(10.0), None, None, None, "fixed", "", false, None);
      && TotalsOf(false, 20, [Selected(item, 1)], []).estimateTotal == 200.0
      && TotalsOf(true, 20, [Selected(item, 1)], []).estimateTotal == 0.0
  {
    var item := MenuItem("Board", None, Some(10.0), None, None, None, "fixed", "", false, None);
    var items := [Selected(item, 1)];
    assert items[..0] == [];
    assert Estimate.SumBy(items, ItemPerPerson) == 10.0;
    var lines := Mapped(items, LineOf);
    assert lines[..0] == [];
    assert Estimate.SumBy(lines, Estimate.LineFixedSell) == 0.0;
    assert Estimate.SumBy(lines, Estimate.LinePerPersonSell) == 0.0;
  }

  /**
   * With the pricing module the builder shows the quote's fixed and per-guest
   * totals, and as its estimate the subtotal plus the rounded tax and gratuity.
   */
  lemma ModuleEstimateIsTotal(guestCount: int, items: seq<Selected>, addons: seq<SelectedAddon>)
    ensures var t := TotalsOf(true, guestCount, items, addons);
            var q := ModuleQuote(guestCount, items, addons);
      && t.fixedTotal == q.fixedSellTotal
      && t.perPersonTotal == q.perPersonSellTotal
      && t.estimateTotal == q.subtotal + q.taxAmount + q.gratuityAmount
      && t.foodCostTotal == q.foodCostTotal
  {
    var q := ModuleQuote(guestCount, items, addons);
    assert TotalsOf(true, guestCount, items, addons) == Totals(q.fixedSellTotal, q.perPersonSellTotal, q.sellTotal, q.foodCostTotal);
  }

  /** With nothing selected both branches show zero everywhere. */
  lemma NothingSelected(pricingModule: bool, guestCount: int)
    ensures TotalsOf(pricingModule, guestCount, [], []) == Totals(0.0, 0.0, 0.0, 0.0)
  {
    assert Mapped([], LineOf) == [];
    assert Mapped([], AddonLineOf) == [];
    Estimate.EmptyEstimate(Some(guestCount as real));
  }

  /** The totals part of `updateEstimate`: `computeEstimate` when the pricing module is loaded, else the fallback. */
  method UpdateTotals(pricingModule: bool, guestCount: int, items: seq<Selected>, addons: seq<SelectedAddon>)
    returns (t: Totals)
    ensures t == TotalsOf(pricingModule, guestCount, items, addons)
  {
    if pricingModule {
      var q := Estimate.ComputeEstimate(Some(guestCount as real), Mapped(items, LineOf), Mapped(addons, AddonLineOf));
      t := Totals(q.fixedSellTotal, q.perPersonSellTotal, q.sellTotal, q.foodCostTotal);
    } else {
      t := ComputeFallback(guestCount, items, addons);
    }
  }

  /** `xs.reduce((sum, x) => sum + f(x), 0)`. */
  method Reduce<T>(xs: seq<T>, f: T -> real) returns (sum: real)
    ensures sum == Estimate.SumBy(xs, f)
  {
    sum := 0.0;
    for i := 0 to |xs|
      invariant sum == Estimate.SumBy(xs[..i], f)
    {
      assert xs[..i + 1][..i] == xs[..i];
      sum := sum + f(xs[i]);
    }
    assert xs[..|xs|] == xs;
  }

  /** The four `reduce` passes of the fallback branch, then fixed plus per-guest times guests. */
  method ComputeFallback(guestCount: int, items: seq<Selected>, addons: seq<SelectedAddon>) returns (t: Totals)
    ensures t == FallbackTotals(guestCount, items, addons)
  {
    var addonLines := Mapped(addons, AddonLineOf);
    var fixedTotal := Reduce(items, ItemFixed);
    var fixedAddonTotal := Reduce(addonLines, Estimate.AddonFixedSell);
    var perPersonTotal := Reduce(items, ItemPerPerson);
    var perPersonAddonTotal := Reduce(addonLines, Estimate.AddonPerPersonSell);
    t := FallbackFrom(guestCount, fixedTotal + fixedAddonTotal, perPersonTotal + perPersonAddonTotal);
  }
}
