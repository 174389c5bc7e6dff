/**
 * The state of the private-event menu builder (`renderPrivateEventMenu` in
 * `js/main.js`): the menu shown, a quantity map per menu, the add-on
 * quantities and the guest input, with the click, input and blur handlers
 * that change them. Every handler ends by recomputing what the builder shows
 * (`updateEstimate`); here it returns that view.
 */
module MenuBuilder {
  import opened Wrappers
  import opened Text
  import Pricing
  import opened Selections
  import opened EstimateTotals
  import Summary

  // ----- quantities -----

  /** `Math.max(0, maxQty ? Math.min(next, maxQty) : next)`: a missing or zero cap means no cap. */
  function Bounded(next: int, maxQty: Option<int>): (b: int)
    ensures b >= 0
    ensures next <= 0 ==> b == 0
    ensures next > 0 ==> b <= next
    ensures (maxQty.None? || maxQty.value == 0 || next <= maxQty.value) && next >= 0 ==> b == next
    ensures maxQty.Some? && maxQty.value != 0 ==> b <= maxQty.value || b == 0
    ensures maxQty.Some? && maxQty.value > 0 && next > maxQty.value ==> b == maxQty.value
  {
    var capped := if maxQty.Some? && maxQty.value != 0 && maxQty.value < next then maxQty.value else next;
    if capped > 0 then capped else 0
  }

  /** Bounding a bounded quantity again changes nothing. */
  lemma BoundedIdempotent(next: int, maxQty: Option<int>)
    ensures Bounded(Bounded(next, maxQty), maxQty) == Bounded(next, maxQty)
  {
  }

  /** Below the cap, `+` then `–` comes back to the same quantity. */
  lemma PlusThenMinus(qty: int, maxQty: Option<int>)
    requires qty >= 0
    requires maxQty.None? || maxQty.value == 0 || qty < maxQty.value
    ensures Bounded(Bounded(qty + 1, maxQty) - 1, maxQty) == qty
  {
  }

  /** At the cap, `+` keeps the quantity where it is. */
  lemma PlusAtCap(maxQty: int)
    requires maxQty > 0
    ensures Bounded(maxQty + 1, Some(maxQty)) == maxQty
  {
  }

  /** Every quantity a map holds is positive: a zero is stored by deleting the key. */
  predicate Positive(selection: map<string, int>) {
    forall k :: k in selection ==> selection[k] > 0
  }

  /** `qty === 0 ? map.delete(key) : map.set(key, qty)`. */
  function SetQtyIn(selection: map<string, int>, key: string, qty: int): (r: map<string, int>)
    requires qty >= 0
    ensures QtyOf(r, key) == qty
    ensures key in r <==> qty > 0
    ensures forall k :: k != key ==> (k in r <==> k in selection) && QtyOf(r, k) == QtyOf(selection, k)
    ensures Positive(selection) ==> Positive(r)
  {
    if qty == 0 then selection - {key} else selection[key := qty]
  }

  /** A toggle click: a selected key is removed, an unselected one gets quantity 1. */
  function Toggled(selection: map<string, int>, key: string): (r: map<string, int>)
    ensures QtyOf(r, key) == if QtyOf(selection, key) > 0 then 0 else 1
    ensures forall k :: k != key ==> (k in r <==> k in selection) && QtyOf(r, k) == QtyOf(selection, k)
    ensures Positive(selection) ==> Positive(r)
  {
    SetQtyIn(selection, key, if QtyOf(selection, key) > 0 then 0 else 1)
  }

  /** Two toggle clicks in a row leave the selection as it was, unless it held a quantity above one. */
  lemma ToggleTwice(selection: map<string, int>, key: string)
    requires Positive(selection) && QtyOf(selection, key) <= 1
    ensures Toggled(Toggled(selection, key), key) == selection
  {
    var r := Toggled(Toggled(selection, key), key);
    assert forall k :: k in r <==> k in selection;
    assert forall k :: k in r ==> r[k] == selection[k] by {
      forall k | k in r
        ensures r[k] == selection[k]
      {
        assert QtyOf(r, k) == QtyOf(selection, k);
      }
    }
  }

  /**
   * Quantities are kept by item name, so two items with the same name (in
   * two sections, say) are selected together, with the same quantity.
   */
  lemma SameNameSelectedTogether(menu: Pricing.Menu<MenuItem>, selection: map<string, int>, a: Selected, b: MenuItem)
    requires a in OrderedSelectionsOf(menu, selection)
    requires b.name == a.item.name
    requires exists j :: 0 <= j < |menu.sections| && b in menu.sections[j].items
    ensures Selected(b, a.qty) in OrderedSelectionsOf(menu, selection)
  {
    OrderedSelectionsShortcut(menu, selection);
    OrderedOfExactly(menu.sections, selection, a);
    OrderedOfExactly(menu.sections, selection, Selected(b, a.qty));
  }

  // ----- what the builder shows -----

  /** The outputs of `updateEstimate`: the guest count used, the totals and the summary text. */
  datatype View = View(guestCount: int, totals: Totals, summary: string)

  /** `menu?.label || currentMenuId`. */
  function MenuLabel(menu: Pricing.Menu<MenuItem>, currentMenuId: string): string {
    if menu.displayName != "" then menu.displayName else currentMenuId
  }

  /** `updateEstimate` as a function of the state it reads. */
  function ViewOf(menu: Pricing.Menu<MenuItem>, currentMenuId: string, selection: map<string, int>,
                  addons: seq<Addon>, addonSelection: map<string, int>, pricingModule: bool,
                  guestCount: int, currency: real -> string): View
  {
    var items := OrderedSelectionsOf(menu, selection);
    var selectedAddons := AddonSelectionsOf(addons, addonSelection);
    var totals := TotalsOf(pricingModule, guestCount, items, selectedAddons);
    var groups := SectionSelectionsOf(menu, selection);
    View(guestCount, totals,
         Summary.SummaryText(MenuLabel(menu, currentMenuId), guestCount, groups, selectedAddons,
                             totals.fixedTotal, totals.perPersonTotal, totals.estimateTotal, currency))
  }

  /** With nothing selected the builder shows zero totals and a summary saying so. */
  lemma NothingSelectedView(menu: Pricing.Menu<MenuItem>, currentMenuId: string, addons: seq<Addon>,
                            pricingModule: bool, guestCount: int, currency: real -> string)
    ensures var view := ViewOf(menu, currentMenuId, map[], addons, map[], pricingModule, guestCount, currency);
      && view.totals == Totals(0.0, 0.0, 0.0, 0.0)
      && view.summary == JoinLines(Summary.Header(MenuLabel(menu, currentMenuId), guestCount)
                                   + [Summary.NoneSelected]
                                   + Summary.Breakdown(guestCount, 0.0, 0.0, 0.0, currency))
  {
    AddonSelectionsOfEmpty(addons);
    assert OrderedSelectionsOf(menu, map[]) == [];
    assert SectionSelectionsOf(menu, map[]) == [];
    NothingSelected(pricingModule, guestCount);
    var lines := Summary.SummaryLines(MenuLabel(menu, currentMenuId), guestCount, [], [], 0.0, 0.0, 0.0, currency);
    assert lines == Summary.Header(MenuLabel(menu, currentMenuId), guestCount) + [Summary.NoneSelected]
                    + Summary.Breakdown(guestCount, 0.0, 0.0, 0.0, currency) by {
      assert Summary.AddonBlock([], currency) == [];
    }
  }

  /** The builder's state. */
  class Builder {
    /** The normalised menus, in data order; never empty. */
    const menus: seq<Pricing.Menu<MenuItem>>
    const addons: seq<Addon>
    /** Whether the pricing module (`applyPricing`, `computeEstimate`) is loaded. */
    const pricingModule: bool
    /** The guest input's `min` attribute. */
    const guestMin: Option<int>
    /** The site's currency formatter. */
    const currency: real -> string
    /** The guest input's text. */
    var guestValue: string
    /** `selectionsByMenu`: a quantity map per menu id, created when the menu is first shown. */
    var selectionsByMenu: map<string, map<string, int>>
    /** `addonSelections`: add-on quantities by `id || label`, shared by all menus. */
    var addonSelections: map<string, int>
    var currentMenuId: string

    ghost predicate Valid()
      reads this
    {
      && currentMenuId in MenuIds(menus)
      && currentMenuId in selectionsByMenu
      && (forall id :: id in selectionsByMenu ==> id in MenuIds(menus) && Positive(selectionsByMenu[id]))
      && Positive(addonSelections)
      && "" !in addonSelections
    }

    /** The quantity map of a menu; a menu not shown yet has an empty one. */
    function SelectionsFor(id: string): map<string, int>
      reads this
    {
      if id in selectionsByMenu then selectionsByMenu[id] else map[]
    }

    /** `getSelectionMap()`: the quantity map of the menu shown. */
    function Selections(): map<string, int>
      reads this
    {
      SelectionsFor(currentMenuId)
    }

    /** `menuById.get(currentMenuId)`. */
    function CurrentMenu(): Pricing.Menu<MenuItem>
      reads this
      requires Valid()
    {
      LookupMenu(menus, currentMenuId).value
    }

    /** `normalizeGuestCount()`. */
    function GuestCount(): int
      reads this
    {
      NormalizeGuestCount(guestMin, guestValue)
    }

    /** What `updateEstimate` shows for the current state. */
    function CurrentView(): View
      reads this
      requires Valid()
    {
      ViewOf(CurrentMenu(), currentMenuId, Selections(), addons, addonSelections, pricingModule, GuestCount(), currency)
    }

    /** The initial render: the first menu shown, nothing selected. */
    constructor (menus: seq<Pricing.Menu<MenuItem>>, addons: seq<Addon>, pricingModule: bool, guestMin: Option<int>,
                 guestValue: string, currency: real -> string)
      requires |menus| > 0
      ensures Valid()
      ensures this.menus == menus && this.addons == addons && this.pricingModule == pricingModule
      ensures this.guestMin == guestMin && this.guestValue == guestValue && this.currency == currency
      ensures currentMenuId == menus[0].id
      ensures selectionsByMenu == map[menus[0].id := map[]] && addonSelections == map[]
    {
      this.menus := menus;
      this.addons := addons;
      this.pricingModule := pricingModule;
      this.guestMin := guestMin;
      this.guestValue := guestValue;
      this.currency := currency;
      currentMenuId := menus[0].id;
      selectionsByMenu := map[menus[0].id := map[]];
      addonSelections := map[];
    }

    /** `updateEstimate()`: the ordered and grouped selections, the totals and the summary. */
    method UpdateEstimate() returns (view: View)
      requires Valid()
      ensures view == CurrentView()
    {
      var menu := LookupMenu(menus, currentMenuId).value;
      var guestCount := NormalizeGuestCount(guestMin, guestValue);
      var selection := selectionsByMenu[currentMenuId];
      var selectedItems := OrderedSelections(menu, selection);
      var selectedAddons := AddonSelectionsOf(addons, addonSelections);
      var totals := UpdateTotals(pricingModule, guestCount, selectedItems, selectedAddons);
      var grouped := SectionSelections(menu, selection);
      var lines := Summary.BuildSummary(MenuLabel(menu, currentMenuId), guestCount, grouped, selectedAddons,
                                        totals.fixedTotal, totals.perPersonTotal, totals.estimateTotal, currency);
      view := View(guestCount, totals, JoinLines(lines));
    }

    /** `setQty(next)` of a quantity control, then `updateEstimate()`. */
    method SetQty(item: MenuItem, next: int) returns (view: View)
      requires Valid()
      modifies this
      ensures Valid()
      ensures Selections() == SetQtyIn(old(Selections()), item.name, Bounded(next, item.maxQty))
      ensures selectionsByMenu == old(selectionsByMenu)[currentMenuId := Selections()]
      ensures unchanged(this`currentMenuId) && unchanged(this`addonSelections) && unchanged(this`guestValue)
      ensures view == CurrentView()
    {
      var bounded := Bounded(next, item.maxQty);
      var selection := selectionsByMenu[currentMenuId];
      selectionsByMenu := selectionsByMenu[currentMenuId := SetQtyIn(selection, item.name, bounded)];
      view := UpdateEstimate();
    }

    /** The `+` button of a quantity control. */
    method Increment(item: MenuItem) returns (view: View)
      requires Valid()
      modifies this
      ensures Valid()
      ensures Selections() == SetQtyIn(old(Selections()), item.name, Bounded(QtyOf(old(Selections()), item.name) + 1, item.maxQty))
      ensures selectionsByMenu == old(selectionsByMenu)[currentMenuId := Selections()]
      ensures unchanged(this`currentMenuId) && unchanged(this`addonSelections) && unchanged(this`guestValue)
      ensures view == CurrentView()
    {
      view := SetQty(item, QtyOf(Selections(), item.name) + 1);
    }

    /** The `–` button of a quantity control. */
    method Decrement(item: MenuItem) returns (view: View)
      requires Valid()
      modifies this
      ensures Valid()
      ensures Selections() == SetQtyIn(old(Selections()), item.name, Bounded(QtyOf(old(Selections()), item.name) - 1, item.maxQty))
      ensures selectionsByMenu == old(selectionsByMenu)[currentMenuId := Selections()]
      ensures unchanged(this`currentMenuId) && unchanged(this`addonSelections) && unchanged(this`guestValue)
      ensures view == CurrentView()
    {
      view := SetQty(item, QtyOf(Selections(), item.name) - 1);
    }

    /** The name button of a quantity control: `setQty(current > 0 ? 0 : 1)`. */
    method ClickQtyLabel(item: MenuItem) returns (view: View)
      requires Valid()
      modifies this
      ensures Valid()
      ensures Selections() == SetQtyIn(old(Selections()), item.name,
                                       Bounded(if QtyOf(old(Selections()), item.name) > 0 then 0 else 1, item.maxQty))
      ensures selectionsByMenu == old(selectionsByMenu)[currentMenuId := Selections()]
      ensures unchanged(this`currentMenuId) && unchanged(this`addonSelections) && unchanged(this`guestValue)
      ensures view == CurrentView()
    {
      view := SetQty(item, if QtyOf(Selections(), item.name) > 0 then 0 else 1);
    }

    /** The button of an item without a quantity control: select or deselect it. */
    method ToggleItem(item: MenuItem) returns (view: View)
      requires Valid()
      modifies this
      ensures Valid()
      ensures Selections() == Toggled(old(Selections()), item.name)
      ensures selectionsByMenu == old(selectionsByMenu)[currentMenuId := Selections()]
      ensures unchanged(this`currentMenuId) && unchanged(this`addonSelections) && unchanged(this`guestValue)
      ensures view == CurrentView()
    {
      var selection := selectionsByMenu[currentMenuId];
      selectionsByMenu := selectionsByMenu[currentMenuId := Toggled(selection, item.name)];
      view := UpdateEstimate();
    }

    /** The button of a beverage add-on: select or deselect it under `id || label`. */
    method ToggleAddon(addon: Addon) returns (view: View)
      requires Valid() && AddonKey(addon) != ""
      modifies this
      ensures Valid()
      ensures addonSelections == Toggled(old(addonSelections), AddonKey(addon))
      ensures unchanged(this`currentMenuId) && unchanged(this`selectionsByMenu) && unchanged(this`guestValue)
      ensures view == CurrentView()
    {
      var id := AddonKey(addon);
      addonSelections := Toggled(addonSelections, id);
      view := UpdateEstimate();
    }

    /**
     * A menu-type button: nothing happens for the menu already shown; another
     * menu is shown with its own quantities, and no menu's quantities change.
     */
    method SelectMenu(id: string) returns (view: Option<View>)
      requires Valid() && id in MenuIds(menus)
      modifies this
      ensures Valid()
      ensures currentMenuId == id
      ensures forall x :: SelectionsFor(x) == old(SelectionsFor(x))
      ensures unchanged(this`addonSelections) && unchanged(this`guestValue)
      ensures id == old(currentMenuId) ==> view.None? && unchanged(this)
      ensures id != old(currentMenuId) ==> view == Some(CurrentView())
    {
      if id == currentMenuId {
        return None;
      }
      ShowMenu(id);
      var v := UpdateEstimate();
      view := Some(v);
    }

    /** `currentMenuId = menu.id` and the re-render, which creates the menu's quantity map on first show. */
    method ShowMenu(id: string)
      requires Valid() && id in MenuIds(menus)
      modifies this
      ensures Valid()
      ensures currentMenuId == id
      ensures forall x :: SelectionsFor(x) == old(SelectionsFor(x))
      ensures unchanged(this`addonSelections) && unchanged(this`guestValue)
    {
      currentMenuId := id;
      if id !in selectionsByMenu {
        selectionsByMenu := selectionsByMenu[id := map[]];
      }
    }

    /** The guest input's `input` event. */
    method InputGuests(value: string) returns (view: View)
      requires Valid()
      modifies this
      ensures Valid()
      ensures guestValue == value
      ensures unchanged(this`currentMenuId) && unchanged(this`selectionsByMenu) && unchanged(this`addonSelections)
      ensures view == CurrentView()
    {
      guestValue := value;
      view := UpdateEstimate();
    }

    /** The guest input's `blur` event: the count is written back when the text differs, which leaves the count as it was. */
    method BlurGuests() returns (view: View)
      requires Valid()
      modifies this
      ensures Valid()
      ensures guestValue == IntToString(old(GuestCount()))
      ensures GuestCount() == old(GuestCount())
      ensures unchanged(this`currentMenuId) && unchanged(this`selectionsByMenu) && unchanged(this`addonSelections)
      ensures view == CurrentView()
    {
      WriteBackGuests();
      view := UpdateEstimate();
    }

    /** `guestInput.value = String(normalizeGuestCount())` when the text differs. */
    method WriteBackGuests()
      requires Valid()
      modifies this`guestValue
      ensures Valid()
      ensures guestValue == IntToString(old(GuestCount()))
      ensures GuestCount() == old(GuestCount())
    {
      var normalized := NormalizeGuestCount(guestMin, guestValue);
      GuestCountWriteBack(guestMin, guestValue);
      if guestValue != IntToString(normalized) {
        guestValue := IntToString(normalized);
      }
    }
  }

  /**
   * `renderPrivateEventMenu(privateData, pricingModule)`: the menus are priced
   * when the module is loaded and normalised; with no menu there is no builder,
   * otherwise the first menu is shown and the estimate computed.
   */
  method Render(rawMenus: seq<Pricing.Menu<Pricing.Item>>, addons: seq<Addon>, pricingModule: bool,
                guestMin: Option<int>, guestValue: string, currency: real -> string)
    returns (b: Builder?, view: Option<View>)
    ensures b == null <==> |rawMenus| == 0
    ensures b == null ==> view.None?
    ensures b != null ==>
      && fresh(b) && b.Valid()
      && b.menus == NormalizeMenus(if pricingModule then Pricing.ApplyPricing(rawMenus) else rawMenus)
      && b.currentMenuId == rawMenus[0].id
      && b.Selections() == map[] && b.addonSelections == map[]
      && view == Some(b.CurrentView())
  {
    var menus := if pricingModule then Pricing.ApplyPricing(rawMenus) else rawMenus;
    if |menus| == 0 {
      return null, None;
    }
    var normalized := NormalizeMenus(menus);
    var builder := new Builder(normalized, addons, pricingModule, guestMin, guestValue, currency);
    var v := builder.UpdateEstimate();
    b, view := builder, Some(v);
  }

  /** Switching to another menu and back shows the first menu's quantities as they were. */
  method SwitchAwayAndBack(b: Builder, other: string) returns (before: map<string, int>, after: map<string, int>)
    requires b.Valid() && other in MenuIds(b.menus)
    modifies b
    ensures before == after
  {
    var home := b.currentMenuId;
    before := b.Selections();
    var _ := b.SelectMenu(other);
    var _ := b.SelectMenu(home);
    after := b.Selections();
  }
}
